/** `gravity_system` and `velocity_system`: the two per-entity physics systems. */
module Physics {
  import opened Components
  import opened Ecs

  /** `gravity_system` on one entity: an entity with `AffectedByGravity` and a `Velocity`
      loses `g * dt` of vertical speed. */
  function GravityStep(e: Entity, g: real, dt: real): (r: Entity)
    ensures e.gravity && e.velocity.Some? ==>
      r.velocity == Some(Vec2(e.velocity.value.x, e.velocity.value.y - g * dt))
    ensures !(e.gravity && e.velocity.Some?) ==> r == e
    ensures r.(velocity := e.velocity) == e
    ensures r.velocity.Some? == e.velocity.Some?
    ensures g >= 0.0 && dt >= 0.0 && e.velocity.Some? ==> r.velocity.value.y <= e.velocity.value.y
    ensures dt == 0.0 ==> r == e
  {
    if e.gravity && e.velocity.Some? then
      var v := e.velocity.value;
      e.(velocity := Some(v.(y := v.y - g * dt)))
    else
      e
  }

  /** `velocity_system` on one entity: an entity with a `Velocity` moves by `velocity * dt`
      in x and y; depth and velocity stay. */
  function VelocityStep(e: Entity, dt: real): (r: Entity)
    ensures e.velocity.Some? ==> r.translation == Vec3(
      e.translation.x + e.velocity.value.x * dt,
      e.translation.y + e.velocity.value.y * dt,
      e.translation.z)
    ensures e.velocity.None? ==> r == e
    ensures r.(translation := e.translation) == e
    ensures dt == 0.0 ==> r == e
  {
    match e.velocity
    case None => e
    case Some(v) =>
      var t := e.translation;
      e.(translation := t.(y := t.y + v.y * dt).(x := t.x + v.x * dt))
  }

  method GravitySystem(w: World, g: real, dt: real)
    modifies w
    ensures w.State() == old(w.State()).(entities := MapEntities(old(w.entities), e => GravityStep(e, g, dt)))
  {
    w.entities := MapEntities(w.entities, e => GravityStep(e, g, dt));
  }

  method VelocitySystem(w: World, dt: real)
    modifies w
    ensures w.State() == old(w.State()).(entities := MapEntities(old(w.entities), e => VelocityStep(e, dt)))
  {
    w.entities := MapEntities(w.entities, e => VelocityStep(e, dt));
  }

  /** Gravity followed by integration, in the design's order (the plugin registers the two
      systems without fixing one): the position moves by the already-decelerated velocity. */
  lemma FallThenMove(e: Entity, g: real, dt: real)
    requires e.gravity && e.velocity.Some?
    ensures var r := VelocityStep(GravityStep(e, g, dt), dt);
      && r.translation.x == e.translation.x + e.velocity.value.x * dt
      && r.translation.y == e.translation.y + (e.velocity.value.y - g * dt) * dt
      && r.velocity == Some(Vec2(e.velocity.value.x, e.velocity.value.y - g * dt))
  {
  }
}
