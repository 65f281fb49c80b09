/** `offscreen_remove_system`: entities marked for off-screen deletion are despawned once
    they have left the screen on the left. */
module BoundsDeletion {
  import opened Components
  import opened Ecs
  import Physics

  const PADDING: real := 300.0
  /** Left edge of the 1920-unit-wide screen, less the padding. */
  const LEFT_EDGE: real := -1920.0 * 0.5 - PADDING

  /** Matched by the `OffsceenDeletion` query and past the left edge. */
  predicate OutOfBounds(e: Entity)
  {
    e.offscreen && e.translation.x < LEFT_EDGE
  }

  /** The entities the system queues for despawn. */
  function OffscreenDespawns(m: map<EntityId, Entity>, worlds: seq<set<EntityId>>): (r: set<EntityId>)
    ensures forall id :: id in r <==> id in m && OutOfBounds(m[id]) && SomeWorldLacks(worlds, id)
    ensures forall id :: id in m && !m[id].offscreen ==> id !in r
    ensures forall id :: id in m && m[id].translation.x >= -1260.0 ==> id !in r
  {
    set id | id in m && OutOfBounds(m[id]) && SomeWorldLacks(worlds, id)
  }

  /** The world after `offscreen_remove_system`: only the despawn queue grows. */
  function OffscreenRemove(s: WorldState, worlds: seq<set<EntityId>>): (r: WorldState)
    ensures r == s.(despawns := r.despawns)
    ensures forall id :: id in r.despawns <==> id in s.despawns || id in OffscreenDespawns(s.entities, worlds)
  {
    s.(despawns := s.despawns + OffscreenDespawns(s.entities, worlds))
  }

  /** The despawns queued once the loop has visited the entities in `visited`. */
  ghost function RemovedAmong(m: map<EntityId, Entity>, visited: set<EntityId>, worlds: seq<set<EntityId>>): set<EntityId>
  {
    set id | id in visited && id in m && OutOfBounds(m[id]) && SomeWorldLacks(worlds, id)
  }

  lemma RemovedAmongStep(m: map<EntityId, Entity>, visited: set<EntityId>, id: EntityId, worlds: seq<set<EntityId>>)
    requires id in m
    ensures RemovedAmong(m, visited + {id}, worlds) ==
      RemovedAmong(m, visited, worlds) + if OutOfBounds(m[id]) && SomeWorldLacks(worlds, id) then {id} else {}
  {
  }

  method OffscreenRemoveSystem(w: World, worlds: seq<set<EntityId>>)
    modifies w
    ensures w.State() == OffscreenRemove(old(w.State()), worlds)
  {
    ghost var s0 := w.State();
    var marked := set id | id in w.entities && w.entities[id].offscreen;
    ghost var visited: set<EntityId> := {};
    while marked != {}
      invariant marked <= s0.entities.Keys && marked !! visited
      invariant forall id :: id in s0.entities && s0.entities[id].offscreen ==> id in marked || id in visited
      invariant w.State() == s0.(despawns := s0.despawns + RemovedAmong(s0.entities, visited, worlds))
      decreases marked
    {
      var id :| id in marked;
      RemovedAmongStep(s0.entities, visited, id, worlds);
      if w.entities[id].translation.x < LEFT_EDGE {
        DespawnGuarded(w, worlds, id);
      }
      visited := visited + {id};
      marked := marked - {id};
    }
    assert RemovedAmong(s0.entities, visited, worlds) == OffscreenDespawns(s0.entities, worlds);
  }

  /** Running the system twice queues nothing new. */
  lemma {:induction false} OffscreenRemoveIdempotent(s: WorldState, worlds: seq<set<EntityId>>)
    ensures OffscreenRemove(OffscreenRemove(s, worlds), worlds) == OffscreenRemove(s, worlds)
  {
    var r := OffscreenRemove(s, worlds);
    assert OffscreenDespawns(r.entities, worlds) == OffscreenDespawns(s.entities, worlds);
  }

  /** An entity that has left the screen and keeps drifting left stays eligible: integration
      never brings it back. */
  lemma StaysOutOfBounds(e: Entity, dt: real)
    requires OutOfBounds(e) && dt >= 0.0
    requires e.velocity.Some? ==> e.velocity.value.x <= 0.0
    ensures OutOfBounds(Physics.VelocityStep(e, dt))
  {
    if e.velocity.Some? {
      var vx := e.velocity.value.x;
      assert vx * dt <= 0.0;
    }
  }
}
