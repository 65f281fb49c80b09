/** The entity store the systems run over: the entities with their components, the
    resources, and the deferred `Commands` buffer. */
module Ecs {
  import opened Components

  /** The value of a world at one instant. `despawns` and `spawns` are the commands queued
      in the current stage; Bevy applies them after the stage, which this model leaves out. */
  datatype WorldState = WorldState(
    data: GameData,
    entities: map<EntityId, Entity>,
    despawns: set<EntityId>,
    spawns: seq<Entity>,
    spawnTimer: SpawnTimer)

  /** The world the systems mutate in place. */
  class World {
    var data: GameData
    var entities: map<EntityId, Entity>
    var despawns: set<EntityId>
    var spawns: seq<Entity>
    var spawnTimer: SpawnTimer

    constructor (s: WorldState)
      ensures State() == s
    {
      data := s.data;
      entities := s.entities;
      despawns := s.despawns;
      spawns := s.spawns;
      spawnTimer := s.spawnTimer;
    }

    function State(): WorldState
      reads this
    {
      WorldState(data, entities, despawns, spawns, spawnTimer)
    }
  }

  /** Applies a per-entity update to every entity, as Bevy does for a system whose
      parameters are components. */
  function MapEntities(m: map<EntityId, Entity>, f: Entity --> Entity): (r: map<EntityId, Entity>)
    requires forall id :: id in m ==> f.requires(m[id])
    ensures r.Keys == m.Keys
    ensures forall id :: id in m ==> r[id] == f(m[id])
  {
    map id | id in m :: f(m[id])
  }

  /** Runs a per-entity update over the whole store, one entity at a time. */
  method ForEachEntity(w: World, f: Entity --> Entity)
    requires forall id :: id in w.entities ==> f.requires(w.entities[id])
    modifies w
    ensures w.State() == old(w.State()).(entities := MapEntities(old(w.entities), f))
  {
    ghost var m0 := w.entities;
    var todo := w.entities.Keys;
    while todo != {}
      invariant todo <= m0.Keys && w.entities.Keys == m0.Keys
      invariant forall id :: id in m0 ==> w.entities[id] == if id in todo then m0[id] else f(m0[id])
      invariant w.State() == old(w.State()).(entities := w.entities)
      decreases todo
    {
      var id :| id in todo;
      w.entities := w.entities[id := f(w.entities[id])];
      todo := todo - {id};
    }
  }

  /** The containment check both despawning systems put in front of `commands.despawn`:
      the despawn is queued when some world of the `Query<&mut World>` does not contain
      the entity. */
  predicate SomeWorldLacks(worlds: seq<set<EntityId>>, id: EntityId)
  {
    exists i :: 0 <= i < |worlds| && id !in worlds[i]
  }

  /** `for world in worlds { if !world.contains(entity) { commands.despawn(entity) } }`. */
  method DespawnGuarded(w: World, worlds: seq<set<EntityId>>, id: EntityId)
    modifies w
    ensures w.State() == old(w.State()).(despawns :=
      old(w.despawns) + if SomeWorldLacks(worlds, id) then {id} else {})
  {
    for i := 0 to |worlds|
      invariant w.State() == old(w.State()).(despawns :=
        old(w.despawns) + if SomeWorldLacks(worlds[..i], id) then {id} else {})
    {
      assert worlds[..i + 1] == worlds[..i] + [worlds[i]];
      if id !in worlds[i] {
        w.despawns := w.despawns + {id};
      }
    }
    assert worlds[..|worlds|] == worlds;
  }

  /** One entity after `draw.is_visible = v` in a loop over the `(&M, &mut Draw)` query. */
  function Shown(e: Entity, marker: Marker, v: bool): Entity
  {
    if e.marker == marker && e.visible.Some? then e.(visible := Some(v)) else e
  }

  /** Sets the visibility of every drawable entity carrying `marker`; the start and end
      screens are shown and hidden this way. */
  function WithVisibility(m: map<EntityId, Entity>, marker: Marker, v: bool): (r: map<EntityId, Entity>)
    ensures r.Keys == m.Keys
    ensures forall id :: id in m && m[id].marker == marker && m[id].visible.Some? ==>
      r[id] == m[id].(visible := Some(v))
    ensures forall id :: id in m && (m[id].marker != marker || m[id].visible.None?) ==> r[id] == m[id]
  {
    map id | id in m :: Shown(m[id], marker, v)
  }

  method SetVisibility(w: World, marker: Marker, v: bool)
    modifies w
    ensures w.State() == old(w.State()).(entities := WithVisibility(old(w.entities), marker, v))
  {
    ForEachEntity(w, e => Shown(e, marker, v));
  }
}
