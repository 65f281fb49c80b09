/** The player's systems: input, screen bounds, collision and scoring, the death sequence
    and the choice of animation clip. */
module Bird {
  import opened Components
  import opened Ecs
  import Animation

  const HALF_SCREEN: real := 1280.0 * 0.5
  const PLAYER_SIZE: real := 32.0 * 6.0
  /** Highest y the player may reach: half the screen height less the bird's height. */
  const CEILING: real := HALF_SCREEN - PLAYER_SIZE
  const CEILING_BOUNCE: real := -3.0
  /** The player's hitbox: the 192-unit sprite shrunk to 40%. */
  const HITBOX: Vec2 := Vec2(6.0 * 32.0 * 0.4, 6.0 * 32.0 * 0.4)
  const SCORE_TRIGGER_SIZE: Vec2 := Vec2(10.0, 1280.0)

  /** Bevy's `collide(a_pos, a_size, b_pos, b_size).is_some()`, whose definition is not
      part of this model. */
  type Collide = (Vec3, Vec2, Vec3, Vec2) -> bool

  /** Matched by `(&Player, &mut Translation, &mut Velocity)`. */
  predicate IsPlayerBody(e: Entity)
  {
    e.marker == Player && e.velocity.Some?
  }

  /** Matched by `(&Pipe, &Translation, &Collider, &Sprite, Entity)`. */
  predicate IsPipeBody(e: Entity)
  {
    e.marker == Pipe && e.collider.Some? && e.sprite.Some?
  }

  predicate IsScoreGiver(e: Entity)
  {
    e.collider == Some(ScoreGiver)
  }

  /** The size a pipe collides with: its sprite size times the sprite scale 6. */
  function PipeExtent(e: Entity): Vec2
    requires e.sprite.Some?
  {
    Vec2(e.sprite.value.x * 6.0, e.sprite.value.y * 6.0)
  }

  // ---------------------------------------------------------------- player_input

  /** `player_input` on one entity: in Menu the bird hops whenever it is below the centre,
      in Playing it jumps on a fresh key press, in Dead it is left alone. Only `vy` may change. */
  function PlayerInputStep(e: Entity, state: GameState, jumpHeight: real, justPressed: bool): (r: Entity)
    ensures !IsPlayerBody(e) || state == Dead ==> r == e
    ensures r.(velocity := e.velocity) == e
    ensures IsPlayerBody(e) ==> r.velocity.Some? && r.velocity.value.x == e.velocity.value.x
    ensures IsPlayerBody(e) && state == Menu ==>
      r.velocity.value.y == if e.translation.y < 0.0 then jumpHeight else e.velocity.value.y
    ensures IsPlayerBody(e) && state == Playing ==>
      r.velocity.value.y == if justPressed then jumpHeight else e.velocity.value.y
  {
    if !IsPlayerBody(e) then e
    else
      var v := e.velocity.value;
      match state
      case Menu => if e.translation.y < 0.0 then e.(velocity := Some(v.(y := jumpHeight))) else e
      case Playing => if justPressed then e.(velocity := Some(v.(y := jumpHeight))) else e
      case Dead => e
  }

  method PlayerInputSystem(w: World, jumpHeight: real, justPressed: bool)
    modifies w
    ensures var state := old(w.data.state);
      w.State() == old(w.State()).(entities :=
        MapEntities(old(w.entities), e => PlayerInputStep(e, state, jumpHeight, justPressed)))
  {
    var state := w.data.state;
    w.entities := MapEntities(w.entities, e => PlayerInputStep(e, state, jumpHeight, justPressed));
  }

  /** In Menu the key is ignored: the bird hops on its own. */
  lemma MenuIgnoresKey(e: Entity, jumpHeight: real)
    ensures PlayerInputStep(e, Menu, jumpHeight, true) == PlayerInputStep(e, Menu, jumpHeight, false)
  {
  }

  // ---------------------------------------------------------------- trigger_death

  /** What `trigger_death` queues for despawn: every pipe and every score trigger. */
  function DeathDespawns(m: map<EntityId, Entity>): (r: set<EntityId>)
    ensures forall id :: id in r <==> id in m && (IsPipeBody(m[id]) || IsScoreGiver(m[id]))
  {
    set id | id in m && (IsPipeBody(m[id]) || IsScoreGiver(m[id]))
  }

  /** The world after `trigger_death`. */
  function Death(s: WorldState): (r: WorldState)
    ensures r.data == GameData(Dead, 0)
    ensures forall id :: id in s.entities && (IsPipeBody(s.entities[id]) || IsScoreGiver(s.entities[id])) ==>
      id in r.despawns
    ensures forall id :: id in r.despawns <==>
      id in s.despawns || (id in s.entities && (IsPipeBody(s.entities[id]) || IsScoreGiver(s.entities[id])))
    ensures r.entities.Keys == s.entities.Keys
    ensures forall id :: id in s.entities && s.entities[id].marker == EndScreen && s.entities[id].visible.Some? ==>
      r.entities[id] == s.entities[id].(visible := Some(true))
    ensures forall id :: id in s.entities && s.entities[id].marker != EndScreen ==> r.entities[id] == s.entities[id]
    ensures r.spawns == s.spawns && r.spawnTimer == s.spawnTimer
  {
    WorldState(GameData(Dead, 0), WithVisibility(s.entities, EndScreen, true),
               s.despawns + DeathDespawns(s.entities), s.spawns, s.spawnTimer)
  }

  /** Dying twice in a row is the same as dying once: the second run finds the same pipes
      and triggers already queued and the end screen already shown. */
  lemma {:induction false} DeathIdempotent(s: WorldState)
    ensures Death(Death(s)) == Death(s)
  {
    var d := Death(s);
    assert DeathDespawns(d.entities) == DeathDespawns(s.entities);
    assert WithVisibility(d.entities, EndScreen, true) == d.entities;
  }

  method TriggerDeath(w: World)
    modifies w
    ensures w.State() == Death(old(w.State()))
  {
    ghost var s0 := w.State();
    w.data := w.data.(state := Dead);
    w.data := w.data.(score := 0);
    // despawn all pipes
    var pipes := set id | id in w.entities && IsPipeBody(w.entities[id]);
    ghost var pipes0 := pipes;
    while pipes != {}
      invariant pipes <= pipes0
      invariant w.despawns == s0.despawns + (pipes0 - pipes)
      invariant w.entities == s0.entities && w.data == GameData(Dead, 0)
      invariant w.spawns == s0.spawns && w.spawnTimer == s0.spawnTimer
      decreases pipes
    {
      var id :| id in pipes;
      w.despawns := w.despawns + {id};
      pipes := pipes - {id};
    }
    // despawn the score triggers among the colliders
    var colliders := set id | id in w.entities && w.entities[id].collider.Some?;
    ghost var colliders0 := colliders;
    while colliders != {}
      invariant colliders <= colliders0
      invariant w.despawns == s0.despawns + pipes0 +
        set id | id in colliders0 - colliders && IsScoreGiver(s0.entities[id])
      invariant w.entities == s0.entities && w.data == GameData(Dead, 0)
      invariant w.spawns == s0.spawns && w.spawnTimer == s0.spawnTimer
      decreases colliders
    {
      var id :| id in colliders;
      if w.entities[id].collider == Some(ScoreGiver) {
        w.despawns := w.despawns + {id};
      }
      colliders := colliders - {id};
    }
    assert w.despawns == s0.despawns + DeathDespawns(s0.entities);
    SetVisibility(w, EndScreen, true);
  }

  // ---------------------------------------------------------------- player_bounds_system

  /** The ceiling check on one entity: a player above the ceiling is put back on it and
      bounces downward. */
  function CeilingStep(e: Entity): (r: Entity)
    ensures !IsPlayerBody(e) || e.translation.y <= CEILING ==> r == e
    ensures IsPlayerBody(e) ==> r.translation.y <= CEILING
    ensures IsPlayerBody(e) && e.translation.y > CEILING ==>
      r.translation == e.translation.(y := CEILING) && r.velocity == Some(e.velocity.value.(y := CEILING_BOUNCE))
    ensures r.(translation := e.translation, velocity := e.velocity) == e
    ensures IsPlayerBody(r) == IsPlayerBody(e)
    ensures r.translation.y < -HALF_SCREEN <==> e.translation.y < -HALF_SCREEN
  {
    if IsPlayerBody(e) && e.translation.y > CEILING then
      e.(velocity := Some(e.velocity.value.(y := CEILING_BOUNCE)),
         translation := e.translation.(y := CEILING))
    else
      e
  }

  /** Some player is below the bottom of the screen. */
  predicate BelowFloor(m: map<EntityId, Entity>)
  {
    exists id :: id in m && IsPlayerBody(m[id]) && m[id].translation.y < -HALF_SCREEN
  }

  /** The world after `player_bounds_system`: every player is held under the ceiling, and a
      player below the floor sets off the death sequence. */
  function PlayerBounds(s: WorldState): (r: WorldState)
    ensures forall id :: id in s.entities && IsPlayerBody(s.entities[id]) ==>
      id in r.entities && r.entities[id].translation.y <= CEILING
    ensures BelowFloor(s.entities) ==> r.data == GameData(Dead, 0) && r.despawns == s.despawns + DeathDespawns(s.entities)
    ensures !BelowFloor(s.entities) ==> r.data == s.data && r.despawns == s.despawns
    ensures r.entities.Keys == s.entities.Keys && r.spawns == s.spawns && r.spawnTimer == s.spawnTimer
    ensures forall id :: id in s.entities ==>
      r.entities[id] == (var c := CeilingStep(s.entities[id]); if BelowFloor(s.entities) then Shown(c, EndScreen, true) else c)
    ensures BelowFloor(s.entities) ==>
      forall id :: id in s.entities && s.entities[id].marker == EndScreen && s.entities[id].visible.Some? ==>
        r.entities[id].visible == Some(true)
    ensures forall id :: id in s.entities && s.entities[id].marker != Player && s.entities[id].marker != EndScreen ==>
      r.entities[id] == s.entities[id]
  {
    var clamped := s.(entities := MapEntities(s.entities, CeilingStep));
    assert DeathDespawns(clamped.entities) == DeathDespawns(s.entities);
    if BelowFloor(s.entities) then
      assert forall id :: id in s.entities ==>
        Death(clamped).entities[id] == Shown(CeilingStep(s.entities[id]), EndScreen, true);
      Death(clamped)
    else
      clamped
  }

  /** Some player among `visited` was below the floor when the loop reached it. */
  predicate DiedAmong(m: map<EntityId, Entity>, visited: set<EntityId>)
  {
    exists id :: id in visited && id in m && IsPlayerBody(m[id]) && m[id].translation.y < -HALF_SCREEN
  }

  /** The world after the bounds loop has visited the players in `visited`. */
  ghost function BoundsPartial(s0: WorldState, visited: set<EntityId>): WorldState
  {
    var died := DiedAmong(s0.entities, visited);
    var ents := map id | id in s0.entities ::
      var c := if id in visited then CeilingStep(s0.entities[id]) else s0.entities[id];
      if died then Shown(c, EndScreen, true) else c;
    WorldState(if died then GameData(Dead, 0) else s0.data, ents,
               if died then s0.despawns + DeathDespawns(s0.entities) else s0.despawns,
               s0.spawns, s0.spawnTimer)
  }

  /** One turn of the bounds loop, for the player `id`. */
  function BoundOne(s: WorldState, id: EntityId): (r: WorldState)
    requires id in s.entities
    ensures r.entities.Keys == s.entities.Keys
    ensures IsPlayerBody(s.entities[id]) ==> r.entities[id].translation.y <= CEILING
    ensures s.entities[id].translation.y < -HALF_SCREEN ==> r.data == GameData(Dead, 0)
    ensures s.entities[id].translation.y >= -HALF_SCREEN ==> r.data == s.data && r.despawns == s.despawns
    ensures s.entities[id].translation.y < -HALF_SCREEN ==> r.despawns == s.despawns + DeathDespawns(s.entities)
    ensures r.spawns == s.spawns && r.spawnTimer == s.spawnTimer
    ensures forall k :: k in s.entities ==>
      r.entities[k] == (var c := if k == id then CeilingStep(s.entities[k]) else s.entities[k];
                        if s.entities[id].translation.y < -HALF_SCREEN then Shown(c, EndScreen, true) else c)
  {
    var e := CeilingStep(s.entities[id]);
    var s1 := s.(entities := s.entities[id := e]);
    DeathDespawnsAgree(s.entities, s1.entities);
    if e.translation.y < -HALF_SCREEN then Death(s1) else s1
  }

  method BoundPlayer(w: World, id: EntityId)
    requires id in w.entities && IsPlayerBody(w.entities[id])
    modifies w
    ensures w.State() == BoundOne(old(w.State()), id)
  {
    var e := w.entities[id];
    if e.translation.y > CEILING {
      e := e.(velocity := Some(e.velocity.value.(y := CEILING_BOUNCE)));
      e := e.(translation := e.translation.(y := CEILING));
      w.entities := w.entities[id := e];
    }
    assert w.State() == old(w.State()).(entities := old(w.entities)[id := CeilingStep(old(w.entities[id]))]);
    if e.translation.y < -HALF_SCREEN {
      TriggerDeath(w);
    }
  }

  lemma BoundsPartialStep(s0: WorldState, visited: set<EntityId>, id: EntityId)
    requires id in s0.entities && IsPlayerBody(s0.entities[id]) && id !in visited
    ensures BoundOne(BoundsPartial(s0, visited), id) == BoundsPartial(s0, visited + {id})
  {
    var s := BoundsPartial(s0, visited);
    assert CeilingStep(s.entities[id]) == CeilingStep(s0.entities[id]);
    if s0.entities[id].translation.y < -HALF_SCREEN {
      BoundsStepDies(s0, visited, id);
    } else {
      BoundsStepSurvives(s0, visited, id);
    }
  }

  lemma BoundsStepDies(s0: WorldState, visited: set<EntityId>, id: EntityId)
    requires id in s0.entities && IsPlayerBody(s0.entities[id]) && id !in visited
    requires s0.entities[id].translation.y < -HALF_SCREEN
    ensures var s := BoundsPartial(s0, visited);
      Death(s.(entities := s.entities[id := CeilingStep(s0.entities[id])])) == BoundsPartial(s0, visited + {id})
  {
    var s := BoundsPartial(s0, visited);
    var s1 := s.(entities := s.entities[id := CeilingStep(s0.entities[id])]);
    assert DiedAmong(s0.entities, visited + {id});
    DeathDespawnsAgree(s0.entities, s1.entities);
    BoundsDiesEntities(s0, visited, id);
  }

  lemma BoundsDiesEntities(s0: WorldState, visited: set<EntityId>, id: EntityId)
    requires id in s0.entities && IsPlayerBody(s0.entities[id]) && id !in visited
    requires s0.entities[id].translation.y < -HALF_SCREEN
    ensures var s := BoundsPartial(s0, visited);
      WithVisibility(s.entities[id := CeilingStep(s0.entities[id])], EndScreen, true) ==
      BoundsPartial(s0, visited + {id}).entities
  {
    var s := BoundsPartial(s0, visited);
    var m := s.entities[id := CeilingStep(s0.entities[id])];
    var t := BoundsPartial(s0, visited + {id});
    assert DiedAmong(s0.entities, visited + {id});
    var shown := WithVisibility(m, EndScreen, true);
    forall k | k in s0.entities
      ensures shown[k] == t.entities[k]
    {
      assert shown[k] == Shown(m[k], EndScreen, true);
    }
    assert shown == t.entities;
  }

  /** Two stores whose entities agree on being pipes and score triggers lose the same
      entities to the death sequence. */
  lemma DeathDespawnsAgree(a: map<EntityId, Entity>, b: map<EntityId, Entity>)
    requires a.Keys == b.Keys
    requires forall id :: id in a ==> a[id].marker == b[id].marker && a[id].collider == b[id].collider && a[id].sprite == b[id].sprite
    ensures DeathDespawns(a) == DeathDespawns(b)
  {
  }

  lemma BoundsStepSurvives(s0: WorldState, visited: set<EntityId>, id: EntityId)
    requires id in s0.entities && IsPlayerBody(s0.entities[id]) && id !in visited
    requires s0.entities[id].translation.y >= -HALF_SCREEN
    ensures var s := BoundsPartial(s0, visited);
      s.(entities := s.entities[id := CeilingStep(s0.entities[id])]) == BoundsPartial(s0, visited + {id})
  {
    var s := BoundsPartial(s0, visited);
    var t := BoundsPartial(s0, visited + {id});
    assert DiedAmong(s0.entities, visited + {id}) == DiedAmong(s0.entities, visited);
    assert s.entities[id := CeilingStep(s0.entities[id])] == t.entities;
  }

  lemma BoundsPartialNone(s0: WorldState)
    ensures BoundsPartial(s0, {}) == s0
  {
    assert BoundsPartial(s0, {}).entities == s0.entities;
  }

  lemma BoundsPartialAll(s0: WorldState, visited: set<EntityId>)
    requires forall id :: id in visited <==> id in s0.entities && IsPlayerBody(s0.entities[id])
    ensures BoundsPartial(s0, visited) == PlayerBounds(s0)
  {
    var died := BelowFloor(s0.entities);
    assert DiedAmong(s0.entities, visited) == died;
    var clamped := MapEntities(s0.entities, CeilingStep);
    var b := BoundsPartial(s0, visited).entities;
    var p := PlayerBounds(s0).entities;
    assert p == if died then WithVisibility(clamped, EndScreen, true) else clamped;
    forall id | id in s0.entities
      ensures b[id] == p[id]
    {
      if died {
        assert p[id] == Shown(clamped[id], EndScreen, true);
      }
    }
    assert b == p;
  }

  method PlayerBoundsSystem(w: World)
    modifies w
    ensures w.State() == PlayerBounds(old(w.State()))
  {
    ghost var s0 := w.State();
    var players := set id | id in w.entities && IsPlayerBody(w.entities[id]);
    ghost var visited: set<EntityId> := {};
    BoundsPartialNone(s0);
    while players != {}
      invariant players !! visited
      invariant forall id :: id in s0.entities && IsPlayerBody(s0.entities[id]) <==> id in players || id in visited
      invariant w.State() == BoundsPartial(s0, visited)
      decreases players
    {
      var id :| id in players;
      BoundsPartialStep(s0, visited, id);
      BoundPlayer(w, id);
      visited := visited + {id};
      players := players - {id};
    }
    BoundsPartialAll(s0, visited);
  }

  // ---------------------------------------------------------------- player_collision_system

  /** The score triggers the player at `at` overlaps. */
  function ScoreHits(m: map<EntityId, Entity>, at: Vec3, collide: Collide): (r: set<EntityId>)
    ensures forall id :: id in r <==>
      id in m && IsScoreGiver(m[id]) && collide(at, HITBOX, m[id].translation, SCORE_TRIGGER_SIZE)
  {
    set id | id in m && IsScoreGiver(m[id]) && collide(at, HITBOX, m[id].translation, SCORE_TRIGGER_SIZE)
  }

  /** Some pipe overlaps the player at `at`. */
  predicate PipeHit(m: map<EntityId, Entity>, at: Vec3, collide: Collide)
  {
    exists id :: id in m && IsPipeBody(m[id]) && collide(at, HITBOX, m[id].translation, PipeExtent(m[id]))
  }

  /** The score loop for the player at `at`: one point per overlapped trigger, each of them
      queued for despawn behind the world check. */
  function Scored(s: WorldState, at: Vec3, collide: Collide, worlds: seq<set<EntityId>>): (r: WorldState)
    ensures r.data == s.data.(score := s.data.score + |ScoreHits(s.entities, at, collide)|)
    ensures forall id :: id in r.despawns <==>
      id in s.despawns || (id in ScoreHits(s.entities, at, collide) && SomeWorldLacks(worlds, id))
    ensures r.entities == s.entities && r.spawns == s.spawns && r.spawnTimer == s.spawnTimer
  {
    var hits := ScoreHits(s.entities, at, collide);
    s.(data := s.data.(score := s.data.score + |hits|),
       despawns := s.despawns + Guarded(hits, worlds))
  }

  /** From `a` to `b` at most the visibility of end screens changed. */
  predicate OnlyScreensChange(a: map<EntityId, Entity>, b: map<EntityId, Entity>)
  {
    && a.Keys == b.Keys
    && (forall id :: id in a ==> b[id].(visible := a[id].visible) == a[id])
    && (forall id :: id in a && a[id].marker != EndScreen ==> b[id] == a[id])
  }

  lemma OnlyScreensChangeTrans(a: map<EntityId, Entity>, b: map<EntityId, Entity>, c: map<EntityId, Entity>)
    requires OnlyScreensChange(a, b) && OnlyScreensChange(b, c)
    ensures OnlyScreensChange(a, c)
  {
    forall id | id in a
      ensures c[id].(visible := a[id].visible) == a[id]
    {
      assert b[id].(visible := a[id].visible) == a[id];
      assert c[id].(visible := b[id].visible) == b[id];
    }
  }

  lemma KindsKept(a: map<EntityId, Entity>, b: map<EntityId, Entity>)
    requires OnlyScreensChange(a, b)
    ensures forall id :: id in a ==> IsScoreGiver(b[id]) == IsScoreGiver(a[id]) && IsPipeBody(b[id]) == IsPipeBody(a[id])
  {
    forall id | id in a
      ensures IsScoreGiver(b[id]) == IsScoreGiver(a[id]) && IsPipeBody(b[id]) == IsPipeBody(a[id])
    {
      assert b[id].(visible := a[id].visible) == a[id];
    }
  }

  /** `player_collision_system` for one player: collect the score triggers it overlaps, then
      die if it overlaps a pipe. */
  function CollideOne(s: WorldState, p: EntityId, collide: Collide, worlds: seq<set<EntityId>>): (r: WorldState)
    requires p in s.entities
    ensures var hits := ScoreHits(s.entities, s.entities[p].translation, collide);
      !PipeHit(s.entities, s.entities[p].translation, collide) ==>
        r.data == s.data.(score := s.data.score + |hits|) && r.entities == s.entities
    ensures var hits := ScoreHits(s.entities, s.entities[p].translation, collide);
      !PipeHit(s.entities, s.entities[p].translation, collide) ==> r.despawns == s.despawns + Guarded(hits, worlds)
    ensures var hits := ScoreHits(s.entities, s.entities[p].translation, collide);
      PipeHit(s.entities, s.entities[p].translation, collide) ==>
        && r.data == GameData(Dead, 0)
        && r.despawns == s.despawns + Guarded(hits, worlds) + DeathDespawns(s.entities)
        && r.entities == WithVisibility(s.entities, EndScreen, true)
    ensures r.spawns == s.spawns && r.spawnTimer == s.spawnTimer
    ensures OnlyScreensChange(s.entities, r.entities) && s.despawns <= r.despawns
    ensures forall id :: id in r.despawns - s.despawns ==>
      id in s.entities && (IsScoreGiver(s.entities[id]) || IsPipeBody(s.entities[id]))
  {
    var at := s.entities[p].translation;
    var scored := Scored(s, at, collide, worlds);
    if PipeHit(s.entities, at, collide) then
      DeathOnlyShowsScreens(scored);
      Death(scored)
    else
      scored
  }

  lemma DeathOnlyShowsScreens(s: WorldState)
    ensures OnlyScreensChange(s.entities, Death(s).entities)
  {
  }

  /** `player_collision_system` over the players in the order the query yields them. */
  function CollidePlayers(s: WorldState, players: seq<EntityId>, collide: Collide, worlds: seq<set<EntityId>>): (r: WorldState)
    requires forall i :: 0 <= i < |players| ==> players[i] in s.entities
    ensures OnlyScreensChange(s.entities, r.entities) && s.despawns <= r.despawns
    ensures forall id :: id in r.despawns - s.despawns ==>
      id in s.entities && (IsScoreGiver(s.entities[id]) || IsPipeBody(s.entities[id]))
    decreases |players|
  {
    if players == [] then s
    else
      var prefix := CollidePlayers(s, players[..|players| - 1], collide, worlds);
      var r := CollideOne(prefix, players[|players| - 1], collide, worlds);
      CollideOneKeeps(s, prefix, players[|players| - 1], collide, worlds);
      r
  }

  /** One more player after a prefix that changed only end screens and queued only pipes and
      triggers keeps both facts. */
  lemma CollideOneKeeps(s: WorldState, prefix: WorldState, p: EntityId, collide: Collide, worlds: seq<set<EntityId>>)
    requires OnlyScreensChange(s.entities, prefix.entities) && s.despawns <= prefix.despawns
    requires forall id :: id in prefix.despawns - s.despawns ==>
      id in s.entities && (IsScoreGiver(s.entities[id]) || IsPipeBody(s.entities[id]))
    requires p in prefix.entities
    ensures var r := CollideOne(prefix, p, collide, worlds);
      && OnlyScreensChange(s.entities, r.entities) && s.despawns <= r.despawns
      && forall id :: id in r.despawns - s.despawns ==>
           id in s.entities && (IsScoreGiver(s.entities[id]) || IsPipeBody(s.entities[id]))
  {
    var r := CollideOne(prefix, p, collide, worlds);
    OnlyScreensChangeTrans(s.entities, prefix.entities, r.entities);
    KindsKept(s.entities, prefix.entities);
    forall id | id in r.despawns - s.despawns
      ensures id in s.entities && (IsScoreGiver(s.entities[id]) || IsPipeBody(s.entities[id]))
    {
      if id !in prefix.despawns {
        assert id in prefix.entities && (IsScoreGiver(prefix.entities[id]) || IsPipeBody(prefix.entities[id]));
      }
    }
  }

  /** The pipe loop: does any pipe overlap the player at `at`? Stops at the first one. */
  method HitsPipe(w: World, at: Vec3, collide: Collide) returns (didCollide: bool)
    ensures didCollide == PipeHit(w.entities, at, collide)
  {
    var pipes := set id | id in w.entities && IsPipeBody(w.entities[id]);
    ghost var pipes0 := pipes;
    didCollide := false;
    while pipes != {}
      invariant pipes <= pipes0
      invariant forall id :: id in pipes0 - pipes ==> !collide(at, HITBOX, w.entities[id].translation, PipeExtent(w.entities[id]))
      decreases pipes
    {
      var id :| id in pipes;
      var pipe := w.entities[id];
      if collide(at, HITBOX, pipe.translation, PipeExtent(pipe)) {
        didCollide := true;
        break;
      }
      pipes := pipes - {id};
    }
  }

  /** The score triggers among `visited` that the player at `at` overlaps. */
  ghost function HitsAmong(m: map<EntityId, Entity>, visited: set<EntityId>, at: Vec3, collide: Collide): set<EntityId>
  {
    set id | id in visited && id in m && IsScoreGiver(m[id]) && collide(at, HITBOX, m[id].translation, SCORE_TRIGGER_SIZE)
  }

  /** The hits whose despawn the world check lets through. */
  function Guarded(hits: set<EntityId>, worlds: seq<set<EntityId>>): set<EntityId>
  {
    set id | id in hits && SomeWorldLacks(worlds, id)
  }

  /** The world after the score loop has visited the colliders in `visited`. */
  ghost function ScoredAmong(s0: WorldState, visited: set<EntityId>, at: Vec3, collide: Collide, worlds: seq<set<EntityId>>): WorldState
  {
    var hits := HitsAmong(s0.entities, visited, at, collide);
    s0.(data := s0.data.(score := s0.data.score + |hits|), despawns := s0.despawns + Guarded(hits, worlds))
  }

  /** One turn of the score loop, on the collider `id`. */
  function ScoreStep(s: WorldState, id: EntityId, at: Vec3, collide: Collide, worlds: seq<set<EntityId>>): (r: WorldState)
    requires id in s.entities
    ensures r.entities == s.entities && r.spawns == s.spawns && r.spawnTimer == s.spawnTimer
    ensures r.data.state == s.data.state
    ensures IsScoreGiver(s.entities[id]) && collide(at, HITBOX, s.entities[id].translation, SCORE_TRIGGER_SIZE) ==>
      r.data.score == s.data.score + 1 && (id in r.despawns <==> id in s.despawns || SomeWorldLacks(worlds, id))
    ensures !IsScoreGiver(s.entities[id]) || !collide(at, HITBOX, s.entities[id].translation, SCORE_TRIGGER_SIZE) ==>
      r == s
  {
    var e := s.entities[id];
    if IsScoreGiver(e) && collide(at, HITBOX, e.translation, SCORE_TRIGGER_SIZE) then
      s.(data := s.data.(score := s.data.score + 1),
         despawns := s.despawns + if SomeWorldLacks(worlds, id) then {id} else {})
    else
      s
  }

  method ScoreOne(w: World, at: Vec3, collide: Collide, worlds: seq<set<EntityId>>, id: EntityId)
    requires id in w.entities
    modifies w
    ensures w.State() == ScoreStep(old(w.State()), id, at, collide, worlds)
  {
    var e := w.entities[id];
    if e.collider == Some(ScoreGiver) && collide(at, HITBOX, e.translation, SCORE_TRIGGER_SIZE) {
      w.data := w.data.(score := w.data.score + 1);
      DespawnGuarded(w, worlds, id);
    }
  }

  lemma ScoredAmongStep(s0: WorldState, visited: set<EntityId>, id: EntityId, at: Vec3, collide: Collide, worlds: seq<set<EntityId>>)
    requires id in s0.entities && id !in visited
    ensures ScoreStep(ScoredAmong(s0, visited, at, collide, worlds), id, at, collide, worlds) ==
      ScoredAmong(s0, visited + {id}, at, collide, worlds)
  {
    var e := s0.entities[id];
    if IsScoreGiver(e) && collide(at, HITBOX, e.translation, SCORE_TRIGGER_SIZE) {
      ScoredAmongHit(s0, visited, id, at, collide, worlds);
    } else {
      assert HitsAmong(s0.entities, visited + {id}, at, collide) == HitsAmong(s0.entities, visited, at, collide);
    }
  }

  lemma ScoredAmongHit(s0: WorldState, visited: set<EntityId>, id: EntityId, at: Vec3, collide: Collide, worlds: seq<set<EntityId>>)
    requires id in s0.entities && id !in visited
    requires IsScoreGiver(s0.entities[id]) && collide(at, HITBOX, s0.entities[id].translation, SCORE_TRIGGER_SIZE)
    ensures ScoreStep(ScoredAmong(s0, visited, at, collide, worlds), id, at, collide, worlds) ==
      ScoredAmong(s0, visited + {id}, at, collide, worlds)
  {
    var hits := HitsAmong(s0.entities, visited, at, collide);
    HitsAmongGrows(s0.entities, visited, id, at, collide);
    GuardedGrows(hits, id, worlds);
  }

  lemma GuardedGrows(hits: set<EntityId>, id: EntityId, worlds: seq<set<EntityId>>)
    ensures Guarded(hits + {id}, worlds) == Guarded(hits, worlds) + if SomeWorldLacks(worlds, id) then {id} else {}
  {
  }

  lemma HitsAmongGrows(m: map<EntityId, Entity>, visited: set<EntityId>, id: EntityId, at: Vec3, collide: Collide)
    requires id in m && id !in visited
    requires IsScoreGiver(m[id]) && collide(at, HITBOX, m[id].translation, SCORE_TRIGGER_SIZE)
    ensures HitsAmong(m, visited + {id}, at, collide) == HitsAmong(m, visited, at, collide) + {id}
    ensures |HitsAmong(m, visited + {id}, at, collide)| == |HitsAmong(m, visited, at, collide)| + 1
  {
    var hits := HitsAmong(m, visited, at, collide);
    assert id !in hits;
    assert HitsAmong(m, visited + {id}, at, collide) == hits + {id};
  }

  lemma ScoredAmongAll(s0: WorldState, visited: set<EntityId>, at: Vec3, collide: Collide, worlds: seq<set<EntityId>>)
    requires forall id :: id in s0.entities && s0.entities[id].collider.Some? ==> id in visited
    ensures ScoredAmong(s0, visited, at, collide, worlds) == Scored(s0, at, collide, worlds)
  {
    assert HitsAmong(s0.entities, visited, at, collide) == ScoreHits(s0.entities, at, collide);
  }

  /** The score loop: every collider is visited, the solid ones skipped. */
  method CollectScore(w: World, at: Vec3, collide: Collide, worlds: seq<set<EntityId>>)
    modifies w
    ensures w.State() == Scored(old(w.State()), at, collide, worlds)
  {
    ghost var s0 := w.State();
    var colliders := set id | id in w.entities && w.entities[id].collider.Some?;
    ghost var visited: set<EntityId> := {};
    assert ScoredAmong(s0, visited, at, collide, worlds) == s0 by {
      assert HitsAmong(s0.entities, visited, at, collide) == {};
    }
    while colliders != {}
      invariant colliders <= s0.entities.Keys && colliders !! visited
      invariant forall id :: id in s0.entities && s0.entities[id].collider.Some? ==> id in colliders || id in visited
      invariant w.State() == ScoredAmong(s0, visited, at, collide, worlds)
      decreases colliders
    {
      var id :| id in colliders;
      ScoredAmongStep(s0, visited, id, at, collide, worlds);
      ScoreOne(w, at, collide, worlds, id);
      visited := visited + {id};
      colliders := colliders - {id};
    }
    ScoredAmongAll(s0, visited, at, collide, worlds);
  }

  /** `players` is the order in which the `(&Player, &Translation)` query yields the players. */
  predicate QueryOrder(players: seq<EntityId>, m: map<EntityId, Entity>)
  {
    && (forall i :: 0 <= i < |players| ==> players[i] in m && m[players[i]].marker == Player)
    && (forall id :: id in m && m[id].marker == Player ==> id in players)
    && (forall i, j :: 0 <= i < j < |players| ==> players[i] != players[j])
  }

  method PlayerCollisionSystem(w: World, players: seq<EntityId>, collide: Collide, worlds: seq<set<EntityId>>)
    requires QueryOrder(players, w.entities)
    modifies w
    ensures w.State() == CollidePlayers(old(w.State()), players, collide, worlds)
  {
    ghost var s0 := w.State();
    for i := 0 to |players|
      invariant w.State() == CollidePlayers(s0, players[..i], collide, worlds)
    {
      assert players[..i + 1][..i] == players[..i];
      var at := w.entities[players[i]].translation;
      CollectScore(w, at, collide, worlds);
      var didCollide := HitsPipe(w, at, collide);
      if didCollide {
        TriggerDeath(w);
      }
    }
    assert players[..|players|] == players;
  }

  /** A pass in which no player touches a pipe never ends the game: the score can only grow
      and nothing but score triggers is queued for despawn. */
  lemma {:induction false} CollideWithoutPipeHits(s: WorldState, players: seq<EntityId>, collide: Collide, worlds: seq<set<EntityId>>)
    requires forall i :: 0 <= i < |players| ==> players[i] in s.entities
    requires forall i :: 0 <= i < |players| ==> !PipeHit(s.entities, s.entities[players[i]].translation, collide)
    ensures var r := CollidePlayers(s, players, collide, worlds);
      && r.data.state == s.data.state && r.data.score >= s.data.score && r.entities == s.entities
      && forall id :: id in r.despawns - s.despawns ==> IsScoreGiver(s.entities[id])
  {
    if players != [] {
      var front := players[..|players| - 1];
      CollideWithoutPipeHits(s, front, collide, worlds);
    }
  }

  // ---------------------------------------------------------------- velocity_animator_system

  /** Matched by `(&mut Animations, &Velocity)`. */
  predicate IsAnimatedBody(e: Entity)
  {
    e.animations.Some? && e.velocity.Some?
  }

  /** The clip follows the sign of the vertical velocity: clip 0 while rising, clip 1
      otherwise. Only `current_animation` changes. */
  function SelectClip(e: Entity): (r: Entity)
    ensures !IsAnimatedBody(e) ==> r == e
    ensures IsAnimatedBody(e) ==>
      && r.animations.Some?
      && (r.animations.value.current == 0 <==> e.velocity.value.y > 0.0)
      && (r.animations.value.current == 1 <==> e.velocity.value.y <= 0.0)
    ensures IsAnimatedBody(e) ==> r.animations == Some(e.animations.value.(current := r.animations.value.current))
    ensures r.(animations := e.animations) == e
  {
    if IsAnimatedBody(e) then
      e.(animations := Some(e.animations.value.(current := if e.velocity.value.y > 0.0 then 0 else 1)))
    else
      e
  }

  method VelocityAnimatorSystem(w: World)
    modifies w
    ensures w.State() == old(w.State()).(entities := MapEntities(old(w.entities), SelectClip))
  {
    ForEachEntity(w, SelectClip);
  }

  /** The bird's two clips (flapping while rising, gliding while falling) as `spawn_bird`
      creates them. */
  const RISING: seq<Frame> := [Frame(0, 0.1), Frame(1, 0.1), Frame(2, 0.3), Frame(1, 0.1)]
  const FALLING: seq<Frame> := [Frame(3, 0.2)]

  predicate HasBirdClips(a: Animations)
  {
    |a.clips| == 2 && a.clips[0].frames == RISING && a.clips[1].frames == FALLING
  }

  /** With the bird's clips, the clip the velocity selects always exists and has frames, so
      the next firing of the timer advances it without panicking, into the clip that matches
      the velocity. */
  lemma BirdClipAlwaysAdvances(e: Entity)
    requires Animation.InQuery(e) && e.velocity.Some? && e.timer.value.finished
    requires HasBirdClips(e.animations.value)
    ensures var s := SelectClip(e);
      && Animation.Fires(s) && Animation.CanAdvance(s)
      && Animation.SelectedClip(s).frames == if e.velocity.value.y > 0.0 then RISING else FALLING
  {
  }
}
