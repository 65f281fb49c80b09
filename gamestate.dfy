/** `handle_gamestate_system`: the space bar leaves the menu and restarts after a death. */
module GameFlow {
  import opened Components
  import opened Ecs
  import Bird

  /** Where a restarted player reappears. */
  const RESPAWN_AT: Vec3 := Vec3(0.0, 0.0, 100.0)

  /** A player after a restart: back at the start position with no vertical speed. */
  function Respawn(e: Entity): (r: Entity)
    ensures Bird.IsPlayerBody(e) ==>
      r.translation == RESPAWN_AT && r.velocity == Some(Vec2(e.velocity.value.x, 0.0))
    ensures !Bird.IsPlayerBody(e) ==> r == e
    ensures r.(translation := e.translation, velocity := e.velocity) == e
  {
    if Bird.IsPlayerBody(e) then
      e.(translation := RESPAWN_AT, velocity := Some(e.velocity.value.(y := 0.0)))
    else
      e
  }

  /** The world after `handle_gamestate_system`. */
  function HandleGameState(s: WorldState, justPressed: bool): (r: WorldState)
    ensures r.data.score == s.data.score
    ensures r.data.state == if justPressed && s.data.state != Playing then Playing else s.data.state
    ensures !justPressed || s.data.state == Playing ==> r == s
    ensures r.despawns == s.despawns && r.spawns == s.spawns && r.spawnTimer == s.spawnTimer
    ensures r.entities.Keys == s.entities.Keys
    ensures justPressed && s.data.state == Menu ==>
      r.entities == WithVisibility(s.entities, StartScreen, false)
    ensures justPressed && s.data.state == Dead ==>
      forall id :: id in s.entities ==>
        r.entities[id] == (var e := s.entities[id];
          if Bird.IsPlayerBody(e) then Respawn(e)
          else if e.marker == EndScreen && e.visible.Some? then e.(visible := Some(false))
          else e)
  {
    match s.data.state
    case Menu =>
      if justPressed then
        s.(data := s.data.(state := Playing), entities := WithVisibility(s.entities, StartScreen, false))
      else
        s
    case Playing => s
    case Dead =>
      if justPressed then
        s.(data := s.data.(state := Playing),
           entities := WithVisibility(MapEntities(s.entities, Respawn), EndScreen, false))
      else
        s
  }

  method HandleGameStateSystem(w: World, justPressed: bool)
    modifies w
    ensures w.State() == HandleGameState(old(w.State()), justPressed)
  {
    match w.data.state {
      case Menu =>
        if justPressed {
          w.data := w.data.(state := Playing);
          SetVisibility(w, StartScreen, false);
        }
      case Playing =>
      case Dead =>
        if justPressed {
          w.data := w.data.(state := Playing);
          ForEachEntity(w, Respawn);
          SetVisibility(w, EndScreen, false);
        }
    }
  }

  /** Once the key has been handled, handling the same key press again changes nothing:
      the game is then in Playing, which ignores the key. */
  lemma {:induction false} HandleGameStateSettles(s: WorldState, justPressed: bool)
    ensures HandleGameState(HandleGameState(s, justPressed), justPressed) == HandleGameState(s, justPressed)
  {
    var r := HandleGameState(s, justPressed);
    assert r.data.state == Playing || r == s;
  }

  /** A death followed by a key press starts a fresh round: Playing with a zero score, every
      player back at the start, the end screen hidden again and every pipe and score trigger
      on its way out. */
  lemma {:induction false} DeathThenRestart(s: WorldState)
    ensures var r := HandleGameState(Bird.Death(s), true);
      && r.data == GameData(Playing, 0)
      && r.entities.Keys == s.entities.Keys
      && (forall id :: id in s.entities && Bird.IsPlayerBody(s.entities[id]) ==>
            r.entities[id].translation == RESPAWN_AT && r.entities[id].velocity.value.y == 0.0)
      && (forall id :: id in s.entities && s.entities[id].marker == EndScreen && s.entities[id].visible.Some? ==>
            r.entities[id].visible == Some(false))
      && (forall id :: id in s.entities && (Bird.IsPipeBody(s.entities[id]) || Bird.IsScoreGiver(s.entities[id])) ==>
            id in r.despawns)
  {
    var d := Bird.Death(s);
    forall id | id in s.entities && Bird.IsPlayerBody(s.entities[id])
      ensures Bird.IsPlayerBody(d.entities[id])
    {
    }
  }

  /** The two overlays as the screens are set up: the start screen drawn, the end screen
      hidden. */
  const START_SCREEN: Entity := Entity(StartScreen, Vec3(0.0, 0.0, 0.0), None, false, None, false,
                                       Some(true), None, None, None, None, None)
  const END_SCREEN: Entity := Entity(EndScreen, Vec3(0.0, 0.0, 0.0), None, false, None, false,
                                     Some(false), None, None, None, None, None)

  /** From the menu with the overlays as set up, the first press hides the start screen and
      leaves the end screen hidden; a death then shows the end screen, and the next press
      hides it again. */
  lemma {:induction false} OverlaysThroughARound(s: WorldState)
    requires s.data.state == Menu && s.entities == map[0 := START_SCREEN, 1 := END_SCREEN]
    ensures var playing := HandleGameState(s, true);
      && playing.data.state == Playing
      && playing.entities[0].visible == Some(false) && playing.entities[1].visible == Some(false)
      && Bird.Death(playing).entities[1].visible == Some(true)
      && HandleGameState(Bird.Death(playing), true).entities[1].visible == Some(false)
  {
    var playing := HandleGameState(s, true);
    assert playing.entities == map[0 := START_SCREEN.(visible := Some(false)), 1 := END_SCREEN];
  }
}
