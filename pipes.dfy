/** `spawn_pipe_system`: a pair of pipes with a gap between them and a score trigger behind
    them, spawned whenever the spawn timer finishes while the game is being played. */
module Pipes {
  import opened Components
  import opened Ecs

  /** The `PipeSpawnSettings` resource. */
  datatype PipeSpawnSettings = PipeSpawnSettings(
    minTime: real, maxTime: real, speed: real,
    minPipeDistance: real, maxPipeDistance: real, maxCenterDelta: real)

  /** The settings the game installs. */
  const DEFAULT_SETTINGS: PipeSpawnSettings := PipeSpawnSettings(0.9, 1.2, -700.0, 300.0, 600.0, 0.4)

  /** The spawn timer the game starts with: two seconds, gap centre at 0.5. */
  const INITIAL_SPAWN_TIMER: SpawnTimer := SpawnTimer(2.0, 0.5)

  /** How far from the screen centre, as a fraction of half the screen height, the gap centre
      may lie before a 768-unit pipe would leave the screen edge. */
  const CLAMP_RANGE: real := (1280.0 - 6.0 * 128.0) / 1280.0
  const HALF_HEIGHT: real := 1280.0 * 0.5
  /** Half a pipe's height and half its width, in world units (the 32x128 texture scaled 6 times). */
  const PIPE_OFFSET_Y: real := 6.0 * 128.0 * 0.5
  const PIPE_OFFSET_X: real := 6.0 * 32.0 * 0.5
  /** Pipes appear just past the right edge of the 1920-unit-wide screen. */
  const PIPE_X: real := 1920.0 * 0.5 + PIPE_OFFSET_X
  /** The score trigger sits half a bird behind the pipes. */
  const SCORE_OFFSET_X: real := 32.0 * 6.0 * 0.5

  /** The three random draws of one spawn: the next timer duration, the change of the gap
      centre and the gap height. */
  datatype Draws = Draws(time: real, centerDelta: real, distance: real)

  /** What `gen_range`, which samples the half-open interval `[low, high)`, can return. */
  predicate InRange(d: Draws, settings: PipeSpawnSettings)
  {
    && settings.minTime <= d.time < settings.maxTime
    && -settings.maxCenterDelta <= d.centerDelta < settings.maxCenterDelta
    && settings.minPipeDistance <= d.distance < settings.maxPipeDistance
  }

  /** `f32::min` and `f32::max` on numbers. */
  function Min(a: real, b: real): real { if a <= b then a else b }
  function Max(a: real, b: real): real { if a >= b then a else b }

  /** The next gap centre: the last one moved by the drawn delta, clamped to the band. */
  function NextCenter(last: real, delta: real): (r: real)
    ensures -CLAMP_RANGE <= r <= CLAMP_RANGE
    ensures -CLAMP_RANGE <= last - delta <= CLAMP_RANGE ==> r == last - delta
    ensures last - delta > CLAMP_RANGE ==> r == CLAMP_RANGE
    ensures last - delta < -CLAMP_RANGE ==> r == -CLAMP_RANGE
  {
    Max(Min(last - delta, CLAMP_RANGE), -CLAMP_RANGE)
  }

  /** From a centre inside the band, one spawn moves the gap centre by at most the size of
      the drawn delta: clamping only pulls it back toward where it was. */
  lemma CenterMovesAtMostDelta(last: real, delta: real)
    requires -CLAMP_RANGE <= last <= CLAMP_RANGE
    ensures var r := NextCenter(last, delta);
      (if r >= last then r - last else last - r) <= (if delta >= 0.0 then delta else -delta)
  {
  }

  /** A spawned pipe: sprite scaled 6 times, visible, moving left, solid and deleted once off
      screen. `pipeSize` is the size Bevy gives the sprite from its texture. */
  function PipeEntity(y: real, speed: real, pipeSize: Vec2): Entity
  {
    Entity(Pipe, Vec3(PIPE_X, y, 3.0), Some(Vec2(speed, 0.0)), false, Some(Solid), true,
           Some(true), Some(pipeSize), None, None, None, None)
  }

  /** The three entities of one spawn, in the order they are queued: lower pipe, upper pipe,
      score trigger. `center` is the gap centre as a fraction of half the screen height. */
  function PipeTrio(speed: real, center: real, distance: real, pipeSize: Vec2): (r: seq<Entity>)
    ensures |r| == 3
    ensures r[0].marker == Pipe && r[1].marker == Pipe && r[2].marker == Unmarked
    ensures r[0].collider == Some(Solid) && r[1].collider == Some(Solid) && r[2].collider == Some(ScoreGiver)
    ensures forall i :: 0 <= i < 3 ==> r[i].velocity == Some(Vec2(speed, 0.0)) && r[i].offscreen && !r[i].gravity
    ensures r[0].translation == Vec3(PIPE_X, -PIPE_OFFSET_Y + center * HALF_HEIGHT - distance * 0.5, 3.0)
    ensures r[1].translation == Vec3(PIPE_X, PIPE_OFFSET_Y + center * HALF_HEIGHT + distance * 0.5, 3.0)
    ensures r[0].visible == Some(true) && r[1].visible == Some(true)
    ensures r[2].translation == Vec3(SCORE_OFFSET_X + PIPE_X, 0.0, 0.0) && r[2].visible.None?
  {
    var world := center * HALF_HEIGHT;
    var delta := distance * 0.5;
    [PipeEntity(-PIPE_OFFSET_Y + world - delta, speed, pipeSize),
     PipeEntity(PIPE_OFFSET_Y + world + delta, speed, pipeSize),
     Entity(Unmarked, Vec3(SCORE_OFFSET_X + PIPE_X, 0.0, 0.0), Some(Vec2(speed, 0.0)), false,
            Some(ScoreGiver), true, None, None, None, None, None, None)]
  }

  /** The world after `spawn_pipe_system`. `finished` is whether the spawn timer finished on
      this tick. */
  function Spawn(s: WorldState, settings: PipeSpawnSettings, finished: bool, draws: Draws, pipeSize: Vec2): (r: WorldState)
    ensures s.data.state != Playing || !finished ==> r == s
    ensures s.data.state == Playing && finished ==>
      var c := NextCenter(s.spawnTimer.lastPos, draws.centerDelta);
      && r.spawnTimer == SpawnTimer(draws.time, c)
      && r.spawns == s.spawns + PipeTrio(settings.speed, c, draws.distance, pipeSize)
      && r.data == s.data && r.entities == s.entities && r.despawns == s.despawns
  {
    if s.data.state != Playing || !finished then s
    else
      var c := NextCenter(s.spawnTimer.lastPos, draws.centerDelta);
      s.(spawnTimer := SpawnTimer(draws.time, c),
         spawns := s.spawns + PipeTrio(settings.speed, c, draws.distance, pipeSize))
  }

  method SpawnPipeSystem(w: World, settings: PipeSpawnSettings, finished: bool, draws: Draws, pipeSize: Vec2)
    modifies w
    ensures w.State() == Spawn(old(w.State()), settings, finished, draws, pipeSize)
  {
    if w.data.state != Playing {
      return;
    }
    if !finished {
      return;
    }
    w.spawnTimer := w.spawnTimer.(duration := draws.time);
    var center := w.spawnTimer.lastPos - draws.centerDelta;
    center := Min(center, CLAMP_RANGE);
    center := Max(center, -CLAMP_RANGE);
    w.spawnTimer := w.spawnTimer.(lastPos := center);
    center := center * HALF_HEIGHT;
    var pipeDelta := draws.distance;
    pipeDelta := pipeDelta * 0.5;
    w.spawns := w.spawns + [PipeEntity(-PIPE_OFFSET_Y + center - pipeDelta, settings.speed, pipeSize)];
    w.spawns := w.spawns + [PipeEntity(PIPE_OFFSET_Y + center + pipeDelta, settings.speed, pipeSize)];
    w.spawns := w.spawns + [Entity(Unmarked, Vec3(SCORE_OFFSET_X + PIPE_X, 0.0, 0.0), Some(Vec2(settings.speed, 0.0)),
                                   false, Some(ScoreGiver), true, None, None, None, None, None, None)];
  }

  /** With the game's settings, one spawn leaves a gap exactly as high as the drawn distance
      between the inner ends of the two pipes, centred within 256 units of the screen centre,
      and inside the screen; the next spawn comes after 0.9 to 1.2 seconds. */
  lemma {:induction false} SpawnLayout(s: WorldState, draws: Draws, pipeSize: Vec2)
    requires s.data.state == Playing && InRange(draws, DEFAULT_SETTINGS)
    ensures var r := Spawn(s, DEFAULT_SETTINGS, true, draws, pipeSize);
      var lower, upper := r.spawns[|s.spawns|], r.spawns[|s.spawns| + 1];
      var gapBottom, gapTop := lower.translation.y + PIPE_OFFSET_Y, upper.translation.y - PIPE_OFFSET_Y;
      && |r.spawns| == |s.spawns| + 3
      && gapTop - gapBottom == draws.distance
      && upper.translation.y - lower.translation.y == 768.0 + draws.distance
      && (gapTop + gapBottom) * 0.5 == r.spawnTimer.lastPos * HALF_HEIGHT
      && lower.translation.x == upper.translation.x == 1056.0
      && r.spawns[|s.spawns| + 2].translation.x == 1056.0 + 96.0
      && 300.0 <= gapTop - gapBottom < 600.0
      && -256.0 <= (gapTop + gapBottom) * 0.5 <= 256.0
      && -HALF_HEIGHT < gapBottom && gapTop < HALF_HEIGHT
      && 0.9 <= r.spawnTimer.duration < 1.2
  {
    var c := NextCenter(s.spawnTimer.lastPos, draws.centerDelta);
    var trio := PipeTrio(DEFAULT_SETTINGS.speed, c, draws.distance, pipeSize);
    var r := Spawn(s, DEFAULT_SETTINGS, true, draws, pipeSize);
    assert r.spawns[|s.spawns|] == trio[0] && r.spawns[|s.spawns| + 1] == trio[1];
    assert -256.0 <= c * HALF_HEIGHT <= 256.0;
  }

  /** The gap centre stays in the band whatever the draw, even starting from the initial
      0.5, which lies outside it. */
  lemma {:induction false} CenterStaysInBand(s: WorldState, settings: PipeSpawnSettings, finished: bool, draws: Draws, pipeSize: Vec2)
    requires -CLAMP_RANGE <= s.spawnTimer.lastPos <= CLAMP_RANGE || s.spawnTimer == INITIAL_SPAWN_TIMER
    ensures var r := Spawn(s, settings, finished, draws, pipeSize);
      (-CLAMP_RANGE <= r.spawnTimer.lastPos <= CLAMP_RANGE || r.spawnTimer == INITIAL_SPAWN_TIMER)
  {
  }

  /** Everything a spawn queues carries the `OffsceenDeletion` marker. */
  lemma SpawnsAreTransient(s: WorldState, finished: bool, draws: Draws, pipeSize: Vec2)
    requires forall i :: 0 <= i < |s.spawns| ==> s.spawns[i].offscreen
    ensures var r := Spawn(s, DEFAULT_SETTINGS, finished, draws, pipeSize);
      forall i :: 0 <= i < |r.spawns| ==> r.spawns[i].offscreen
  {
  }
}
