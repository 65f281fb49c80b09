# Flappy bird on Bevy ECS, modelled in Dafny

This project models the game logic of a small Flappy Bird clone built on the Bevy ECS engine.
The bird falls under gravity and jumps on the space bar. Pipe pairs with a randomly placed gap
scroll in from the right. Passing through a gap's score trigger earns a point. Touching a pipe,
or falling below the screen, ends the round. After that, the space bar restarts it.

The ECS world is the class `Ecs.World`, and each Bevy system is a method on it:

- `data` is the `GameData` resource: the `GameState` (Menu, Playing, Dead) and the score.
- `entities` maps entity ids to their components.
- `despawns` and `spawns` hold the commands a system queues through `Commands`.
- `spawnTimer` is the pipe spawner's resource.

Each system method is proved against a function on the value `WorldState`, in the form
`w.State() == Spec(old(w.State()))`. The properties of the game are lemmas about those functions.

Some of the systems loop over a query in the source: the bounds check, the collision and score
loops, the death sequence, despawning off-screen entities and the two animation systems. Each
of these is a loop over the matched entity ids, in arbitrary order. Its invariant ties the
partial state to the specification function, so the result does not depend on that order. In
the collision system the order of players does matter, because a death resets the score. There
the query's order is a parameter, and the specification is a fold over it.

Machine integers follow the source:

- the `i32` frame and clip counters wrap on `+= 1`;
- `as usize` of a negative `i32` is a huge index, which selects no clip;
- `as u32` truncates.

Inputs from outside the model are parameters: `time.delta_seconds`, whether a timer finished on
this tick, `just_pressed(Space)`, the random draws, Bevy's `collide` overlap test, the sprite
size of a pipe and the `World` query.

Modules, one per file:

- `Components`: the data model.
- `Ecs`: the world, the per-entity map, visibility and guarded despawn.
- `Physics`: `src/physics.rs`.
- `Animation`: `src/animation.rs`.
- `Bird`: `src/bird.rs`.
- `GameFlow`: `src/gamestate.rs`.
- `Pipes`: `src/pipes.rs`.
- `BoundsDeletion`: `src/bounds_deletion.rs`.
- `Prototype`: the standalone animation prototype in `src/main.rs`.

## Model

| member | source | states |
|---|---|---|
| Ecs.DespawnGuarded | src/bounds_deletion.rs:22-27 | the despawn of an entity is queued exactly when some world of the query lacks it; nothing else changes |
| Ecs.WithVisibility | src/gamestate.rs:38-40 | every drawable entity with the marker gets the visibility; every other entity and the key set stay as they were |
| Ecs.SetVisibility | src/bird.rs:196-198 | the loop over the `(&M, &mut Draw)` query leaves the store equal to `WithVisibility` of the old store |
| Physics.GravityStep | src/physics.rs:17-24 | an entity affected by gravity and having a velocity loses `g*dt` of vertical speed and keeps its horizontal speed; other entities are untouched; speed never grows when g and dt are non-negative; dt 0 changes nothing |
| Physics.VelocityStep | src/physics.rs:26-32 | position moves by velocity times dt in x and y; depth, velocity and the other components are kept; entities without velocity are untouched |
| Physics.GravitySystem | src/physics.rs:17-24 | only the entity store changes, each entity by `GravityStep` |
| Physics.VelocitySystem | src/physics.rs:26-32 | only the entity store changes, each entity by `VelocityStep` |
| Physics.FallThenMove | src/physics.rs:23-31 | gravity then integration (the design's order; the source does not fix one) moves a body by the already-decelerated velocity |
| Animation.NextIndex | src/animation.rs:40-43 | the `i32` increment with reset lands inside the list of `len` elements (or 0 when it is empty), and equals `(cur+1) mod len` for an in-range index |
| Animation.Advance | src/animation.rs:33-54 | on a finished timer with an existing clip: only that clip moves to its next frame, which exists; the timer takes that frame's duration and the sprite its index; otherwise the entity is unchanged |
| Animation.AnimateEntity | src/animation.rs:33-54 | the loop body, step by step, computes `Advance` |
| Animation.AnimateSystem | src/animation.rs:25-57 | the query loop leaves every entity advanced by `Advance` and the rest of the world unchanged |
| Animation.AdvanceTimes | src/animation.rs:40-51 | repeated firing keeps the entity advanceable and keeps the selected clip's frames |
| Animation.AdvanceTimesCycles | src/animation.rs:40-43 | after n firings the selected clip is at frame `(cur+n) mod len` |
| Animation.AdvanceOnce | src/animation.rs:40-43 | one firing moves the selected clip's frame to `(cur+1) mod len` |
| Bird.PlayerInputStep | src/bird.rs:44-82 | in Menu the player jumps when below the centre, whatever the key; in Playing it jumps on a fresh press; in Dead nothing changes; only vertical speed changes |
| Bird.PlayerInputSystem | src/bird.rs:44-61 | only the entity store changes, each entity by `PlayerInputStep` in the state read at the start |
| Bird.MenuIgnoresKey | src/bird.rs:52-55 | in Menu a key press makes no difference |
| Bird.DeathDespawns | src/bird.rs:186-195 | the set holds exactly the pipes and the score triggers |
| Bird.Death | src/bird.rs:177-199 | state Dead with score 0; exactly the old despawns plus every pipe and score trigger are queued; the end screens are made visible and nothing else in the store changes |
| Bird.DeathIdempotent | src/bird.rs:184-198 | dying twice is the same as dying once |
| Bird.TriggerDeath | src/bird.rs:177-199 | the two despawn loops and the end-screen loop leave the world equal to `Death` of the old one |
| Bird.CeilingStep | src/bird.rs:92-99 | a player above the ceiling (640-192) is put back on it with vertical speed -3; afterwards every player is at or below the ceiling; the floor test is unaffected |
| Bird.PlayerBounds | src/bird.rs:84-111 | every player ends at or below the ceiling; if some player is below -640 the game is Dead with score 0, exactly the pipes and triggers are added to the despawns and every end screen is shown; otherwise data and despawns are unchanged; the key set, spawns and timer are kept, and every entity other than players and end screens is untouched |
| Bird.BoundOne | src/bird.rs:94-110 | one player's turn: held under the ceiling; below the floor, the death sequence runs in full, queuing exactly the pipes and triggers and showing the end screens; otherwise data and despawns are unchanged |
| Bird.BoundPlayer | src/bird.rs:95-109 | the loop body computes `BoundOne` |
| Bird.PlayerBoundsSystem | src/bird.rs:84-111 | the loop over the players leaves the world equal to `PlayerBounds` of the old one, whatever the order |
| Bird.ScoreHits | src/bird.rs:128-138 | exactly the score triggers whose 10x1280 box overlaps the player's 40% hitbox |
| Bird.Scored | src/bird.rs:128-148 | the score rises by the number of triggers hit, and a trigger hit is queued for despawn exactly when some world lacks it; entities are unchanged |
| Bird.ScoreStep | src/bird.rs:129-147 | one collider: a hit trigger adds one point and a guarded despawn; a solid collider or a miss changes nothing |
| Bird.ScoreOne | src/bird.rs:129-147 | the loop body computes `ScoreStep` |
| Bird.CollectScore | src/bird.rs:128-148 | the score loop leaves the world equal to `Scored` of the old one |
| Bird.HitsPipe | src/bird.rs:150-164 | the pipe loop with its early `break` reports a collision exactly when some pipe, at six times its sprite size, overlaps the hitbox |
| Bird.CollideOne | src/bird.rs:127-174 | without a pipe hit, the score grows by the triggers hit, exactly the guarded hits are queued and entities are kept; with one, the game is Dead with score 0, the guarded hits plus every pipe and trigger are queued and the end screens are shown; spawns and timer are kept |
| Bird.DeathOnlyShowsScreens | src/bird.rs:196-198 | the death sequence changes nothing in the store but end-screen visibility |
| Bird.CollidePlayers | src/bird.rs:113-175 | over any order of players, only end-screen visibility changes, and only pipes and score triggers are queued for despawn |
| Bird.PlayerCollisionSystem | src/bird.rs:113-175 | the nested loops leave the world equal to the fold `CollidePlayers` over the query's order |
| Bird.CollideWithoutPipeHits | src/bird.rs:138-173 | when no player touches a pipe the state stays, the score never drops, entities are kept and only score triggers are queued |
| Bird.SelectClip | src/bird.rs:220-228 | clip 0 exactly when vertical speed is positive, clip 1 exactly otherwise; nothing else changes |
| Bird.VelocityAnimatorSystem | src/bird.rs:220-228 | only the entity store changes, each entity by `SelectClip` |
| Bird.BirdClipAlwaysAdvances | src/bird.rs:265-297 | with the bird's two clips, the clip the velocity selects exists and has frames (rising or falling as the speed says), so the animation never panics |
| GameFlow.Respawn | src/gamestate.rs:47-50 | a player goes back to (0,0,100) with zero vertical speed and keeps its horizontal speed; other entities are untouched |
| GameFlow.HandleGameState | src/gamestate.rs:34-56 | a press in Menu or Dead enters Playing, a press in Playing or no press changes nothing; the score is kept; Menu hides the start screens; Dead respawns the players and hides the end screens |
| GameFlow.HandleGameStateSystem | src/gamestate.rs:27-57 | the match and its loops leave the world equal to `HandleGameState` of the old one |
| GameFlow.HandleGameStateSettles | src/gamestate.rs:34-56 | handling the same press twice is the same as handling it once |
| GameFlow.DeathThenRestart | src/gamestate.rs:44-55 | a death then a press gives Playing with score 0, players at the start, end screens hidden, and every pipe and trigger queued |
| GameFlow.OverlaysThroughARound | src/screens.rs:21-37 | from the overlays as set up, the first press hides the start screen, a death shows the end screen and the next press hides it again |
| Pipes.NextCenter | src/pipes.rs:78-91 | the new gap centre is the old one minus the drawn delta, clamped into [-0.4, 0.4] |
| Pipes.CenterMovesAtMostDelta | src/pipes.rs:78-90 | from inside the band, the centre moves by no more than the drawn delta |
| Pipes.PipeTrio | src/pipes.rs:99-153 | lower pipe, upper pipe and score trigger with their markers, colliders, positions, visibility, common leftward speed and off-screen deletion |
| Pipes.Spawn | src/pipes.rs:56-154 | outside Playing, or before the timer finishes, nothing changes; otherwise the timer takes the drawn duration and the clamped centre, and the three entities are queued |
| Pipes.SpawnPipeSystem | src/pipes.rs:56-154 | the system leaves the world equal to `Spawn` of the old one |
| Pipes.SpawnLayout | src/pipes.rs:76-136 | with the game's settings, the gap between the pipes is exactly the drawn distance, its midpoint is the stored centre within 256 units of the screen centre, the gap lies on screen, the pipes are at x=1056 and the trigger at 1152, and the next spawn comes after 0.9 to 1.2 s |
| Pipes.CenterStaysInBand | src/pipes.rs:41-44 | the stored centre stays in the band, or at the initial 0.5, after every spawn |
| Pipes.SpawnsAreTransient | src/pipes.rs:124-153 | every queued spawn carries the `OffsceenDeletion` marker |
| BoundsDeletion.OffscreenDespawns | src/bounds_deletion.rs:18-27 | exactly the off-screen-deletion entities left of -1260 that some world lacks |
| BoundsDeletion.OffscreenRemove | src/bounds_deletion.rs:13-30 | only the despawn queue grows, by exactly `OffscreenDespawns` |
| BoundsDeletion.OffscreenRemoveSystem | src/bounds_deletion.rs:13-30 | the loop leaves the world equal to `OffscreenRemove` of the old one |
| BoundsDeletion.OffscreenRemoveIdempotent | src/bounds_deletion.rs:19-29 | running the system twice queues nothing new |
| BoundsDeletion.StaysOutOfBounds | src/bounds_deletion.rs:21 | an entity past the left edge that moves left stays eligible after integration |
| Prototype.CycleClip | src/main.rs:34-42 | a fresh press selects the next clip, back to 0 after the last, and always an existing clip when there is one; only the clip index changes |
| Prototype.PlayerInputSystem | src/main.rs:34-42 | only the entity store changes, each entity by `CycleClip` |
| Prototype.CycleTimes | src/main.rs:36-39 | repeated presses keep the clip list |
| Prototype.CycleTimesIsModular | src/main.rs:36-39 | n presses select clip `(cur+n) mod len` |
| Prototype.PrototypeAdvance | src/main.rs:53-76 | the prototype's step is the game's `Advance` on entities with an atlas handle, identity otherwise |
| Prototype.PrototypeAnimateSystem | src/main.rs:44-78 | the query loop leaves every entity stepped by `PrototypeAdvance` |
| Prototype.SameAsGameAnimation | src/main.rs:44-78 | where every animated entity has an atlas, the prototype animates exactly as the game |
| Prototype.NextSprite | src/main.rs:87 | the next sprite index is below the atlas length, is `(index+1) mod len` for atlases of at most 2^32 textures and wraps to 0 after the last |
| Prototype.SpriteStep | src/main.rs:84-88 | a finished timer moves the sprite index to `NextSprite`, which stays inside the atlas; otherwise the entity is unchanged |
| Prototype.AnimateSpriteSystem | src/main.rs:80-90 | the query loop leaves every entity stepped by `SpriteStep` |
| Prototype.PrototypeClipsAlternate | src/main.rs:114-137 | with the prototype's two clips, presses alternate between clip 1 and clip 0, and the selected clip can always advance |

## Left out

- `velocity_rotator_system` (src/bird.rs:201-218) is left out. It only turns the sprite, using a quaternion built with trigonometry, and no other system reads the rotation.
- Asset loading, sprite materials, scale and transparency are left out. The startup systems (`spawn_bird`, the screens' `setup`, `setup` in `src/main.rs`) are modelled only through the data they create: the bird's and the prototype's clips, and the two overlays.
- `src/clouds.rs` and `src/mountains.rs` are scenery and are not part of this model.
- The upper pipe's half-turn rotation (src/pipes.rs:137) is left out. The rotation has no effect on collisions in the source.
- Bevy's `Timer` is left out: ticking, elapsed time and the repeating reset. Whether a timer finished on this tick is a parameter.
- `Input::just_pressed`, `thread_rng().gen_range` and `collide` are external and are parameters. `InRange` states what `gen_range` can return.
- The sprite size Bevy gives a pipe from its texture is the parameter `pipeSize`.
- The order of systems within a frame is left out, and so is the moment at which queued `Commands` are applied. Despawns and spawns stay queued in the model.
- `f32` arithmetic is modelled on exact reals, without rounding, infinities or NaN.
- `println!` output (src/bird.rs:140, src/main.rs:40) is left out.
- Bird.Scored: the score is an unbounded integer, so the `i32` overflow of `score += 1` is not modelled.
- Bird.ScoreStep: the score is an unbounded integer, so the `i32` overflow is not modelled.
- The `World` query is a sequence of id sets. The despawn guard is modelled as written: a despawn is queued when some world does *not* contain the entity, which is the opposite of what the adjacent comment says it is for.
- The hitbox is 40% of the bird's 192-unit sprite, as the code computes it. The adjacent comment calls it half size.
- `animate_sprite_system` in `src/main.rs` is modelled even though `main` does not register it.
- The `GameData` resource (src/gamedata.rs:4-7) is the `data` field of the world.
