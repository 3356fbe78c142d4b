# Lane runner game state, in Dafny

This project models the game-state logic of a three-lane endless-runner browser game (`main.js`).
The player swipes between three lanes at x = 90, 180 and 270. On the first frame after the spawn
timer passes 1200 ms, an obstacle spawns above the screen, plus a coin half of the time, and the
timer starts again from 0, dropping the excess. Entities move down at 240 units per second. The
score grows by 0.01 per millisecond and by 10 per coin. Touching an obstacle ends the game, and the next tap restarts it.

The model has three modules:

- `Swipe` (`swipe.dfy`) is the lane controller. `SwipeLane` gives the lane after a gesture. It has
  lemmas for the clamp, for the one-lane step, for ignored gestures, and for runs of gestures.
- `Track` (`track.dfy`) covers entities and their motion. `Entity(x, y)` is a lane x and a vertical
  position. The `Moved` and `Survivors` functions specify one frame of motion and despawn, and the
  `Advance` loop method is proved against them. Lemmas say what survives, that a spawn adds exactly
  one entity, and that entities leave for good after enough frames.
- `Game` (`game.dfy`) holds the `GameSession` class. Its fields are the module-level variables of
  `main.js` (`currentLane`, `player.x`, `score`, `spawnTimer`, `gameOver`, the obstacle and coin
  groups) plus the last pointer-down position. Each handler is a method: swipe, per-frame update,
  spawns, coin pickup, game over, restart, and pointer-up. `Valid()` holds in every state. It says
  that `playerX == LANES[currentLane]`, that the lane is in range, and that every entity sits in a
  lane. Three scenario methods call the handlers in sequence and state the expected results as
  assertions that the verifier proves.

## Behaviour worth noting

- A restart leaves `spawnTimer` as it is (main.js:229-240).
- Entities appear above the visible area, at y = -50 (obstacles, main.js:199) and y = -150 (coins, main.js:210).
- In a frame, spawning happens before motion (main.js:137-164). A freshly spawned entity has
  therefore already moved by that frame's displacement when the frame ends (`Track.SpawnThenAdvance`).
- A pointer-up with no earlier pointer-down has undefined start coordinates. Every comparison on
  them is false, so the lane does not change (`Game.GestureLane` with `down == None`).

## Model

| member | source | states |
|---|---|---|
| `Swipe.SwipeLane` | main.js:172-182 | from a valid lane a gesture lands on a valid lane (clamped to 0..2), and it moves by at most one lane |
| `Swipe.SwipeLeftMovesOne` | main.js:174-177 | a horizontal-dominant gesture with distX < -50 from a lane above 0 decrements the lane by exactly one |
| `Swipe.SwipeRightMovesOne` | main.js:178-181 | a horizontal-dominant gesture with distX > 50 from a lane below 2 increments the lane by exactly one |
| `Swipe.WeakOrVerticalSwipeIgnored` | main.js:172-192 | a gesture with abs(distX) <= abs(distY), ties included, or with abs(distX) <= 50 leaves the lane unchanged; the vertical branch has no effect |
| `Swipe.SwipeChangesLaneIff` | main.js:172-182 | the lane changes if and only if the gesture is horizontal-dominant and is a strong left swipe off a non-leftmost lane or a strong right swipe off a non-rightmost lane |
| `Swipe.ApplySwipesInRange` | main.js:174-181 | no sequence of gestures moves the lane outside 0..2 |
| `Swipe.StrongLeftSwipesFloorAtZero` | main.js:174-177 | n strong left swipes from lane l end at max(l - n, 0) |
| `Swipe.LeftSwipesFromMiddleEndAtZero` | main.js:174-177 | from the starting lane 1, any non-empty run of strong left swipes ends at lane 0 |
| `Track.Survivors` | main.js:149-164 | the despawn filter keeps only original entities, each with y <= the bound, and never grows the collection |
| `Track.SurvivorsComplete` | main.js:152-161 | every entity with y <= the bound is kept by the despawn filter |
| `Track.SurvivorsAppend` | main.js:149-164 | despawning a concatenation is despawning each part, in order |
| `Track.Advance` | main.js:149-164 | the frame loop over a collection yields exactly the moved entities whose new y is within the bound, in order |
| `Track.AdvanceMeaning` | main.js:149-164 | after a frame each remaining entity is an original one with the same x, its y increased by the displacement and within the bound; each original whose new y is within the bound remains |
| `Track.AdvanceKeepsLanes` | main.js:149-164 | motion keeps every entity in a lane |
| `Track.SpawnThenAdvance` | main.js:137-164 | a spawn followed by the frame's motion adds exactly the spawned entity, moved by the same displacement, after the advanced old ones, unless it is already past the bound |
| `Track.AdvanceTicksTrace` | main.js:149-164 | after any number of frames, every remaining entity is an original one, same x, moved by the total displacement (nothing reappears or is created by motion) |
| `Track.SurvivorsNone` | main.js:152-161 | a collection entirely past the bound is removed entirely |
| `Track.AllDespawned` | main.js:149-164 | once every entity's total displacement carries it past the bound, the collection is empty |
| `Game.GameSession.constructor` | main.js:34-50 | a new session is in lane 1 with player x 180, score 0, spawn timer 0, running, and no entities |
| `Game.GameSession.PointerDown` | main.js:115-118 | records the gesture's start position |
| `Game.GameSession.HandleSwipe` | main.js:168-193 | the lane becomes `SwipeLane` of the gesture's distances (unchanged without a recorded start), and player x stays equal to that lane's x |
| `Game.GameSession.SpawnObstacle` | main.js:196-202 | appends exactly one obstacle at y = -50 with x the chosen lane's x |
| `Game.GameSession.SpawnCoin` | main.js:205-214 | appends one coin at y = -150 with x the chosen lane's x when the roll is below 0.5, and nothing otherwise |
| `Game.GameSession.Update` | main.js:130-165 | does nothing when the game is over; otherwise the timer grows by delta and is reset to 0 with one obstacle (and possibly one coin) spawned when it exceeds 1200; score grows by exactly delta * 0.01; then both collections are moved and despawned at 740 and 690; lane, player x and game-over are untouched |
| `Game.GameSession.MoveEntities` | main.js:148-164 | obstacles and coins become the moved survivors at 240 units per second, with bounds 740 and 690, and stay in lanes |
| `Game.GameSession.CollectCoin` | main.js:217-220 | removes exactly the touched coin (as a multiset, one occurrence) and adds exactly 10 to the score |
| `Game.GameSession.HandleGameOver` | main.js:223-226 | sets game-over (so applying it twice is applying it once) and changes nothing else |
| `Game.GameSession.RestartGame` | main.js:229-240 | from any state: running, score 0, lane 1, player x 180, no entities, spawn timer and pointer start left as they were |
| `Game.GameSession.PointerUp` | main.js:120-127 | the swipe is applied first, then the restart when the game is over: after game over the lane is 1 whatever the gesture; otherwise only the lane (and player x) changes, by `SwipeLane` |

## Left out

- Engine setup, asset loading, sprite animation, scaling and `setCollideWorldBounds` (main.js:11-29, 52-92) are rendering calls of the game engine.
- The engine's overlap detection (main.js:99-100) is a call into the physics engine. Only its callbacks are modelled: `CollectCoin(i)` takes the index of the touched coin, and `HandleGameOver` is called when an obstacle is touched.
- Score and game-over text in the page (main.js:103-112, 146, 225, 232) is presentation only.
- Background scrolling (main.js:134) is a decorative render offset.
- Randomness (main.js:197, 207-208) becomes parameters: the obstacle lane, the coin lane (both in 0..2), and the coin roll in [0, 1).
- Floating point is not modelled: `delta`, y, score and pointer coordinates are exact reals.
- `Game.GameSession.Update` and `Track.Advance` move every entity on every frame. In the game, `obj.destroy()` runs inside `children.iterate` (main.js:153, 161), and the engine's iteration can then skip the next entity for that frame, so that entity is not moved until the next frame. Trailing slots can also come back undefined, which is why main.js:150 and 158 test `if (obj)`. The engine's iteration is not part of this model.
- The offline-caching service worker (service-worker.js) is not part of this model. It only does cache and fetch I/O.
