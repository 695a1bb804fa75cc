# Endless runner core: path generator and player controller

This project models the two gameplay components of a small endless-runner
game written in TypeScript for the Cocos Creator engine, and proves
properties of that model.

- **The path generator** (`MapGenerator`) keeps a cursor. The cursor is a
  world position plus an axis-aligned heading that starts at the origin,
  facing -Z. It also keeps a first-in, first-out window of tiles.
  - Each spawn places a tile at the cursor and picks the tile's kind:
    60% NORMAL, 20% GAP or 20% BUILDABLE.
  - It then picks a turn: 96% NONE, 2% LEFT or 2% RIGHT. It rotates the
    heading by that turn and moves the cursor one tile length along the new
    heading.
  - A GAP tile is hidden and a NORMAL tile is shown.
  - On load, and again on reset, `preSpawnCount` tiles are spawned.
  - On each frame where the player is closer than 40 units to the cursor,
    one tile is spawned and the oldest is dropped once the window holds
    more than `preSpawnCount` tiles.
- **The player controller** (`PlayerController`) handles touches and runs a
  per-frame update.
  - Each touch has a record holding its start and current positions, how
    long it has been held, and a "committed as a swipe" flag.
  - A touch held at least 0.15 s that has not been committed is a steering
    touch. Steering touches steer left or right by the half of the screen
    they started in.
  - An upward swipe of more than 50 pixels requests a jump, but only while
    the player is grounded. A horizontal swipe of more than 50 pixels turns
    the target heading by ±90°. A touch commits at most once.
  - Each frame the controller:
    1. ages every touch;
    2. resolves the steering direction;
    3. applies a pending jump if the player is grounded;
    4. builds the velocity from the lateral steering, the body's vertical
       speed and the forward drive along the facing;
    5. turns the yaw toward the target heading at no more than 360° per
       second, taking the shorter arc;
    6. reports a death when the height is below -0.2.

The modules are:

| module | contents |
|---|---|
| `Wrappers` | `Option` |
| `Vectors` | integer and real 3-vectors, axis unit vectors, 2-vectors |
| `TileTypes` | the tile and turn enumerations, a placed tile, the prefab |
| `MapGeneration` | the generator as functions on its state, the window invariant, and the `MapGenerator` class, whose methods are proved against those functions |
| `Angles` | heading snapping, JavaScript's truncating `%`, normalisation of the angle difference, capped smoothing |
| `Touches` | touch records, steering resolution, swipe classification |
| `PlayerControl` | velocity composition, the jump request over frames, and the `PlayerController` class |

Randomness is an explicit parameter. A `Draw` holds the two numbers
`Math.random()` would return during one spawn, in call order: the tile-type
roll first, then the turn roll.

Engine values are also parameters:
- whether the player is grounded (the result of the ground ray cast);
- the rigid body's velocity;
- the node's facing vector;
- the current yaw;
- the height;
- the screen width.

The new velocity, the new yaw and the death signal are returned in a
`FrameOutput`.

## Model

| member | source | states |
|---|---|---|
| `MapGeneration.ChooseTileType` | assets/scripts/MapGenerator.ts:66-71 | NORMAL exactly when the roll is below 0.6; GAP exactly for rolls in [0.6, 0.8); BUILDABLE exactly from 0.8; COLLECTIBLE never |
| `MapGeneration.ChooseTurn` | assets/scripts/MapGenerator.ts:73-78 | NONE exactly for rolls below 0.96; LEFT exactly for [0.96, 0.98); RIGHT exactly from 0.98 |
| `MapGeneration.TurnLeft` | assets/scripts/MapGenerator.ts:132-138 | the left turn cycles the headings -Z → +X → +Z → -X → -Z |
| `MapGeneration.TurnRight` | assets/scripts/MapGenerator.ts:140-146 | the right turn cycles the headings -Z → -X → +Z → +X → -Z |
| `MapGeneration.TurnsAreQuarterTurns` | assets/scripts/MapGenerator.ts:132-146 | on an axis heading, each turn gives another axis heading that is neither the same one nor its opposite |
| `MapGeneration.TurnsUndoEachOther` | assets/scripts/MapGenerator.ts:132-146 | a right turn undoes a left turn, and a left turn undoes a right turn |
| `MapGeneration.FourTurnsAreIdentity` | assets/scripts/MapGenerator.ts:132-146 | four turns the same way give the original heading; two lefts and two rights both reverse it |
| `MapGeneration.Turn` | assets/scripts/MapGenerator.ts:97-107 | the turn switch keeps the heading on an axis; NONE leaves it unchanged |
| `MapGeneration.Activity` | assets/scripts/MapGenerator.ts:115-127 | reference definition of a new tile's activity: NORMAL shown, GAP hidden, BUILDABLE as the prefab; its effect is stated by the contract of `MapGeneration.Spawn` |
| `MapGeneration.Spawn` | assets/scripts/MapGenerator.ts:80-130 | without a prefab, nothing changes. With one, exactly one tile is appended and the earlier tiles are untouched. The new tile sits at the old cursor and gets the kind and turn of the draw. The heading becomes the turned heading, and the cursor moves one tile length along it. NORMAL is shown, GAP is hidden, BUILDABLE keeps the prefab's activity |
| `MapGeneration.Recycle` | assets/scripts/MapGenerator.ts:148-153 | the cursor never changes; only the oldest tile is removed, and only when the window holds more than the pre-spawn count; otherwise nothing changes |
| `MapGeneration.SpawnMany` | assets/scripts/MapGenerator.ts:36-38 | reference definition of the pre-spawn loop (also lines 61-63 of reset): one spawn per draw, in order; its properties are stated by `SpawnManyKeepsChained`, `SpawnManyKeepsSteered`, `SpawnManyWindow`, `StraightRun`, `NeverCollectible` and `FirstTileAtCursor`, and `MapGenerator.PreSpawn` is proved equal to it |
| `MapGeneration.Near` | assets/scripts/MapGenerator.ts:44-47 | reference definition of the nearness test: the distance from the player to the cursor is below 40, compared squared; `MapGenerator.Update` is proved to branch on it |
| `MapGeneration.UpdateStep` | assets/scripts/MapGenerator.ts:41-51 | reference definition of one frame: no player or not near gives no change, otherwise spawn then recycle; `MapGenerator.Update` is proved equal to it and `NearUpdateShiftsWindow` states its effect on a full window |
| `MapGeneration.RunUpdates` | assets/scripts/MapGenerator.ts:41-51 | reference definition of successive frames' updates; its properties are stated by `UpdatesKeepChained`, `UpdatesKeepSteered`, `WindowStaysFull` and `BootThenUpdates` |
| `MapGeneration.HeadingAfter` | assets/scripts/MapGenerator.ts:97-107 | reference definition of the heading that a run of stored turns selects, starting from a given heading; `HeadingAfterOnAxis` and `HeadingAfterShift` state its properties |
| `MapGeneration.HeadingAfterOnAxis` | assets/scripts/MapGenerator.ts:97-107 | from an axis heading, any run of stored turns gives an axis heading |
| `MapGeneration.HeadingAfterShift` | assets/scripts/MapGenerator.ts:97-107 | folding the turns from h equals folding the later ones from h turned by the oldest tile's turn, so dropping the oldest tile only moves the starting heading |
| `MapGeneration.SpawnKeepsChained` | assets/scripts/MapGenerator.ts:94-112 | a spawn preserves the chain invariant: axis heading, consecutive anchors one axis step of the tile length apart, cursor one step past the newest anchor |
| `MapGeneration.RecycleKeepsChained` | assets/scripts/MapGenerator.ts:148-153 | a recycle preserves the chain invariant |
| `MapGeneration.SpawnManyKeepsChained` | assets/scripts/MapGenerator.ts:35-39 | any run of spawns preserves the chain invariant |
| `MapGeneration.HeadingStaysOnAxis` | assets/scripts/MapGenerator.ts:97-112 | whatever the draws, the heading stays one of the four horizontal axis unit vectors |
| `MapGeneration.UpdatesKeepChained` | assets/scripts/MapGenerator.ts:41-51 | any sequence of frames preserves the chain invariant |
| `MapGeneration.SpawnKeepsSteered` | assets/scripts/MapGenerator.ts:94-112 | a spawn preserves the steering invariant: the step out of every tile goes one tile length along the heading that the turns of the tiles so far select, and the cursor heading is the one all the turns select |
| `MapGeneration.RecycleKeepsSteered` | assets/scripts/MapGenerator.ts:148-153 | a recycle preserves the steering invariant, with the starting heading turned by the dropped tile's turn |
| `MapGeneration.SpawnManyKeepsSteered` | assets/scripts/MapGenerator.ts:35-39 | any run of spawns preserves the steering invariant from the same starting heading |
| `MapGeneration.UpdatesKeepSteered` | assets/scripts/MapGenerator.ts:41-51 | across any frames the window stays steered, from an axis heading that it returns |
| `MapGeneration.NoStepBack` | assets/scripts/MapGenerator.ts:97-112 | in a steered window with a non-zero tile length, tile i+2 never stands on tile i's anchor: the path never steps straight back |
| `MapGeneration.StraightRun` | assets/scripts/MapGenerator.ts:97-112 | with only NONE turns the heading is unchanged. The i-th new tile sits i tile lengths from the start cursor along it. The cursor ends one tile length beyond the last of them. The earlier tiles are kept |
| `MapGeneration.NeverCollectible` | assets/scripts/MapGenerator.ts:66-71 | spawning never introduces a COLLECTIBLE tile |
| `MapGeneration.SpawnManyWindow` | assets/scripts/MapGenerator.ts:35-39 | with a prefab, a spawn loop appends one tile per draw after the earlier tiles, and the i-th new tile has the kind and turn of draw i. Without a prefab the state is unchanged |
| `MapGeneration.FirstTileAtCursor` | assets/scripts/MapGenerator.ts:94 | the first tile a spawn loop adds stands at the cursor the loop started from |
| `MapGeneration.BootWindow` | assets/scripts/MapGenerator.ts:53-64 | after boot or reset, the window is chained and steered from heading -Z. It holds exactly one tile per draw (none without a prefab). Its first tile is at the origin, and it holds no COLLECTIBLE |
| `MapGeneration.WindowStaysFull` | assets/scripts/MapGenerator.ts:41-51 | with a prefab, a window of exactly preSpawnCount tiles keeps exactly that many across any frames |
| `MapGeneration.NearUpdateShiftsWindow` | assets/scripts/MapGenerator.ts:47-50 | on a full window, a near update drops exactly the oldest tile and appends the newly spawned one |
| `MapGeneration.BootThenUpdates` | assets/scripts/MapGenerator.ts:35-51 | from boot onward, every frame leaves exactly preSpawnCount tiles, and the window stays chained and steered by its stored turns |
| `MapGeneration.PathCanRevisitAnchor` | assets/scripts/MapGenerator.ts:94-112 | five spawns from the initial state whose turns are all LEFT, or all RIGHT, put the fifth tile at the first tile's position |
| `MapGeneration.SpawnFive` | assets/scripts/MapGenerator.ts:36-38 | five runs of the pre-spawn loop body with one draw equal five successive spawns |
| `MapGeneration.FourTurnsCloseSquare` | assets/scripts/MapGenerator.ts:94-112 | four spawns turning the same way from the initial state bring the cursor back to the origin, where the first tile stands |
| `MapGeneration.MapGenerator.constructor` | assets/scripts/MapGenerator.ts:18-33 | the configuration is stored; the cursor starts at the origin facing -Z with an empty window |
| `MapGeneration.MapGenerator.SpawnTile` | assets/scripts/MapGenerator.ts:80-130 | the field updates of one spawn give exactly `Spawn` of the old state, and the chain invariant is kept |
| `MapGeneration.MapGenerator.RecycleTile` | assets/scripts/MapGenerator.ts:148-153 | the new state is exactly `Recycle` of the old one |
| `MapGeneration.MapGenerator.PreSpawn` | assets/scripts/MapGenerator.ts:36-38 | the pre-spawn loop gives `SpawnMany` of the old state over its draws, in order |
| `MapGeneration.MapGenerator.OnLoad` | assets/scripts/MapGenerator.ts:35-39 | loading pre-spawns preSpawnCount tiles onto the current state |
| `MapGeneration.MapGenerator.Reset` | assets/scripts/MapGenerator.ts:53-64 | whatever the old state, reset gives exactly the boot window from the origin facing -Z |
| `MapGeneration.MapGenerator.Update` | assets/scripts/MapGenerator.ts:41-51 | without a player, or when the player is at least 40 units from the cursor, nothing changes. Otherwise there is one spawn followed by one recycle |
| `Angles.NormalizeAngle` | assets/scripts/PlayerController.ts:160-162 | the result is the multiple of 90 nearest to the input, with halves rounded up; a multiple of 90 is kept as it is |
| `Angles.TurnLeftAngle` | assets/scripts/PlayerController.ts:207-209 | a target heading that is a multiple of 90 goes up by exactly 90 and stays a multiple of 90 |
| `Angles.TurnRightAngle` | assets/scripts/PlayerController.ts:211-213 | a target heading that is a multiple of 90 goes down by exactly 90 and stays a multiple of 90 |
| `Angles.TurnAnglesUndoEachOther` | assets/scripts/PlayerController.ts:207-213 | a left turn and a right turn of the target heading cancel, in either order |
| `Angles.JsRem360` | assets/scripts/PlayerController.ts:128 | JavaScript's `x % 360` lies in (-360, 360), has the sign of x, and differs from x by whole turns |
| `Angles.NormalizeDiff` | assets/scripts/PlayerController.ts:127-128 | the double-remainder normalisation lands in [-180, 180) and differs from the raw difference by whole turns |
| `Angles.NormalizeDiffIsEuclidean` | assets/scripts/PlayerController.ts:128 | the two JavaScript remainders together equal one Euclidean remainder of d + 180, minus 180 |
| `Angles.NormalizeDiffInRange` | assets/scripts/PlayerController.ts:128 | a difference already in [-180, 180) is unchanged |
| `Angles.NormalizeDiffPeriodic` | assets/scripts/PlayerController.ts:124-128 | adding any whole number of turns to the difference does not change the normalised result |
| `Angles.CappedDelta` | assets/scripts/PlayerController.ts:130-134 | a difference smaller than the cap is applied whole. Otherwise the cap is applied in the difference's direction. The magnitude applied is the minimum of the difference and the cap, and the step never overshoots |
| `Angles.SmoothYaw` | assets/scripts/PlayerController.ts:123-137 | reference definition of the new yaw: the current yaw plus the capped normalised difference to the target; its properties are stated by `SmoothingClosesGap` and `SmoothingReachesNearTarget`, and `PlayerController.Update` returns it |
| `Angles.SmoothingClosesGap` | assets/scripts/PlayerController.ts:123-137 | each frame turns along the shorter arc. The remaining normalised difference shrinks by 360·dt, or to zero |
| `Angles.SmoothingReachesNearTarget` | assets/scripts/PlayerController.ts:123-137 | from 0° with the target at 170°, one second brings the yaw to exactly 170° |
| `Touches.LeftHeld` | assets/scripts/PlayerController.ts:76-88 | reference definition of the leftHeld flag: some uncommitted touch held at least 0.15 s started left of the screen's middle; `PlayerController.AgeTouches` is proved to compute it |
| `Touches.RightHeld` | assets/scripts/PlayerController.ts:76-88 | reference definition of the rightHeld flag, the same for the right half; `PlayerController.AgeTouches` is proved to compute it |
| `Touches.Steering` | assets/scripts/PlayerController.ts:92-98 | reference definition of the direction the two flags select: -1 for left only, 1 for right only, otherwise 0; `PlayerController.Update` is proved to set it |
| `Touches.ResolveSteering` | assets/scripts/PlayerController.ts:72-98 | reference definition of a frame's steering from the touch records; `ResolveSteeringMeaning` characterises each of its three results and `SlideTouchIgnored` states that committed touches do not matter |
| `Touches.ResolveSteeringMeaning` | assets/scripts/PlayerController.ts:76-98 | steering is -1 exactly when every steering touch is on the left and there is one; +1 likewise on the right; 0 when there is none or one on each side |
| `Touches.SlideTouchIgnored` | assets/scripts/PlayerController.ts:79-80 | a committed swipe touch does not affect steering: resolving with it equals resolving without it |
| `Touches.Aged` | assets/scripts/PlayerController.ts:76-77 | the same touches are kept, each held time grows by dt, and nothing else in a record changes |
| `Touches.NewTouch` | assets/scripts/PlayerController.ts:168-173 | reference definition of a new record: start and current at the touch position, held 0 s, uncommitted; `PlayerController.OnTouchStart` is proved to store it |
| `Touches.Classify` | assets/scripts/PlayerController.ts:184-199 | committed touches produce no gesture. A jump swipe happens exactly when dy > 50, and it takes precedence. A right or left swipe happens exactly when dy ≤ 50 and dx is above 50 or below -50, respectively |
| `Touches.AfterMove` | assets/scripts/PlayerController.ts:181-199 | reference definition of the record after a move: the new current position, committed exactly when it was already committed or the move classifies as a gesture; `CommitsAtMostOnce` and `PlayerController.OnTouchMove` build on it |
| `Touches.CommitsAtMostOnce` | assets/scripts/PlayerController.ts:187-199 | over any moves of one touch, after its first gesture every later move produces none; a touch already committed produces none |
| `PlayerControl.ComposeVelocity` | assets/scripts/PlayerController.ts:109-118 | reference definition of the new velocity: steering times moveSpeed on X, the vertical speed, and the facing times forwardSpeed added; `BodyHorizontalSpeedDiscarded` and `SteeringAlongRunWhenFacingX` state its properties, and `PlayerController.ApplyVelocity` is proved to compute it |
| `PlayerControl.JumpVy` | assets/scripts/PlayerController.ts:104-107 | reference definition of the jump step's vertical speed: the jump force when a request meets the ground, otherwise the body's; `JumpAppliedOnce` states its effect over frames |
| `PlayerControl.BodyHorizontalSpeedDiscarded` | assets/scripts/PlayerController.ts:101-114 | only the body's vertical speed reaches the new velocity |
| `PlayerControl.SteeringAlongRunWhenFacingX` | assets/scripts/PlayerController.ts:109-118 | steering is along world X: when the player faces ±X it adds to the run speed instead of moving sideways |
| `PlayerControl.JumpAppliedOnce` | assets/scripts/PlayerController.ts:104-107 | over any sequence of frames, a pending jump is applied exactly once, on the first grounded frame, and stays pending while airborne; with no request none is applied |
| `PlayerControl.TargetAfter` | assets/scripts/PlayerController.ts:191-198 | reference definition of a gesture's effect on the target heading: a right swipe -90, a left swipe +90, otherwise unchanged; `OneTouchTurnsAtMostOnce` states its effect over a touch's moves and `PlayerController.OnTouchMove` is proved to apply it |
| `PlayerControl.JumpAfter` | assets/scripts/PlayerController.ts:188-190 | reference definition of a gesture's effect on the jump request: an upward swipe raises it when grounded, and nothing clears it; `PlayerController.OnTouchMove` is proved to apply it |
| `PlayerControl.OneTouchTurnsAtMostOnce` | assets/scripts/PlayerController.ts:187-199 | however one touch moves, the target heading changes by +90, -90 or not at all |
| `PlayerControl.CommittedTouchKeepsTarget` | assets/scripts/PlayerController.ts:187-199 | moves of a committed touch never change the target heading |
| `PlayerControl.PlayerController.constructor` | assets/scripts/PlayerController.ts:31-55 | the configuration is stored; there are no touches, the target is 0, the player is not grounded, the velocity is zero, and there is no steering and no jump request |
| `PlayerControl.PlayerController.OnTouchStart` | assets/scripts/PlayerController.ts:164-174 | a fresh record (not held, uncommitted, start equal to current) is stored under the id, and the other entries are unchanged |
| `PlayerControl.PlayerController.OnTouchMove` | assets/scripts/PlayerController.ts:176-200 | an unknown id changes nothing. Otherwise the record takes the new position and is committed by a swipe. The target heading and the jump request follow the classified gesture |
| `PlayerControl.PlayerController.OnTouchEnd` | assets/scripts/PlayerController.ts:202-205 | only that id's record is removed |
| `PlayerControl.PlayerController.TurnLeft` | assets/scripts/PlayerController.ts:207-209 | the target heading goes up by exactly 90 and stays a multiple of 90 |
| `PlayerControl.PlayerController.TurnRight` | assets/scripts/PlayerController.ts:211-213 | the target heading goes down by exactly 90 and stays a multiple of 90 |
| `PlayerControl.PlayerController.AgeTouches` | assets/scripts/PlayerController.ts:76-89 | every touch ages by dt. The left and right flags are true exactly when there is a steering touch on that half |
| `PlayerControl.PlayerController.ApplyVelocity` | assets/scripts/PlayerController.ts:101-121 | a pending jump is applied and cleared only when grounded. The velocity is the steering on X, plus the (possibly jumped) vertical speed, plus the forward drive |
| `PlayerControl.PlayerController.Update` | assets/scripts/PlayerController.ts:66-143 | grounding is updated first in every case. Without a rigid body nothing else changes. With one: touches are aged, steering is resolved from them, and a pending jump is consumed only when grounded. The velocity is composed as above, and the returned yaw makes one capped shorter-arc step toward the target. Death is reported exactly when the height is below -0.2 and a game manager is set |
| `PlayerControl.PlayerController.Reset` | assets/scripts/PlayerController.ts:145-158 | touches, steering, the jump request and grounding are cleared, and the target and yaw are 0. With a rigid body, the cached velocity is zeroed and the returned position is (0, 1, 0) |

## Left out

- Scene graph work is not modelled: `instantiate`, `setParent`, `getComponent(Tile)`, destroying recycled tiles, and setting BUILDABLE tiles' material colour to yellow. These are engine calls. A placed tile is a record, and a dropped tile simply leaves the window.
- `Math.random()` is replaced by the two numbers of a `Draw` per spawn, in call order. Its distribution is stated only as the threshold functions.
- `Vec3.distance` is compared as a squared distance against 40², which is equivalent for non-negative distances and avoids the square root.
- `MapGenerator.update`'s `deltaTime` is unused by the source and is not a parameter.
- Floating-point arithmetic is modelled on exact integers (tile positions, `tileLength`, target heading) and exact reals (velocity, yaw, touch positions, time). Rounding error is not represented.
- `preSpawnCount` is a `nat`. A negative count, for which the source's loop simply runs zero times, is not modelled.
- `checkGrounded` is replaced by the `grounded` input of `Update`. The ray cast, the collider half-height and the safety margin are not modelled.
- The rigid body, `node.forward`, `node.eulerAngles`, `setRotationFromEuler` and `node.worldPosition` are not modelled. Their values are inputs, and the new velocity and yaw are returned rather than written to the engine. Whether a rigid body and a game manager are set is fixed at construction, as the editor does.
- `GameManager.onPlayerDie` is not called. `Update` returns a `died` flag instead. GameManager.ts and CameraFollow.ts are not part of this model.
- `start()` is not modelled: registering the touch handlers, looking up the rigid body and logging are engine plumbing. `view.getVisibleSize().width` is the `screenWidth` input.
- The order in which the source's `Map.forEach` visits touches is not modelled. The loop visits the ids in an arbitrary order, which is sound because the results do not depend on it.
- `PlayerControl.PlayerController.Reset` zeroes only the cached velocity field, as the source does. The body's own velocity is not reset, so the next frame reads it again. The rotation and position the source writes to the node are returned as `yaw` and `position`.

## Notes on the code

Several behaviours of the code are easy to misread. The model follows the code.

- The death check has no fire-once guard. While the height stays below -0.2, with a rigid body and a game manager set, every frame reports a death (`PlayerControl.PlayerController.Update`).
- The generator accepts any tile length, including zero or a negative one. With a zero length every anchor coincides.
- Tile anchors need not be distinct. Four turns the same way, left or right, close a square, and the fifth tile then lands on the first tile's anchor (`MapGeneration.PathCanRevisitAnchor`). A window therefore guarantees steps that follow the stored turns and never step straight back (`MapGeneration.NoStepBack`), not unique positions.
- Lateral steering always acts along world X, whatever the facing. After a turn to ±X it changes the running speed rather than the lane (`PlayerControl.SteeringAlongRunWhenFacingX`).
- The generator's LEFT turns -Z to +X. The player's `turnLeft` adds +90° of yaw. Whether these agree depends on the engine's axis and rotation conventions, so no relation between them is stated.
