# Rocket, minigrep and Pong in Dafny

This project models the logic of three small Rust programs and proves properties of them:

- **rocket-game**: a lunar-lander style game built on ggez. A rocket turns, thrusts while it has fuel and falls under gravity. Each tick a collision pass runs:
  - leaving the screen ends the game;
  - a wall ends the game;
  - landing on a ground bounces the rocket, and the landing is fatal when too fast or too tilted;
  - the checkpoint ground ends the game;
  - touching the fuel pickup removes it and gives the rocket the key;
  - once the key is held, every checkpoint wall is removed.

  Three walls (registry entries 3, 4 and 5) oscillate, one unit per tick.
- **minigrep**: argument validation into a `Config`, and a case-sensitive and an ASCII case-insensitive line search over a file's contents.
- **pong-game**: two paddles moved by keys, and a ball that moves, scores, and bounces off the walls and paddles.

Modules, one per file:

| file | module | what it holds |
|---|---|---|
| `sequences.dfy` | `Sequences` | `Keep`, order-preserving filtering: the meaning of `Vec::retain` and of collecting filtered lines. Its lemmas, and `Retain`, the in-place walk. |
| `geometry.dfy` | `Geometry` | `Vec2` and `Rect` with reals for f32. |
| `rocket_objects.dfy` | `RocketObjects` | Obstacle tags, the level layout (`create_objects`), the wall oscillator (`move_wall_func`) and its periodicity. |
| `rocket_player.dfy` | `RocketPlayer` | Input state, the key handlers, the rocket's per-tick physics. |
| `rocket_collision.dfy` | `RocketCollision` | `check_collision` as a specification function, and what it does to the rocket, the end-of-game flag and the registry. |
| `rocket_game.dfy` | `RocketGame` | `MainState` as a class whose methods update their fields in place, and its run invariant. |
| `minigrep.dfy` | `Minigrep` | `Config::new`, `lines`, `contains`, `to_lowercase`, and the two search loops. |
| `pong.dfy` | `Pong` | `bounds` and the ball serve. One `update` as stage functions, `key_down_event`, runs of events, and `MainState` as a class. |

Each state-changing method is proved equal to a specification function of the old state. The properties are proved about those functions.

Several behaviours follow the code and may be unexpected:

- Fuel is not clamped at zero. The last thrust may take it to just below zero, and the invariant bounds it by -0.12.
- Collecting the fuel pickup does not refill the tank. It only sets the key.
- The facing angle is reduced with Rust's truncating float remainder. It therefore lies strictly between -2π and 2π and keeps its sign, rather than lying in [0, 2π).
- Every ground landing puts the rocket on top of registry entry 0, whichever ground was touched.
- The bounce is applied even when the landing is fatal.
- The moving walls keep moving in the tick that ends the game.
- Wall heights are kept as reals, like the f32 rectangle fields. The oscillator's exact-equality tests are justified by an invariant that the driving wall's height is a whole number in [0, 300].

## Model

| member | source | states |
|---|---|---|
| Sequences.Retain | rocket-game/src/main.rs:535-553 | A `retain` walk keeps exactly `Keep(s, keep)`: the passing elements in their original order. It reports a removal exactly when some element fails the test. |
| Sequences.KeepMember | rocket-game/src/main.rs:535-553 | After a retain, an element is present exactly when it was present and passes the test. |
| Sequences.KeepIdentityIff | rocket-game/src/main.rs:535-553 | A retain removes nothing exactly when every element passes. |
| Sequences.KeepPrefix | rocket-game/src/main.rs:535-553 | A prefix whose elements all pass keeps its indices after a retain. |
| Sequences.KeepCommute | rocket-game/src/main.rs:535-553 | Two retains can be applied in either order with the same result. |
| RocketObjects.LayoutShape | rocket-game/src/main.rs:131-228 | The layout has 13 entries with the listed tags and positive sizes. The moving walls start at -300, 300 and -300, inside the oscillator's band. |
| RocketObjects.CreateObjects | rocket-game/src/main.rs:131-228 | The pushes build exactly the layout. Every obstacle has positive size, and the wall invariant holds at start-up. |
| RocketObjects.WallStep | rocket-game/src/main.rs:72-90 | The flag is cleared exactly when entry 4 is at 0, set when it is at 300, and otherwise unchanged. Entries 3 and 5 move by the same ±1 and entry 4 by the opposite amount. Only those three heights change. |
| RocketObjects.MoveWallFunc | rocket-game/src/main.rs:72-90 | The in-place statement sequence computes `WallStep`. |
| RocketObjects.WallStepKeepsInvariant | rocket-game/src/main.rs:72-90 | One step keeps entries 3 and 5 equal and entry 4 mirrored. Entry 4 stays a whole number in [0, 300]. |
| RocketObjects.WallStepsKeepInvariant | rocket-game/src/main.rs:72-90 | Any number of steps keeps that invariant. |
| RocketObjects.WallStepsSplit | rocket-game/src/main.rs:72-90 | `a` steps followed by `b` steps equal `a + b` steps. |
| RocketObjects.WallDescent | rocket-game/src/main.rs:77-84 | With the flag set and the driver at height k, the flag stays set and the driver goes down one unit per call: it is at k - j after each j ≤ k calls, so it descends monotonically to 0. Walls 3 and 5 move by +j. |
| RocketObjects.WallDescentThrough | rocket-game/src/main.rs:77-84 | After j ≤ k calls from that state, the registry is the start registry with walls 3 and 5 shifted by +j and the driver by -j, and the flag is set. |
| RocketObjects.WallAscent | rocket-game/src/main.rs:73-89 | From a whole driver height a below 300, with the flag clear or the driver at the turning point 0, the driver goes up one unit per call. It is at a + j after each j ≤ 300 - a calls, so it climbs monotonically to 300. The flag is clear after the first call. |
| RocketObjects.WallAscentThrough | rocket-game/src/main.rs:73-89 | After j ≤ 300 - a calls from that state, the registry is the start registry with walls 3 and 5 shifted by -j and the driver by +j. The flag is clear once j > 0. |
| RocketObjects.WallPeriod | rocket-game/src/main.rs:72-90 | From the start-up state, 600 steps bring every wall back to its starting height. |
| RocketPlayer.KeyDown | rocket-game/src/main.rs:692-707 | Up sets thrust to 1, Left sets turning to -1 and Right to 1, leaving the other axis alone. Other keys change nothing. Valid axis values stay valid. |
| RocketPlayer.KeyUp | rocket-game/src/main.rs:709-723 | Releasing Up stops thrust, and releasing Left or Right stops turning. Other keys change nothing. |
| RocketPlayer.CreatePlayer | rocket-game/src/main.rs:351-361 | The rocket starts at (100, 530), at rest, with a full tank, no key and facing 0. Its 37×64 box starts at the origin and is moved onto the rocket only by the first position update. |
| RocketPlayer.WrapAngle | rocket-game/src/main.rs:369 | The result is the angle minus a whole number of turns of 2π. It lies strictly inside (-2π, 2π) and keeps the angle's sign, which is the truncating remainder. Angles already in range are left alone. |
| RocketPlayer.RocketThrust | rocket-game/src/main.rs:377-386 | The velocity gains the heading vector times 30·dt. Fuel drops by 0.12 when positive and is otherwise unchanged. Nothing else changes. |
| RocketPlayer.PlayerHandleInput | rocket-game/src/main.rs:366-375 | Fuel drops, by exactly 0.12, exactly when the thrust key is held and fuel is positive. Without thrust the velocity is unchanged. The new angle is `WrapAngle` of the old angle plus dt · turn rate · the horizontal axis, so it ends in (-2π, 2π). The rocket invariant is kept. |
| RocketPlayer.UpdatePlayerPosition | rocket-game/src/main.rs:388-396 | Gravity adds 10·dt to the vertical velocity and the position advances by velocity·dt. The box keeps its size and ends centred on the new position. |
| RocketPlayer.FreeFall | rocket-game/src/main.rs:570-577 | Without thrust, n physics steps (input handling and the position update, without the collision pass) add exactly n·0.5 to the vertical velocity. The horizontal velocity and the fuel stay the same. |
| RocketPlayer.FuelBounds | rocket-game/src/main.rs:570-577 | Over any number of physics steps (input handling and the position update) fuel never rises and stays above -0.12. |
| RocketCollision.BounceSlows | rocket-game/src/main.rs:512-513 | The bounce's damping never increases speed. |
| RocketCollision.CollideFrame | rocket-game/src/main.rs:497-530 | The object loop never changes the box, facing, fuel, key or horizontal position. With no ground touched the rocket is unchanged; otherwise it sits on entry 0's top. |
| RocketCollision.HitObjectVelocity | rocket-game/src/main.rs:502-515 | Touching a ground scales the velocity by (0.99, -0.15); touching anything else leaves it alone. |
| RocketCollision.CollideVelocityX | rocket-game/src/main.rs:513 | After the loop, the horizontal velocity is multiplied by 0.99 once per touched ground. |
| RocketCollision.CollideVelocityY | rocket-game/src/main.rs:512 | After the loop, the vertical velocity is multiplied by -0.15 once per touched ground. |
| RocketCollision.CollideSlows | rocket-game/src/main.rs:497-530 | The object loop never speeds the rocket up. |
| RocketCollision.CollidePlayer | rocket-game/src/main.rs:497-530 | Combines the loop's frame, velocity and speed results into one statement. |
| RocketCollision.CollideGameEnd | rocket-game/src/main.rs:497-530 | After the loop, the end flag is set exactly when one of these held: it was set before; the rocket touches a wall, a checkpoint wall or the checkpoint ground; or it touches a ground with a fatal landing (speed ≥ 30, or tilt in (1, 5)). |
| RocketCollision.CheckCollisionGameEnd | rocket-game/src/main.rs:484-530 | The same, with leaving [0, 1600]×[0, 900] added as a cause. The flag is never cleared. |
| RocketCollision.CheckCollisionPlayer | rocket-game/src/main.rs:497-543 | The box, facing and fuel stay the same, so there is no refill. The key is held exactly when it was held or a fuel pickup was touched. With one ground touched, the velocity is scaled once and the rocket is put on entry 0. |
| RocketCollision.RetainsMember | rocket-game/src/main.rs:535-553 | After both retains, an object is present exactly when it was present, is not a pickup touching the box, and is not a checkpoint wall while the key is held. With no key and no pickup touched, nothing is removed. |
| RocketCollision.CheckCollisionObjects | rocket-game/src/main.rs:535-553 | An object survives exactly when it is not a touched pickup and not a checkpoint wall while the key is held. With the key, no checkpoint wall remains; without it, nothing is removed. |
| RocketCollision.CheckCollisionPrefix | rocket-game/src/main.rs:535-553 | Leading entries that are neither pickups nor checkpoint walls keep their indices. |
| RocketCollision.CheckpointRetainKeepsFuel | rocket-game/src/main.rs:549-553 | The second retain never removes a fuel pickup. |
| RocketCollision.FuelRetainTakesTheOnlyPickup | rocket-game/src/main.rs:535-543 | With at most one pickup, the first retain removes it exactly when it is touched. |
| RocketCollision.CheckCollisionFuel | rocket-game/src/main.rs:535-553 | "At most one pickup, and the key is held exactly when none is left" is preserved, so the pickup is collected once. |
| RocketGame.LayoutFuelCount | rocket-game/src/main.rs:204-225 | The layout holds exactly one fuel pickup. |
| RocketGame.WallStepKeepsLayout | rocket-game/src/main.rs:72-90 | A wall step keeps every tag and size, and so the pickup count. |
| RocketGame.FixedEntriesStay | rocket-game/src/main.rs:209-220 | The layout's entries 0 to 8 are grounds and walls, never pickups or checkpoint walls. |
| RocketGame.CollisionKeepsLayout | rocket-game/src/main.rs:535-553 | The collision pass keeps entries 0 to 8 in place, so indices 0, 3, 4 and 5 stay valid and tagged. It keeps the walls in their band. |
| RocketGame.CollisionKeepsSizes | rocket-game/src/main.rs:535-553 | The collision pass keeps every obstacle's size. With the key, no checkpoint wall remains. |
| RocketGame.CollisionKeepsInvariant | rocket-game/src/main.rs:478-554 | The collision pass preserves the run invariant and never clears the end flag or the key. |
| RocketGame.WallStepKeepsWorld | rocket-game/src/main.rs:588 | A wall step preserves the run invariant. |
| RocketGame.MainState.constructor | rocket-game/src/main.rs:448-476 | The start-up state is the created player and exactly the created layout, with neutral input, the flag set and the game not ended. It satisfies the run invariant. |
| RocketGame.MainState.CheckCollision | rocket-game/src/main.rs:478-554 | The new rocket, registry and end flag are `CheckCollisionSpec` of the old ones. The invariant is kept, and the end flag and key are never cleared. |
| RocketGame.MainState.CollideObjects | rocket-game/src/main.rs:484-530 | The bounds test and the loop compute `Collide` from the old state; the registry is untouched. |
| RocketGame.MainState.HitObjectStep | rocket-game/src/main.rs:498-529 | One loop iteration computes `HitObject`. |
| RocketGame.MainState.CollectFuel | rocket-game/src/main.rs:535-543 | The registry becomes the first retain of the old one. The key is set exactly when a pickup was removed. |
| RocketGame.MainState.EraseCheckpointWalls | rocket-game/src/main.rs:549-553 | The registry becomes the second retain under the current key. |
| RocketGame.MainState.Update | rocket-game/src/main.rs:570-588 | One tick: input, then physics, then the collision pass, then the wall step. The invariant is kept, and the end flag and key are never cleared. |
| RocketGame.MainState.MoveWalls | rocket-game/src/main.rs:588 | The flag and registry take one oscillator step, and the invariant is kept. |
| RocketGame.MainState.KeyDownEvent | rocket-game/src/main.rs:692-707 | The input becomes `KeyDown` of the old input. Escape, and only Escape, asks to quit. |
| RocketGame.MainState.KeyUpEvent | rocket-game/src/main.rs:709-723 | The input becomes `KeyUp` of the old input. |
| Minigrep.NewConfig | minigrep/src/lib.rs:14-25 | The error is "Not enough arguments!" if and only if fewer than three arguments are given. Otherwise query = args[1] and file = args[2], and the search is case-sensitive exactly when reading `CASE_INSENSITIVE` fails, that is, when `caseInsensitiveSet` (the variable is set to valid Unicode) is false. |
| Minigrep.Lines | minigrep/src/lib.rs:49 | No line holds a line feed. An empty text has no lines, and a non-empty text has at least one. |
| Minigrep.LinesOfJoin | minigrep/src/lib.rs:49 | Splitting recovers the terminated plain lines, in order. |
| Minigrep.ContainsIff | minigrep/src/lib.rs:50 | `contains` holds exactly when the query occurs at some index. |
| Minigrep.Lower | minigrep/src/lib.rs:59 | ASCII capitals map to their small letters; every other character is kept. |
| Minigrep.LowerStr | minigrep/src/lib.rs:59 | Lowercasing keeps the length and works character by character. |
| Minigrep.LowerStrIdempotent | minigrep/src/lib.rs:59-63 | Lowercasing twice equals lowercasing once, and leaves no ASCII capital. |
| Minigrep.ContainsLower | minigrep/src/lib.rs:58-69 | A case-sensitive occurrence remains an occurrence after both sides are lowercased. |
| Minigrep.Search | minigrep/src/lib.rs:46-56 | The result is exactly the lines that contain the query, in file order. A line is reported if and only if it is a line of the contents and contains the query. |
| Minigrep.SearchCaseInsensitive | minigrep/src/lib.rs:58-69 | The result is exactly the lines whose lowercase form contains the lowercase query, in file order. |
| Minigrep.EmptyContents | minigrep/src/lib.rs:46-69 | An empty text gives no results in either search. |
| Minigrep.EmptyQuery | minigrep/src/lib.rs:46-69 | An empty query is found in every line, so both searches report every line of the text, in order. |
| Minigrep.SensitiveWithinInsensitive | minigrep/src/lib.rs:46-69 | The case-sensitive results are the case-insensitive results filtered again by the exact query, so every case-sensitive match is also a case-insensitive one. |
| Minigrep.QueryCaseIrrelevant | minigrep/src/lib.rs:88-99 | Queries that differ only in ASCII case, like "tEsT" and "test", find the same lines. |
| Pong.Clamp | pong-game/src/main.rs:28-34 | When low ≤ high the result lies in [low, high]. A value already inside is unchanged, one below becomes low, and one above becomes high. |
| Pong.ClampIdempotent | pong-game/src/main.rs:28-34 | Clamping twice equals clamping once. |
| Pong.ClampMonotone | pong-game/src/main.rs:28-34 | Clamping preserves order. |
| Pong.Bounds | pong-game/src/main.rs:28-34 | The in-place update leaves `Clamp(value, low, high)`. |
| Pong.RandomBallVec | pong-game/src/main.rs:36-48 | Each component gets the given magnitude, with its sign chosen by its own coin. |
| Pong.ServeReachesEveryDirection | pong-game/src/main.rs:36-48 | All four diagonal serves at speed 120 are possible. |
| Pong.NewGame | pong-game/src/main.rs:60-75 | The paddles start at (10, 300) and (790, 300), the ball at the centre (400, 300) with the served velocity, and both scores at 0. This state satisfies the invariant. |
| Pong.MoveBall | pong-game/src/main.rs:87-88 | The ball advances by velocity·dt and nothing else changes. |
| Pong.Score | pong-game/src/main.rs:90-105 | A ball left of 0 scores one point for player 2, and one right of 800 one point for player 1. Either way the ball is re-served from (400, 300) at speed 120 on both axes. At most one point is scored. A ball inside the court changes nothing. |
| Pong.WallBounce | pong-game/src/main.rs:107-114 | If y < 15 the ball is put at y = 15 and moves down; if y > 585 it is put at y = 585 and moves up. The vertical speed keeps its magnitude, and the ball ends in [15, 585]. |
| Pong.PadHitIff | pong-game/src/main.rs:119-123 | The four strict comparisons are a centre-distance test: less than 25 horizontally and 65 vertically. |
| Pong.PadsExclusive | pong-game/src/main.rs:119-134 | With the paddles on x = 10 and x = 790, the ball cannot touch both at once. |
| Pong.PadBounce | pong-game/src/main.rs:117-138 | A right-paddle touch makes vx ≤ 0, and a left-only touch makes vx ≥ 0. The horizontal speed keeps its magnitude, and nothing else changes. |
| Pong.StepBallInCourt | pong-game/src/main.rs:79-141 | From any state, an update ends with the ball in [0, 800]×[15, 585]. |
| Pong.StepScores | pong-game/src/main.rs:90-105 | Scores never decrease, and at most one point is scored per update. The point goes to the player opposite the edge the ball crossed. |
| Pong.StepKeepsInvariant | pong-game/src/main.rs:79-141 | An update keeps the invariant: paddles on their columns and on screen, the ball in the court at speed 120 on both axes, scores non-negative. |
| Pong.StepBouncesAwayFromPads | pong-game/src/main.rs:117-138 | Under the invariant, a left-paddle touch leaves vx = 120 and a right-paddle touch leaves vx = -120. |
| Pong.KeyDown | pong-game/src/main.rs:145-180 | Up and Down move the left paddle, and W and S the right one, by PAD_SPEED·dt before the clamp to [50, 550]. Both paddles are clamped after every key. Their columns, the ball and the scores are unchanged. |
| Pong.KeyDownMoves | pong-game/src/main.rs:151-177 | Under the invariant and with dt ≥ 0, Up and W move a paddle exactly 1000·dt up, stopping at 50 if that step would pass it. Down and S move it exactly 1000·dt down, stopping at 550. A key for one paddle leaves the other where it was. |
| Pong.KeyDownKeepsInvariant | pong-game/src/main.rs:145-180 | A key press keeps the invariant. |
| Pong.RunKeepsInvariant | pong-game/src/main.rs:79-180 | Over any sequence of updates and key presses, the invariant holds and no score decreases. The total grows by at most one per event. |
| Pong.MainState.constructor | pong-game/src/main.rs:60-75 | The fields hold `NewGame`, which satisfies the invariant. |
| Pong.MainState.Update | pong-game/src/main.rs:79-141 | The fields become `Step` of the old state, and the invariant is kept. |
| Pong.MainState.ScorePoints | pong-game/src/main.rs:90-105 | The in-place scoring computes `Score`. |
| Pong.MainState.BounceOffWalls | pong-game/src/main.rs:107-114 | The in-place wall bounce computes `WallBounce`. |
| Pong.MainState.BounceOffPads | pong-game/src/main.rs:117-138 | The in-place paddle bounce computes `PadBounce`. |
| Pong.MainState.KeyDownEvent | pong-game/src/main.rs:145-180 | The fields become `KeyDown` of the old state, and the invariant is kept. |

## Left out

- Drawing is not modelled. This covers `draw_rocket`, `draw_objects` and both `draw` methods, which are graphics calls only.
- Asset loading, the hit sound, the one-second sleep and the quit request are host side effects. `KeyDownEvent` only reports a quit request.
- Also not modelled: `check_update_time` scheduling, the text updates in the rocket's `update`, and both games' `main`. Each rocket tick uses the fixed step 3/60 s. Pong's frame time is the `dt` parameter.
- The rocket's thrust direction (`vec_from_angle`, which uses sine and cosine) is the parameter `heading`. Floating-point trigonometry is not modelled.
- f32 rounding is not modelled: every coordinate, speed and angle is a `real`. 2π is the f32 value 6.2831855. `length() >= 30` is its squared form, `x² + y² >= 900`.
- `Rect::overlaps` belongs to ggez, whose code is not part of this model. It is given a closed-interval body, and no property depends on that body beyond its being a fixed test.
- Pong's `thread_rng` coin flips are the boolean parameters `coinX` and `coinY`. Scoring uses one pair per update, since at most one serve happens in an update.
- Pong.MainState: the scores are unbounded integers. i32 wrap-around after 2³¹ - 1 points is not modelled.
- Minigrep.Lower, Minigrep.LowerStr: lowercasing is ASCII-only, so `LowerStr` keeping the length holds only under this mapping. Unicode case mapping, including characters whose lowercase form has a different length, is not modelled.
- Minigrep.Lines: `str::lines` belongs to the standard library. It is modelled as splitting on line feeds, with an optional final terminator, and dropping a carriage return that precedes a line feed.
- Minigrep.NewConfig: `caseInsensitiveSet` means that `env::var("CASE_INSENSITIVE")` returns Ok. A variable that is set to a value that is not valid Unicode makes `env::var` fail, so the search is then case-sensitive. The model does not distinguish that case from an unset variable.
- Not modelled: minigrep's `run` (reading the file, printing) and `main` (argument collection, `process::exit`). The `CASE_INSENSITIVE` lookup is the parameter `caseInsensitiveSet`.
- The minigrep unit tests' sample text is not evaluated as a concrete instance. The searches are specified for every query and text instead.
- The Rust tutorial files in the repository are printing demos and are not modelled.
- Some of the methods that update `MainState` in place are split into helper methods that mirror the source's commented sections: `CollideObjects`, `HitObjectStep`, `CollectFuel`, `EraseCheckpointWalls` and `MoveWalls` in the rocket game, and `ScorePoints`, `BounceOffWalls` and `BounceOffPads` in Pong. Each helper performs the same statements in the same order.
