# Pingo: the update rules of a two-player Pong clone, in Dafny

Pingo is a Pong clone written in Go on top of raylib. Two paddles and a ball
move inside a 1280 × 720 window, and each player has a score. In every frame
the game does four things in order:

1. It moves both paddles from the keys that are held.
2. It moves the ball. It reflects the ball off the window borders and pushes
   it off the paddles.
3. It checks for a goal. A goal scores a point and respawns the ball.
4. It draws the frame.

This project models the first three steps (file `cmd/pingo/pingo.go`).

- `geometry.dfy` (module `Geometry`): raylib's value types `Vector2` and
  `Rectangle`, and the two vector operations the game uses. raylib's
  normalisation and its circle/rectangle overlap test are function-typed
  parameters (`Normalizer`, `CircleRecTest`). The model defines neither.
- `pingo.dfy` (module `Pingo`): the constants, the `Ball` and `Stats` structs
  as datatypes, and one function per update routine that says what the
  routine computes from the state before it runs. The game's promises are
  proved about these functions: bounds, frame conditions, the goal cases,
  monotone scores and the paddle speed limit.
- `pingo_state.dfy` (module `PingoState`): the routines as the game runs them.
  The game passes the ball, the score and each paddle by pointer and updates
  their fields one statement at a time. In the model each of these is a
  class (`BallRef`, `StatsRef`, `RectangleRef`). Each routine is a method with
  a `modifies` clause, and its postcondition says that the new state is
  exactly what the matching `Pingo` function computes from the old state.

The game's float32 values are abstracted to exact reals, and every
comparison, clamp and sign flip is modelled over those reals. Sign flips and
the assignments of constant-derived coordinates are exact in float32 too;
sums such as the ball's step are not, and `Speed` under "## Left out" is the
known place where the two readings differ. The constants are untyped
in Go, and `windowWidth/2 - ballSize/2` evaluates to 632 whether it is read as
integer or real division.

Points of the goal logic worth knowing:

- The left goal test compares the ball's x with the constant `ballSize`, not
  with `ball.size`; the right test uses `ball.size`.
- At most one goal scores per `checkGoal` call, because a respawned ball sits
  at x = 632, which is on neither goal line.
- A goal fires as soon as the ball's centre is within `ballSize` of a side
  wall. The ball does not have to leave the window. The border clamp puts the
  centre exactly on that line, so a ball that reaches a side wall without
  touching a paddle always scores in the same frame.

## Model

| member | source | states |
|---|---|---|
| `Pingo.Heading` | cmd/pingo/pingo.go:32-35 | The vertical heading before normalisation, `draw*5 - 2.5`, lies in the half-open range [-2.5, 2.5). The draw can be recovered from it. |
| `Pingo.Speed` | cmd/pingo/pingo.go:36 | The spawn speed `draw*6 + 4` lies in [4, 10) for a draw in [0, 1). The draw can be recovered from it. |
| `Pingo.CreateBall` | cmd/pingo/pingo.go:28-37 | A spawned ball is centred at (632, 352) and has size `ballSize`. Its speed is `Speed` of the second draw, so in [4, 10). Its direction is the normalisation of (1, `Heading` of the first draw), whose second component lies in [-2.5, 2.5). It stands on neither goal line. |
| `Pingo.AfterGoalCheck` | cmd/pingo/pingo.go:45-54 | Exactly one of three cases happens. A left goal adds 1 to player 2 only and respawns the ball. Otherwise a right goal adds 1 to player 1 only and respawns the ball. Otherwise the ball and the score are unchanged. Neither counter decreases, and their sum rises by at most 1. Afterwards the ball is on neither goal line. |
| `PingoState.CheckGoal` | cmd/pingo/pingo.go:45-54 | The two sequential tests, run in place on the ball and the score, leave exactly the ball and score `AfterGoalCheck` gives. |
| `Pingo.ControlsOf` | cmd/pingo/pingo.go:110-115 | Player 1 moves with W (up) and S (down), player 2 with the up and down arrow keys. Each player's up and down keys are distinct. |
| `Pingo.MovePlayer` | cmd/pingo/pingo.go:117-131 | Only Y changes. If the paddle is no taller than the window, it ends inside the window at the point of [0, 720 - Height] nearest to the key target (down +8, then up -8). In particular, at Y = 0 with only "up" held it stays at 0. A taller paddle ends at 720 - Height. Both keys held, or none held, leaves an in-window paddle where it was. An in-window paddle moves at most 8. |
| `PingoState.UpdatePlayerPosition` | cmd/pingo/pingo.go:109-131 | Selecting the keys, the two moves and the two clamps, run in place on the paddle, give exactly `MovePlayer` with that player's keys. |
| `Pingo.PlayerAfterFrames` | cmd/pingo/pingo.go:117-131 | Repeated updates over any sequence of key states keep X, Width and Height. A paddle no taller than the window is inside it after the first update and stays inside it, however the keys push it. |
| `Pingo.PaddleSpeedLimit` | cmd/pingo/pingo.go:117-131 | A paddle that starts inside the window is at most 8 × n from its start after n updates. |
| `Pingo.GamePaddlesStayInArena` | cmd/pingo/pingo.go:141-153 | Both paddles as the game creates them stay inside the window for any key sequence. |
| `Pingo.BounceAxis` | cmd/pingo/pingo.go:61-79 | On one axis, the heading changes only in sign. For a standard-size ball the coordinate ends between `ballSize` and limit - size. A coordinate below `ballSize` is set to it, and one past the far wall is set to limit - size, each with the heading flipped. An inside coordinate and its heading are untouched. |
| `Pingo.ReflectOffBorders` | cmd/pingo/pingo.go:60-79 | The four border checks keep each heading component's magnitude. For a standard-size ball they put the candidate inside the borders. |
| `Pingo.PushOutOfPlayer` | cmd/pingo/pingo.go:88-107 | Without overlap, the candidate and the heading are unchanged. With overlap, for a paddle of non-negative size, each edge that the ball's pre-move centre lies beyond puts the candidate at edge ± (`ballSize` + 1) and flips that heading component. An axis whose edges the centre lies between is untouched. With a negative width both horizontal tests fire and the heading is restored. Heading magnitudes are always kept. |
| `PingoState.UpdateBallPositionPlayerCollision` | cmd/pingo/pingo.go:88-107 | The in-place correction never changes the ball's position, size or speed. The returned candidate and the new heading are exactly what `PushOutOfPlayer` gives. |
| `Pingo.PushClearsEdge` | cmd/pingo/pingo.go:90-105 | After a correction, the candidate circle of radius `ballSize` lies strictly beyond the paddle edge it was pushed past. |
| `Pingo.CornerHitCorrectsBothAxes` | cmd/pingo/pingo.go:90-105 | If the pre-move centre lies beyond a horizontal and a vertical edge at once, one call corrects and flips both axes. |
| `Pingo.MoveBall` | cmd/pingo/pingo.go:56-86 | A ball update never changes size or speed, and changes each heading component only in sign. A standard ball that overlaps no paddle ends inside the borders. |
| `PingoState.UpdateBallPosition` | cmd/pingo/pingo.go:56-86 | The candidate step, the four border checks, the two paddle corrections and the final commit, run in place on the ball, leave exactly the ball `MoveBall` gives. |
| `Pingo.GoalExactlyWhenStepReachesWall` | cmd/pingo/pingo.go:46-79 | A standard ball that overlaps no paddle stands on the left goal line after its update if and only if its unclamped step reached x ≤ `ballSize`. It stands on the right goal line if and only if its step reached x + `ballSize` ≥ 1280. |
| `Pingo.LeftBorderBounce` | cmd/pingo/pingo.go:61-64 | A ball at x = `ballSize` moving left at speed 5 stays at x = `ballSize` and turns to move right. |

## Left out

- `main`: window setup, the frame loop and all drawing are display I/O with no checkable behaviour. Only the starting paddles from `main` appear, in `GamePaddlesStayInArena`.
- `rl.IsKeyDown` becomes the parameter `isKeyDown`, the key state of the frame.
- `rand.Float32` becomes the `Draws` parameter, two values in [0, 1). The generator itself is not modelled.
- `rl.Vector2Normalize` becomes the `normalize` parameter. The model does not claim that the direction has unit length, because that is a floating-point square-root property.
- `rl.CheckCollisionCircleRec` becomes the `collides` parameter, an arbitrary test. Its geometry is not modelled. For this reason the outward-push property is stated as clearance of the edge, not as a second overlap test.
- float32 rounding is not modelled. In particular, `Speed`'s bound below 10 holds over the reals only. In float32 the largest draw is 1 - 2^-24. Multiplying it by 6 rounds to 6 - 2^-21. Adding 4 gives 10 - 2^-21, which lies exactly halfway between two float32 values, and round-half-to-even then gives 10.
- Score counters are unbounded integers. Go's 64-bit `int` wrap-around is not modelled.
- `PingoState.CheckGoal`: the model passes one `Draws` value to both `createBall` calls. The source draws afresh in each call, but at most one of them runs per call.
- `BounceAxis`: the clamp characterisation and bounds are stated only for a standard-size ball (`size == ballSize`), which is the only size the game creates. For other sizes only the heading magnitudes are stated.
- `ReflectOffBorders`: the bounds are stated only for a standard-size ball, for the same reason.
- `MoveBall`: the inside-the-borders bound is stated only when the ball overlaps no paddle. A paddle correction can push the candidate past a border, for example to x = 15 behind player 1.
- `TargetFPS` and `BallSpeed` are declared but play no part in the update rules. `BallSpeed` is never read by the program.
