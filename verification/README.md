# Pong update step in Dafny

This project models the simulation core of a browser Pong game: the
per-frame `update()` of `script.js`. Each frame it:

1. moves the player's paddle by the arrow keys;
2. moves the computer's paddle towards the ball;
3. moves the ball;
4. bounces the ball off the top and bottom walls;
5. deflects the ball off the paddle of the half it is in, and speeds it up;
6. scores a point and re-serves the ball when it leaves past a side edge.

The state is an immutable `Game` record with two `Paddle`s, a `Ball` and two
scores. Its quantities are Dafny reals. One frame is the pure function
`Update.Tick(game, canvas, trig, up, down)`, and `Update.Run` applies it
once per entry of a sequence of key states.

Three things from outside the core are parameters:

- The canvas size comes from the page, so it is a `Canvas(width, height)`
  parameter. `ValidCanvas` asks for a positive width and a height of at
  least one paddle.
- `Math.PI`, `Math.cos` and `Math.sin` are the fields of a `Trig` parameter.
  `ValidTrig` lists the only facts the proofs use: pi > 0, cos 0 = 1,
  sin 0 = 0, cos a > 0 for |a| < pi/2, and cos² a + sin² a = 1.
- The two arrow-key flags are the booleans `up` and `down` of `Tick`.

Modules:

- `PongState` (state.dfy): constants, records, the initial state.
- `Collide` (collision.dfy): the overlap test and the collide point.
- `Paddles` (paddles.dfy): paddle movement.
- `BallMotion` (ball.dfy): translation, bounce, deflection and reset.
- `Update` (update.dfy): one frame and a run of frames.
- `Invariants` (invariants.dfy): what holds over every reachable state.
- `Scenarios` (scenarios.dfy): concrete frames on an 800 by 600 canvas.

Two consequences of `script.js` that the model makes explicit:

- A paddle is not confined to `[0, height - paddle height]`. It moves
  whenever it has not yet reached an edge (y > 0 going up, bottom < height
  going down), so it can end less than one step beyond that edge. `Invariants.PlayerOvershootsTop` shows a reachable state with
  the player's paddle 2 units above the canvas. The bound that does hold is
  `Paddles.InBand`: the paddle is within one step of the canvas on each side.
- `speed` is not the velocity's magnitude. A paddle hit rebuilds the velocity
  from the current speed and only then adds the increment, so after a hit
  the magnitude is `speed - 0.5`. At the start the velocity is (5, 5) with
  speed 5 (`Invariants.SpeedIsNotVelocityMagnitude`).

## Model

| member | source | states |
|---|---|---|
| `PongState.Initial` | script.js:6-34 | At page load both paddles are centred vertically and sit on their edges, with steps 6 (player) and 5 (computer). The ball is at the canvas centre with radius 10, speed 5 and velocity (5, 5). Both scores are 0. |
| `Collide.CollisionIffSharedPoint` | script.js:59-71 | The collision test holds exactly when the ball's bounding square and the paddle rectangle, both taken as open boxes, share an interior point. |
| `Collide.TouchingIsNotCollision` | script.js:59-71 | A ball whose square only touches a paddle edge does not collide: all four comparisons are strict. |
| `Collide.CollidePoint` | script.js:111-113 | The normalised hit offset is zero exactly at the paddle's centre and negative exactly above it. |
| `Collide.CollidePointBounded` | script.js:109-113 | On a collision the collide point lies strictly between -(1 + 2·radius/paddle height) and 1 + 2·radius/paddle height. That is (-1.2, 1.2) for the game's radius 10, and nothing clamps it to [-1, 1]. |
| `Paddles.MovePlayer` | script.js:84-89 | The player's paddle moves by exactly -dy, +dy or 0. For a positive step it moves up exactly when up is held and y > 0. It moves down exactly when that is not the case, down is held and its bottom is above the canvas height. Otherwise it stays. So up wins over down. With no key held nothing changes. x and dy never change. The band of one step around the canvas is preserved. |
| `Paddles.MoveComputer` | script.js:91-96 | The computer's paddle moves down exactly when its centre is above the ball and its bottom is inside the canvas. It moves up exactly when its centre is below the ball and its top is below the canvas top edge (y > 0). With its centre level with the ball it stays put. The one-step band is preserved. |
| `BallMotion.Translate` | script.js:98-100 | The ball's displacement is its velocity. Velocity, speed and radius are unchanged. |
| `BallMotion.TranslateReversible` | script.js:98-100 | Translating with the reversed velocity undoes a translation. |
| `BallMotion.WallBounce` | script.js:102-105 | dy is negated when the ball is past the top or the bottom wall, and nothing changes otherwise. The position is never corrected. The squared velocity magnitude is preserved. |
| `BallMotion.WallBounceInvolution` | script.js:102-105 | Bouncing twice gives back the original ball, because the bounce does not move the ball. |
| `BallMotion.SelectPaddle` | script.js:108 | The candidate paddle is the player's in the left half of the canvas and the computer's otherwise. |
| `BallMotion.Direction` | script.js:117 | The horizontal direction after a hit is +1 or -1, and it is positive exactly in the left half. |
| `BallMotion.AngleAtMostQuarterPi` | script.js:111-115 | A collide point within [-1, 1] gives a deflection angle within [-pi/4, pi/4]. |
| `BallMotion.DeflectionKeepsDirection` | script.js:115-119 | For a collide point strictly between -2 and 2 and a positive speed, the new dx has the sign of the direction. |
| `BallMotion.PaddleHit` | script.js:107-123 | Position and radius are unchanged. Without a collision nothing changes. On a hit the speed rises by exactly 0.5. A dead-centre hit gives dy = 0 and dx = ±speed. For a collide point within (-2, 2) the new dx points away from the paddle. The new velocity's magnitude is the speed before the increment. |
| `BallMotion.ResetBall` | script.js:74-79 | The reset ball is at the canvas centre with base speed and reversed dx. Its dy and radius are kept. |
| `BallMotion.ResetTwiceRestoresDirection` | script.js:74-79 | Two resets serve in the original direction, so the reset only alternates the serve direction. |
| `Update.Score` | script.js:125-132 | A ball past the left edge scores for the computer, even if it is also past the right edge. Otherwise a ball past the right edge scores for the player. Either way exactly one score rises by 1 and the ball is reset. Without a score nothing changes. |
| `Update.Tick` | script.js:83-133 | Within one frame neither score decreases and at most one point is scored. The paddles keep their x and step, and the ball keeps its radius. |
| `Update.Run` | script.js:152-156 | Over n frames neither score decreases, at most n points are scored, and the fixed fields stay fixed. |
| `Invariants.InitialInv` | script.js:6-34 | The initial state lies within the invariant: paddles on their sides with their steps, inside the one-step band, ball radius 10, speed at least the base speed. |
| `Invariants.TickPreservesInv` | script.js:83-133 | Every frame preserves the invariant. |
| `Invariants.RunPreservesInv` | script.js:152-156 | Every run of frames preserves the invariant. |
| `Invariants.ReachableInv` | script.js:6-34 | Every state reachable from the start satisfies the invariant. |
| `Invariants.HitSendsBallAway` | script.js:107-123 | In a reachable state a paddle hit sends the ball rightwards off the player's paddle and leftwards off the computer's, and raises the speed by 0.5. |
| `Invariants.TickSpeed` | script.js:107-132 | A scoring frame leaves the speed at 5. A non-scoring frame with a paddle hit adds 0.5 to it, and any other frame keeps it. |
| `Invariants.SpeedCountsHits` | script.js:122 | Over a run without points, the speed rises by 0.5 per paddle hit. From the start this gives 5 + 0.5·N after N hits. |
| `Invariants.TickPoints` | script.js:125-132 | The total score rises by exactly 1 in a scoring frame and by 0 otherwise. |
| `Invariants.ScoresCountPoints` | script.js:125-132 | Over a run the total score rises by exactly the number of scoring frames. |
| `Invariants.PlayerIgnoresBall` | script.js:84-89 | The player's paddle depends only on the keys, never on the ball or the computer's paddle. |
| `Invariants.HoldingUpClimbs` | script.js:85-86 | Holding up moves the paddle one full step per frame while it is still below the top edge. |
| `Invariants.PlayerOvershootsTop` | script.js:85-86 | On a 600-unit-high canvas, holding up for 42 frames from the start puts the player's paddle at y = -2, outside [0, height - 100]. |
| `Invariants.SpeedIsNotVelocityMagnitude` | script.js:26-34 | The initial velocity's magnitude is not the initial speed. |
| `Scenarios.UpAtTopStays` | script.js:85-89 | A paddle at y = 0 with only up held does not move. |
| `Scenarios.BothKeysMoveUp` | script.js:85-89 | With both keys held, a paddle below the top edge moves up. |
| `Scenarios.BottomWallBounce` | script.js:99-105 | A ball crossing the bottom wall away from both paddles has dy 5 turned into -5. dx is unchanged and no point is scored. |
| `Scenarios.LeftEdgePoint` | script.js:126-128 | A ball past the left edge gives the computer exactly one point and is re-served from (400, 300) with reversed dx, the same dy and speed 5. |
| `Scenarios.DeadCentreHit` | script.js:108-123 | A dead-centre hit on the player's paddle gives dx = 5, dy = 0 and speed 5.5, with the position unchanged. |

## Left out

- Drawing (`drawRect`, `drawCircle`, `drawText`, `render`, the net): canvas output with no logic.
- The colours of paddles and ball: they are used only by drawing.
- The canvas and context lookup: the canvas size is the `Canvas` parameter.
- The keyboard listeners: the key flags are the parameters of `Tick`, and a run takes a sequence of them.
- `setInterval` and `game()`: timer plumbing. `Run` stands for consecutive frames.
- IEEE floating-point rounding: the model uses exact reals.
- The actual values of `Math.PI`, `Math.cos` and `Math.sin`: only the facts in `ValidTrig` are assumed.
- The `top`/`bottom`/`left`/`right` fields that `collision` writes onto its arguments: nothing else reads them, so `Collision` is a pure predicate.
- Paddle `width` and `height`: both paddles are given the same constants 10 and 100 and never change them, so the model uses the constants `PaddleWidth` and `PaddleHeight` instead of record fields.
- BallMotion.PaddleHit: the away-from-the-paddle sign is stated for collide points within (-2, 2), the range where the angle is inside a right angle. `Invariants.HitSendsBallAway` shows every reachable hit is in that range.
