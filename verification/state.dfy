/**
 The game state of the Pong update step: the two paddles, the ball, the two
 scores, the canvas the game is played on, and the trigonometry the paddle
 deflection relies on.

 All quantities are Dafny reals; the floating-point rounding of `script.js`
 is not modelled.
 */
module PongState {

  /** Paddle geometry, shared by both paddles. */
  const PaddleWidth: real := 10.0
  const PaddleHeight: real := 100.0

  /** Vertical step per tick of the player's and of the computer's paddle. */
  const PlayerStep: real := 6.0
  const ComputerStep: real := 5.0

  /** The ball's radius, and the speed it has at the start and after every point. */
  const BallRadius: real := 10.0
  const BaseSpeed: real := 5.0

  /** What every paddle hit adds to the ball's speed. */
  const SpeedIncrement: real := 0.5

  /** The canvas dimensions, read from the page and fixed for a game. */
  datatype Canvas = Canvas(width: real, height: real) {
    function MidX(): real { width / 2.0 }
    function MidY(): real { height / 2.0 }
  }

  /** A canvas the game can be played on: it has some width and fits a paddle. */
  predicate ValidCanvas(c: Canvas) {
    c.width > 0.0 && c.height >= PaddleHeight
  }

  /** A paddle: its left edge `x` never moves, its top edge `y` moves by `dy` per step. */
  datatype Paddle = Paddle(x: real, y: real, dy: real) {
    function Top(): real { y }
    function Bottom(): real { y + PaddleHeight }
    function Left(): real { x }
    function Right(): real { x + PaddleWidth }
    function CentreY(): real { y + PaddleHeight / 2.0 }
  }

  /** The ball: centre, radius, scalar speed and velocity per tick. */
  datatype Ball = Ball(x: real, y: real, radius: real, speed: real, dx: real, dy: real) {
    function Top(): real { y - radius }
    function Bottom(): real { y + radius }
    function Left(): real { x - radius }
    function Right(): real { x + radius }
  }

  /** Everything the update step changes. */
  datatype Game = Game(player: Paddle, computer: Paddle, ball: Ball, playerScore: nat, computerScore: nat)

  /** The keys held during one tick. */
  datatype Keys = Keys(up: bool, down: bool)

  /**
   `Math.PI`, `Math.cos` and `Math.sin`, left uninterpreted: the model is
   parametric in them and `ValidTrig` lists the only facts it relies on.
   */
  datatype Trig = Trig(pi: real, cos: real -> real, sin: real -> real) {
    function Cos(a: real): real { cos(a) }
    function Sin(a: real): real { sin(a) }
  }

  ghost predicate ValidTrig(t: Trig) {
    && t.pi > 0.0
    && t.Cos(0.0) == 1.0
    && t.Sin(0.0) == 0.0
    && (forall a :: -t.pi / 2.0 < a < t.pi / 2.0 ==> t.Cos(a) > 0.0)
    && (forall a :: t.Cos(a) * t.Cos(a) + t.Sin(a) * t.Sin(a) == 1.0)
  }

  /** The state at page load: paddles and ball centred vertically, no points yet. */
  function Initial(c: Canvas): (g: Game)
    ensures g.playerScore == 0 && g.computerScore == 0
    ensures g.player.CentreY() == c.MidY() && g.computer.CentreY() == c.MidY()
    ensures g.player.Left() == 0.0 && g.computer.Right() == c.width
    ensures g.ball.x == c.MidX() && g.ball.y == c.MidY()
    ensures g.ball.speed == BaseSpeed && g.ball.radius == BallRadius
    ensures g.ball.dx == 5.0 && g.ball.dy == 5.0
    ensures g.player.dy == PlayerStep && g.computer.dy == ComputerStep
  {
    Game(
      Paddle(0.0, c.height / 2.0 - PaddleHeight / 2.0, PlayerStep),
      Paddle(c.width - PaddleWidth, c.height / 2.0 - PaddleHeight / 2.0, ComputerStep),
      Ball(c.width / 2.0, c.height / 2.0, BallRadius, BaseSpeed, 5.0, 5.0),
      0, 0)
  }
}
