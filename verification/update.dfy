/**
 The per-frame update: paddles, ball translation, wall bounce, paddle hit
 and scoring, in that order, and a run of consecutive frames.
 */
module Update {
  import opened PongState
  import opened Collide
  import opened Paddles
  import opened BallMotion

  /**
   Steps 1 to 4 of a tick: the player's paddle follows the keys, the
   computer's paddle follows the ball's height before the ball moves, then
   the ball moves and bounces off the top and bottom walls.
   */
  function Advance(g: Game, c: Canvas, up: bool, down: bool): Game {
    Game(
      MovePlayer(g.player, up, down, c),
      MoveComputer(g.computer, g.ball.y, c),
      WallBounce(Translate(g.ball), c),
      g.playerScore, g.computerScore)
  }

  /** The ball overlaps the paddle of the half of the canvas it is in. */
  predicate PaddleContact(g: Game, c: Canvas) {
    Collision(g.ball, SelectPaddle(g.ball, g.player, g.computer, c))
  }

  /** Step 5 of a tick: the paddle hit. */
  function Strike(g: Game, c: Canvas, t: Trig): Game {
    g.(ball := PaddleHit(g.ball, g.player, g.computer, c, t))
  }

  /** The ball is past the left or the right edge of the canvas. */
  predicate Scoring(g: Game, c: Canvas) {
    g.ball.Left() < 0.0 || g.ball.Right() > c.width
  }

  /**
   Step 6 of a tick: a ball past the left edge is a point for the computer,
   otherwise a ball past the right edge is a point for the player; either
   way the ball is reset. At most one point is scored.
   */
  function Score(g: Game, c: Canvas): (r: Game)
    ensures r.player == g.player && r.computer == g.computer
    ensures g.ball.Left() < 0.0 ==>
      r.computerScore == g.computerScore + 1 && r.playerScore == g.playerScore
    ensures g.ball.Left() >= 0.0 && g.ball.Right() > c.width ==>
      r.playerScore == g.playerScore + 1 && r.computerScore == g.computerScore
    ensures Scoring(g, c) ==> r.ball == ResetBall(g.ball, c)
    ensures !Scoring(g, c) ==> r == g
  {
    if g.ball.Left() < 0.0 then
      g.(computerScore := g.computerScore + 1, ball := ResetBall(g.ball, c))
    else if g.ball.Right() > c.width then
      g.(playerScore := g.playerScore + 1, ball := ResetBall(g.ball, c))
    else
      g
  }

  /** One frame of the game with the given keys held. */
  function Tick(g: Game, c: Canvas, t: Trig, up: bool, down: bool): (r: Game)
    ensures r.playerScore >= g.playerScore && r.computerScore >= g.computerScore
    ensures r.playerScore + r.computerScore <= g.playerScore + g.computerScore + 1
    ensures r.player.x == g.player.x && r.player.dy == g.player.dy
    ensures r.computer.x == g.computer.x && r.computer.dy == g.computer.dy
    ensures r.ball.radius == g.ball.radius
  {
    Score(Strike(Advance(g, c, up, down), c, t), c)
  }

  /** Consecutive frames, one per entry of `keys`. */
  function Run(g: Game, c: Canvas, t: Trig, keys: seq<Keys>): (r: Game)
    ensures r.playerScore >= g.playerScore && r.computerScore >= g.computerScore
    ensures r.playerScore + r.computerScore <= g.playerScore + g.computerScore + |keys|
    ensures r.player.x == g.player.x && r.player.dy == g.player.dy
    ensures r.computer.x == g.computer.x && r.computer.dy == g.computer.dy
    ensures r.ball.radius == g.ball.radius
    decreases |keys|
  {
    if |keys| == 0 then g else Run(Tick(g, c, t, keys[0].up, keys[0].down), c, t, keys[1..])
  }

  /** The frame scores a point: the ball is past a side edge after the paddle hit. */
  predicate PointScored(g: Game, c: Canvas, t: Trig, up: bool, down: bool) {
    Scoring(Strike(Advance(g, c, up, down), c, t), c)
  }

  /** The frame's ball touches a paddle. */
  predicate PaddleTouched(g: Game, c: Canvas, up: bool, down: bool) {
    PaddleContact(Advance(g, c, up, down), c)
  }

  /** How many frames of the run score a point. */
  function PointCount(g: Game, c: Canvas, t: Trig, keys: seq<Keys>): nat
    decreases |keys|
  {
    if |keys| == 0 then 0
    else
      (if PointScored(g, c, t, keys[0].up, keys[0].down) then 1 else 0)
      + PointCount(Tick(g, c, t, keys[0].up, keys[0].down), c, t, keys[1..])
  }

  /** How many frames of the run have the ball touch a paddle. */
  function HitCount(g: Game, c: Canvas, t: Trig, keys: seq<Keys>): nat
    decreases |keys|
  {
    if |keys| == 0 then 0
    else
      (if PaddleTouched(g, c, keys[0].up, keys[0].down) then 1 else 0)
      + HitCount(Tick(g, c, t, keys[0].up, keys[0].down), c, t, keys[1..])
  }

  /** No frame of the run scores a point. */
  predicate NoPointIn(g: Game, c: Canvas, t: Trig, keys: seq<Keys>)
    decreases |keys|
  {
    |keys| == 0 ||
    (!PointScored(g, c, t, keys[0].up, keys[0].down)
     && NoPointIn(Tick(g, c, t, keys[0].up, keys[0].down), c, t, keys[1..]))
  }

  /** The player's paddle over a run, driven by the keys alone. */
  function PlayerPath(p: Paddle, c: Canvas, keys: seq<Keys>): Paddle
    decreases |keys|
  {
    if |keys| == 0 then p else PlayerPath(MovePlayer(p, keys[0].up, keys[0].down, c), c, keys[1..])
  }
}
