/**
 Concrete frames on an 800 by 600 canvas with the paddles where the game
 starts them.
 */
module Scenarios {
  import opened PongState
  import opened Paddles
  import opened BallMotion
  import opened Update

  /** The start positions of both paddles on an 800 by 600 canvas. */
  function StartGame(b: Ball): Game {
    Game(Paddle(0.0, 250.0, PlayerStep), Paddle(790.0, 250.0, ComputerStep), b, 0, 0)
  }

  /** A paddle at the top edge with only "up" held stays there. */
  lemma UpAtTopStays(p: Paddle, c: Canvas)
    requires p.y == 0.0
    ensures MovePlayer(p, true, false, c) == p
  {
  }

  /** With both keys held, a paddle below the top edge moves up. */
  lemma BothKeysMoveUp(p: Paddle, c: Canvas)
    requires p.y > 0.0
    ensures MovePlayer(p, true, true, c).y == p.y - p.dy
  {
  }

  /** A ball crossing the bottom wall away from both paddles has its vertical velocity reversed and nothing else. */
  lemma BottomWallBounce(c: Canvas, t: Trig)
    requires c == Canvas(800.0, 600.0)
    ensures
      var r := Tick(StartGame(Ball(400.0, 590.0, 10.0, 5.0, 5.0, 5.0)), c, t, false, false);
      && r.ball == Ball(405.0, 595.0, 10.0, 5.0, 5.0, -5.0)
      && r.playerScore == 0 && r.computerScore == 0
  {
  }

  /** A ball leaving past the left edge gives the computer a point and is served back from the centre. */
  lemma LeftEdgePoint(c: Canvas, t: Trig)
    requires c == Canvas(800.0, 600.0)
    ensures
      var r := Tick(StartGame(Ball(5.0, 100.0, 10.0, 5.0, -5.0, 5.0)), c, t, false, false);
      && r.computerScore == 1 && r.playerScore == 0
      && r.ball == Ball(400.0, 300.0, 10.0, BaseSpeed, 5.0, 5.0)
  {
  }

  /** A dead-centre hit on the player's paddle sends the ball straight back at the old speed. */
  lemma DeadCentreHit(c: Canvas, t: Trig)
    requires c == Canvas(800.0, 600.0) && ValidTrig(t)
    ensures
      var r := Tick(StartGame(Ball(15.0, 300.0, 10.0, 5.0, -5.0, 0.0)), c, t, false, false);
      && r.ball.dx == 5.0 && r.ball.dy == 0.0 && r.ball.speed == 5.5
      && r.ball.x == 10.0 && r.ball.y == 300.0
  {
  }
}
