/**
 Paddle movement: the player's paddle follows the arrow keys, the computer's
 paddle follows the ball. Both are gated by a bounds check before the step
 rather than clamped after it, so a paddle can end less than one step beyond the
 canvas edge but never further.
 */
module Paddles {
  import opened PongState

  /**
   The band a paddle stays in: its top edge overshoots 0, and its bottom edge
   overshoots the canvas height, by less than one step.
   */
  predicate InBand(p: Paddle, c: Canvas) {
    -p.dy < p.y < c.height - PaddleHeight + p.dy
  }

  /**
   One tick of the player's paddle. "Up" is tried first, so with both keys
   held and the paddle below the top edge (y > 0), the paddle moves up.
   */
  function MovePlayer(p: Paddle, up: bool, down: bool, c: Canvas): (r: Paddle)
    ensures r.x == p.x && r.dy == p.dy
    ensures r.y == p.y - p.dy || r.y == p.y + p.dy || r.y == p.y
    ensures up && p.Top() > 0.0 ==> r.y == p.y - p.dy
    ensures !up && !down ==> r == p
    ensures p.dy > 0.0 ==> (r.y < p.y <==> up && p.Top() > 0.0)
    ensures p.dy > 0.0 ==> (r.y > p.y <==> !(up && p.Top() > 0.0) && down && p.Bottom() < c.height)
    ensures p.dy > 0.0 && InBand(p, c) ==> InBand(r, c)
  {
    if up && p.Top() > 0.0 then
      p.(y := p.y - p.dy)
    else if down && p.Bottom() < c.height then
      p.(y := p.y + p.dy)
    else
      p
  }

  /**
   One tick of the computer's paddle, tracking the ball's height `ballY`
   with no prediction and no dead zone.
   */
  function MoveComputer(p: Paddle, ballY: real, c: Canvas): (r: Paddle)
    ensures r.x == p.x && r.dy == p.dy
    ensures r.y == p.y - p.dy || r.y == p.y + p.dy || r.y == p.y
    ensures p.CentreY() == ballY ==> r == p
    ensures p.dy > 0.0 ==> (r.y > p.y <==> p.CentreY() < ballY && p.Bottom() < c.height)
    ensures p.dy > 0.0 ==> (r.y < p.y <==> p.CentreY() > ballY && p.Top() > 0.0)
    ensures p.dy > 0.0 && InBand(p, c) ==> InBand(r, c)
  {
    if p.CentreY() < ballY && p.Bottom() < c.height then
      p.(y := p.y + p.dy)
    else if p.CentreY() > ballY && p.Top() > 0.0 then
      p.(y := p.y - p.dy)
    else
      p
  }
}
