/**
 The paddle/ball overlap test: the ball's bounding square against the paddle
 rectangle, strict on all four sides.
 */
module Collide {
  import opened PongState

  /** The test the update step uses to decide whether the ball hits a paddle. */
  predicate Collision(b: Ball, p: Paddle) {
    p.Left() < b.Right() && p.Right() > b.Left() && p.Top() < b.Bottom() && p.Bottom() > b.Top()
  }

  /** The point lies strictly inside the ball's bounding square. */
  ghost predicate InsideBall(b: Ball, px: real, py: real) {
    b.Left() < px < b.Right() && b.Top() < py < b.Bottom()
  }

  /** The point lies strictly inside the paddle rectangle. */
  ghost predicate InsidePaddle(p: Paddle, px: real, py: real) {
    p.Left() < px < p.Right() && p.Top() < py < p.Bottom()
  }

  function Max(a: real, b: real): real { if a < b then b else a }
  function Min(a: real, b: real): real { if a < b then a else b }

  /**
   The collision test agrees with the geometric meaning of overlap: the two
   open boxes share an interior point. Boxes that only touch along an edge or
   at a corner share none, so they do not collide.
   */
  lemma CollisionIffSharedPoint(b: Ball, p: Paddle)
    requires b.radius > 0.0
    ensures Collision(b, p) <==> exists px, py :: InsideBall(b, px, py) && InsidePaddle(p, px, py)
  {
    if Collision(b, p) {
      var px := (Max(b.Left(), p.Left()) + Min(b.Right(), p.Right())) / 2.0;
      var py := (Max(b.Top(), p.Top()) + Min(b.Bottom(), p.Bottom())) / 2.0;
      assert InsideBall(b, px, py) && InsidePaddle(p, px, py);
    }
  }

  /** A ball whose square only touches the paddle's edge does not collide with it. */
  lemma TouchingIsNotCollision(b: Ball, p: Paddle)
    requires b.Right() == p.Left() || b.Left() == p.Right() || b.Bottom() == p.Top() || b.Top() == p.Bottom()
    ensures !Collision(b, p)
  {
  }

  /**
   Where on the paddle the ball hit, normalised so that the paddle's top
   edge is -1, its centre 0 and its bottom edge 1. It is not clamped.
   */
  function CollidePoint(b: Ball, p: Paddle): (cp: real)
    ensures cp == 0.0 <==> b.y == p.CentreY()
    ensures cp < 0.0 <==> b.y < p.CentreY()
  {
    (b.y - p.CentreY()) / (PaddleHeight / 2.0)
  }

  /**
   On a collision the collide point stays within the paddle's half-height
   widened by the ball's radius: it can exceed [-1, 1] by at most 2r/height.
   */
  lemma CollidePointBounded(b: Ball, p: Paddle)
    requires Collision(b, p)
    ensures -1.0 - 2.0 * b.radius / PaddleHeight < CollidePoint(b, p) < 1.0 + 2.0 * b.radius / PaddleHeight
  {
  }
}
