/**
 Ball motion: translation by the velocity, the top/bottom wall bounce, the
 deflection off a paddle and the reset after a point.
 */
module BallMotion {
  import opened PongState
  import opened Collide

  /** True when the ball's top edge is above the canvas or its bottom edge below it. */
  predicate OutsideVertically(b: Ball, c: Canvas) {
    b.Bottom() > c.height || b.Top() < 0.0
  }

  /** Moves the ball by one tick's worth of velocity. */
  function Translate(b: Ball): (r: Ball)
    ensures r.x - b.x == b.dx && r.y - b.y == b.dy
    ensures r.dx == b.dx && r.dy == b.dy && r.speed == b.speed && r.radius == b.radius
  {
    b.(x := b.x + b.dx, y := b.y + b.dy)
  }

  /** Translating forward and then with the reversed velocity returns to the start. */
  lemma TranslateReversible(b: Ball)
    ensures Translate(Translate(b).(dx := -b.dx, dy := -b.dy)).(dx := b.dx, dy := b.dy) == b
  {
  }

  /**
   The wall bounce: reverses the vertical velocity when the ball is past the
   top or bottom edge, without moving the ball back inside.
   */
  function WallBounce(b: Ball, c: Canvas): (r: Ball)
    ensures r.x == b.x && r.y == b.y && r.dx == b.dx && r.speed == b.speed && r.radius == b.radius
    ensures OutsideVertically(b, c) ==> r.dy == -b.dy
    ensures !OutsideVertically(b, c) ==> r == b
    ensures r.dx * r.dx + r.dy * r.dy == b.dx * b.dx + b.dy * b.dy
  {
    if OutsideVertically(b, c) then b.(dy := -b.dy) else b
  }

  /** The bounce leaves the ball where it is, so bouncing twice undoes it. */
  lemma WallBounceInvolution(b: Ball, c: Canvas)
    ensures WallBounce(WallBounce(b, c), c) == b
  {
  }

  /**
   The paddle the ball is checked against: the player's when the ball is in
   the left half of the canvas, the computer's otherwise.
   */
  function SelectPaddle(b: Ball, player: Paddle, computer: Paddle, c: Canvas): (p: Paddle)
    ensures p == player || p == computer
    ensures b.x < c.MidX() ==> p == player
    ensures b.x >= c.MidX() ==> p == computer
  {
    if b.x < c.MidX() then player else computer
  }

  /** +1 when the ball is in the left half (it leaves the player's paddle to the right), -1 otherwise. */
  function Direction(b: Ball, c: Canvas): (d: real)
    ensures d == 1.0 || d == -1.0
    ensures d > 0.0 <==> b.x < c.MidX()
  {
    if b.x < c.MidX() then 1.0 else -1.0
  }

  /** The deflection angle, a quarter of pi per unit of collide point. */
  function Angle(b: Ball, p: Paddle, t: Trig): real {
    (t.pi / 4.0) * CollidePoint(b, p)
  }

  lemma AngleWithinRightAngle(pi: real, cp: real, a: real)
    requires pi > 0.0 && -2.0 < cp < 2.0 && a == (pi / 4.0) * cp
    ensures -pi / 2.0 < a < pi / 2.0
  {
    var q := pi / 4.0;
    assert q > 0.0;
    assert q * (2.0 - cp) > 0.0;
    assert q * (cp + 2.0) > 0.0;
    assert a == q * cp;
    assert q * 2.0 == pi / 2.0;
  }

  /** A collide point within [-1, 1] gives an angle of at most 45 degrees either way. */
  lemma AngleAtMostQuarterPi(b: Ball, p: Paddle, t: Trig)
    requires t.pi > 0.0 && -1.0 <= CollidePoint(b, p) <= 1.0
    ensures -t.pi / 4.0 <= Angle(b, p, t) <= t.pi / 4.0
  {
    var q := t.pi / 4.0;
    var cp := CollidePoint(b, p);
    assert q * (1.0 - cp) >= 0.0;
    assert q * (cp + 1.0) >= 0.0;
    assert Angle(b, p, t) == q * cp;
  }

  /**
   The paddle hit: if the ball collides with the selected paddle, its
   velocity is rebuilt from the current speed and an angle given by where it
   hit, and the speed goes up by the fixed increment. The position is not
   touched.
   */
  function PaddleHit(b: Ball, player: Paddle, computer: Paddle, c: Canvas, t: Trig): (r: Ball)
    ensures r.x == b.x && r.y == b.y && r.radius == b.radius
    ensures !Collision(b, SelectPaddle(b, player, computer, c)) ==> r == b
    ensures Collision(b, SelectPaddle(b, player, computer, c)) ==> r.speed == b.speed + SpeedIncrement
    ensures
      var p := SelectPaddle(b, player, computer, c);
      Collision(b, p) && ValidTrig(t) && CollidePoint(b, p) == 0.0 ==>
        r.dy == 0.0 && r.dx == Direction(b, c) * b.speed
    ensures
      var p := SelectPaddle(b, player, computer, c);
      Collision(b, p) && ValidTrig(t) && b.speed > 0.0 && -2.0 < CollidePoint(b, p) < 2.0 ==>
        (b.x < c.MidX() ==> r.dx > 0.0) && (b.x >= c.MidX() ==> r.dx < 0.0)
    ensures
      Collision(b, SelectPaddle(b, player, computer, c)) && ValidTrig(t) ==>
        r.dx * r.dx + r.dy * r.dy == b.speed * b.speed
  {
    var p := SelectPaddle(b, player, computer, c);
    if Collision(b, p) then
      var angle := Angle(b, p, t);
      var r := b.(dx := Direction(b, c) * b.speed * t.Cos(angle),
                  dy := b.speed * t.Sin(angle),
                  speed := b.speed + SpeedIncrement);
      assert ValidTrig(t) ==> r.dx * r.dx + r.dy * r.dy == b.speed * b.speed by {
        if ValidTrig(t) {
          VelocityMagnitude(Direction(b, c), b.speed, t.Cos(angle), t.Sin(angle));
        }
      }
      assert ValidTrig(t) && b.speed > 0.0 && -2.0 < CollidePoint(b, p) < 2.0 ==> r.dx * Direction(b, c) > 0.0 by {
        if ValidTrig(t) && b.speed > 0.0 && -2.0 < CollidePoint(b, p) < 2.0 {
          DeflectionKeepsDirection(Direction(b, c), b.speed, t, CollidePoint(b, p), angle);
        }
      }
      r
    else
      b
  }

  lemma DeflectionKeepsDirection(d: real, s: real, t: Trig, cp: real, a: real)
    requires d == 1.0 || d == -1.0
    requires ValidTrig(t) && s > 0.0 && -2.0 < cp < 2.0 && a == (t.pi / 4.0) * cp
    ensures d * s * t.Cos(a) * d > 0.0
  {
    AngleWithinRightAngle(t.pi, cp, a);
    assert t.Cos(a) > 0.0;
    assert s * t.Cos(a) > 0.0;
  }

  lemma VelocityMagnitude(d: real, s: real, co: real, si: real)
    requires d == 1.0 || d == -1.0
    requires co * co + si * si == 1.0
    ensures (d * s * co) * (d * s * co) + (s * si) * (s * si) == s * s
  {
    calc {
      (d * s * co) * (d * s * co) + (s * si) * (s * si);
      (d * d) * (s * s) * (co * co) + (s * s) * (si * si);
      (s * s) * (co * co + si * si);
      s * s;
    }
  }

  /**
   The ball reset after a point: back to the centre of the canvas, serving
   in the opposite horizontal direction at the base speed. The vertical
   velocity is kept from before the reset.
   */
  function ResetBall(b: Ball, c: Canvas): (r: Ball)
    ensures r.x == c.MidX() && r.y == c.MidY()
    ensures r.dx == -b.dx && r.dy == b.dy && r.radius == b.radius
    ensures r.speed == BaseSpeed
  {
    b.(x := c.width / 2.0, y := c.height / 2.0, dx := -b.dx, speed := BaseSpeed)
  }

  /** Two resets in a row serve in the original direction again and change nothing else. */
  lemma ResetTwiceRestoresDirection(b: Ball, c: Canvas)
    ensures ResetBall(ResetBall(b, c), c).dx == b.dx
    ensures ResetBall(ResetBall(b, c), c) == b.(x := c.MidX(), y := c.MidY(), speed := BaseSpeed)
  {
  }
}
