/**
 Properties of the update step that hold over every frame and every run of
 frames starting from the initial state.
 */
module Invariants {
  import opened PongState
  import opened Collide
  import opened Paddles
  import opened BallMotion
  import opened Update

  /**
   What every reachable state satisfies: the paddles keep their side and
   step, each paddle stays within one step of the canvas, the ball keeps its
   radius and never drops below the base speed.
   */
  ghost predicate Inv(g: Game, c: Canvas) {
    && ValidCanvas(c)
    && g.player.x == 0.0 && g.player.dy == PlayerStep
    && g.computer.x == c.width - PaddleWidth && g.computer.dy == ComputerStep
    && InBand(g.player, c) && InBand(g.computer, c)
    && g.ball.radius == BallRadius
    && g.ball.speed >= BaseSpeed
  }

  lemma InitialInv(c: Canvas)
    requires ValidCanvas(c)
    ensures Inv(Initial(c), c)
  {
  }

  lemma TickPreservesInv(g: Game, c: Canvas, t: Trig, up: bool, down: bool)
    requires Inv(g, c)
    ensures Inv(Tick(g, c, t, up, down), c)
  {
  }

  lemma {:induction false} RunPreservesInv(g: Game, c: Canvas, t: Trig, keys: seq<Keys>)
    requires Inv(g, c)
    ensures Inv(Run(g, c, t, keys), c)
    decreases |keys|
  {
    if |keys| > 0 {
      TickPreservesInv(g, c, t, keys[0].up, keys[0].down);
      RunPreservesInv(Tick(g, c, t, keys[0].up, keys[0].down), c, t, keys[1..]);
    }
  }

  /** Every state reached from the start of a game satisfies the invariant. */
  lemma ReachableInv(c: Canvas, t: Trig, keys: seq<Keys>)
    requires ValidCanvas(c)
    ensures Inv(Run(Initial(c), c, t, keys), c)
  {
    InitialInv(c);
    RunPreservesInv(Initial(c), c, t, keys);
  }

  /**
   In a reachable state a paddle hit always sends the ball away from the
   paddle it hit: rightwards off the player's paddle, leftwards off the
   computer's. The collide point there stays within (-1.2, 1.2), so the
   deflection angle stays inside a right angle.
   */
  lemma HitSendsBallAway(g: Game, c: Canvas, t: Trig, up: bool, down: bool)
    requires Inv(g, c) && ValidTrig(t)
    ensures
      var a := Advance(g, c, up, down);
      var s := Strike(a, c, t);
      PaddleContact(a, c) ==>
        && s.ball.speed == a.ball.speed + SpeedIncrement
        && (a.ball.x < c.MidX() ==> s.ball.dx > 0.0)
        && (a.ball.x >= c.MidX() ==> s.ball.dx < 0.0)
  {
    var a := Advance(g, c, up, down);
    if PaddleContact(a, c) {
      CollidePointBounded(a.ball, SelectPaddle(a.ball, a.player, a.computer, c));
    }
  }

  /** How one frame changes the ball's speed. */
  lemma TickSpeed(g: Game, c: Canvas, t: Trig, up: bool, down: bool)
    ensures
      var r := Tick(g, c, t, up, down);
      && (PointScored(g, c, t, up, down) ==> r.ball.speed == BaseSpeed)
      && (!PointScored(g, c, t, up, down) && PaddleTouched(g, c, up, down) ==>
            r.ball.speed == g.ball.speed + SpeedIncrement)
      && (!PointScored(g, c, t, up, down) && !PaddleTouched(g, c, up, down) ==>
            r.ball.speed == g.ball.speed)
  {
  }

  /** Between two points the ball's speed grows by the increment once per paddle hit. */
  lemma {:induction false} SpeedCountsHits(g: Game, c: Canvas, t: Trig, keys: seq<Keys>)
    requires NoPointIn(g, c, t, keys)
    ensures Run(g, c, t, keys).ball.speed == g.ball.speed + SpeedIncrement * HitCount(g, c, t, keys) as real
    decreases |keys|
  {
    if |keys| > 0 {
      var k := keys[0];
      TickSpeed(g, c, t, k.up, k.down);
      SpeedCountsHits(Tick(g, c, t, k.up, k.down), c, t, keys[1..]);
    }
  }

  /** One frame adds exactly one point when it scores and none otherwise. */
  lemma TickPoints(g: Game, c: Canvas, t: Trig, up: bool, down: bool)
    ensures
      var r := Tick(g, c, t, up, down);
      r.playerScore + r.computerScore
        == g.playerScore + g.computerScore + (if PointScored(g, c, t, up, down) then 1 else 0)
  {
  }

  /** Over a run the scores grow by exactly the number of frames that score. */
  lemma {:induction false} ScoresCountPoints(g: Game, c: Canvas, t: Trig, keys: seq<Keys>)
    ensures
      var r := Run(g, c, t, keys);
      r.playerScore + r.computerScore == g.playerScore + g.computerScore + PointCount(g, c, t, keys)
    decreases |keys|
  {
    if |keys| > 0 {
      var k := keys[0];
      TickPoints(g, c, t, k.up, k.down);
      ScoresCountPoints(Tick(g, c, t, k.up, k.down), c, t, keys[1..]);
    }
  }

  /** The player's paddle depends on the keys alone, never on the ball or the computer. */
  lemma {:induction false} PlayerIgnoresBall(g: Game, c: Canvas, t: Trig, keys: seq<Keys>)
    ensures Run(g, c, t, keys).player == PlayerPath(g.player, c, keys)
    decreases |keys|
  {
    if |keys| > 0 {
      PlayerIgnoresBall(Tick(g, c, t, keys[0].up, keys[0].down), c, t, keys[1..]);
    }
  }

  /** Holding "up" moves the paddle one step per frame as long as it was below the top edge. */
  lemma {:induction false} HoldingUpClimbs(p: Paddle, c: Canvas, keys: seq<Keys>)
    requires p.dy > 0.0
    requires forall i :: 0 <= i < |keys| ==> keys[i].up
    requires p.y - (|keys| as real - 1.0) * p.dy > 0.0
    ensures PlayerPath(p, c, keys).y == p.y - |keys| as real * p.dy
    ensures PlayerPath(p, c, keys).x == p.x && PlayerPath(p, c, keys).dy == p.dy
    decreases |keys|
  {
    if |keys| > 0 {
      var q := MovePlayer(p, keys[0].up, keys[0].down, c);
      assert q.y == p.y - p.dy;
      var n := |keys| as real;
      assert q.y - (n - 2.0) * p.dy == p.y - (n - 1.0) * p.dy;
      HoldingUpClimbs(q, c, keys[1..]);
    }
  }

  /** `n` frames with only "up" held. */
  function HoldUp(n: nat): (keys: seq<Keys>)
    ensures |keys| == n
    ensures forall i :: 0 <= i < n ==> keys[i] == Keys(true, false)
  {
    seq(n, _ => Keys(true, false))
  }

  /**
   On a canvas 600 units high, holding "up" from the start for 42 frames
   takes the player's paddle to 2 units above the top edge: movement is gated,
   not clamped, so a paddle is not confined to [0, height - paddle height].
   */
  lemma PlayerOvershootsTop(c: Canvas, t: Trig)
    requires c.height == 600.0
    ensures Run(Initial(c), c, t, HoldUp(42)).player.y == -2.0
  {
    var g := Initial(c);
    var keys := HoldUp(42);
    assert g.player.y == 250.0 && g.player.dy == 6.0;
    HoldingUpClimbs(g.player, c, keys);
    PlayerIgnoresBall(g, c, t, keys);
  }

  /**
   The initial velocity (5, 5) has magnitude 5 times the square root of 2,
   not the initial speed 5: speed and velocity magnitude are not kept equal.
   After a paddle hit they differ too, by the increment (the last ensures of
   `BallMotion.PaddleHit`).
   */
  lemma SpeedIsNotVelocityMagnitude(c: Canvas)
    ensures var b := Initial(c).ball; b.dx * b.dx + b.dy * b.dy != b.speed * b.speed
  {
  }
}
