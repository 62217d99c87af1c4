/** The drive state of the view: the paused flags of the two display links (`timer`
    runs `autoTurnRotation`, `inertia` runs `inertiaStep`) and the inertia `velocity`,
    with the transitions the callbacks make on them, and the arithmetic that turns
    drag samples and inertia into rotation axes and angles. */
module Motion {
  import opened Geometry

  /** `timer.isPaused`, `inertia.isPaused` and `velocity`. */
  datatype Drive = Drive(timerPaused: bool, inertiaPaused: bool, velocity: real)

  /** What `inertiaStep` takes off `velocity` on each tick. */
  const InertiaDecrement: real := 70.0

  /** The angle of one ambient-spin tick of `autoTurnRotation`. */
  const SpinAngle: real := 0.002

  /** At most one of ambient spin and inertia is running. */
  predicate Exclusive(d: Drive) {
    d.timerPaused || d.inertiaPaused
  }

  /** `timerStart`: the timer runs; the inertia flag and the velocity are kept. */
  function TimerStarted(d: Drive): (r: Drive)
    ensures !r.timerPaused && r.inertiaPaused == d.inertiaPaused && r.velocity == d.velocity
  {
    d.(timerPaused := false)
  }

  /** `timerStop`: the timer pauses; the inertia flag and the velocity are kept. */
  function TimerStopped(d: Drive): (r: Drive)
    ensures r.timerPaused && r.inertiaPaused == d.inertiaPaused && r.velocity == d.velocity
    ensures Exclusive(r)
  {
    d.(timerPaused := true)
  }

  /** `inertiaStart`: `timerStop()`, then inertia resumes. */
  function InertiaStarted(d: Drive): (r: Drive)
    ensures r.timerPaused && !r.inertiaPaused && r.velocity == d.velocity
    ensures Exclusive(r)
  {
    TimerStopped(d).(inertiaPaused := false)
  }

  /** `inertiaStop`: `timerStart()`, then inertia pauses. */
  function InertiaStopped(d: Drive): (r: Drive)
    ensures !r.timerPaused && r.inertiaPaused && r.velocity == d.velocity
    ensures Exclusive(r)
  {
    TimerStarted(d).(inertiaPaused := true)
  }

  /** The drive part of `inertiaStep`. A tick that sees a non-positive velocity stops
      inertia and resumes the timer; any other tick takes exactly 70 off and leaves the
      flags alone. Either way a tick never lets both drivers run at once. */
  function InertiaTicked(d: Drive): (r: Drive)
    ensures d.velocity <= 0.0 ==> r == d.(timerPaused := false, inertiaPaused := true)
    ensures d.velocity > 0.0 ==> r == d.(velocity := d.velocity - 70.0)
    ensures Exclusive(d) ==> Exclusive(r)
  {
    if d.velocity <= 0.0 then InertiaStopped(d)
    else d.(velocity := d.velocity - InertiaDecrement)
  }

  /** `velocity / frame.size.width * 2.0 * inertia.duration`, taken after the decrement.
      A zero velocity turns by nothing; on a frame of positive width and a positive
      frame duration the angle has the sign of the velocity, so a negative velocity
      turns the sphere backwards. */
  function InertiaAngle(velocity: real, width: real, duration: real): (r: real)
    requires width != 0.0
    ensures velocity == 0.0 ==> r == 0.0
    ensures width > 0.0 && duration > 0.0 ==> (r > 0.0 <==> velocity > 0.0) && (r < 0.0 <==> velocity < 0.0)
  {
    var perWidth := velocity / width * 2.0;
    QuotientSign(velocity, width);
    ProductSign(perWidth, duration);
    perWidth * duration
  }

  /** Dividing by a positive number keeps the sign. */
  lemma QuotientSign(x: real, c: real)
    requires c != 0.0
    ensures x == 0.0 ==> x / c == 0.0
    ensures c > 0.0 ==> (x / c > 0.0 <==> x > 0.0) && (x / c < 0.0 <==> x < 0.0) && x / c * c == x
  {
  }

  /** Multiplying by a positive number keeps the sign. */
  lemma ProductSign(x: real, c: real)
    ensures c > 0.0 ==> (x * c > 0.0 <==> x > 0.0) && (x * c < 0.0 <==> x < 0.0)
  {
    if c > 0.0 {
      if x > 0.0 {
        assert x * c > 0.0;
      } else if x < 0.0 {
        assert (-x) * c > 0.0;
      }
    }
  }

  /** The state after `k` inertia ticks. */
  function AfterTicks(d: Drive, k: nat): Drive
    decreases k
  {
    if k == 0 then d else AfterTicks(InertiaTicked(d), k - 1)
  }

  /** The number of ticks that decrement `velocity` before one sees it at or below zero. */
  function TicksToStop(velocity: real): nat
    decreases if velocity <= 0.0 then 0 else velocity.Floor + 1
  {
    if velocity <= 0.0 then 0 else 1 + TicksToStop(velocity - InertiaDecrement)
  }

  /** `timerStart` alone can break exclusivity: it resumes the timer while inertia runs. */
  lemma TimerStartedMayBreakExclusive(v: real)
    ensures !Exclusive(TimerStarted(Drive(true, false, v)))
  {
  }

  /** From a velocity of `70 * k`, the first `k` ticks each take 70 off, leaving 0,
      and tick `k + 1` stops inertia and resumes the timer. */
  lemma {:induction false} InertiaFromMultiple(d: Drive, k: nat)
    requires d.velocity == InertiaDecrement * k as real
    ensures forall j :: 0 <= j <= k ==> AfterTicks(d, j) == d.(velocity := InertiaDecrement * (k - j) as real)
    ensures AfterTicks(d, k + 1) == InertiaStopped(d.(velocity := 0.0))
    ensures TicksToStop(d.velocity) == k
    decreases k
  {
    if k == 0 {
      assert AfterTicks(d, 1) == AfterTicks(InertiaTicked(d), 0);
    } else {
      var d1 := InertiaTicked(d);
      assert d1 == d.(velocity := InertiaDecrement * (k - 1) as real);
      InertiaFromMultiple(d1, k - 1);
      forall j | 0 <= j <= k
        ensures AfterTicks(d, j) == d.(velocity := InertiaDecrement * (k - j) as real)
      {
        if j > 0 {
          assert AfterTicks(d, j) == AfterTicks(d1, j - 1);
        }
      }
      assert AfterTicks(d, k + 1) == AfterTicks(d1, k);
      assert TicksToStop(d.velocity) == 1 + TicksToStop(d1.velocity);
    }
  }

  /** The last decrementing tick from a multiple of 70 computes angle 0 and so moves
      no coordinate. */
  lemma LastDecrementMovesNothing(lib: MathLib, cs: seq<Vec3>, count: nat, direction: Vec3, width: real, duration: real)
    requires count <= |cs| && width != 0.0
    ensures RotateAll(lib, cs, count, direction, InertiaAngle(0.0, width, duration)) == cs
  {
    RotateAllIdentity(lib, cs, count, direction, InertiaAngle(0.0, width, duration));
  }

  /** Both display links start unpaused; the first inertia tick, seeing velocity 0,
      pauses inertia and leaves the timer running. */
  lemma FirstTickOfFreshView()
    ensures InertiaTicked(Drive(false, false, 0.0)) == Drive(false, true, 0.0)
  {
  }

  /** From any velocity, inertia stops: the first `TicksToStop` ticks each see a positive
      velocity and decrement it, leaving it in (-70, 0], and the next tick stops inertia
      and resumes the timer. */
  lemma {:induction false} InertiaEventuallyStops(d: Drive)
    ensures forall j :: 0 <= j < TicksToStop(d.velocity) ==> AfterTicks(d, j).velocity > 0.0
    ensures var e := AfterTicks(d, TicksToStop(d.velocity));
      e.timerPaused == d.timerPaused && e.inertiaPaused == d.inertiaPaused &&
      e.velocity <= 0.0 && (d.velocity > 0.0 ==> e.velocity > -InertiaDecrement)
    ensures AfterTicks(d, TicksToStop(d.velocity) + 1) ==
            InertiaStopped(AfterTicks(d, TicksToStop(d.velocity)))
    decreases if d.velocity <= 0.0 then 0 else d.velocity.Floor + 1
  {
    var n := TicksToStop(d.velocity);
    if d.velocity <= 0.0 {
      assert AfterTicks(d, 1) == AfterTicks(InertiaTicked(d), 0);
    } else {
      var d1 := InertiaTicked(d);
      InertiaEventuallyStops(d1);
      assert n == 1 + TicksToStop(d1.velocity);
      forall j | 0 <= j < n ensures AfterTicks(d, j).velocity > 0.0 {
        if j > 0 {
          assert AfterTicks(d, j) == AfterTicks(d1, j - 1);
        }
      }
      assert AfterTicks(d, n) == AfterTicks(d1, n - 1);
      assert AfterTicks(d, n + 1) == AfterTicks(d1, n);
    }
  }

  /** From a velocity in (0, 70) the one decrementing tick leaves a negative velocity,
      so it turns the sphere backwards before the next tick stops inertia. */
  lemma InertiaOvershootTurnsBack(d: Drive, width: real, duration: real)
    requires 0.0 < d.velocity < InertiaDecrement && width > 0.0 && duration > 0.0
    ensures TicksToStop(d.velocity) == 1
    ensures var e := InertiaTicked(d);
      e.velocity < 0.0 && InertiaAngle(e.velocity, width, duration) < 0.0 &&
      InertiaTicked(e) == InertiaStopped(e)
  {
    assert TicksToStop(d.velocity) == 1 + TicksToStop(d.velocity - InertiaDecrement);
  }

  /** `deltaY = last.y - current.y`, `deltaX = current.x - last.x`, direction
      `(deltaY, deltaX, 0)`: vertical pointer motion turns about the x axis, horizontal
      motion about the y axis, and the axis is zero exactly when the pointer did not
      move. */
  function DragAxis(last: Point, current: Point): (r: Vec3)
    ensures r.z == 0.0
    ensures r == Zero <==> last == current
  {
    Vec3(last.y - current.y, current.x - last.x, 0.0)
  }

  /** `sqrt(direction.x^2 + direction.y^2) / (frame.size.width / 2)`. With an exact square
      root and a frame of positive width the angle is never negative, and it is positive
      exactly when the pointer moved. */
  function DragAngle(lib: MathLib, last: Point, current: Point, width: real): (r: real)
    requires width != 0.0
    ensures Lawful(lib) && width > 0.0 ==> r >= 0.0 && (r > 0.0 <==> last != current)
  {
    var direction := DragAxis(last, current);
    var distance := lib.sqrt(SumOfSquares(direction.x, direction.y));
    RootOfSumOfSquares(lib, direction.x, direction.y);
    QuotientSign(distance, width / 2.0);
    distance / (width / 2.0)
  }

  /** `sqrt(velocityP.x^2 + velocityP.y^2)`: with an exact square root, the length of the
      release velocity, zero exactly when the release velocity is zero. */
  function ReleaseSpeed(lib: MathLib, releaseVelocity: Point): (r: real)
    ensures Lawful(lib) ==>
      r >= 0.0 && r * r == SumOfSquares(releaseVelocity.x, releaseVelocity.y) &&
      (r > 0.0 <==> releaseVelocity != Point(0.0, 0.0))
  {
    RootOfSumOfSquares(lib, releaseVelocity.x, releaseVelocity.y);
    lib.sqrt(SumOfSquares(releaseVelocity.x, releaseVelocity.y))
  }

  /** A still `.changed` sample moves no coordinate, and the zero axis it leaves in
      `normalDirection` makes every later ambient-spin tick a no-op too. */
  lemma StillSampleStopsSpin(lib: MathLib, cs: seq<Vec3>, count: nat, p: Point, width: real)
    requires count <= |cs| && width != 0.0
    ensures DragAxis(p, p) == Zero
    ensures RotateAll(lib, cs, count, DragAxis(p, p), DragAngle(lib, p, p, width)) == cs
    ensures RotateAll(lib, cs, count, DragAxis(p, p), SpinAngle) == cs
  {
    RotateAllIdentity(lib, cs, count, DragAxis(p, p), DragAngle(lib, p, p, width));
    RotateAllIdentity(lib, cs, count, DragAxis(p, p), SpinAngle);
  }

  /** A drag from (50, 50) to (60, 40) turns about (10, 10, 0). */
  lemma DragAxisExample()
    ensures DragAxis(Point(50.0, 50.0), Point(60.0, 40.0)) == Vec3(10.0, 10.0, 0.0)
  {
  }

  /** With an exact square root, the root of `a * a + b * b` is a length: non-negative,
      squaring back to its argument, and positive exactly when the vector is not zero. */
  lemma RootOfSumOfSquares(lib: MathLib, a: real, b: real)
    ensures Lawful(lib) ==>
      var root := lib.sqrt(SumOfSquares(a, b));
      root >= 0.0 && root * root == SumOfSquares(a, b) && (root > 0.0 <==> a != 0.0 || b != 0.0)
  {
    if Lawful(lib) {
      SumOfSquaresSign(a, b);
      RootPositive(lib.sqrt(SumOfSquares(a, b)), SumOfSquares(a, b));
    }
  }

  lemma SumOfSquaresSign(a: real, b: real)
    ensures SumOfSquares(a, b) >= 0.0
    ensures SumOfSquares(a, b) > 0.0 <==> a != 0.0 || b != 0.0
  {
    SquareNonNegative(a);
    SquareNonNegative(b);
    if a == 0.0 && b == 0.0 {
      calc {
        SumOfSquares(a, b);
      ==
        0.0 * 0.0 + 0.0 * 0.0;
      ==
        0.0;
      }
    } else if a != 0.0 {
      calc {
        SumOfSquares(a, b);
      ==
        a * a + b * b;
      >=
        a * a;
      >
        0.0;
      }
    } else {
      calc {
        SumOfSquares(a, b);
      ==
        a * a + b * b;
      >=
        b * b;
      >
        0.0;
      }
    }
  }

  lemma RootPositive(root: real, s: real)
    requires root >= 0.0 && root * root == s
    ensures root > 0.0 <==> s > 0.0
  {
    if root == 0.0 {
      calc {
        s;
      ==
        root * root;
      ==
        0.0;
      }
    } else {
      SquareNonNegative(root);
      calc {
        s;
      ==
        root * root;
      >
        0.0;
      }
    }
  }

  /** The drive part of `handlePanGesture`. `.began` calls `timerStop()` then
      `inertiaStop()`, which leaves ambient spin running and inertia paused. `.ended`
      sets `velocity` to the release speed then calls `inertiaStart()`, which starts
      inertia and pauses the timer whatever the speed. Other states leave it alone. */
  function PanDrive(began: bool, ended: bool, d: Drive, speed: real): (r: Drive)
    ensures began ==> r == d.(timerPaused := false, inertiaPaused := true)
    ensures !began && ended ==> r == d.(velocity := speed, timerPaused := true, inertiaPaused := false)
    ensures !began && !ended ==> r == d
  {
    if began then InertiaStopped(TimerStopped(d))
    else if ended then InertiaStarted(d.(velocity := speed))
    else d
  }
}
