/**
 * The scalar critically damped spring step `smoothDampFloat`, over
 * mathematical reals. The scan effect calls it once per frame for the tilt,
 * whose target stays 0 and whose result feeds no uniform. The velocity that
 * the source writes back through a reference is returned beside the value.
 */
module SmoothDamp {
  import opened RealMath

  /** The speed cap; the live configuration passes JavaScript's Infinity. */
  datatype MaxSpeed = Unbounded | Limited(limit: real)

  /** The new value and the new velocity of one step. */
  datatype Damped = Damped(value: real, velocity: real)

  /** Floor on the smoothing time constant, in seconds. */
  const MinSmoothTime: real := 0.0001

  /** The rational approximation 1 / (1 + x + 0.48x^2 + 0.235x^3) of e^-x. */
  function ExpApprox(x: real): (r: real)
    requires x >= 0.0
    ensures 0.0 < r <= 1.0
    ensures r == 1.0 <==> x == 0.0
  {
    var d := 1.0 + x + 0.48 * x * x + 0.235 * x * x * x;
    MulNonneg(x, x);
    MulNonneg(x * x, x);
    assert d >= 1.0 + x;
    assert x > 0.0 ==> d > 1.0;
    assert 1.0 / d <= 1.0 by { QuotientAtMostOne(d); }
    1.0 / d
  }

  /** 1 / d never exceeds 1 once d is at least 1, and equals 1 only at d == 1. */
  lemma QuotientAtMostOne(d: real)
    requires d >= 1.0
    ensures 0.0 < 1.0 / d <= 1.0
    ensures 1.0 / d == 1.0 ==> d == 1.0
  {
    var q := 1.0 / d;
    assert q * d == 1.0;
    if q > 1.0 {
      MulMonotone(1.0, q, d);
      assert false;
    }
  }

  /**
   * `Math.sign(change) * Math.min(Math.abs(change), maxSpeed * smoothTime)`:
   * the requested change with its magnitude capped. `Math.min(a, Infinity)`
   * is `a`, so an unbounded cap leaves the change as it is.
   */
  function LimitChange(change: real, maxSpeed: MaxSpeed, smoothTime: real): (r: real)
    ensures maxSpeed.Unbounded? ==> r == change
    ensures maxSpeed.Limited? && maxSpeed.limit >= 0.0 && smoothTime >= 0.0 ==>
              && Abs(r) == Min(Abs(change), maxSpeed.limit * smoothTime)
              && Abs(r) <= maxSpeed.limit * smoothTime
              && (change >= 0.0 ==> r >= 0.0)
              && (change <= 0.0 ==> r <= 0.0)
              && (Abs(change) <= maxSpeed.limit * smoothTime ==> r == change)
  {
    match maxSpeed
    case Unbounded => Sign(change) * Abs(change)
    case Limited(limit) =>
      var maxChange := limit * smoothTime;
      assert limit >= 0.0 && smoothTime >= 0.0 ==> maxChange >= 0.0 by {
        if limit >= 0.0 && smoothTime >= 0.0 { MulNonneg(limit, smoothTime); }
      }
      Sign(change) * Min(Abs(change), maxChange)
  }

  /** Whether `out` lies strictly beyond `target`, seen from `current`. */
  function Overshoots(current: real, target: real, out: real): (r: bool)
    ensures r <==> (current < target < out) || (out < target < current)
  {
    ProductPositive(target - current, out - target);
    (target - current) * (out - target) > 0.0
  }

  /**
   * The arithmetic of one spring step, given the capped change, the angular
   * frequency and the exp factor: the damped velocity and the new value.
   */
  function Spring(current: real, change: real, velocity: real, omega: real,
                  deltaTime: real, e: real): (r: Damped)
    ensures deltaTime == 0.0 && e == 1.0 ==> r == Damped(current, velocity)
  {
    var temp := (velocity + omega * change) * deltaTime;
    var newVelocity := (velocity - omega * temp) * e;
    var out := (current - change) + (change + temp) * e;
    Damped(out, newVelocity)
  }

  /**
   * The spring step before the overshoot check, with the smoothing time
   * already floored: the angular frequency 2 / smoothTime, the exp
   * approximation, the capped change, and the new velocity and value.
   */
  function SpringStep(current: real, target: real, velocity: real, smoothTime: real,
                      maxSpeed: MaxSpeed, deltaTime: real): (r: Damped)
    requires smoothTime >= MinSmoothTime && deltaTime >= 0.0
    ensures deltaTime == 0.0 ==> r == Damped(current, velocity)
  {
    var omega := 2.0 / smoothTime;
    assert omega > 0.0;
    MulNonneg(omega, deltaTime);
    var e := ExpApprox(omega * deltaTime);
    var change := LimitChange(current - target, maxSpeed, smoothTime);
    Spring(current, change, velocity, omega, deltaTime, e)
  }

  /**
   * The overshoot check: a step that lands beyond the target is replaced by
   * the target itself, at rest; any other step is kept.
   */
  function Snap(current: real, target: real, step: Damped): (r: Damped)
    ensures Overshoots(current, target, step.value) ==> r == Damped(target, 0.0)
    ensures !Overshoots(current, target, step.value) ==> r == step
    ensures !Overshoots(current, target, r.value)
  {
    assert (target - current) * (target - target) == 0.0;
    if Overshoots(current, target, step.value) then Damped(target, 0.0) else step
  }

  /**
   * `smoothDampFloat`: one spring step, snapped exactly to the target with zero
   * velocity when the step would carry the value past the target.
   */
  function SmoothDampFloat(current: real, target: real, velocity: real, smoothTime: real,
                           maxSpeed: MaxSpeed, deltaTime: real): (r: Damped)
    requires deltaTime >= 0.0
    ensures var step := SpringStep(current, target, velocity, Max(MinSmoothTime, smoothTime),
                                   maxSpeed, deltaTime);
            if Overshoots(current, target, step.value) then r == Damped(target, 0.0)
            else r == step
    ensures !Overshoots(current, target, r.value)
  {
    Snap(current, target, SpringStep(current, target, velocity, Max(MinSmoothTime, smoothTime),
                                     maxSpeed, deltaTime))
  }

  /** A value resting on its target stays there, at rest. */
  lemma RestIsFixedPoint(target: real, smoothTime: real, maxSpeed: MaxSpeed, deltaTime: real)
    requires deltaTime >= 0.0
    ensures SmoothDampFloat(target, target, 0.0, smoothTime, maxSpeed, deltaTime) == Damped(target, 0.0)
  {
  }

  /** A step of zero length changes neither the value nor the velocity. */
  lemma ZeroStepIsIdentity(current: real, target: real, velocity: real, smoothTime: real,
                           maxSpeed: MaxSpeed)
    ensures SmoothDampFloat(current, target, velocity, smoothTime, maxSpeed, 0.0)
            == Damped(current, velocity)
  {
    var step := SpringStep(current, target, velocity, Max(MinSmoothTime, smoothTime), maxSpeed, 0.0);
    assert step.value == current;
    assert (target - current) * (current - target) <= 0.0 by {
      SquareNonneg(target - current);
    }
  }

  /**
   * The fraction of the remaining change that one step from rest covers:
   * 1 - (1 + x) * ExpApprox(x), which lies in [0, 1].
   */
  function CoveredFraction(x: real): (r: real)
    requires x >= 0.0
    ensures 0.0 <= r <= 1.0
    ensures r == 1.0 - (1.0 + x) * ExpApprox(x)
  {
    var d := 1.0 + x + 0.48 * x * x + 0.235 * x * x * x;
    var e := ExpApprox(x);
    MulNonneg(x, x);
    MulNonneg(x * x, x);
    MulMonotone(1.0 + x, d, e);
    MulNonneg(1.0 + x, e);
    1.0 - (1.0 + x) * e
  }

  /** From rest, the spring arithmetic moves back by the change times 1 - (1 + omega dt) e. */
  lemma SpringFromRest(current: real, change: real, omega: real, deltaTime: real, e: real)
    ensures Spring(current, change, 0.0, omega, deltaTime, e).value
            == current - change * (1.0 - (1.0 + omega * deltaTime) * e)
  {
    var x := omega * deltaTime;
    var temp := (0.0 + omega * change) * deltaTime;
    assert temp == change * x;
    assert (change + change * x) * e == change * ((1.0 + x) * e);
  }

  /** From rest, the spring step moves by the capped change times the covered fraction. */
  lemma SpringStepFromRest(current: real, target: real, smoothTime: real,
                           maxSpeed: MaxSpeed, deltaTime: real)
    requires smoothTime >= MinSmoothTime && deltaTime >= 0.0
    ensures (2.0 / smoothTime) * deltaTime >= 0.0
    ensures SpringStep(current, target, 0.0, smoothTime, maxSpeed, deltaTime).value
            == current - LimitChange(current - target, maxSpeed, smoothTime)
                         * CoveredFraction((2.0 / smoothTime) * deltaTime)
  {
    assert (2.0 / smoothTime) * deltaTime >= 0.0 by {
      assert 2.0 / smoothTime > 0.0;
      MulNonneg(2.0 / smoothTime, deltaTime);
    }
    calc {
      SpringStep(current, target, 0.0, smoothTime, maxSpeed, deltaTime).value;
      Spring(current, LimitChange(current - target, maxSpeed, smoothTime), 0.0,
             2.0 / smoothTime, deltaTime, ExpApprox((2.0 / smoothTime) * deltaTime)).value;
      { SpringFromRest(current, LimitChange(current - target, maxSpeed, smoothTime),
                       2.0 / smoothTime, deltaTime, ExpApprox((2.0 / smoothTime) * deltaTime)); }
      current - LimitChange(current - target, maxSpeed, smoothTime)
                * (1.0 - (1.0 + (2.0 / smoothTime) * deltaTime)
                         * ExpApprox((2.0 / smoothTime) * deltaTime));
      current - LimitChange(current - target, maxSpeed, smoothTime)
                * CoveredFraction((2.0 / smoothTime) * deltaTime);
    }
  }

  /** Moving back by at most the full distance, in its direction, stays between. */
  lemma ScaledChangeStaysBetween(current: real, target: real, c: real, k: real)
    requires 0.0 <= k <= 1.0
    requires Abs(c) <= Abs(current - target)
    requires current - target >= 0.0 ==> c >= 0.0
    requires current - target <= 0.0 ==> c <= 0.0
    ensures Min(current, target) <= current - c * k <= Max(current, target)
  {
    var a := Abs(c);
    MulMonotone(k, 1.0, a);
    MulNonneg(k, a);
    var m := k * a;
    assert 1.0 * a == a;
    assert 0.0 <= m <= a;
    if c >= 0.0 {
      assert c * k == m;
    } else {
      assert c * k == -m;
    }
  }

  /**
   * Started at rest, one step lands between the current value and the target:
   * it neither moves away from the target nor passes it.
   */
  lemma {:induction false} FromRestStaysBetween(current: real, target: real, smoothTime: real,
                                                maxSpeed: MaxSpeed, deltaTime: real)
    requires deltaTime >= 0.0
    requires maxSpeed.Limited? ==> maxSpeed.limit >= 0.0
    ensures var r := SmoothDampFloat(current, target, 0.0, smoothTime, maxSpeed, deltaTime);
            Min(current, target) <= r.value <= Max(current, target)
  {
    var st := Max(MinSmoothTime, smoothTime);
    SpringStepFromRest(current, target, st, maxSpeed, deltaTime);
    var omega := 2.0 / st;
    var c := LimitChange(current - target, maxSpeed, st);
    var k := CoveredFraction(omega * deltaTime);
    ScaledChangeStaysBetween(current, target, c, k);
    var step := SpringStep(current, target, 0.0, st, maxSpeed, deltaTime);
    var r := SmoothDampFloat(current, target, 0.0, smoothTime, maxSpeed, deltaTime);
    assert r == step || r.value == target;
  }
}
