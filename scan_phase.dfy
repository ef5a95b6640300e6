/**
 * The per-pulse arithmetic of the scan fragment shader: the normalised phase of
 * a pulse, the direction mapping applied to it (forward, backward, ping-pong),
 * the quintic `smoother01` taper and the head/tail fade window built from it.
 * GLSL floats are modelled as mathematical reals.
 */
module ScanPhase {
  import opened RealMath

  /** uScanDirection values that the shader distinguishes. */
  const Forward: real := 0.0
  const Backward: real := 1.0
  const PingPongMode: real := 2.0

  /** Shortest pulse duration the shader accepts, in seconds. */
  const MinDuration: real := 0.05
  /** Depth (z) reached by a pulse at phase 1. */
  const ScanZMax: real := 2.0
  /** Largest head/tail taper width. */
  const MaxTaper: real := 0.49
  /** Floor on the denominator of smoother01. */
  const TaperEpsilon: real := 0.00001

  /** Normalised progress of a pulse that started at `start`, seen at `iTime`. */
  function Phase(iTime: real, start: real, duration: real): (r: real)
    ensures 0.0 <= r <= 1.0
    ensures iTime <= start ==> r == 0.0
    ensures iTime - start >= Max(MinDuration, duration) ==> r == 1.0
    ensures start <= iTime <= start + Max(MinDuration, duration) ==>
              r * Max(MinDuration, duration) == iTime - start
  {
    var dur := Max(MinDuration, duration);
    var q := (iTime - start) / dur;
    assert iTime - start >= dur ==> q >= 1.0 by {
      if iTime - start >= dur {
        QuotientAtLeastOne(iTime - start, dur);
      }
    }
    Clamp(q, 0.0, 1.0)
  }

  /** A pulse never moves backwards in phase as time advances. */
  lemma PhaseMonotone(t1: real, t2: real, start: real, duration: real)
    requires t1 <= t2
    ensures Phase(t1, start, duration) <= Phase(t2, start, duration)
  {
    var dur := Max(MinDuration, duration);
    assert (t2 - start) / dur - (t1 - start) / dur == (t2 - t1) / dur;
  }

  /** The triangular fold: up over the first half, back down over the second. */
  function PingPong(phase: real): (r: real)
    requires 0.0 <= phase <= 1.0
    ensures 0.0 <= r <= 1.0
    ensures phase <= 0.5 ==> r == 2.0 * phase
    ensures phase >= 0.5 ==> r == 2.0 * (1.0 - phase)
  {
    if phase < 0.5 then phase * 2.0 else 1.0 - (phase - 0.5) * 2.0
  }

  /** The ping-pong fold is symmetric about the middle of the pulse. */
  lemma PingPongSymmetric(phase: real)
    requires 0.0 <= phase <= 1.0
    ensures PingPong(1.0 - phase) == PingPong(phase)
    ensures PingPong(0.0) == PingPong(1.0) == 0.0 && PingPong(0.5) == 1.0
  {
  }

  /**
   * The direction mapping of the shader: a direction strictly between 0.5 and
   * 1.5 reflects the phase, one above 1.5 folds it, anything else keeps it.
   */
  function MapDirection(phase: real, direction: real): (r: real)
    requires 0.0 <= phase <= 1.0
    ensures 0.0 <= r <= 1.0
    ensures direction <= 0.5 || direction == 1.5 ==> r == phase
    ensures 0.5 < direction < 1.5 ==> r == 1.0 - phase
    ensures direction > 1.5 ==> r == PingPong(phase)
  {
    if direction > 0.5 && direction < 1.5 then 1.0 - phase
    else if direction > 1.5 then PingPong(phase)
    else phase
  }

  /** A backward pulse visits the positions of a forward one in reverse. */
  lemma BackwardMirrorsForward(phase: real)
    requires 0.0 <= phase <= 1.0
    ensures MapDirection(phase, Backward) == 1.0 - MapDirection(phase, Forward)
    ensures MapDirection(1.0 - phase, Backward) == MapDirection(phase, Forward)
  {
  }

  /** Depth of the highlight band of one pulse. */
  function ScanDepth(iTime: real, start: real, duration: real, direction: real): (r: real)
    ensures 0.0 <= r <= ScanZMax
    ensures iTime <= start && direction <= 0.5 ==> r == 0.0
    ensures iTime <= start && 0.5 < direction < 1.5 ==> r == ScanZMax
  {
    MapDirection(Phase(iTime, start, duration), direction) * ScanZMax
  }

  /** The smootherstep polynomial 6t^5 - 15t^4 + 10t^3, as the shader groups it. */
  function Taper(t: real): (r: real)
    ensures t == 0.0 ==> r == 0.0
    ensures t == 1.0 ==> r == 1.0
    ensures t == 0.5 ==> r == 0.5
  {
    t * t * t * (t * (t * 6.0 - 15.0) + 10.0)
  }

  lemma TaperBounds(t: real)
    requires 0.0 <= t <= 1.0
    ensures 0.0 <= Taper(t) <= 1.0
  {
    var p := t * (t * 6.0 - 15.0) + 10.0;
    var cube := t * t * t;
    assert p == 6.0 * (t - 1.25) * (t - 1.25) + 0.625;
    MulNonneg(t, t);
    MulNonneg(t * t, t);
    MulNonneg(cube, p);
    assert Taper(t) == cube * p;
    var u := 1.0 - t;
    var ucube := u * u * u;
    var q := 6.0 * t * t + 3.0 * t + 1.0;
    MulNonneg(u, u);
    MulNonneg(u * u, u);
    MulNonneg(t, t);
    MulNonneg(ucube, q);
    assert 1.0 - Taper(t) == ucube * q;
  }

  /** The taper is point-symmetric: fading in mirrors fading out. */
  lemma TaperSymmetric(t: real)
    ensures Taper(1.0 - t) == 1.0 - Taper(t)
  {
  }

  /** `smoother01(a, b, x)`: 0 up to `a`, 1 from `b` on, smooth in between. */
  function Smoother01(a: real, b: real, x: real): (r: real)
    ensures 0.0 <= r <= 1.0
    ensures x <= a ==> r == 0.0
    ensures b - a >= TaperEpsilon && x >= b ==> r == 1.0
  {
    var t := Clamp((x - a) / Max(TaperEpsilon, b - a), 0.0, 1.0);
    TaperBounds(t);
    Taper(t)
  }

  /**
   * Fade window of one pulse: a head fade over the first `taper` of the phase
   * times a tail fade over the last `taper`, with the taper clamped to
   * [0, 0.49].
   */
  function PhaseWindow(phase: real, phaseTaper: real): (r: real)
    ensures 0.0 <= r <= 1.0
    ensures phase <= 0.0 ==> r == 0.0
    ensures phaseTaper >= TaperEpsilon && phase >= 1.0 ==> r == 0.0
  {
    var taper := Clamp(phaseTaper, 0.0, MaxTaper);
    var headFade := Smoother01(0.0, taper, phase);
    var tailFade := 1.0 - Smoother01(1.0 - taper, 1.0, phase);
    headFade * tailFade
  }
}
