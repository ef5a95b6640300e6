/**
 * The scan pulse scheduler of the grid effect: the eight-slot buffer of pulse
 * start times, the active-slot count and the direction uniform, reset by a
 * periodic timer that alternates forward and backward, and once by an initial
 * timer that leaves the direction alone. Each timer firing is a method call
 * with the current time, in seconds, as a parameter.
 */
module ScanScheduler {
  import opened RealMath
  import ScanPhase

  /** Capacity of the start-time buffer. */
  const Slots: nat := 8
  /** Start time that marks a slot as invisible after a reset. */
  const Sentinel: real := -1000.0
  /** Start time every slot holds before the first reset. */
  const InitialStart: real := -100.0
  /** Direction uniform before the first scheduled reset: ping-pong. */
  const InitialDirection: real := 2.0

  /** The buffer right after a reset at `now`. */
  function ResetSlots(now: real): (r: seq<real>)
    ensures |r| == Slots
    ensures r[0] == now
    ensures forall i :: 1 <= i < Slots ==> r[i] == Sentinel
  {
    [now] + seq(Slots - 1, _ => Sentinel)
  }

  /**
   * The direction chosen by one scheduled reset and the loop state it leaves:
   * state 0 picks forward and moves to 1, any other state picks backward and
   * moves to 0.
   */
  function Toggle(loopState: int): (r: (real, int))
    ensures r.1 == 0 || r.1 == 1
    ensures r.0 == (if r.1 == 1 then ScanPhase.Forward else ScanPhase.Backward)
    ensures (loopState == 0 || loopState == 1) ==> r.1 == 1 - loopState
  {
    if loopState == 0 then (ScanPhase.Forward, 1) else (ScanPhase.Backward, 0)
  }

  /**
   * Directions picked by `n` consecutive scheduled resets starting in
   * `loopState`. The resets strictly alternate: from loop state 0 (or 1) the
   * k-th reset picks forward exactly when k (or k + 1) is even.
   */
  function Directions(loopState: int, n: nat): (ds: seq<real>)
    ensures |ds| == n
    ensures (loopState == 0 || loopState == 1) ==>
              forall k :: 0 <= k < n ==>
                ds[k] == if (k + loopState) % 2 == 0 then ScanPhase.Forward else ScanPhase.Backward
    decreases n
  {
    if n == 0 then [] else [Toggle(loopState).0] + Directions(Toggle(loopState).1, n - 1)
  }

  /** Two neighbouring scheduled resets never pick the same direction. */
  lemma NeighboursDiffer(loopState: int, n: nat, k: nat)
    requires loopState == 0 || loopState == 1
    requires k + 1 < n
    ensures Directions(loopState, n)[k] != Directions(loopState, n)[k + 1]
  {
  }

  /**
   * A pulse started by a scheduled reset at `now` sweeps the whole depth: a
   * forward pulse from 0 to the far end over its duration, a backward one the
   * other way round.
   */
  lemma ScheduledPulseSweeps(now: real, duration: real, loopState: int)
    ensures var d := Toggle(loopState).0;
            var end := now + Max(ScanPhase.MinDuration, duration);
            && ScanPhase.ScanDepth(now, now, duration, d)
               == (if loopState == 0 then 0.0 else ScanPhase.ScanZMax)
            && ScanPhase.ScanDepth(end, now, duration, d)
               == (if loopState == 0 then ScanPhase.ScanZMax else 0.0)
  {
  }

  /** The uniforms `uScanStarts`, `uScanCount`, `uScanDirection` and the timer's `loopState`. */
  class Scheduler {
    var starts: array<real>
    var count: nat
    var direction: real
    var loopState: int

    ghost predicate Valid()
      reads this
    {
      starts.Length == Slots && (loopState == 0 || loopState == 1)
    }

    /** The uniforms as created: every slot at -100, all eight active, ping-pong. */
    constructor ()
      ensures Valid() && fresh(starts)
      ensures starts[..] == seq(Slots, _ => InitialStart)
      ensures count == Slots && direction == InitialDirection && loopState == 0
    {
      starts := new real[Slots](_ => InitialStart);
      count := Slots;
      direction := InitialDirection;
      loopState := 0;
    }

    /** Wipe every slot to the sentinel, start one pulse at `now`, make one slot active. */
    method ResetBuffer(now: real)
      requires Valid()
      modifies this, starts
      ensures Valid() && starts == old(starts)
      ensures starts[..] == ResetSlots(now) && count == 1
      ensures direction == old(direction) && loopState == old(loopState)
    {
      var i := 0;
      while i < starts.Length
        modifies starts
        invariant 0 <= i <= starts.Length
        invariant forall j :: 0 <= j < i ==> starts[j] == Sentinel
      {
        starts[i] := Sentinel;
        i := i + 1;
      }
      starts[0] := now;
      count := 1;
    }

    /** The five-second timer: reset the buffer and alternate the direction. */
    method ScheduledReset(now: real)
      requires Valid()
      modifies this, starts
      ensures Valid() && starts == old(starts)
      ensures starts[..] == ResetSlots(now) && count == 1
      ensures (direction, loopState) == Toggle(old(loopState))
    {
      ResetBuffer(now);
      if loopState == 0 {
        direction := ScanPhase.Forward;
        loopState := 1;
      } else {
        direction := ScanPhase.Backward;
        loopState := 0;
      }
    }

    /** The one-off initial timer: reset the buffer, keep direction and loop state. */
    method InitialReset(now: real)
      requires Valid()
      modifies this, starts
      ensures Valid() && starts == old(starts)
      ensures starts[..] == ResetSlots(now) && count == 1
      ensures direction == old(direction) && loopState == old(loopState)
    {
      ResetBuffer(now);
    }
  }
}
