/**
 * The adaptive quality controller at the top of `render` in js/bg.js.
 *
 * Every frame measures the time since the previous one and moves an integer
 * counter: up when the frame was slower than 30 fps, down when it was faster
 * than 50 fps, not at all in between. When the counter leaves [-10, 10] the
 * render scale takes one fixed step (coarser on the slow side, finer on the
 * fast side, never finer than 0.5) and the counter restarts at 0.
 * Timestamps and the scale are mathematical reals: IEEE rounding is not modelled.
 */
module Timing {
  import opened Wrappers

  /** A frame slower than this many milliseconds (30 fps) counts as dropped. */
  const SlowFrame: real := 1000.0 / 30.0
  /** A frame faster than this many milliseconds (50 fps) counts as headroom. */
  const FastFrame: real := 1000.0 / 50.0
  /** The frame time assumed before the first frame (60 fps). */
  const NominalFrame: real := 1000.0 / 60.0
  /** The counter magnitude that, once exceeded, triggers an adjustment. */
  const Threshold: int := 10
  const GrowStep: real := 0.25
  const ShrinkFactor: real := 0.75
  const MinScale: real := 0.5

  /** The module-level variables `dropped`, `perfscale` and `then` (here `lastNow`). */
  datatype Perf = Perf(dropped: int, scale: real, lastNow: Option<real>)

  /** `dropped = 1`, `perfscale = 1`, `then` undefined. */
  const InitialPerf: Perf := Perf(1, 1.0, None)

  function Max(a: real, b: real): real { if a >= b then a else b }

  /** JavaScript's `!then` on the previous timestamp: true while it is undefined, and also when it holds 0. */
  predicate Unset(lastNow: Option<real>) { lastNow.None? || lastNow.value == 0.0 }

  /** The timestamp the frame is measured from, after the lazy initialisation. */
  function Previous(p: Perf, now: real): real
  {
    if Unset(p.lastNow) then now - NominalFrame else p.lastNow.value
  }

  /** The counter after one frame of the given duration, before any adjustment. */
  function Tick(dropped: int, elapsed: real): (d: int)
    ensures d == dropped + 1 <==> elapsed > SlowFrame
    ensures d == dropped - 1 <==> elapsed < FastFrame
    ensures d == dropped <==> FastFrame <= elapsed <= SlowFrame
  {
    if elapsed > SlowFrame then dropped + 1
    else if elapsed < FastFrame then dropped - 1
    else dropped
  }

  /** The counter of frame `now` before the threshold check. */
  function Counted(p: Perf, now: real): int
  {
    Tick(p.dropped, now - Previous(p, now))
  }

  /** Frame `now` takes one of the two scale steps. */
  predicate Adjusts(p: Perf, now: real)
  {
    Counted(p, now) > Threshold || Counted(p, now) < -Threshold
  }

  /** One call of the timing part of `render(now)`. */
  function Frame(p: Perf, now: real): (q: Perf)
    ensures q.lastNow == Some(now)
    ensures -Threshold <= q.dropped <= Threshold
    ensures p.scale >= MinScale ==> q.scale >= MinScale
    ensures Adjusts(p, now) ==> q.dropped == 0
    ensures !Adjusts(p, now) ==> q.scale == p.scale
  {
    var d := Counted(p, now);
    if d > Threshold then Perf(0, p.scale + GrowStep, Some(now))
    else if d < -Threshold then Perf(0, Max(MinScale, p.scale * ShrinkFactor), Some(now))
    else Perf(d, p.scale, Some(now))
  }

  /** The state after the frames `nows`, in order. */
  function Run(p: Perf, nows: seq<real>): Perf
    decreases |nows|
  {
    if nows == [] then p else Run(Frame(p, nows[0]), nows[1..])
  }

  /** What holds of the controller between any two frames. */
  predicate Inv(p: Perf)
  {
    -Threshold <= p.dropped <= Threshold && p.scale >= MinScale
  }

  /**
   * The two adjustments: past +10 the scale grows by exactly 0.25, past -10 it
   * shrinks by a quarter but not below 0.5; either way the counter restarts at
   * 0, and only one of them happens in a frame.
   */
  lemma Adjustment(p: Perf, now: real)
    ensures Counted(p, now) > Threshold ==>
      Frame(p, now).scale == p.scale + GrowStep && Frame(p, now).dropped == 0
    ensures Counted(p, now) < -Threshold ==>
      Frame(p, now).scale == Max(MinScale, p.scale * ShrinkFactor) && Frame(p, now).dropped == 0
    ensures !Adjusts(p, now) ==>
      Frame(p, now).scale == p.scale && Frame(p, now).dropped == Counted(p, now)
  {
  }

  /** The first frame is measured against `now - 1000/60`, so it always counts as fast. */
  lemma FirstFrameIsFast(p: Perf, now: real)
    requires Unset(p.lastNow)
    ensures Counted(p, now) == p.dropped - 1
    ensures Frame(InitialPerf, now) == Perf(0, 1.0, Some(now))
  {
  }

  /** A single frame keeps the invariant. */
  lemma FramePreservesInv(p: Perf, now: real)
    requires Inv(p)
    ensures Inv(Frame(p, now))
  {
  }

  /** Every sequence of frames from a state satisfying the invariant (the initial one among them) keeps it. */
  lemma {:induction false} RunPreservesInv(p: Perf, nows: seq<real>)
    requires Inv(p)
    ensures Inv(Run(p, nows))
    decreases |nows|
  {
    if nows != [] {
      FramePreservesInv(p, nows[0]);
      RunPreservesInv(Frame(p, nows[0]), nows[1..]);
    }
  }

  /** The controller starts inside the invariant, so every reachable state is inside it. */
  lemma ReachableInv(nows: seq<real>)
    ensures Inv(Run(InitialPerf, nows))
  {
    RunPreservesInv(InitialPerf, nows);
  }

  function AbsInt(i: int): nat { if i < 0 then -i else i }

  /** While the counter is at most |nows| away from 10 in magnitude, no frame of nows adjusts. */
  lemma {:induction false} QuietRun(p: Perf, nows: seq<real>)
    requires AbsInt(p.dropped) + |nows| <= Threshold
    ensures Run(p, nows).scale == p.scale
    ensures AbsInt(Run(p, nows).dropped) <= AbsInt(p.dropped) + |nows|
    ensures -|nows| <= Run(p, nows).dropped - p.dropped <= |nows|
    ensures forall k :: 0 <= k < |nows| ==> !Adjusts(Run(p, nows[..k]), nows[k])
    decreases |nows|
  {
    if nows != [] {
      var q := Frame(p, nows[0]);
      assert !Adjusts(p, nows[0]);
      QuietRun(q, nows[1..]);
      forall k | 0 <= k < |nows|
        ensures !Adjusts(Run(p, nows[..k]), nows[k])
      {
        if k > 0 {
          assert nows[..k][1..] == nows[1..][..k - 1];
          assert nows[k] == nows[1..][k - 1];
        }
      }
    }
  }

  /**
   * Cooldown: after a frame that adjusts the scale, none of the next ten
   * frames can adjust it again, whatever their timing.
   */
  lemma Cooldown(p: Perf, now: real, nows: seq<real>)
    requires Adjusts(p, now)
    requires |nows| <= Threshold
    ensures forall k :: 0 <= k < |nows| ==> !Adjusts(Run(Frame(p, now), nows[..k]), nows[k])
    ensures Run(Frame(p, now), nows).scale == Frame(p, now).scale
  {
    QuietRun(Frame(p, now), nows);
  }

  /** Every gap in t, nows[0], nows[1], ... is slower than 30 fps. */
  predicate AllSlow(t: real, nows: seq<real>)
    decreases |nows|
  {
    nows == [] || (nows[0] - t > SlowFrame && AllSlow(nows[0], nows[1..]))
  }

  /**
   * Slow frames push the counter up by one each until the one that takes it
   * past 10: that frame grows the scale by exactly 0.25, resets the counter and
   * leaves the last timestamp as the new `then`. From a reset counter this takes
   * eleven frames, so the cooldown of Cooldown is tight.
   */
  lemma {:induction false} SlowBurst(p: Perf, t: real, nows: seq<real>)
    requires p.lastNow == Some(t) && t > 0.0
    requires -Threshold <= p.dropped <= Threshold && p.dropped + |nows| == Threshold + 1
    requires AllSlow(t, nows)
    ensures Run(p, nows).scale == p.scale + GrowStep
    ensures Run(p, nows).dropped == 0
    ensures Run(p, nows).lastNow == Some(nows[|nows| - 1])
    decreases |nows|
  {
    var q := Frame(p, nows[0]);
    if p.dropped < Threshold {
      assert q == Perf(p.dropped + 1, p.scale, Some(nows[0]));
      SlowBurst(q, nows[0], nows[1..]);
    } else {
      assert nows[1..] == [];
    }
  }

  /** Running two sequences of frames one after the other is running their concatenation. */
  lemma {:induction false} RunAppend(p: Perf, a: seq<real>, b: seq<real>)
    ensures Run(p, a + b) == Run(Run(p, a), b)
    decreases |a|
  {
    if a != [] {
      assert (a + b)[0] == a[0] && (a + b)[1..] == a[1..] + b;
      RunAppend(Frame(p, a[0]), a[1..], b);
    } else {
      assert a + b == b;
    }
  }

  /** k timestamps 40 ms apart after t: a host stuck at 25 fps. */
  function Spaced(t: real, k: nat): (s: seq<real>)
    ensures |s| == k
    ensures forall i :: 0 <= i < k ==> s[i] == t + 40.0 * (i + 1) as real
    decreases k
  {
    if k == 0 then [] else [t + 40.0] + Spaced(t + 40.0, k - 1)
  }

  lemma {:induction false} SpacedIsSlow(t: real, k: nat)
    ensures AllSlow(t, Spaced(t, k))
    decreases k
  {
    if k > 0 {
      assert Spaced(t, k)[1..] == Spaced(t + 40.0, k - 1);
      SpacedIsSlow(t + 40.0, k - 1);
    }
  }

  /**
   * From any state inside the invariant with a set positive timestamp, some
   * sequence of frames raises the scale by exactly n steps of 0.25.
   */
  lemma {:induction false} Climb(p: Perf, t: real, n: nat)
    requires Inv(p) && p.lastNow == Some(t) && t > 0.0
    ensures exists nows :: Run(p, nows).scale == p.scale + GrowStep * n as real
    decreases n
  {
    if n == 0 {
      assert Run(p, []).scale == p.scale + GrowStep * n as real;
    } else {
      var k := Threshold + 1 - p.dropped;
      var burst := Spaced(t, k);
      SpacedIsSlow(t, k);
      SlowBurst(p, t, burst);
      var q := Run(p, burst);
      var t' := burst[k - 1];
      Climb(q, t', n - 1);
      var rest :| Run(q, rest).scale == q.scale + GrowStep * (n - 1) as real;
      RunAppend(p, burst, rest);
      assert Run(p, burst + rest).scale == p.scale + GrowStep * n as real;
    }
  }

  /**
   * The growth branch has no upper bound: for every n, some run from the
   * initial state reaches scale 1 + 0.25 n.
   */
  lemma GrowthUnbounded(n: nat)
    ensures exists nows :: Run(InitialPerf, nows).scale == 1.0 + GrowStep * n as real
  {
    var p := Frame(InitialPerf, 1.0);
    assert p == Perf(0, 1.0, Some(1.0));
    Climb(p, 1.0, n);
    var rest :| Run(p, rest).scale == 1.0 + GrowStep * n as real;
    assert Run(InitialPerf, [1.0] + rest) == Run(p, rest) by {
      assert ([1.0] + rest)[0] == 1.0 && ([1.0] + rest)[1..] == rest;
    }
  }

  /** A frame inside the 30-50 fps band changes neither the counter nor the scale. */
  lemma NeutralFrame(p: Perf, now: real)
    requires Inv(p)
    requires FastFrame <= now - Previous(p, now) <= SlowFrame
    ensures Frame(p, now) == Perf(p.dropped, p.scale, Some(now))
  {
  }
}
