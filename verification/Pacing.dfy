/** Predicting the next arrival on a periodic stream.  Times are nanoseconds; dividing a
    duration rounds down.  Models `Predictor` in core/src/websocket/pacing.rs. */
module Pacing {
  import opened Values

  const MIN_STREAK: nat := 2
  const MAX_GAP: nat := 250_000_000
  const MARGIN_FRACTION: nat := 4

  datatype State = State(last: Option<nat>, interval: Option<nat>, streak: nat)

  const Fresh: State := State(None, None, 0)

  function Gap(last: nat, now: nat): nat { if now < last then 0 else now - last }

  predicate InStep(interval: Option<nat>, gap: nat) {
    gap <= MAX_GAP && (interval.Some? ==> gap <= interval.value * 4)
  }

  /** The running interval: the first gap as it is, then three parts old to one new. */
  function Blend(interval: Option<nat>, gap: nat): nat {
    match interval
    case None => gap
    case Some(i) => i / 4 * 3 + gap / 4
  }

  function Record(s: State, now: nat): State {
    if s.last.None? then s.(last := Some(now))
    else
      var gap := Gap(s.last.value, now);
      if InStep(s.interval, gap) then State(Some(now), Some(Blend(s.interval, gap)), s.streak + 1)
      else State(Some(now), None, 0)
  }

  function RecordAll(arrivals: seq<nat>): State {
    if arrivals == [] then Fresh else Record(RecordAll(arrivals[..|arrivals| - 1]), arrivals[|arrivals| - 1])
  }

  function Margin(s: State, margin: nat): nat {
    match s.interval
    case None => margin
    case Some(i) => if margin <= i / MARGIN_FRACTION then margin else i / MARGIN_FRACTION
  }

  function NextDue(s: State, margin: nat): Option<nat> {
    if margin == 0 || s.streak < MIN_STREAK || s.last.None? || s.interval.None? then None
    else Some(s.last.value + s.interval.value)
  }

  /** The predictor of one connection.  `arrivals` is every arrival it was told of. */
  class Predictor {
    var last: Option<nat>
    var interval: Option<nat>
    var streak: nat
    const margin: nat
    ghost var arrivals: seq<nat>

    ghost function Contents(): State
      reads this
    {
      State(last, interval, streak)
    }

    ghost predicate Valid()
      reads this
    {
      Contents() == RecordAll(arrivals)
    }

    constructor (margin: nat)
      ensures Valid() && arrivals == [] && this.margin == margin
    {
      last, interval, streak := None, None, 0;
      this.margin := margin;
      arrivals := [];
    }

    /** After every arrival the interval lies within the gaps of the streak that ends there. */
    method Note(now: nat)
      requires Valid()
      modifies this
      ensures Valid() && arrivals == old(arrivals) + [now]
      ensures last == Some(now) && streak == |StreakGaps(arrivals)| && (interval.Some? <==> streak > 0)
      ensures forall least: nat, most: nat | Within(StreakGaps(arrivals), least, most) ::
                interval.Some? ==> 4 * (least / 4) <= interval.value <= most && interval.value <= MAX_GAP
    {
      if last.Some? {
        var gap := Gap(last.value, now);
        var inStep := gap <= MAX_GAP && (interval.None? || gap <= interval.value * 4);
        if inStep {
          interval := Some(if interval.None? then gap else interval.value / 4 * 3 + gap / 4);
          streak := streak + 1;
        } else {
          interval := None;
          streak := 0;
        }
      }
      last := Some(now);
      RecordedLast(arrivals, now);
      arrivals := arrivals + [now];
      Bounded(arrivals);
    }
  }

  lemma RecordedLast(arrivals: seq<nat>, now: nat)
    ensures RecordAll(arrivals + [now]) == Record(RecordAll(arrivals), now)
  {
    assert (arrivals + [now])[..|arrivals|] == arrivals;
  }

  lemma {:induction false} GapsBounded(arrivals: seq<nat>)
    ensures Within(StreakGaps(arrivals), 0, MAX_GAP)
    decreases |arrivals|
  {
    if |arrivals| >= 2 { GapsBounded(arrivals[..|arrivals| - 1]); }
  }

  lemma Bounded(arrivals: seq<nat>)
    ensures var s := RecordAll(arrivals);
            && s.streak == |StreakGaps(arrivals)| && (s.interval.Some? <==> s.streak > 0)
            && forall least: nat, most: nat | Within(StreakGaps(arrivals), least, most) ::
                 s.interval.Some? ==> 4 * (least / 4) <= s.interval.value <= most && s.interval.value <= MAX_GAP
  {
    hide RecordAll, StreakGaps, Within;
    GapsBounded(arrivals);
    IntervalWithinGaps(arrivals, 0, MAX_GAP);
    var s := RecordAll(arrivals);
    forall least: nat, most: nat | Within(StreakGaps(arrivals), least, most)
      ensures s.interval.Some? ==> 4 * (least / 4) <= s.interval.value <= most && s.interval.value <= MAX_GAP
    {
      IntervalWithinGaps(arrivals, least, most);
    }
  }

  // ----------------------------------------------------------------- any stream

  /** The gaps the current streak is made of, newest last. */
  function StreakGaps(arrivals: seq<nat>): seq<nat> {
    if |arrivals| < 2 then []
    else
      var n := |arrivals| - 1;
      var before := RecordAll(arrivals[..n]);
      var gap := Gap(arrivals[n - 1], arrivals[n]);
      if InStep(before.interval, gap) then StreakGaps(arrivals[..n]) + [gap] else []
  }

  ghost predicate Within(gaps: seq<nat>, least: nat, most: nat) {
    forall k | 0 <= k < |gaps| :: least <= gaps[k] <= most
  }

  lemma {:induction false} LastIs(arrivals: seq<nat>)
    ensures arrivals != [] ==> RecordAll(arrivals).last == Some(arrivals[|arrivals| - 1])
    ensures RecordAll(arrivals).last.Some? <==> arrivals != []
    decreases |arrivals|
  {
    if arrivals != [] {
      LastIs(arrivals[..|arrivals| - 1]);
    }
  }

  /** Rounding down cannot push a weighted mean out of its bounds, but for the last two
      bits of the lower one. */
  lemma BlendBounds(i: nat, gap: nat, least: nat, most: nat)
    requires 4 * (least / 4) <= i <= most && least <= gap <= most
    ensures 4 * (least / 4) <= i / 4 * 3 + gap / 4 <= most
  {
    assert i / 4 >= least / 4 && gap / 4 >= least / 4;
    assert i / 4 <= most / 4 && gap / 4 <= most / 4;
  }

  lemma WithinFront(gaps: seq<nat>, gap: nat, least: nat, most: nat)
    requires Within(gaps + [gap], least, most)
    ensures Within(gaps, least, most) && least <= gap <= most
  {
    var more := gaps + [gap];
    forall k | 0 <= k < |gaps| ensures least <= gaps[k] <= most {
      assert more[k] == gaps[k];
    }
    assert more[|gaps|] == gap;
  }

  /** In any stream the predicted interval lies between the least and greatest gap of the
      current streak, the lower bound rounded down to a multiple of four, and the streak
      counts those gaps.  None of them exceeds a quarter second. */
  lemma {:induction false} IntervalWithinGaps(arrivals: seq<nat>, least: nat, most: nat)
    requires Within(StreakGaps(arrivals), least, most)
    ensures var s := RecordAll(arrivals);
            && s.streak == |StreakGaps(arrivals)| && (s.interval.Some? <==> s.streak > 0)
            && (s.interval.Some? ==> 4 * (least / 4) <= s.interval.value <= most && s.interval.value <= MAX_GAP)
    decreases |arrivals|
  {
    if |arrivals| == 1 {
      assert arrivals[..0] == [];
    } else if |arrivals| > 1 {
      var n := |arrivals| - 1;
      var init := arrivals[..n];
      var before := RecordAll(init);
      var gap := Gap(arrivals[n - 1], arrivals[n]);
      LastIs(init);
      assert init[|init| - 1] == arrivals[n - 1];
      if InStep(before.interval, gap) {
        WithinFront(StreakGaps(init), gap, least, most);
        IntervalWithinGaps(init, least, most);
        if before.interval.Some? {
          BlendBounds(before.interval.value, gap, least, most);
          BlendBounds(before.interval.value, gap, 0, MAX_GAP);
        }
      }
    }
  }

  /** A reader spins for at most half of each predicted interval. */
  lemma {:induction false} SpinsHalf(s: State, margin: nat)
    requires s.interval.Some?
    ensures 2 * Margin(s, margin) <= s.interval.value / 2 && Margin(s, margin) <= margin
  {}

  // ------------------------------------------------------------ a periodic stream

  /** `n` arrivals, `period` apart, from `start` on. */
  function Periodic(start: nat, period: nat, n: nat): seq<nat> {
    seq(n, k requires 0 <= k < n => start + k * period)
  }

  lemma PeriodicStep(start: nat, period: nat, n: nat)
    requires n > 0
    ensures RecordAll(Periodic(start, period, n)) ==
            Record(RecordAll(Periodic(start, period, n - 1)), start + (n - 1) * period)
  {
    var a := Periodic(start, period, n);
    assert a[..n - 1] == Periodic(start, period, n - 1);
  }

  lemma PeriodicGap(start: nat, period: nat, n: nat)
    requires n > 0
    ensures start + n * period == start + (n - 1) * period + period
  {}

  lemma OneArrival(start: nat, period: nat)
    ensures RecordAll(Periodic(start, period, 1)) == State(Some(start), None, 0)
  {
    PeriodicStep(start, period, 1);
    assert Periodic(start, period, 0) == [];
  }

  lemma TwoArrivals(start: nat, period: nat)
    ensures RecordAll(Periodic(start, period, 2)) ==
            if period <= MAX_GAP then State(Some(start + period), Some(period), 1)
            else State(Some(start + period), None, 0)
  {
    hide RecordAll, Periodic;
    OneArrival(start, period);
    PeriodicStep(start, period, 2);
  }

  /** What the predictor holds after `n` arrivals of a period it can follow. */
  lemma {:induction false} Followed(start: nat, period: nat, n: nat)
    requires n >= 2 && (period == 0 || 4 <= period <= MAX_GAP)
    ensures RecordAll(Periodic(start, period, n)) ==
            State(Some(start + (n - 1) * period), Some(if n == 2 then period else 4 * (period / 4)), n - 1)
    decreases n
  {
    hide RecordAll, Periodic;
    if n == 2 {
      TwoArrivals(start, period);
    } else {
      PeriodicStep(start, period, n);
      PeriodicGap(start, period, n - 1);
      Followed(start, period, n - 1);
      assert period / 4 * 3 + period / 4 == 4 * (period / 4);
    }
  }

  /** The next arrival is predicted to within 3 ns. */
  ghost predicate Predicted(start: nat, period: nat, n: nat, margin: nat) {
    var due := NextDue(RecordAll(Periodic(start, period, n)), margin);
    due.Some? && start + n * period - 3 <= due.value <= start + n * period
  }

  /** A periodic stream is predicted from its third arrival on exactly when the period is
      zero or between 4 ns and a quarter second: shorter ones round to an interval of zero
      and fall out of step at the fourth arrival, longer ones never are in step. */
  lemma {:induction false} PredictedExactly(start: nat, period: nat, margin: nat)
    requires margin > 0
    ensures (forall n | n >= 3 :: Predicted(start, period, n, margin)) <==> (period == 0 || 4 <= period <= MAX_GAP)
  {
    if period == 0 || 4 <= period <= MAX_GAP {
      forall n | n >= 3 ensures Predicted(start, period, n, margin) {
        Followed(start, period, n);
        PeriodicGap(start, period, n);
      }
    } else if period > MAX_GAP {
      NeverInStep(start, period);
      assert !Predicted(start, period, 3, margin);
    } else {
      OutOfStep(start, period);
      assert !Predicted(start, period, 4, margin);
    }
  }

  lemma NeverInStep(start: nat, period: nat)
    requires period > MAX_GAP
    ensures RecordAll(Periodic(start, period, 3)).streak == 0
  {
    hide RecordAll, Periodic;
    TwoArrivals(start, period);
    PeriodicStep(start, period, 3);
  }

  lemma OutOfStep(start: nat, period: nat)
    requires 1 <= period <= 3
    ensures RecordAll(Periodic(start, period, 4)).streak == 0
  {
    hide RecordAll, Periodic;
    TwoArrivals(start, period);
    PeriodicStep(start, period, 3);
    assert RecordAll(Periodic(start, period, 3)) == State(Some(start + 2 * period), Some(0), 2);
    PeriodicStep(start, period, 4);
  }
}
