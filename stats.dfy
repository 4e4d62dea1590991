/** Per-target statistics (pkg/pinger/stats.go): success and failure counters
    and a streaming average round-trip time, updated in place once per round.

    Durations are integers of nanoseconds (Go's time.Duration); the float64
    arithmetic of the average and of the loss percentage is done over reals. */
module Stats {

  /** One probe of a target, as the statistics record it. */
  datatype Attempt = Succeeded(rtt: int) | Failed

  function Successes(h: seq<Attempt>): (n: nat)
    ensures n <= |h|
  {
    if h == [] then 0
    else Successes(h[..|h| - 1]) + (if h[|h| - 1].Succeeded? then 1 else 0)
  }

  function Failures(h: seq<Attempt>): nat {
    |h| - Successes(h)
  }

  /** The round-trip times of the successful attempts, in order. */
  function Rtts(h: seq<Attempt>): (r: seq<int>)
    ensures |r| == Successes(h)
  {
    if h == [] then []
    else Rtts(h[..|h| - 1]) + (if h[|h| - 1].Succeeded? then [h[|h| - 1].rtt] else [])
  }

  lemma AppendAttempt(h: seq<Attempt>, a: Attempt)
    ensures Successes(h + [a]) == Successes(h) + (if a.Succeeded? then 1 else 0)
    ensures Rtts(h + [a]) == Rtts(h) + (if a.Succeeded? then [a.rtt] else [])
  {
    assert (h + [a])[..|h|] == h;
  }

  /** Recording more attempts never lowers either count. */
  lemma {:induction false} SuccessesOfPrefix(h: seq<Attempt>, m: nat)
    requires m <= |h|
    ensures Successes(h[..m]) <= Successes(h)
    ensures Failures(h[..m]) <= Failures(h)
  {
    if m < |h| {
      var p := h[..|h| - 1];
      SuccessesOfPrefix(p, m);
      assert p[..m] == h[..m];
    } else {
      assert h[..m] == h;
    }
  }

  /** Go's conversion of a float64 to time.Duration, which truncates toward zero. */
  function Trunc(x: real): (r: int)
    ensures x >= 0.0 ==> r as real <= x < r as real + 1.0
  {
    if x >= 0.0 then x.Floor else -((-x).Floor)
  }

  /** The exact incremental-mean step: the mean of n samples from the mean of
      the first n - 1 and the n-th sample. */
  function MeanStep(prev: real, x: real, n: nat): real
    requires n >= 1
  {
    prev + (x - prev) / n as real
  }

  /** addRTT's update for the n-th successful sample: the mean step, rounded
      by adding one half and truncating. */
  function NextAverage(prev: int, rtt: int, n: nat): int
    requires n >= 1
  {
    Trunc(MeanStep(prev as real, rtt as real, n) + 0.5)
  }

  /** For non-negative durations the update rounds the exact step to the
      nearest integer, halves rounding up. */
  lemma {:induction false} NextAverageRoundsToNearest(prev: int, rtt: int, n: nat)
    requires n >= 1 && prev >= 0 && rtt >= 0
    ensures var e := MeanStep(prev as real, rtt as real, n);
            NextAverage(prev, rtt, n) as real - 0.5 <= e < NextAverage(prev, rtt, n) as real + 0.5
  {
    StepBetween(prev, rtt, n);
  }

  lemma {:induction false} StepBetween(prev: int, rtt: int, n: nat)
    requires n >= 1
    ensures var e := MeanStep(prev as real, rtt as real, n);
            (prev <= rtt ==> prev as real <= e <= rtt as real) &&
            (rtt <= prev ==> rtt as real <= e <= prev as real)
  {
    var d := (rtt - prev) as real;
    var q := d / n as real;
    assert q * n as real == d;
    if d >= 0.0 {
      assert 0.0 <= q <= d;
    } else {
      assert d <= q <= 0.0;
    }
  }

  /** Each update moves the average from its previous value toward the sample
      without passing it. */
  lemma {:induction false} NextAverageBetween(prev: int, rtt: int, n: nat)
    requires n >= 1 && prev >= 0 && rtt >= 0
    ensures prev <= rtt ==> prev <= NextAverage(prev, rtt, n) <= rtt
    ensures rtt <= prev ==> rtt <= NextAverage(prev, rtt, n) <= prev
  {
    StepBetween(prev, rtt, n);
    NextAverageRoundsToNearest(prev, rtt, n);
  }

  /** The average PingStats holds after the successful samples `s`: zero
      before the first, the first sample itself, then one update per sample. */
  function RunningAverage(s: seq<int>): int {
    if |s| == 0 then 0
    else if |s| == 1 then s[0]
    else NextAverage(RunningAverage(s[..|s| - 1]), s[|s| - 1], |s|)
  }

  function Sum(s: seq<int>): int {
    if s == [] then 0 else Sum(s[..|s| - 1]) + s[|s| - 1]
  }

  /** The arithmetic mean, the quantity the running average tracks. */
  function Mean(s: seq<int>): real
    requires s != []
  {
    Sum(s) as real / |s| as real
  }

  /** The running average without its rounding. */
  function ExactRunningAverage(s: seq<int>): real
    requires s != []
  {
    if |s| == 1 then s[0] as real
    else MeanStep(ExactRunningAverage(s[..|s| - 1]), s[|s| - 1] as real, |s|)
  }

  /** Without rounding, the incremental update computes exactly the arithmetic
      mean of the samples. */
  lemma {:induction false} ExactRunningAverageIsMean(s: seq<int>)
    requires s != []
    ensures ExactRunningAverage(s) == Mean(s)
  {
    if |s| > 1 {
      var p := s[..|s| - 1];
      ExactRunningAverageIsMean(p);
      assert Sum(s) == Sum(p) + s[|s| - 1];
      MeanStepOfMean(Sum(p) as real, |p| as real, s[|s| - 1] as real);
    } else {
      assert s[..0] == [];
      assert Sum(s) == s[0];
    }
  }

  /** Stepping the mean of k samples with total `sum` by a sample x gives the
      mean of the k + 1 samples. */
  lemma MeanStepOfMean(sum: real, k: real, x: real)
    requires k >= 1.0
    ensures var m := sum / k;
            m + (x - m) / (k + 1.0) == (sum + x) / (k + 1.0)
  {
    var m := sum / k;
    assert m * k == sum;
    calc {
      m + (x - m) / (k + 1.0);
      (m * (k + 1.0) + (x - m)) / (k + 1.0);
      (m * k + x) / (k + 1.0);
    }
  }

  predicate AllNonNegative(s: seq<int>) {
    forall i | 0 <= i < |s| :: s[i] >= 0
  }

  function SeqMin(s: seq<int>): (m: int)
    requires s != []
    ensures m in s && forall i | 0 <= i < |s| :: m <= s[i]
  {
    if |s| == 1 then s[0]
    else var m := SeqMin(s[..|s| - 1]); if s[|s| - 1] < m then s[|s| - 1] else m
  }

  function SeqMax(s: seq<int>): (m: int)
    requires s != []
    ensures m in s && forall i | 0 <= i < |s| :: s[i] <= m
  {
    if |s| == 1 then s[0]
    else var m := SeqMax(s[..|s| - 1]); if s[|s| - 1] > m then s[|s| - 1] else m
  }

  /** For non-negative samples the running average stays within the smallest
      and the largest sample. */
  lemma {:induction false} RunningAverageWithinSamples(s: seq<int>)
    requires s != [] && AllNonNegative(s)
    ensures SeqMin(s) <= RunningAverage(s) <= SeqMax(s)
  {
    if |s| > 1 {
      var p := s[..|s| - 1];
      RunningAverageWithinSamples(p);
      NextAverageBetween(RunningAverage(p), s[|s| - 1], |s|);
    }
  }

  /** The rounding of every update lets the stored average drift from the
      mean of the samples, by at most half a nanosecond per sample after the
      first. */
  lemma {:induction false} RunningAverageDrift(s: seq<int>)
    requires s != [] && AllNonNegative(s)
    ensures var drift := (|s| - 1) as real / 2.0;
            Mean(s) - drift <= RunningAverage(s) as real <= Mean(s) + drift
  {
    if |s| == 1 {
      assert s[..0] == [];
      assert Sum(s) == s[0];
    } else {
      var p := s[..|s| - 1];
      var x := s[|s| - 1];
      RunningAverageDrift(p);
      RunningAverageWithinSamples(p);
      NextAverageRoundsToNearest(RunningAverage(p), x, |s|);
      MeanOfSnoc(s);
      DriftStep(RunningAverage(p) as real, Mean(p), x as real, |s|);
    }
  }

  /** The mean of a sequence is one mean step from the mean of its prefix. */
  lemma MeanOfSnoc(s: seq<int>)
    requires |s| >= 2
    ensures Mean(s) == MeanStep(Mean(s[..|s| - 1]), s[|s| - 1] as real, |s|)
  {
    var p := s[..|s| - 1];
    assert Sum(s) as real == Sum(p) as real + s[|s| - 1] as real;
    assert |s| as real == |p| as real + 1.0;
    MeanStepOfMean(Sum(p) as real, |p| as real, s[|s| - 1] as real);
  }

  /** One update carries a drift of at most (n - 2) / 2 between the old
      average and the old mean into one of at most (n - 2) / 2 between the
      exact step and the new mean. */
  lemma DriftStep(prev: real, m: real, x: real, n: nat)
    requires n >= 2
    requires m - (n - 2) as real / 2.0 <= prev <= m + (n - 2) as real / 2.0
    ensures MeanStep(m, x, n) - (n - 2) as real / 2.0 <= MeanStep(prev, x, n) <= MeanStep(m, x, n) + (n - 2) as real / 2.0
  {
    var d := prev - m;
    var q1 := (x - prev) / n as real;
    var q2 := (x - m) / n as real;
    var q3 := d / n as real;
    assert q1 * n as real == x - prev && q2 * n as real == x - m && q3 * n as real == d;
    assert (q1 - q2 + q3) * n as real == 0.0;
    assert q1 - q2 == -q3;
    ShrinkStep(d, n);
  }

  /** Removing a share 1/n of a difference moves it toward zero without
      crossing it. */
  lemma ShrinkStep(d: real, n: nat)
    requires n >= 1
    ensures d >= 0.0 ==> 0.0 <= d - d / n as real <= d
    ensures d < 0.0 ==> d <= d - d / n as real <= 0.0
  {
    var q := d / n as real;
    assert q * n as real == d;
  }

  /** The drift can exceed one nanosecond: after the samples 0, 1, 3, 4 and
      6 ns the stored average is 4 ns while their mean is 2.8 ns. */
  lemma RunningAverageDriftExample()
    ensures RunningAverage([0, 1, 3, 4, 6]) == 4
    ensures Mean([0, 1, 3, 4, 6]) == 2.8
  {
    assert [0, 1][..1] == [0];
    assert RunningAverage([0, 1]) == NextAverage(0, 1, 2) == 1;
    assert [0, 1, 3][..2] == [0, 1];
    assert RunningAverage([0, 1, 3]) == NextAverage(1, 3, 3) == 2;
    assert [0, 1, 3, 4][..3] == [0, 1, 3];
    assert RunningAverage([0, 1, 3, 4]) == NextAverage(2, 4, 4) == 3;
    assert [0, 1, 3, 4, 6][..4] == [0, 1, 3, 4];
    assert RunningAverage([0, 1, 3, 4, 6]) == NextAverage(3, 6, 5) == 4;
    assert Sum([0]) == 0 && Sum([0, 1]) == 1 && Sum([0, 1, 3]) == 4 && Sum([0, 1, 3, 4]) == 8;
    assert Sum([0, 1, 3, 4, 6]) == 14;
  }

  /** PacketLoss: 0 with no attempts, 100 with no successes, otherwise the
      failures as a percentage of all attempts. */
  function Loss(success: nat, failure: nat): (r: real)
    ensures 0.0 <= r <= 100.0
    ensures success + failure == 0 ==> r == 0.0
    ensures success + failure > 0 ==> r * (success + failure) as real == failure as real * 100.0
  {
    var total := success + failure;
    if total == 0 then 0.0
    else if success == 0 then 100.0
    else failure as real / total as real * 100.0
  }

  class PingStats {
    var success: nat
    var failure: nat
    var avgRTT: int
    /** Every attempt recorded so far, in order. */
    ghost var history: seq<Attempt>

    ghost predicate Valid()
      reads this
    {
      success == Successes(history) &&
      failure == Failures(history) &&
      avgRTT == RunningAverage(Rtts(history))
    }

    /** The zero value of the Go struct. */
    constructor ()
      ensures Valid() && history == []
    {
      success, failure, avgRTT := 0, 0, 0;
      history := [];
    }

    function AvgRTT(): (d: int)
      reads this
      requires Valid()
      ensures d == RunningAverage(Rtts(history))
      ensures success == 0 ==> d == 0
    {
      if success == 0 then 0 else avgRTT
    }

    function Success(): (n: nat)
      reads this
      requires Valid()
      ensures n == Successes(history)
    {
      success
    }

    function Failure(): (n: nat)
      reads this
      requires Valid()
      ensures n == Failures(history)
    {
      failure
    }

    function PacketLoss(): (r: real)
      reads this
      requires Valid()
      ensures r == Loss(Successes(history), Failures(history))
    {
      Loss(success, failure)
    }

    method AddSuccess(rtt: int)
      requires Valid()
      modifies this
      ensures Valid()
      ensures history == old(history) + [Succeeded(rtt)]
      ensures success == old(success) + 1 && failure == old(failure)
      ensures avgRTT == if old(success) == 0 then rtt else NextAverage(old(avgRTT), rtt, success)
    {
      AppendAttempt(history, Succeeded(rtt));
      ghost var samples := Rtts(history);
      assert (samples + [rtt])[..|samples|] == samples;
      success := success + 1;
      history := history + [Succeeded(rtt)];
      AddRtt(rtt);
    }

    /** addRTT: folds the sample into the average; the caller has already
        counted it. */
    method AddRtt(rtt: int)
      requires success >= 1
      modifies this`avgRTT
      ensures avgRTT == if success == 1 then rtt else NextAverage(old(avgRTT), rtt, success)
    {
      if success == 1 {
        avgRTT := rtt;
        return;
      }
      avgRTT := NextAverage(avgRTT, rtt, success);
    }

    method AddFailure()
      requires Valid()
      modifies this
      ensures Valid()
      ensures history == old(history) + [Failed]
      ensures failure == old(failure) + 1
      ensures success == old(success) && avgRTT == old(avgRTT)
    {
      AppendAttempt(history, Failed);
      assert Rtts(history + [Failed]) == Rtts(history);
      failure := failure + 1;
      history := history + [Failed];
    }
  }
}
