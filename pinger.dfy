/** The round engine (pkg/pinger/pinger.go): every round probes each target
    once, updates that target's statistics and prints a row; the run ends
    after `count` rounds, or when cancellation is observed, and always ends
    with the summary.

    The probe, the ticker and the cancellation of the context are supplied
    by the caller as an `Env`. The worker pool runs the probes of a round in
    target order, which is what collecting the futures in submission order
    observes. */
module Pinger {
  import opened Wrappers
  import opened Stats
  import opened Targets
  import opened Probe
  import opened Display

  /** PingerOptions; durations in nanoseconds. */
  datatype PingerOptions = PingerOptions(targets: seq<ResolvedTarget>, interval: int, timeout: int, count: nat)

  /** What the run observes of the outside world: the probe's replies; at
      round r, whether collecting the result of target j sees the context
      cancelled (`collectDone(r, j)`); and whether the wait for the next tick
      after round r sees it cancelled (`tickDone(r)`). */
  datatype Env = Env(probe: ProbePort, collectDone: (nat, nat) -> bool, tickDone: nat -> bool)

  function Call(p: PingerOptions, round: nat, i: nat): ProbeCall
    requires i < |p.targets|
  {
    ProbeCall(round, i, p.targets[i], p.timeout)
  }

  /** The results of a round that is not cancelled: one per target, in
      target order, each the probe's reply for that target. */
  function RoundResults(p: PingerOptions, env: Env, round: nat): (r: seq<PingResult>)
    ensures |r| == |p.targets|
    ensures forall i | 0 <= i < |r| ::
              r[i].target == p.targets[i] &&
              r[i].success == env.probe(Call(p, round, i)).success &&
              r[i].rtt == env.probe(Call(p, round, i)).rtt
  {
    seq(|p.targets|, i requires 0 <= i < |p.targets| => PingOnce(Call(p, round, i), env.probe))
  }

  /** Whether collecting round `round` sees the context cancelled. With no
      targets there is nothing to collect, so it never does. */
  predicate RoundCancelled(p: PingerOptions, env: Env, round: nat) {
    exists j | 0 <= j < |p.targets| :: env.collectDone(round, j)
  }

  /** Whether a run still going at round `round` stops there. */
  predicate Interrupted(p: PingerOptions, env: Env, round: nat) {
    RoundCancelled(p, env, round) || env.tickDone(round)
  }

  /** pingAllOnce: every target probed once; None when the cancellation is
      observed while collecting, never a partial list. */
  method PingAllOnce(p: PingerOptions, env: Env, round: nat) returns (results: Option<seq<PingResult>>)
    ensures results.None? <==> RoundCancelled(p, env, round)
    ensures results.Some? ==> results.value == RoundResults(p, env, round)
  {
    var futs: seq<PingResult> := [];
    for i := 0 to |p.targets|
      invariant |futs| == i
      invariant forall k | 0 <= k < i :: futs[k] == PingOnce(Call(p, round, k), env.probe)
    {
      futs := futs + [PingOnce(Call(p, round, i), env.probe)];
    }

    var collected: seq<PingResult> := [];
    for i := 0 to |futs|
      invariant |collected| == i
      invariant forall k | 0 <= k < i :: !env.collectDone(round, k)
      invariant forall k | 0 <= k < i :: collected[k] == futs[k]
    {
      if env.collectDone(round, i) {
        return None;
      }
      collected := collected + [futs[i]];
    }
    return Some(collected);
  }

  /** How the statistics record a result. */
  function AttemptOf(r: PingResult): (a: Attempt)
    ensures a.Succeeded? <==> r.success
    ensures a.Succeeded? ==> a.rtt == r.rtt
  {
    if r.success then Succeeded(r.rtt) else Failed
  }

  /** What the statistics of target i have recorded after `rounds` completed
      rounds. */
  function History(p: PingerOptions, env: Env, i: nat, rounds: nat): (h: seq<Attempt>)
    requires i < |p.targets|
    ensures |h| == rounds
  {
    if rounds == 0 then []
    else History(p, env, i, rounds - 1) + [AttemptOf(RoundResults(p, env, rounds)[i])]
  }

  function Histories(p: PingerOptions, env: Env, rounds: nat): (hs: seq<seq<Attempt>>)
    ensures |hs| == |p.targets|
  {
    seq(|p.targets|, i requires 0 <= i < |p.targets| => History(p, env, i, rounds))
  }

  /** Entry j of a target's history is its result in round j + 1: one entry
      per round, nothing skipped, nothing repeated. */
  lemma {:induction false} HistoryAttempts(p: PingerOptions, env: Env, i: nat, rounds: nat)
    requires i < |p.targets|
    ensures |History(p, env, i, rounds)| == rounds
    ensures forall j | 0 <= j < rounds ::
              History(p, env, i, rounds)[j] == AttemptOf(RoundResults(p, env, j + 1)[i])
  {
    if rounds > 0 {
      HistoryAttempts(p, env, i, rounds - 1);
    }
  }

  /** A later round extends what an earlier one recorded. */
  lemma {:induction false} HistoryExtends(p: PingerOptions, env: Env, i: nat, m: nat, n: nat)
    requires i < |p.targets| && m <= n
    ensures History(p, env, i, m) == History(p, env, i, n)[..m]
  {
    HistoryAttempts(p, env, i, m);
    HistoryAttempts(p, env, i, n);
  }

  /** The counters of a target never decrease from one round to a later one. */
  lemma CountersNeverDecrease(p: PingerOptions, env: Env, i: nat, m: nat, n: nat)
    requires i < |p.targets| && m <= n
    ensures Successes(History(p, env, i, m)) <= Successes(History(p, env, i, n))
    ensures Failures(History(p, env, i, m)) <= Failures(History(p, env, i, n))
  {
    HistoryExtends(p, env, i, m, n);
    HistoryAttempts(p, env, i, n);
    SuccessesOfPrefix(History(p, env, i, n), m);
  }

  function Widths(targets: seq<ResolvedTarget>): (ws: seq<nat>)
    ensures |ws| == |targets|
  {
    seq(|targets|, i requires 0 <= i < |targets| => ColumnWidth(targets[i].name))
  }

  /** What the first `rounds` rounds print, one block of lines per round. */
  function Rounds(p: PingerOptions, env: Env, rounds: nat): (blocks: seq<seq<Line>>)
    ensures |blocks| == rounds
  {
    if rounds == 0 then []
    else Rounds(p, env, rounds - 1) +
         [PrintResults(rounds, Widths(p.targets), RoundResults(p, env, rounds), rounds % 10 == 1)]
  }

  /** The lines of consecutive blocks, in order. */
  function Flatten(blocks: seq<seq<Line>>): (lines: seq<Line>)
    ensures |blocks| == 0 ==> lines == []
  {
    if blocks == [] then [] else Flatten(blocks[..|blocks| - 1]) + blocks[|blocks| - 1]
  }

  /** What round k prints: a row numbered k showing round k's results, one
      cell per target in target order, after the label header exactly on
      rounds 1, 11, 21, ... */
  predicate PrintsRound(p: PingerOptions, env: Env, k: nat, block: seq<Line>) {
    |block| >= 1 &&
    var row := block[|block| - 1];
    row.ResultRow? && row.counter == k && |row.cells| == |p.targets| &&
    (forall i | 0 <= i < |p.targets| :: row.cells[i] == ResultCell(RoundResults(p, env, k)[i])) &&
    (k % 10 == 1 ==> |block| == 3 && block[0].LabelRow? && block[1].DashRow?) &&
    (k % 10 != 1 ==> |block| == 1)
  }

  /** Each round appends its block to what the earlier rounds printed. */
  lemma RoundsStep(p: PingerOptions, env: Env, rounds: nat)
    requires rounds >= 1
    ensures Flatten(Rounds(p, env, rounds)) ==
            Flatten(Rounds(p, env, rounds - 1)) +
            PrintResults(rounds, Widths(p.targets), RoundResults(p, env, rounds), rounds % 10 == 1)
  {
    assert Rounds(p, env, rounds)[..rounds - 1] == Rounds(p, env, rounds - 1);
  }

  /** Block j is what round j + 1 prints. */
  lemma {:induction false} RoundBlocks(p: PingerOptions, env: Env, rounds: nat)
    ensures forall j | 0 <= j < rounds ::
              Rounds(p, env, rounds)[j] == PrintResults(j + 1, Widths(p.targets), RoundResults(p, env, j + 1), (j + 1) % 10 == 1)
    ensures forall j | 0 <= j < rounds :: PrintsRound(p, env, j + 1, Rounds(p, env, rounds)[j])
  {
    if rounds > 0 {
      RoundBlocks(p, env, rounds - 1);
    }
  }

  /** One row per round plus a two-row header every ten rounds. */
  lemma {:induction false} TranscriptLength(p: PingerOptions, env: Env, rounds: nat)
    ensures |Flatten(Rounds(p, env, rounds))| == rounds + 2 * ((rounds + 9) / 10)
  {
    TranscriptRows(p, env, rounds);
    RowCount(rounds);
  }

  /** The rows printed by n rounds, counted round by round. */
  function Rows(n: nat): nat {
    if n == 0 then 0 else Rows(n - 1) + (if n % 10 == 1 then 3 else 1)
  }

  lemma {:induction false} TranscriptRows(p: PingerOptions, env: Env, rounds: nat)
    ensures |Flatten(Rounds(p, env, rounds))| == Rows(rounds)
  {
    if rounds > 0 {
      TranscriptRows(p, env, rounds - 1);
      RoundsStepLength(p, env, rounds);
    }
  }

  lemma {:induction false} RowCount(n: nat)
    ensures Rows(n) == n + 2 * ((n + 9) / 10)
  {
    if n > 0 {
      RowCount(n - 1);
      HeadersUpTo(n);
    }
  }

  /** Round n adds three rows when it starts a group of ten, otherwise one. */
  lemma RoundsStepLength(p: PingerOptions, env: Env, rounds: nat)
    requires rounds >= 1
    ensures |Flatten(Rounds(p, env, rounds))| ==
            |Flatten(Rounds(p, env, rounds - 1))| + (if rounds % 10 == 1 then 3 else 1)
  {
    RoundsStep(p, env, rounds);
  }

  /** Round n is the first of a new group of ten exactly when n % 10 == 1. */
  lemma HeadersUpTo(n: nat)
    requires n >= 1
    ensures (n + 9) / 10 == ((n - 1) + 9) / 10 + (if n % 10 == 1 then 1 else 0)
  {
    var q, r := n / 10, n % 10;
    assert n == 10 * q + r;
    if r == 0 {
      assert (n + 9) / 10 == q && (n + 8) / 10 == q;
    } else {
      assert (n + 9) / 10 == q + 1;
      assert r == 1 ==> (n + 8) / 10 == q;
      assert r != 1 ==> (n + 8) / 10 == q + 1;
    }
  }

  /** The rounds print no summary. */
  lemma {:induction false} TranscriptHasNoSummary(p: PingerOptions, env: Env, rounds: nat)
    ensures forall j | 0 <= j < |Flatten(Rounds(p, env, rounds))| :: !Flatten(Rounds(p, env, rounds))[j].Summary?
  {
    if rounds > 0 {
      TranscriptHasNoSummary(p, env, rounds - 1);
      assert Rounds(p, env, rounds)[..rounds - 1] == Rounds(p, env, rounds - 1);
    }
  }

  /** The zero-valued statistics of `n` targets, one fresh object each. */
  method NewStats(n: nat) returns (stats: seq<PingStats>)
    ensures |stats| == n
    ensures forall i, j | 0 <= i < j < n :: stats[i] != stats[j]
    ensures forall i | 0 <= i < n :: fresh(stats[i]) && stats[i].Valid() && stats[i].history == []
  {
    stats := [];
    for i := 0 to n
      invariant |stats| == i
      invariant forall a, b | 0 <= a < b < i :: stats[a] != stats[b]
      invariant forall a | 0 <= a < i :: fresh(stats[a]) && stats[a].Valid() && stats[a].history == []
    {
      var s := new PingStats();
      stats := stats + [s];
    }
  }

  /** The statistics of one target record one result of a round: a success
      with its round-trip time, or a failure. */
  method Record(s: PingStats, r: PingResult)
    requires s.Valid()
    modifies s
    ensures s.Valid() && s.history == old(s.history) + [AttemptOf(r)]
  {
    if !r.success {
      s.AddFailure();
    } else {
      s.AddSuccess(r.rtt);
    }
  }

  /** The update loop of Start: the statistics of target i record result i
      of the round. */
  method UpdateStats(stats: seq<PingStats>, results: seq<PingResult>)
    requires |stats| == |results|
    requires forall i, j | 0 <= i < j < |stats| :: stats[i] != stats[j]
    requires forall i | 0 <= i < |stats| :: stats[i].Valid()
    modifies stats
    ensures forall i | 0 <= i < |stats| ::
              stats[i].Valid() && stats[i].history == old(stats[i].history) + [AttemptOf(results[i])]
  {
    for i := 0 to |stats|
      invariant forall k | 0 <= k < |stats| :: stats[k].Valid()
      invariant forall k | 0 <= k < i :: stats[k].history == old(stats[k].history) + [AttemptOf(results[k])]
      invariant forall k | i <= k < |stats| :: stats[k].history == old(stats[k].history)
    {
      Record(stats[i], results[i]);
    }
  }

  /** One round of Start: probe every target; unless the cancellation is
      observed while collecting, record each result in its target's
      statistics and print the round. A cancelled round records nothing. */
  method PlayRound(p: PingerOptions, env: Env, round: nat, widths: seq<nat>, stats: seq<PingStats>)
    returns (completed: bool, shown: seq<Line>)
    requires round >= 1 && widths == Widths(p.targets) && |stats| == |p.targets|
    requires forall i, j | 0 <= i < j < |stats| :: stats[i] != stats[j]
    requires forall i | 0 <= i < |stats| :: stats[i].Valid() && stats[i].history == History(p, env, i, round - 1)
    modifies stats
    ensures completed <==> !RoundCancelled(p, env, round)
    ensures forall i | 0 <= i < |stats| ::
              stats[i].Valid() && stats[i].history == History(p, env, i, if completed then round else round - 1)
    ensures completed ==> shown == PrintResults(round, widths, RoundResults(p, env, round), round % 10 == 1)
  {
    var results := PingAllOnce(p, env, round);
    if results.None? {
      return false, [];
    }
    UpdateStats(stats, results.value);
    shown := PrintResults(round, widths, results.value, round % 10 == 1);
    completed := true;
  }

  /** The deferred exit of Start: the summary of what the completed rounds
      recorded. */
  method Finish(p: PingerOptions, env: Env, rounds: nat, stats: seq<PingStats>)
    returns (summary: Line)
    requires |stats| == |p.targets|
    requires forall i | 0 <= i < |stats| :: stats[i].Valid() && stats[i].history == History(p, env, i, rounds)
    ensures summary == SummaryOf(Histories(p, env, rounds))
  {
    ghost var hs := Histories(p, env, rounds);
    summary := PrintStats(stats);
    assert summary.failures == SummaryOf(hs).failures;
    assert summary.losses == SummaryOf(hs).losses;
    assert summary.rtts == SummaryOf(hs).rtts;
  }

  /** The loop of Start: rounds numbered from 1 until round `count` when
      `count` > 0, or until the cancellation is observed while collecting a
      round (which then records nothing) or while waiting for the next tick.
      `rounds` is the number of completed rounds and `printed` what each of
      them printed; the statistics hold exactly those rounds. */
  method RunRounds(p: PingerOptions, env: Env, ghost horizon: nat, widths: seq<nat>, stats: seq<PingStats>)
    returns (cancelled: bool, rounds: nat, printed: seq<seq<Line>>)
    requires p.count > 0 || (horizon >= 1 && Interrupted(p, env, horizon))
    requires widths == Widths(p.targets) && |stats| == |p.targets|
    requires forall i, j | 0 <= i < j < |stats| :: stats[i] != stats[j]
    requires forall i | 0 <= i < |stats| :: stats[i].Valid() && stats[i].history == []
    modifies stats
    ensures !cancelled <==> p.count > 0 && rounds == p.count
    ensures p.count > 0 ==> rounds <= p.count
    ensures cancelled ==> RoundCancelled(p, env, rounds + 1) || (rounds >= 1 && env.tickDone(rounds))
    ensures forall k | 1 <= k <= rounds :: !RoundCancelled(p, env, k)
    ensures forall k | 1 <= k < rounds :: !env.tickDone(k)
    ensures forall i | 0 <= i < |stats| :: stats[i].Valid() && stats[i].history == History(p, env, i, rounds)
    ensures printed == Rounds(p, env, rounds)
  {
    var counter: nat := 1;
    printed := [];
    rounds := 0;

    while true
      invariant rounds == counter - 1
      invariant p.count > 0 ==> counter <= p.count
      invariant p.count == 0 ==> counter <= horizon
      invariant forall k | 1 <= k <= rounds :: !RoundCancelled(p, env, k)
      invariant forall k | 1 <= k <= rounds :: !env.tickDone(k)
      invariant forall i | 0 <= i < |stats| :: stats[i].Valid() && stats[i].history == History(p, env, i, rounds)
      invariant printed == Rounds(p, env, rounds)
      decreases (if p.count > 0 then p.count else horizon) - counter
    {
      var completed, shown := PlayRound(p, env, counter, widths, stats);
      if !completed {
        cancelled := true;
        break;
      }
      rounds := counter;
      printed := printed + [shown];

      if p.count > 0 && counter >= p.count {
        cancelled := false;
        break;
      }

      if env.tickDone(counter) {
        cancelled := true;
        break;
      }
      counter := counter + 1;
    }
  }

  /** Start: the rounds, then the deferred summary, printed once on every
      path, of exactly the completed rounds. A run with `count` = 0 only
      ends by cancellation; `horizon` is a round at which it is known to be
      interrupted. */
  method Start(p: PingerOptions, env: Env, ghost horizon: nat) returns (cancelled: bool, rounds: nat, printed: seq<seq<Line>>, summary: Line)
    requires p.count > 0 || (horizon >= 1 && Interrupted(p, env, horizon))
    ensures !cancelled <==> p.count > 0 && rounds == p.count
    ensures p.count > 0 ==> rounds <= p.count
    ensures cancelled ==> RoundCancelled(p, env, rounds + 1) || (rounds >= 1 && env.tickDone(rounds))
    ensures forall k | 1 <= k <= rounds :: !RoundCancelled(p, env, k)
    ensures forall k | 1 <= k < rounds :: !env.tickDone(k)
    ensures printed == Rounds(p, env, rounds)
    ensures summary == SummaryOf(Histories(p, env, rounds))
  {
    var widths := CalculateColumnWidths(p.targets);
    assert widths == Widths(p.targets);
    var stats := NewStats(|p.targets|);
    cancelled, rounds, printed := RunRounds(p, env, horizon, widths, stats);
    summary := Finish(p, env, rounds, stats);
  }
}
