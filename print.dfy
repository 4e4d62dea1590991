/** The live table (pkg/pinger/print.go): column widths, the row printed for
    each round with its periodic header, and the closing summary.

    Output is a list of lines; each line keeps the texts of its cells. fmt's
    left-aligned padding of a cell to its column width is not modelled. */
module Display {
  import opened Text
  import opened Stats
  import opened Targets
  import opened Probe

  /** The narrowest column. */
  const WidthMin: nat := 9

  /** A printed line. The rows of a round keep the round's counter: a
      result row starts with CounterPrefix(counter), a header row with
      HeaderIndent(counter) (see Lead). */
  datatype Line =
    | LabelRow(counter: nat, labels: seq<string>)
    | DashRow(counter: nat, dashes: seq<string>)
    | ResultRow(counter: nat, cells: seq<string>)
      // the Fails, Loss and RTT lines of printStats, one column per target
    | Summary(failures: seq<nat>, losses: seq<real>, rtts: seq<string>)

  /** The width of a column: its label's length in bytes, but at least
      WidthMin. */
  function ColumnWidth(name: string): (w: nat)
    ensures w >= WidthMin && w >= Utf8Len(name)
    ensures w == WidthMin || w == Utf8Len(name)
  {
    var n := Utf8Len(name);
    if n > WidthMin then n else WidthMin
  }

  /** calculateColumnWidths: one width per target. */
  method CalculateColumnWidths(targets: seq<ResolvedTarget>) returns (widths: seq<nat>)
    ensures |widths| == |targets|
    ensures forall i | 0 <= i < |targets| ::
              widths[i] >= WidthMin && widths[i] >= Utf8Len(targets[i].name) &&
              (widths[i] == WidthMin || widths[i] == Utf8Len(targets[i].name))
    ensures forall i | 0 <= i < |targets| :: widths[i] == ColumnWidth(targets[i].name)
  {
    var a := new nat[|targets|];
    for i := 0 to |targets|
      invariant forall k | 0 <= k < i :: a[k] == ColumnWidth(targets[k].name)
    {
      var labelLen := Utf8Len(targets[i].name);
      if labelLen > WidthMin {
        a[i] := labelLen;
      } else {
        a[i] := WidthMin;
      }
    }
    widths := a[..];
  }

  /** Duration.Milliseconds: whole milliseconds of a nanosecond duration,
      truncated toward zero. */
  function Milliseconds(d: int): (ms: int)
    ensures d >= 0 ==> 0 <= ms && ms * 1_000_000 <= d < (ms + 1) * 1_000_000
    ensures d < 0 ==> ms <= 0 && (ms - 1) * 1_000_000 < d <= ms * 1_000_000
  {
    if d >= 0 then d / 1_000_000 else -((-d) / 1_000_000)
  }

  /** The "%5d)" prefix of a round's row. */
  function CounterPrefix(counter: nat): string {
    PadLeft(Itoa(counter), 5) + ")"
  }

  /** The prefix is the counter's decimal digits right-aligned in five
      columns (or more, for a counter of six digits or more), then ')'. */
  lemma CounterPrefixFormat(counter: nat)
    ensures var p := CounterPrefix(counter);
            var digits := Itoa(counter);
            |p| == (if |digits| < 5 then 5 else |digits|) + 1 &&
            p[|p| - 1] == ')' &&
            AllSpace(p[..|p| - 1 - |digits|]) &&
            p[|p| - 1 - |digits|..|p| - 1] == digits &&
            DecimalValue(digits) == counter
  {
    var p := CounterPrefix(counter);
    assert p[..|p| - 1] == PadLeft(Itoa(counter), 5);
    assert p[..|p| - 1 - |Itoa(counter)|] == PadLeft(Itoa(counter), 5)[..|p| - 1 - |Itoa(counter)|];
  }

  /** The blank indent of the header rows, as wide as the counter prefix. */
  function HeaderIndent(counter: nat): (s: string)
    ensures |s| == |CounterPrefix(counter)| && AllSpace(s)
  {
    Repeat(' ', |CounterPrefix(counter)|)
  }

  /** The text a row starts with: the counter prefix on a result row, the
      blank indent of the same width on a header row. */
  function Lead(line: Line): (s: string)
    requires !line.Summary?
    ensures |s| == |CounterPrefix(line.counter)|
    ensures line.ResultRow? ==> s == CounterPrefix(line.counter)
    ensures !line.ResultRow? ==> AllSpace(s)
  {
    if line.ResultRow? then CounterPrefix(line.counter) else HeaderIndent(line.counter)
  }

  /** A round's cell: the round-trip time in whole milliseconds followed by
      "ms", or FAIL. */
  function ResultCell(r: PingResult): (cell: string)
    ensures cell == "FAIL" <==> !r.success
  {
    if r.success then
      var cell := Itoa(Milliseconds(r.rtt)) + "ms";
      assert cell[|cell| - 1] == 's';
      cell
    else
      "FAIL"
  }

  /** The cell of a success is a decimal number followed by "ms", and the
      number is the round-trip time in whole milliseconds. */
  lemma ResultCellMilliseconds(r: PingResult)
    requires r.success && r.rtt >= 0
    ensures var cell := ResultCell(r);
            |cell| > 2 && cell[|cell| - 2..] == "ms" &&
            var digits := cell[..|cell| - 2];
            AllDigits(digits) && DecimalValue(digits) * 1_000_000 <= r.rtt < (DecimalValue(digits) + 1) * 1_000_000
  {
    var cell := ResultCell(r);
    assert cell[..|cell| - 2] == Itoa(Milliseconds(r.rtt));
  }

  /** printResults: with `showLabels`, a row of labels and a row of dashes
      as wide as each column first; then the round's row, one cell per
      result. */
  function PrintResults(counter: nat, widths: seq<nat>, results: seq<PingResult>, showLabels: bool): (lines: seq<Line>)
    requires |results| <= |widths|
    ensures |lines| == if showLabels then 3 else 1
    ensures var row := lines[|lines| - 1];
            row.ResultRow? && row.counter == counter && |row.cells| == |results| &&
            forall i | 0 <= i < |results| :: row.cells[i] == ResultCell(results[i])
    ensures showLabels ==>
              lines[0].LabelRow? && lines[0].counter == counter &&
              |lines[0].labels| == |results| &&
              (forall i | 0 <= i < |results| :: lines[0].labels[i] == results[i].target.name) &&
              lines[1].DashRow? && lines[1].counter == counter &&
              |lines[1].dashes| == |results| &&
              (forall i | 0 <= i < |results| :: lines[1].dashes[i] == Repeat('-', widths[i]))
  {
    var row := ResultRow(counter, seq(|results|, i requires 0 <= i < |results| => ResultCell(results[i])));
    if showLabels then
      [LabelRow(counter, seq(|results|, i requires 0 <= i < |results| => results[i].target.name)),
       DashRow(counter, seq(|results|, i requires 0 <= i < |results| => Repeat('-', widths[i]))),
       row]
    else
      [row]
  }

  /** The summary's RTT cell: "-" when the average is under a millisecond,
      otherwise the whole milliseconds followed by "ms". */
  function RttCell(avg: int): (cell: string)
    ensures cell == "-" <==> -1_000_000 < avg < 1_000_000
    ensures cell != "-" ==> |cell| > 2 && cell[|cell| - 2..] == "ms"
  {
    var ms := Milliseconds(avg);
    if ms == 0 then
      "-"
    else
      var cell := Itoa(ms) + "ms";
      assert cell[|cell| - 1] == 's';
      cell
  }

  /** A cell other than "-" is the average in whole milliseconds, truncated
      toward zero, followed by "ms": decimal digits for a positive average,
      '-' and the digits of the magnitude for a negative one. */
  lemma RttCellMilliseconds(avg: int)
    requires avg <= -1_000_000 || 1_000_000 <= avg
    ensures var cell := RttCell(avg);
            |cell| > 2 && cell[|cell| - 2..] == "ms" &&
            var text := cell[..|cell| - 2];
            (avg > 0 ==>
               AllDigits(text) &&
               DecimalValue(text) * 1_000_000 <= avg < (DecimalValue(text) + 1) * 1_000_000) &&
            (avg < 0 ==>
               |text| >= 2 && text[0] == '-' && AllDigits(text[1..]) &&
               DecimalValue(text[1..]) * 1_000_000 <= -avg < (DecimalValue(text[1..]) + 1) * 1_000_000)
  {
    var cell := RttCell(avg);
    assert cell[..|cell| - 2] == Itoa(Milliseconds(avg));
  }

  /** The summary for the given per-target attempt histories. */
  function SummaryOf(histories: seq<seq<Attempt>>): Line {
    Summary(seq(|histories|, i requires 0 <= i < |histories| => Failures(histories[i])),
            seq(|histories|, i requires 0 <= i < |histories| => Loss(Successes(histories[i]), Failures(histories[i]))),
            seq(|histories|, i requires 0 <= i < |histories| => RttCell(RunningAverage(Rtts(histories[i])))))
  }

  /** printStats: per target, its failures, its loss and its average RTT
      cell, read from the statistics objects. */
  method PrintStats(stats: seq<PingStats>) returns (line: Line)
    requires forall i | 0 <= i < |stats| :: stats[i].Valid()
    ensures line.Summary?
    ensures |line.failures| == |stats| && |line.losses| == |stats| && |line.rtts| == |stats|
    ensures forall i | 0 <= i < |stats| ::
              var h := stats[i].history;
              line.failures[i] == Failures(h) &&
              line.losses[i] == Loss(Successes(h), Failures(h)) &&
              line.rtts[i] == RttCell(RunningAverage(Rtts(h)))
  {
    var fails: seq<nat> := [];
    var losses: seq<real> := [];
    var rtts: seq<string> := [];
    for i := 0 to |stats|
      invariant |fails| == i && |losses| == i && |rtts| == i
      invariant forall k | 0 <= k < i ::
                  var h := stats[k].history;
                  fails[k] == Failures(h) &&
                  losses[k] == Loss(Successes(h), Failures(h)) &&
                  rtts[k] == RttCell(RunningAverage(Rtts(h)))
    {
      fails := fails + [stats[i].Failure()];
      losses := losses + [stats[i].PacketLoss()];
      rtts := rtts + [RttCell(stats[i].AvgRTT())];
    }
    line := Summary(fails, losses, rtts);
  }
}
