# mping, modelled in Dafny

mping pings several hosts at once and shows one row per round, with a
summary at the end. This project models the sequential logic around
its concurrent probing:

- **Target parsing.** A command-line argument `host[=label]`, or a URL,
  becomes a target; blank arguments are skipped.
- **Address handling.** IP versions, their network names, and the
  normalisation of an address to its 4-byte or 16-byte form.
- **Resolution.** A literal address skips DNS. A failed lookup keeps
  its label and gets no address. Cancellation gives nothing.
- **Statistics.** Each target keeps success and failure counters, a
  streaming average round-trip time and a loss percentage.
- **Rounds.** Every round probes each target once, updates that
  target's statistics and prints a row. A label header appears on
  rounds 1, 11, 21, and so on. The run stops after `count` rounds or on
  cancellation, and always ends with the summary.
- **The table.** Column widths, cell texts and the counter prefix.
- **The command.** The `-4`/`-6` rewrite, and the checks and choices
  `action` makes before it starts the pinger.

Files: `wrappers.dfy` (Option), `text.dfy` (the pieces of Go's `strings`,
`strconv` and `fmt` the core uses), `ip.dfy`, `target.dfy`, `resolver.dfy`,
`stats.dfy`, `probe.dfy`, `print.dfy`, `pinger.dfy`, `main.dfy`.

How each kind of code is modelled:

- **PingStats** is a class. Its methods update its fields in place and
  keep a ghost history of attempts. `Valid()` ties each counter and the
  average to that history.
- **Loops become methods.** The loops of `ResolveTargets`,
  `pingAllOnce`, `Start`, `calculateColumnWidths`, `printStats`,
  `parseTargets` and the argument rewrite are methods with loops. Each
  is proved against a function of its inputs.
- **Parsing, cell texts and decisions** are functions.

What the outside world supplies is passed in as parameters:

- the ICMP probe;
- `net.ParseIP`;
- the DNS lookup;
- URL host-name extraction;
- the privilege check;
- context cancellation. The resolver asks "is the context done at
  collection step j"; a round asks "is it done while collecting target
  j of round r" and "is it done while waiting for the tick after round
  r".

Durations are integers of nanoseconds, and float64 values are reals.
The Go conversion `time.Duration(x)` truncates toward zero (`Stats.Trunc`).

Behaviour of the code worth knowing:

- **A label can contain '='.** The split is at the last '='. When the
  text after it is blank, the label falls back to the host, and the
  host may contain '='. `"a=b="` gives host and label `"a=b"`
  (`Targets.LabelFallbackKeepsEquals`).
- **The host may be empty.** `"=x"` is accepted with an empty host
  (`Targets.EmptyHostAccepted`).
- **Unresolved targets are still probed.** A target without an address
  goes to the probe like any other (pkg/pinger/ping.go:24). The model
  never assumes that such a probe fails.
- **ShowRTT has no counterpart.** `action` passes `ShowRTT` in
  `PingerOptions`, a struct that has no such field. The model's
  `PingerOptions` holds the four fields the struct declares.
- **Targets without a column.** With no targets, a round has nothing to
  collect, so it never observes cancellation (`Pinger.RoundCancelled`).
- **The average drifts from the mean.** Each update rounds to whole
  nanoseconds, and the rounding errors add up. After the samples 0, 1,
  3, 4 and 6 ns the stored average is 4 ns while the mean is 2.8 ns
  (`Stats.RunningAverageDriftExample`). For non-negative samples the
  drift after n samples is at most (n - 1) / 2 ns
  (`Stats.RunningAverageDrift`).

## Model

| member | source | states |
|---|---|---|
| IP.Network | pkg/pinger/ip.go:17-30 | the network name is empty exactly for a version other than 0, 4 and 6; a known version gets a name starting with "ip" |
| IP.NetworkInjective | pkg/pinger/ip.go:17-30 | two known versions with the same network name are the same version |
| IP.To4 | pkg/pinger/ip.go:34 | the 4-byte form exists exactly for a 4-byte address or a 16-byte one with the ::ffff:0:0/96 prefix, and prefix plus result gives the 16-byte input back |
| IP.To16 | pkg/pinger/ip.go:37 | the 16-byte form exists exactly for 4- and 16-byte addresses and always has 16 bytes |
| IP.To4To16RoundTrip | pkg/pinger/ip.go:32-38 | for an IPv4 address, To4 after To16 and To16 after To4 give the same address back |
| IP.GetIP | pkg/pinger/ip.go:32-38 | the tag is IPV4 exactly when To4 succeeds, else IPV6; the address length matches the tag (4 or 16); the address denotes the same 16-byte address as the input |
| IP.GetIPIdempotent | pkg/pinger/ip.go:32-38 | normalising a normalised address changes neither address nor tag |
| Text.TrimSpace | pkg/pinger/target.go:36 | the result has no white space at either end, and is empty exactly when the input is all white space |
| Text.TrimSpaceIsSlice | pkg/pinger/target.go:36 | the result is the input with its leading white space and then its trailing white space cut off, and nothing else removed |
| Text.TrimSpaceOfTrimmed | pkg/pinger/target.go:36 | trimming a string without white space at its ends returns it unchanged |
| Text.TrimSpaceKeepsOut | pkg/pinger/target.go:53-54 | trimming introduces no character the input lacks |
| Text.LastIndexOf | pkg/pinger/target.go:52 | the result is -1 or a position holding the character, with no occurrence after it |
| Text.Itoa | pkg/pinger/print.go:86 | a non-negative number is written as a non-empty string of decimal digits denoting it, without leading zeros; a negative one as '-' and the digits of its magnitude, again without leading zeros |
| Text.Utf8Len | pkg/pinger/print.go:15 | the byte length of a string lies between its character count and four times that |
| Text.PadLeft | pkg/pinger/print.go:63 | the padded string is max(width, length) long, ends with the input and starts with white space only |
| Targets.ParseTarget | pkg/pinger/target.go:35-69 | no target exactly for a blank string; an empty label occurs only together with an empty host |
| Targets.ParseTargetURL | pkg/pinger/target.go:25-49 | a trimmed string containing "://" gives the host name of the URL as both host and label when the URL parses, and the whole trimmed string as both when it does not |
| Targets.ParseTargetSplit | pkg/pinger/target.go:52-62 | otherwise, with an '=', the host is the trimmed text before the last '=' and the label the trimmed text after it, or the host when that text is blank |
| Targets.LabelHasNoEquals | pkg/pinger/target.go:52-54 | the text after the last '=', trimmed or not, holds no '=' |
| Targets.ParseTargetPlain | pkg/pinger/target.go:65-68 | with neither "://" nor '=', the trimmed string is both host and label |
| Targets.ParseTargetRoundTrip | pkg/pinger/target.go:35-69 | writing a trimmed host and a trimmed non-empty label without '=' (and without "://") as host=label and parsing it gives them back |
| Targets.EmptyHostAccepted | pkg/pinger/target.go:52-61 | "=x" parses to an empty host labelled "x" |
| Targets.LabelFallbackKeepsEquals | pkg/pinger/target.go:55-57 | "a=b=" parses to host and label "a=b": the fallback label can hold '=' |
| Resolver.TryIP | pkg/pinger/resolver.go:114-120 | a host that does not parse as an IP gives (nil, IPV0); one that does gives a 4-byte IPV4 or 16-byte IPV6 address denoting the parsed address |
| Resolver.Resolve | pkg/pinger/resolver.go:13-108 | the entry keeps the label; a literal address gives GetIP of it without a lookup; any other host gives the lookup's address on the version's network, tagged with the requested version, or no address and IPV0; the entry has no address exactly when the host is no literal and the lookup fails |
| Resolver.LiteralSkipsLookup | pkg/pinger/resolver.go:69-76 | for a literal address the entry does not depend on DNS at all |
| Resolver.ResolveTargets | pkg/pinger/resolver.go:52-111 | nothing for an unknown version; for a known one, nothing exactly when cancellation is observed at some collection step; otherwise one entry per target, entry i being Resolve of target i |
| Stats.AppendAttempt | pkg/pinger/stats.go:29-36 | recording an attempt adds one success (and its round-trip time) for a success and none for a failure |
| Stats.SuccessesOfPrefix | pkg/pinger/stats.go:29-36 | an earlier part of a history has no more successes and no more failures than the whole |
| Stats.Trunc | pkg/pinger/stats.go:68 | for non-negative values, the conversion is the largest integer not above the value |
| Stats.StepBetween | pkg/pinger/stats.go:67 | the exact step old + (x - old)/n lies between old and x |
| Stats.NextAverageRoundsToNearest | pkg/pinger/stats.go:62-68 | for non-negative durations, the update is the exact step rounded to the nearest integer |
| Stats.NextAverageBetween | pkg/pinger/stats.go:62-68 | each update of the average lands between the old average and the new sample |
| Stats.MeanStepOfMean | pkg/pinger/stats.go:67 | one step from the mean of k samples gives the mean of k + 1 samples |
| Stats.ExactRunningAverageIsMean | pkg/pinger/stats.go:53-69 | without rounding, the incremental update computes exactly the arithmetic mean of all samples |
| Stats.RunningAverageWithinSamples | pkg/pinger/stats.go:55-68 | for non-negative samples the stored average stays between the smallest and the largest sample |
| Stats.RunningAverageDrift | pkg/pinger/stats.go:55-68 | for non-negative samples the stored average after n samples differs from their arithmetic mean by at most (n - 1) / 2 ns |
| Stats.MeanOfSnoc | pkg/pinger/stats.go:67 | the mean of n samples is one update step from the mean of the first n - 1 |
| Stats.DriftStep | pkg/pinger/stats.go:67 | an update step does not enlarge the gap between the old average and the old mean |
| Stats.RunningAverageDriftExample | pkg/pinger/stats.go:55-68 | after the samples 0, 1, 3, 4 and 6 ns the stored average is 4 ns while the mean is 2.8 ns, more than one unit apart |
| Stats.Loss | pkg/pinger/stats.go:39-51 | the loss is within [0, 100]; it is 0 with no attempts, and otherwise loss times total equals 100 times the failures (100 with no success) |
| Stats.PingStats.constructor | pkg/pinger/stats.go:7-11 | the zero value: valid with an empty history |
| Stats.PingStats.AvgRTT | pkg/pinger/stats.go:13-19 | the running average of the recorded successful round-trip times, and 0 before the first success |
| Stats.PingStats.Success | pkg/pinger/stats.go:21-23 | the number of successes recorded |
| Stats.PingStats.Failure | pkg/pinger/stats.go:25-27 | the number of failures recorded |
| Stats.PingStats.AddSuccess | pkg/pinger/stats.go:29-32 | success grows by exactly one and failure is unchanged; the first sample becomes the average, a later one applies the rounded update; the invariant is kept |
| Stats.PingStats.AddRtt | pkg/pinger/stats.go:55-69 | the first sample is stored as it is; later ones apply the rounded incremental update |
| Stats.PingStats.AddFailure | pkg/pinger/stats.go:34-36 | failure grows by exactly one; success and the average are unchanged; the invariant is kept |
| Stats.PingStats.PacketLoss | pkg/pinger/stats.go:39-51 | the loss of the recorded history |
| Display.ColumnWidth | pkg/pinger/print.go:15-20 | the width is the label's byte length or 9, whichever is larger |
| Display.CalculateColumnWidths | pkg/pinger/print.go:12-23 | one width per target, each the larger of the label's byte length and 9 |
| Display.Milliseconds | pkg/pinger/print.go:86 | whole milliseconds truncated toward zero, for durations of either sign |
| Display.CounterPrefixFormat | pkg/pinger/print.go:63 | "%5d)": the counter's decimal digits right-aligned in five columns (more if it has more digits), then ')' |
| Display.HeaderIndent | pkg/pinger/print.go:64 | the header indent is blank and exactly as long as the counter prefix |
| Display.Lead | pkg/pinger/print.go:63-82 | a result row starts with the counter prefix, a header row with blank text of the same width |
| Display.ResultCell | pkg/pinger/print.go:85-90 | the cell is "FAIL" exactly for a failed probe |
| Display.ResultCellMilliseconds | pkg/pinger/print.go:86 | a success cell is the round-trip time in whole milliseconds, in decimal, followed by "ms" |
| Display.PrintResults | pkg/pinger/print.go:61-93 | one row of cells, one per result, numbered with the counter; with showLabels, first a row of the labels and a row of widths[i] dashes per column |
| Display.RttCell | pkg/pinger/print.go:49-53 | "-" exactly when the average is below one millisecond in magnitude; otherwise text ending in "ms" |
| Display.RttCellMilliseconds | pkg/pinger/print.go:49-53 | any other cell is the average in whole milliseconds, truncated toward zero, followed by "ms": decimal digits for a positive average, '-' and the digits of the magnitude for a negative one |
| Display.PrintStats | pkg/pinger/print.go:26-58 | per target, in order: its failures, its loss and its average-RTT cell, read from its recorded history |
| Pinger.RoundResults | pkg/pinger/pinger.go:41-45 | one result per target, in target order, each the probe's reply for that target |
| Pinger.PingAllOnce | pkg/pinger/pinger.go:37-61 | nothing, never a partial list, exactly when cancellation is observed while collecting; otherwise the round's results |
| Pinger.AttemptOf | pkg/pinger/pinger.go:94-100 | a successful result is recorded as a success with its round-trip time, any other as a failure |
| Pinger.History | pkg/pinger/pinger.go:94-100 | a target's record has one entry per completed round |
| Pinger.Histories | pkg/pinger/pinger.go:72 | one record per target |
| Pinger.HistoryAttempts | pkg/pinger/pinger.go:94-100 | entry j of a target's record is its result in round j + 1 |
| Pinger.HistoryExtends | pkg/pinger/pinger.go:94-100 | a later round only extends what an earlier one recorded |
| Pinger.CountersNeverDecrease | pkg/pinger/pinger.go:94-100 | a target's success and failure counts never decrease from one round to a later one |
| Pinger.Widths | pkg/pinger/pinger.go:69 | one column width per target |
| Pinger.Rounds | pkg/pinger/pinger.go:103 | one printed block per completed round |
| Pinger.RoundsStep | pkg/pinger/pinger.go:87-115 | each completed round appends its block to the output of the earlier rounds |
| Pinger.RoundBlocks | pkg/pinger/pinger.go:103 | block j is round j + 1's row of results, in target order, with the label header exactly when (j + 1) % 10 == 1 |
| Pinger.HeadersUpTo | pkg/pinger/pinger.go:103 | round n starts a new group of ten exactly when n % 10 == 1 |
| Pinger.TranscriptLength | pkg/pinger/pinger.go:103 | n rounds print n rows plus two header rows for each started group of ten |
| Pinger.RoundsStepLength | pkg/pinger/pinger.go:102-103 | round n adds three rows when n % 10 == 1 and one row otherwise |
| Pinger.TranscriptRows | pkg/pinger/pinger.go:102-103 | the rounds print, row for row, the count that adds three rows for a round starting a group of ten and one for any other |
| Pinger.RowCount | pkg/pinger/pinger.go:103 | that count for n rounds is n plus two for every started group of ten |
| Pinger.TranscriptHasNoSummary | pkg/pinger/pinger.go:75-81 | the rounds print no summary; it comes only from the deferred exit |
| Pinger.NewStats | pkg/pinger/pinger.go:72 | one fresh, distinct, zero-valued statistics object per target |
| Pinger.Record | pkg/pinger/pinger.go:95-99 | a target's statistics gain exactly one attempt: a success with its round-trip time, or a failure |
| Pinger.UpdateStats | pkg/pinger/pinger.go:94-100 | statistics i gain exactly result i of the round, for every target |
| Pinger.PlayRound | pkg/pinger/pinger.go:88-103 | a round completes exactly when no cancellation is observed while collecting; a cancelled round records nothing, a completed one records its results and prints its block |
| Pinger.Finish | pkg/pinger/pinger.go:75-81 | the summary of exactly the completed rounds |
| Pinger.RunRounds | pkg/pinger/pinger.go:87-116 | the loop ends normally exactly after round count when count > 0; otherwise it stops at the first cancellation observed, while collecting or while waiting for the tick; the statistics and output hold exactly the completed rounds |
| Pinger.Start | pkg/pinger/pinger.go:63-121 | the run ends without cancellation exactly when count > 0 and count rounds completed; a cancelled run stopped on a cancellation observed in the next round's collection or in the wait after the last round, and none was observed earlier; the output is the blocks of exactly the completed rounds, and the summary, printed once on every exit path, covers exactly those rounds |
| Cli.RewriteArg | cmd/main.go:83-90 | the result is never "-4" or "-6", and any other argument is unchanged |
| Cli.RewriteArgs | cmd/main.go:80-91 | the same number of arguments, each rewritten in place, none left as "-4" or "-6" |
| Cli.RewriteArgIdempotent | cmd/main.go:82-91 | rewriting a rewritten argument changes nothing |
| Cli.RewriteArgExactly | cmd/main.go:82-91 | only "-4" and "-6" change; afterwards "--ipv4" stands for exactly "-4" or "--ipv4", likewise for IPv6 |
| Cli.Keep | cmd/main.go:195-200 | an argument contributes at most one target |
| Cli.KeptTargets | cmd/main.go:194-201 | never more targets than arguments |
| Cli.ParseTargets | cmd/main.go:191-204 | the targets of the non-blank arguments, in argument order |
| Cli.KeptTargetsPrefix | cmd/main.go:194-201 | one more argument adds its own target, if any, after those of the earlier ones |
| Cli.KeptTargetsSnoc | cmd/main.go:194-201 | an argument appended at the end adds its target at the end |
| Cli.KeptTargetsAppend | cmd/main.go:194-201 | the targets of two argument lists are those of the first followed by those of the second |
| Cli.KeptTargetsSingle | cmd/main.go:195-199 | a blank argument gives nothing, any other argument its parsed target |
| Cli.KeptTargetsCount | cmd/main.go:194-201 | one target per non-blank argument; no target exactly when every argument is blank |
| Cli.ClampTimeout | cmd/main.go:126-129 | the clamped timeout is the smaller of timeout and interval |
| Cli.Duration | cmd/main.go:139-140 | a non-negative number of seconds becomes whole microseconds (a multiple of 1000 ns) truncated from below, within 1000 ns |
| Cli.DurationMonotone | cmd/main.go:139-140 | a longer time never converts to a shorter duration |
| Cli.Action | cmd/main.go:102-189 | in order: version, missing privileges, interval below 0.01 s, clamped timeout below 0.01 s, both version flags, no target each exit with their message; otherwise the pinger starts with IPv6 only for --ipv6 alone, the converted interval and clamped timeout (at least 10 ms, at most the interval), the count, and the resolved targets (none when resolution is cancelled) |

## Left out

- I/O is not modelled. Lines are values holding their cells' texts.
  - fmt's left-aligned padding of each cell to its column width is not modelled.
  - `%.1f%%` formatting of the loss is not modelled; it is kept as a real.
  - The blank `fmt.Println()` lines, the row labels "Fails"/"Loss"/"RTT" and the ANSI line clearing after an interrupt (pkg/pinger/pinger.go:76-79) are not modelled.
- Display.PrintStats: the `widths` parameter of printStats only pads the cells, so the model omits it.
- Logging and the `--verbose` flag are not modelled. They only write to the log.
- Concurrency is modelled sequentially.
  - The goroutine pools, futures, `WaitIdle` and `Close` run in order.
  - Futures are collected in submission order, and that in-order sequence is what the model keeps.
- Pinger.RunRounds: the ticker's timing and the interval's effect on wall-clock time are not modelled. A tick is one loop step, and cancellation while waiting for it is the `tickDone` oracle.
- Pinger.Start: `count` = 0 runs until cancellation, so the model needs a ghost round at which cancellation is known to occur. Without it, termination cannot be proved.
- Pinger.Start: `ctx.Err()` is returned as the `cancelled` flag.
- Pinger.Start: the uint32 round counter is unbounded here. Its wrap-around after 2^32 rounds is not modelled.
- `NewPinger` is not modelled separately. The pinger is its options, and the pool it creates is part of the concurrency left out.
- Probe.PingOnce: the ICMP exchange, which uses the pro-bing library, is the `probe` parameter. Its `Error` field and the per-version network setup are not modelled.
- `net.ParseIP`, `net.ResolveIPAddr` and `url.Parse`/`Hostname` are parameters. Their own behaviour is not modelled.
- The privilege check in pkg/privcheck is the `hasAdmin` parameter of `Cli.Action`.
- `app.Run` and the urfave/cli flag parsing are not modelled. `Cli.Action` receives the flag values as `Flags`.
  - `main` turning `context.Canceled` into a quiet exit is not modelled.
  - `log.Fatal` on other errors is not modelled.
- Stats.PingStats.AddSuccess: the uint32 success counter is unbounded here. Wrap-around is not modelled.
- Stats.PingStats.AddFailure: the uint32 failure counter is unbounded here. Wrap-around is not modelled.
- Stats.Loss: the percentage is computed over reals. The sum `success + failure` does not wrap, and float64 rounding is not modelled.
- Stats.NextAverageRoundsToNearest: the mean step is computed over reals, not float64. The conversion adding 0.5 and truncating is exact here.
- Cli.Duration: the seconds-times-1e6 product is exact here. float64 rounding, and the overflow of a very large duration, are not modelled. Note that 0.01 is itself not exactly representable in float64.
- Display.RttCell: the average is converted with `Milliseconds`, as in the code. Averages of negative durations are allowed but are never produced by a real probe.
