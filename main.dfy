/** The command line (cmd/main.go): the rewrite of the short IP-version
    flags, the parsing of the target arguments and the checks and choices
    `action` makes before it hands the resolved targets to the pinger.

    The flag machinery is represented by the values it delivers (`Flags`);
    the privilege query, URL parsing, net.ParseIP, DNS and the cancellation
    of the context are supplied by the caller. */
module Cli {
  import opened Wrappers
  import opened Text
  import opened IP
  import opened Stats
  import opened Targets
  import opened Resolver
  import opened Pinger

  const Version: string := "dev"

  const AdminRequired: string := "Administrative privileges are required to use mping."
  const IntervalTooShort: string := "Interval must be at least 0.01 seconds"
  const TimeoutTooShort: string := "Timeout must be at least 0.01 seconds"
  const BothVersions: string := "Cannot specify both --ipv4 and --ipv6 flags"
  const NoTargets: string := "No targets specified"

  /** The smallest interval and timeout, in seconds. */
  const MinSeconds: real := 0.01

  /** The flag values and positional arguments the command receives. */
  datatype Flags = Flags(version: bool, ipv4: bool, ipv6: bool, count: nat,
                         interval: real, timeout: real, args: seq<string>)

  /** What `action` does: print the version, exit with a message, or start a
      pinger with these options for this IP version. */
  datatype Decision =
    | PrintVersion(text: string)
    | Exit(message: string)
    | Launch(version: IPVersion, opts: PingerOptions)

  // ---------------------------------------------------------------------
  // The argument rewrite of main

  /** "-4" and "-6" become their long forms; anything else is kept. */
  function RewriteArg(arg: string): (r: string)
    ensures r != "-4" && r != "-6"
    ensures arg != "-4" && arg != "-6" ==> r == arg
  {
    if arg == "-4" then "--ipv4"
    else if arg == "-6" then "--ipv6"
    else arg
  }

  /** The loop of main over the process arguments. */
  method RewriteArgs(args: seq<string>) returns (out: seq<string>)
    ensures |out| == |args|
    ensures forall i | 0 <= i < |args| :: out[i] == RewriteArg(args[i])
    ensures forall i | 0 <= i < |args| :: out[i] != "-4" && out[i] != "-6"
  {
    out := [];
    for i := 0 to |args|
      invariant |out| == i
      invariant forall k | 0 <= k < i :: out[k] == RewriteArg(args[k])
    {
      var arg := args[i];
      if arg == "-4" {
        out := out + ["--ipv4"];
      } else if arg == "-6" {
        out := out + ["--ipv6"];
      } else {
        out := out + [arg];
      }
    }
  }

  /** Rewriting twice changes nothing more: the long forms are kept. */
  lemma RewriteArgIdempotent(arg: string)
    ensures RewriteArg(RewriteArg(arg)) == RewriteArg(arg)
  {
  }

  /** Only the two short flags change; the rewrite maps them onto the long
      flags, so "-4" and "--ipv4" mean the same after it. */
  lemma RewriteArgExactly(arg: string)
    ensures RewriteArg(arg) != arg <==> arg == "-4" || arg == "-6"
    ensures RewriteArg(arg) == "--ipv4" <==> arg == "-4" || arg == "--ipv4"
    ensures RewriteArg(arg) == "--ipv6" <==> arg == "-6" || arg == "--ipv6"
  {
  }

  // ---------------------------------------------------------------------
  // parseTargets

  /** What parseTargets keeps of one argument: its target, if it has one. */
  function Keep(arg: string, hostname: UrlHostname): (ts: seq<Target>)
    ensures |ts| <= 1
  {
    match ParseTarget(arg, hostname)
    case None => []
    case Some(t) => [t]
  }

  /** The targets parseTargets keeps, in argument order. */
  function KeptTargets(args: seq<string>, hostname: UrlHostname): (ts: seq<Target>)
    ensures |ts| <= |args|
  {
    if |args| == 0 then []
    else KeptTargets(args[..|args| - 1], hostname) + Keep(args[|args| - 1], hostname)
  }

  /** parseTargets: skips the arguments that parse to nothing. */
  method ParseTargets(args: seq<string>, hostname: UrlHostname) returns (targets: seq<Target>)
    ensures targets == KeptTargets(args, hostname)
  {
    targets := [];
    for i := 0 to |args|
      invariant targets == KeptTargets(args[..i], hostname)
    {
      KeptTargetsPrefix(args, i, hostname);
      var target := ParseTarget(args[i], hostname);
      assert Keep(args[i], hostname) == if target.None? then [] else [target.value];
      if target.None? {
        continue;
      }
      targets := targets + [target.value];
    }
    assert args[..|args|] == args;
  }

  /** Keeping is done argument by argument: the targets of two argument
      lists are those of the first followed by those of the second. */
  lemma {:induction false} KeptTargetsAppend(a: seq<string>, b: seq<string>, hostname: UrlHostname)
    ensures KeptTargets(a + b, hostname) == KeptTargets(a, hostname) + KeptTargets(b, hostname)
  {
    if |b| == 0 {
      assert a + b == a;
    } else {
      var init := b[..|b| - 1];
      var last := b[|b| - 1];
      assert b == init + [last];
      assert a + b == (a + init) + [last];
      KeptTargetsAppend(a, init, hostname);
      KeptTargetsSnoc(a + init, last, hostname);
      KeptTargetsSnoc(init, last, hostname);
      AppendAssoc(KeptTargets(a, hostname), KeptTargets(init, hostname), Keep(last, hostname));
    }
  }

  /** One more argument keeps what the earlier ones kept, then its own. */
  lemma KeptTargetsPrefix(args: seq<string>, i: nat, hostname: UrlHostname)
    requires i < |args|
    ensures KeptTargets(args[..i + 1], hostname) == KeptTargets(args[..i], hostname) + Keep(args[i], hostname)
  {
    assert args[..i + 1][..i] == args[..i];
  }

  lemma AppendAssoc<T>(x: seq<T>, y: seq<T>, z: seq<T>)
    ensures (x + y) + z == x + (y + z)
  {
  }

  lemma KeptTargetsSnoc(args: seq<string>, arg: string, hostname: UrlHostname)
    ensures KeptTargets(args + [arg], hostname) == KeptTargets(args, hostname) + Keep(arg, hostname)
  {
    assert (args + [arg])[..|args|] == args;
  }

  /** One argument gives nothing when it is blank and its parse otherwise. */
  lemma KeptTargetsSingle(arg: string, hostname: UrlHostname)
    ensures AllSpace(arg) ==> KeptTargets([arg], hostname) == []
    ensures !AllSpace(arg) ==> KeptTargets([arg], hostname) == [ParseTarget(arg, hostname).value]
  {
    assert [arg][..0] == [];
  }

  /** The number of arguments that are not blank. */
  function NonBlank(args: seq<string>): nat {
    if |args| == 0 then 0
    else NonBlank(args[..|args| - 1]) + (if AllSpace(args[|args| - 1]) then 0 else 1)
  }

  /** Exactly the blank arguments are dropped; in particular no target is
      left exactly when every argument is blank. */
  lemma {:induction false} KeptTargetsCount(args: seq<string>, hostname: UrlHostname)
    ensures |KeptTargets(args, hostname)| == NonBlank(args)
    ensures KeptTargets(args, hostname) == [] <==> forall i | 0 <= i < |args| :: AllSpace(args[i])
  {
    if |args| > 0 {
      var init := args[..|args| - 1];
      var last := args[|args| - 1];
      KeptTargetsCount(init, hostname);
      KeepLength(last, hostname);
      BlankSnoc(args, init);
    }
  }

  lemma KeepLength(arg: string, hostname: UrlHostname)
    ensures |Keep(arg, hostname)| == if AllSpace(arg) then 0 else 1
  {
  }

  /** Every argument is blank when the earlier ones and the last one are. */
  lemma BlankSnoc(args: seq<string>, init: seq<string>)
    requires |args| > 0 && init == args[..|args| - 1]
    ensures (forall i | 0 <= i < |args| :: AllSpace(args[i])) <==>
            (forall i | 0 <= i < |init| :: AllSpace(init[i])) && AllSpace(args[|args| - 1])
  {
    assert forall i | 0 <= i < |init| :: init[i] == args[i];
  }

  // ---------------------------------------------------------------------
  // action

  /** The timeout clamped to the interval: a reply is never awaited longer
      than the time between two rounds. */
  function ClampTimeout(interval: real, timeout: real): (t: real)
    ensures t <= interval && t <= timeout
    ensures t == timeout || t == interval
  {
    if timeout > interval then interval else timeout
  }

  /** Seconds as a time.Duration in nanoseconds: the seconds are converted
      to whole microseconds, truncated, then scaled. */
  function Duration(seconds: real): (d: int)
    ensures seconds >= 0.0 ==> d % 1000 == 0 && d as real <= seconds * 1_000_000_000.0 < d as real + 1000.0
  {
    1000 * Trunc(seconds * 1_000_000.0)
  }

  /** A longer time never converts to a shorter duration. */
  lemma DurationMonotone(x: real, y: real)
    requires 0.0 <= x <= y
    ensures Duration(x) <= Duration(y)
  {
    assert Trunc(x * 1_000_000.0) == (x * 1_000_000.0).Floor;
    assert Trunc(y * 1_000_000.0) == (y * 1_000_000.0).Floor;
  }

  /** action. In order: the version flag prints the version; without
      administrative privileges, an interval or a clamped timeout below
      0.01 seconds, both IP-version flags, or no target, the command exits
      with the corresponding message. Otherwise the targets are resolved for
      IPv6 when only --ipv6 is given and for IPv4 otherwise, and a pinger is
      started with them (none when resolution is cancelled), the converted
      interval and clamped timeout, and the count. */
  method Action(f: Flags, hasAdmin: bool, hostname: UrlHostname, parseIP: IPParser, dns: Lookup,
                ctxDone: nat -> bool)
    returns (d: Decision)
    ensures f.version ==> d == PrintVersion(Version)
    ensures !f.version && !hasAdmin ==> d == Exit(AdminRequired)
    ensures !f.version && hasAdmin && f.interval < MinSeconds ==> d == Exit(IntervalTooShort)
    ensures !f.version && hasAdmin && f.interval >= MinSeconds && ClampTimeout(f.interval, f.timeout) < MinSeconds ==>
              d == Exit(TimeoutTooShort)
    ensures !f.version && hasAdmin && f.interval >= MinSeconds && ClampTimeout(f.interval, f.timeout) >= MinSeconds ==>
              (f.ipv4 && f.ipv6 ==> d == Exit(BothVersions)) &&
              (!(f.ipv4 && f.ipv6) && KeptTargets(f.args, hostname) == [] ==> d == Exit(NoTargets)) &&
              (!(f.ipv4 && f.ipv6) && KeptTargets(f.args, hostname) != [] ==> d.Launch?)
    ensures d.Launch? ==>
              var targets := KeptTargets(f.args, hostname);
              d.version == (if f.ipv6 && !f.ipv4 then IPV6 else IPV4) &&
              d.opts.interval == Duration(f.interval) &&
              d.opts.timeout == Duration(ClampTimeout(f.interval, f.timeout)) &&
              d.opts.count == f.count &&
              ((exists j | 0 <= j < |targets| :: ctxDone(j)) ==> d.opts.targets == []) &&
              (!(exists j | 0 <= j < |targets| :: ctxDone(j)) ==>
                 |d.opts.targets| == |targets| &&
                 forall i | 0 <= i < |targets| :: d.opts.targets[i] == Resolve(targets[i], d.version, parseIP, dns))
    ensures d.Launch? ==> d.version != IPV0 && 10_000_000 <= d.opts.timeout <= d.opts.interval
  {
    if f.version {
      return PrintVersion(Version);
    }
    if !hasAdmin {
      return Exit(AdminRequired);
    }

    var intervalFloat := f.interval;
    var timeoutFloat := f.timeout;
    var ipv4 := f.ipv4;
    var ipv6 := f.ipv6;

    if timeoutFloat > intervalFloat {
      timeoutFloat := intervalFloat;
    }
    if intervalFloat < MinSeconds {
      return Exit(IntervalTooShort);
    }
    if timeoutFloat < MinSeconds {
      return Exit(TimeoutTooShort);
    }

    var interval := Duration(intervalFloat);
    var timeout := Duration(timeoutFloat);
    DurationMonotone(timeoutFloat, intervalFloat);
    DurationMonotone(MinSeconds, timeoutFloat);
    assert Duration(MinSeconds) == 10_000_000;

    if !ipv4 && !ipv6 {
      ipv4 := true;
    }
    if ipv4 && ipv6 {
      return Exit(BothVersions);
    }

    var ipVersion := IPV0;
    if ipv4 {
      ipVersion := IPV4;
    } else if ipv6 {
      ipVersion := IPV6;
    }

    var targets := ParseTargets(f.args, hostname);
    if |targets| == 0 {
      return Exit(NoTargets);
    }

    var resolved := ResolveTargets(targets, ipVersion, parseIP, dns, ctxDone);
    var list := if resolved.Some? then resolved.value else [];
    return Launch(ipVersion, PingerOptions(list, interval, timeout, f.count));
  }
}
