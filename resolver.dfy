/** Resolution of targets to addresses (pkg/pinger/resolver.go).

    The worker pool and its futures are modelled sequentially: every routine
    is run in target order and its completion is kept at the target's
    position, which is what collecting the futures in submission order
    observes. The DNS lookup, net.ParseIP and the cancellation of the context
    are supplied by the caller. */
module Resolver {
  import opened Wrappers
  import opened IP
  import opened Targets

  /** net.ParseIP: the 16-byte form of a textual address, or None. */
  type IPParser = string -> Option<Addr16>

  /** net.ResolveIPAddr: the address DNS gives for a host on a network
      ("ip", "ip4" or "ip6"), or None when the lookup fails. */
  type Lookup = (string, string) -> Option<Addr>

  /** A finished future: the routine's value and whether it also returned an
      error. */
  datatype Completion = Completion(value: ResolvedTarget, failed: bool)

  /** tryIP: the normalised address and family of a literal IP, or
      (nil, IPV0) for anything else. */
  function TryIP(s: string, parseIP: IPParser): (r: (Option<Addr>, IPVersion))
    ensures r.0.None? <==> parseIP(s).None?
    ensures r.0.None? ==> r.1 == IPV0
    ensures r.0.Some? ==> (r.1 == IPV4 && |r.0.value| == 4) || (r.1 == IPV6 && |r.0.value| == 16)
    ensures r.0.Some? ==> To16(r.0.value) == Some(parseIP(s).value)
  {
    match parseIP(s)
    case None => (None, IPV0)
    case Some(ip) => GetIP(ip)
  }

  /** routineDirect: an already known address needs no lookup. */
  function RoutineDirect(name: string, ip: Addr, ver: IPVersion): Completion {
    Completion(ResolvedTarget(Some(ip), ver, name), false)
  }

  /** routineResolve: a DNS lookup constrained to the requested version; a
      failed lookup yields no address together with an error. */
  function RoutineResolve(target: Target, version: IPVersion, dns: Lookup): Completion {
    match dns(Network(version), target.host)
    case None => Completion(ResolvedTarget(None, IPV0, target.name), true)
    case Some(addr) => Completion(ResolvedTarget(Some(addr), version, target.name), false)
  }

  /** The routine the first loop of ResolveTargets submits for a target. */
  function Submit(target: Target, version: IPVersion, parseIP: IPParser, dns: Lookup): Completion {
    var (ip, ver) := TryIP(target.host, parseIP);
    if ip.Some? then RoutineDirect(target.name, ip.value, ver)
    else RoutineResolve(target, version, dns)
  }

  /** What the second loop of ResolveTargets keeps of a finished future. */
  function Collect(c: Completion): ResolvedTarget {
    if !c.failed then c.value else ResolvedTarget(None, IPV0, c.value.name)
  }

  /** The entry ResolveTargets produces for one target. A literal address is
      taken as it is, normalised by GetIP; any other host is looked up, and
      the entry is tagged with the requested version, not the family of the
      address found; a failed lookup leaves the entry without an address.
      The label is always kept. */
  function Resolve(target: Target, version: IPVersion, parseIP: IPParser, dns: Lookup): (r: ResolvedTarget)
    ensures r.name == target.name
    ensures parseIP(target.host).Some? ==> (r.ip, r.version) == GetIP(parseIP(target.host).value)
    ensures parseIP(target.host).None? ==>
              r == ResolvedTarget(dns(Network(version), target.host),
                                  if dns(Network(version), target.host).Some? then version else IPV0,
                                  target.name)
    ensures r.ip.None? <==> parseIP(target.host).None? && dns(Network(version), target.host).None?
  {
    Collect(Submit(target, version, parseIP, dns))
  }

  /** A literal address never reaches DNS: the entry is the same whatever
      the lookup would answer. */
  lemma LiteralSkipsLookup(target: Target, version: IPVersion, parseIP: IPParser, dns1: Lookup, dns2: Lookup)
    requires parseIP(target.host).Some?
    ensures Resolve(target, version, parseIP, dns1) == Resolve(target, version, parseIP, dns2)
  {
  }

  /** ResolveTargets: nil for an unknown version; nil when the cancellation
      of the context is observed while collecting (at step j when
      `ctxDone(j)`); otherwise one entry per target, in target order. */
  method ResolveTargets(targets: seq<Target>, version: IPVersion, parseIP: IPParser, dns: Lookup,
                        ctxDone: nat -> bool)
    returns (resolved: Option<seq<ResolvedTarget>>)
    ensures !IsKnownVersion(version) ==> resolved.None?
    ensures IsKnownVersion(version) ==>
              (resolved.None? <==> exists j | 0 <= j < |targets| :: ctxDone(j))
    ensures resolved.Some? ==>
              |resolved.value| == |targets| &&
              forall i | 0 <= i < |targets| :: resolved.value[i] == Resolve(targets[i], version, parseIP, dns)
  {
    if !IsKnownVersion(version) {
      return None;
    }

    var futs: seq<Completion> := [];
    for i := 0 to |targets|
      invariant |futs| == i
      invariant forall k | 0 <= k < i :: futs[k] == Submit(targets[k], version, parseIP, dns)
    {
      futs := futs + [Submit(targets[i], version, parseIP, dns)];
    }

    var collected: seq<ResolvedTarget> := [];
    for i := 0 to |futs|
      invariant |collected| == i
      invariant forall k | 0 <= k < i :: !ctxDone(k)
      invariant forall k | 0 <= k < i :: collected[k] == Collect(futs[k])
    {
      if ctxDone(i) {
        return None;
      }
      collected := collected + [Collect(futs[i])];
    }
    return Some(collected);
  }
}
