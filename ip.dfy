/** IP versions and address normalisation (pkg/pinger/ip.go), with the parts of
    Go's net.IP (To4, To16) that GetIP rests on. */
module IP {
  import opened Wrappers

  type Byte = b: int | 0 <= b < 256

  /** A net.IP: 4 bytes for an IPv4 address, 16 for an IPv6 one. */
  type Addr = seq<Byte>

  /** The 16-byte slices that net.ParseIP returns. */
  type Addr16 = a: Addr | |a| == 16 witness seq(16, _ => 0)

  /** IPVersion is a Go int; any value can reach Network. */
  type IPVersion = int

  const IPV0: IPVersion := 0  // unknown or unspecified
  const IPV4: IPVersion := 4
  const IPV6: IPVersion := 6

  predicate IsKnownVersion(v: IPVersion) {
    v == IPV0 || v == IPV4 || v == IPV6
  }

  /** The network name handed to the resolver for a version. */
  function Network(v: IPVersion): (n: string)
    ensures n == "" <==> !IsKnownVersion(v)
    ensures IsKnownVersion(v) ==> |n| >= 2 && n[..2] == "ip"
  {
    match v
    case 0 => "ip"
    case 4 => "ip4"
    case 6 => "ip6"
    case _ => ""
  }

  /** Distinct known versions never share a network name. */
  lemma NetworkInjective(v: IPVersion, w: IPVersion)
    requires IsKnownVersion(v) && IsKnownVersion(w)
    requires Network(v) == Network(w)
    ensures v == w
  {
  }

  /** The 12-byte prefix of an IPv4-mapped IPv6 address, ::ffff:0:0/96
      (section 2.5.5.2 of RFC 4291). */
  const V4InV6Prefix: Addr := [0, 0, 0, 0, 0, 0, 0, 0, 0, 0, 0xff, 0xff]

  /** net.IP.To4: the 4-byte form of an IPv4 address, or nil. */
  function To4(ip: Addr): (r: Option<Addr>)
    ensures r.Some? ==> |r.value| == 4
    ensures r.Some? <==> |ip| == 4 || (|ip| == 16 && ip[..12] == V4InV6Prefix)
    ensures r.Some? && |ip| == 16 ==> ip == V4InV6Prefix + r.value
  {
    if |ip| == 4 then Some(ip)
    else if |ip| == 16 && ip[..12] == V4InV6Prefix then Some(ip[12..])
    else None
  }

  /** net.IP.To16: the 16-byte form of an address, or nil. */
  function To16(ip: Addr): (r: Option<Addr>)
    ensures r.Some? <==> |ip| == 4 || |ip| == 16
    ensures r.Some? ==> |r.value| == 16
  {
    if |ip| == 4 then Some(V4InV6Prefix + ip)
    else if |ip| == 16 then Some(ip)
    else None
  }

  /** To4 and To16 are inverse views of the same IPv4 address. */
  lemma To4To16RoundTrip(ip: Addr)
    requires To4(ip).Some?
    ensures To16(ip).Some? && To4(To16(ip).value) == To4(ip)
    ensures To16(To4(ip).value) == To16(ip)
  {
    var v := V4InV6Prefix + To4(ip).value;
    assert v[..12] == V4InV6Prefix && v[12..] == To4(ip).value;
  }

  /** GetIP: the address in its shortest form, tagged with its family. */
  function GetIP(ip: Addr): (r: (Option<Addr>, IPVersion))
    ensures r.1 == IPV4 || r.1 == IPV6
    ensures r.1 == IPV4 <==> To4(ip).Some?
    ensures r.0.Some? ==> |r.0.value| == (if r.1 == IPV4 then 4 else 16)
    ensures r.0.Some? <==> |ip| == 4 || |ip| == 16
    ensures r.0.Some? ==> To16(r.0.value) == To16(ip)
  {
    var ip4 := To4(ip);
    if ip4.Some? then
      To4To16RoundTrip(ip);
      (ip4, IPV4)
    else
      (To16(ip), IPV6)
  }

  /** Normalising an already normalised address changes nothing. */
  lemma GetIPIdempotent(ip: Addr)
    requires GetIP(ip).0.Some?
    ensures GetIP(GetIP(ip).0.value) == GetIP(ip)
  {
    var (a, v) := GetIP(ip);
    if v == IPV4 {
      assert To4(a.value) == Some(a.value);
    } else {
      assert a.value == To16(ip).value;
      assert |a.value| == 16 && a.value[..12] != V4InV6Prefix;
    }
  }
}
