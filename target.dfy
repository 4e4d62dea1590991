/** Ping targets and the parser of the command-line target strings
    (pkg/pinger/target.go). */
module Targets {
  import opened Wrappers
  import opened Text
  import opened IP

  /** A target as the user wrote it: what to ping and what to call it. */
  datatype Target = Target(host: string, name: string)  // name is the Go Label

  /** A target after resolution; `ip` is None when resolution failed. */
  datatype ResolvedTarget = ResolvedTarget(ip: Option<Addr>, version: IPVersion, name: string)

  /** URL parsing and Hostname() from Go's net/url, supplied by the caller:
      the host name of a URL, or None when the URL does not parse. */
  type UrlHostname = string -> Option<string>

  /** parseHostFromURL: the URL's host name, or the whole string when it is
      not a URL. */
  function HostFromURL(uri: string, hostname: UrlHostname): string {
    match hostname(uri)
    case None => uri
    case Some(h) => h
  }

  /** ParseTarget: None for a blank string; for a URL, its host name as both
      host and label; otherwise `host=label` split at the last '=', or the
      whole string as both. */
  function ParseTarget(s: string, hostname: UrlHostname): (r: Option<Target>)
    ensures r.None? <==> AllSpace(s)
    ensures r.Some? && r.value.name == [] ==> r.value.host == []
  {
    var t := TrimSpace(s);
    if t == [] then
      None
    else if Contains(t, "://") then
      var host := HostFromURL(t, hostname);
      Some(Target(host, host))
    else
      var i := LastIndexOf(t, '=');
      if i >= 0 then
        var host := TrimSpace(t[..i]);
        var name := TrimSpace(t[i + 1..]);
        Some(Target(host, if name == [] then host else name))
      else
        Some(Target(t, t))
  }

  /** A string containing "://" names its URL's host, for host and label
      alike; a URL that does not parse stands for itself. */
  lemma ParseTargetURL(s: string, hostname: UrlHostname)
    requires !AllSpace(s) && Contains(TrimSpace(s), "://")
    ensures var t := TrimSpace(s);
            hostname(t).Some? ==> ParseTarget(s, hostname) == Some(Target(hostname(t).value, hostname(t).value))
    ensures hostname(TrimSpace(s)).None? ==> ParseTarget(s, hostname) == Some(Target(TrimSpace(s), TrimSpace(s)))
  {
  }

  /** Without "://", the string splits at its last '=': the host is the
      trimmed text before it and the label the trimmed text after it; a
      blank label falls back to the host. */
  lemma ParseTargetSplit(s: string, hostname: UrlHostname)
    requires !AllSpace(s) && !Contains(TrimSpace(s), "://")
    requires '=' in TrimSpace(s)
    ensures var t := TrimSpace(s);
            var i := LastIndexOf(t, '=');
            0 <= i &&
            ParseTarget(s, hostname) ==
              Some(Target(TrimSpace(t[..i]), if AllSpace(t[i + 1..]) then TrimSpace(t[..i]) else TrimSpace(t[i + 1..])))
  {
    LabelHasNoEquals(TrimSpace(s));
  }

  /** Whatever follows the last '=' holds no '=', trimmed or not. */
  lemma LabelHasNoEquals(t: string)
    requires '=' in t
    ensures var i := LastIndexOf(t, '=');
            0 <= i && '=' !in t[i + 1..] && '=' !in TrimSpace(t[i + 1..])
  {
    var i := LastIndexOf(t, '=');
    var k :| 0 <= k < |t| && t[k] == '=';
    assert 0 <= i;
    var after := t[i + 1..];
    forall j | 0 <= j < |after| ensures after[j] != '=' {
      assert after[j] == t[i + 1 + j];
    }
    TrimSpaceKeepsOut(after, '=');
  }

  /** With neither "://" nor '=', the trimmed string is host and label. */
  lemma ParseTargetPlain(s: string, hostname: UrlHostname)
    requires !AllSpace(s) && !Contains(TrimSpace(s), "://") && '=' !in TrimSpace(s)
    ensures ParseTarget(s, hostname) == Some(Target(TrimSpace(s), TrimSpace(s)))
  {
  }

  lemma {:induction false} NoSchemeAcrossEquals(h: string, l: string)
    requires !Contains(h, "://") && !Contains(l, "://")
    ensures !Contains(h + "=" + l, "://")
  {
    var t := h + "=" + l;
    forall i | 0 <= i <= |t| - 3 ensures !OccursAt(t, "://", i) {
      if i + 3 <= |h| {
        assert t[i..i + 3] == h[i..i + 3];
        assert !OccursAt(h, "://", i);
      } else if i > |h| {
        assert t[i..i + 3] == l[i - |h| - 1..i - |h| + 2];
        assert !OccursAt(l, "://", i - |h| - 1);
      } else {
        assert t[i..i + 3][|h| - i] == t[|h|] == '=';
      }
    }
  }

  lemma {:induction false} LastEqualsAt(host: string, name: string)
    requires '=' !in name
    ensures LastIndexOf(host + "=" + name, '=') == |host|
  {
    var t := host + "=" + name;
    var i := LastIndexOf(t, '=');
    assert t[|host|] == '=';
    forall k | |host| < k < |t| ensures t[k] != '=' {
      assert t[k] == name[k - |host| - 1];
    }
    assert i >= |host|;
  }

  /** Writing a target as `host=label` and parsing it gives the target back,
      for a trimmed host and a trimmed, non-empty label without '='. */
  lemma {:induction false} ParseTargetRoundTrip(host: string, name: string, hostname: UrlHostname)
    requires IsTrimmed(host) && !Contains(host, "://")
    requires name != [] && IsTrimmed(name) && '=' !in name && !Contains(name, "://")
    ensures ParseTarget(host + "=" + name, hostname) == Some(Target(host, name))
  {
    var t := host + "=" + name;
    assert t[0] == (if host == [] then '=' else host[0]);
    assert t[|t| - 1] == name[|name| - 1];
    TrimSpaceOfTrimmed(t);
    TrimSpaceOfTrimmed(host);
    TrimSpaceOfTrimmed(name);
    NoSchemeAcrossEquals(host, name);
    LastEqualsAt(host, name);
    assert t[|host|] == '=';
    assert t[..|host|] == host && t[|host| + 1..] == name;
    assert !IsSpace(name[0]);
    ParseTargetSplit(t, hostname);
  }

  /** The host may come out empty: "=x" is accepted with an empty host. */
  lemma EmptyHostAccepted(hostname: UrlHostname)
    ensures ParseTarget("=x", hostname) == Some(Target("", "x"))
  {
    var t := "=x";
    assert !IsSpace(t[0]) && !IsSpace(t[1]);
    TrimSpaceOfTrimmed(t);
    assert LastIndexOf(t, '=') == 0;
    assert t[1..] == "x" && !IsSpace('x');
    TrimSpaceOfTrimmed("x");
    TrimSpaceOfTrimmed([]);
  }

  /** A label can contain '=' after all: "a=b=" has a blank label, which
      falls back to the host "a=b". */
  lemma LabelFallbackKeepsEquals(hostname: UrlHostname)
    ensures ParseTarget("a=b=", hostname) == Some(Target("a=b", "a=b"))
  {
    var t := "a=b=";
    SplitOfAEqualsBEquals();
    ParseTargetSplit(t, hostname);
  }

  /** The pieces of "a=b=" that ParseTarget looks at. */
  lemma SplitOfAEqualsBEquals()
    ensures var t := "a=b=";
            TrimSpace(t) == t && !Contains(t, "://") && '=' in t &&
            LastIndexOf(t, '=') == 3 && TrimSpace(t[..3]) == "a=b" && AllSpace(t[4..])
  {
    var t := "a=b=";
    assert !IsSpace(t[0]) && !IsSpace(t[3]);
    TrimSpaceOfTrimmed(t);
    assert !Contains(t, "://") by {
      forall i | 0 <= i <= |t| - 3 ensures !OccursAt(t, "://", i) {
        assert t[i..i + 3][1] != ':';
      }
    }
    assert t[3] == '=';
    assert t[..3] == "a=b" && !IsSpace('a') && !IsSpace('b');
    TrimSpaceOfTrimmed("a=b");
    assert t[4..] == [];
  }
}
