/**
 * The part of WHATWG URL parsing (`new URL(s)` in Node.js) that the proxy
 * relies on, for `http:` and `https:` URLs: scheme, host name, explicit
 * port, path name and search string.
 */
module Urls {
  import opened Wrappers
  import opened Text

  datatype Scheme = Http | Https

  /** The parts of a parsed URL the proxy reads; `port` is the explicit port, if any. */
  datatype Url = Url(scheme: Scheme, hostname: string, port: Option<nat>, pathname: string, search: string)

  const MaxPort: nat := 65535
  const HttpPrefix: string := "http://"
  const HttpsPrefix: string := "https://"
  /** Characters that end the authority (host and port) of a special URL. */
  const AuthorityEnd: set<char> := {'/', '?', '#'}
  /** Characters that end the path. */
  const PathEnd: set<char> := {'?', '#'}

  function SchemePrefix(scheme: Scheme): string {
    if scheme == Https then HttpsPrefix else HttpPrefix
  }

  /** The port a client dials when the URL names none: 443 for https, 80 for http. */
  function DefaultPort(scheme: Scheme): string {
    if scheme == Https then "443" else "80"
  }

  /**
   * `url.port || default`. The URL standard reports a port equal to the
   * scheme's default as the empty string, which selects the same digits.
   */
  function PortText(u: Url): (r: string)
    ensures u.port.Some? ==> ParseInt(r) == u.port
    ensures u.port.None? ==> r == DefaultPort(u.scheme)
  {
    if u.port.Some? then
      ParseIntOfDecimal(u.port.value, "");
      assert NatToDecimal(u.port.value) + "" == NatToDecimal(u.port.value);
      NatToDecimal(u.port.value)
    else
      DefaultPort(u.scheme)
  }

  predicate NoneOf(s: string, stops: set<char>) {
    forall i | 0 <= i < |s| :: s[i] !in stops
  }

  /** `new URL(s)`: `None` where the constructor throws. */
  function ParseUrl(s: string): (r: Option<Url>)
    ensures r.Some? ==> StartsWith(s, SchemePrefix(r.value.scheme))
    ensures r.Some? ==> r.value.hostname != "" && NoneOf(r.value.hostname, AuthorityEnd + {':'})
    ensures r.Some? ==> r.value.pathname != [] && r.value.pathname[0] == '/'
    ensures r.Some? && r.value.port.Some? ==> r.value.port.value <= MaxPort
    ensures !StartsWith(s, HttpPrefix) && !StartsWith(s, HttpsPrefix) ==> r.None?
  {
    if StartsWith(s, HttpsPrefix) then ParseAfterScheme(Https, SkipSlashes(s[|HttpsPrefix|..]))
    else if StartsWith(s, HttpPrefix) then ParseAfterScheme(Http, SkipSlashes(s[|HttpPrefix|..]))
    else None
  }

  /**
   * The parser's "special authority ignore slashes" state: any further `/`
   * after `scheme://` is skipped before the host.
   */
  function SkipSlashes(s: string): (r: string)
    ensures |r| <= |s| && r == s[|s| - |r|..]
    ensures forall m | 0 <= m < |s| - |r| :: s[m] == '/'
    ensures r == [] || r[0] != '/'
  {
    if s != [] && s[0] == '/' then SkipSlashes(s[1..]) else s
  }

  /**
   * The text after `scheme://`: the authority runs to the first `/`, `?` or
   * `#`, and the path and search follow it.
   */
  function ParseAfterScheme(scheme: Scheme, rest: string): (r: Option<Url>)
    ensures r.Some? ==> r.value.scheme == scheme
    ensures r.Some? ==> r.value.hostname != "" && NoneOf(r.value.hostname, AuthorityEnd + {':'})
    ensures r.Some? ==> r.value.pathname != [] && r.value.pathname[0] == '/'
    ensures r.Some? && r.value.port.Some? ==> r.value.port.value <= MaxPort
  {
    var a := FirstOf(rest, AuthorityEnd);
    match HostPort(rest[..a])
    case None => None
    case Some((host, port)) =>
      assert host <= rest[..a];
      var (path, search) := PathSearch(rest[a..]);
      Some(Url(scheme, host, port, path, search))
  }

  /**
   * The host is the authority up to its first `:` and must not be empty;
   * the port text after the `:` must be decimal digits not above 65535, and
   * an empty port text means no port.
   */
  function HostPort(authority: string): (r: Option<(string, Option<nat>)>)
    ensures r.Some? ==> r.value.0 != "" && r.value.0 <= authority && ':' !in r.value.0
    ensures r.Some? && r.value.1.Some? ==> r.value.1.value <= MaxPort
  {
    var host := SplitHead(authority, ':');
    var portText := if |host| < |authority| then authority[|host| + 1..] else "";
    if host == "" || !AllDigits(portText) || DecimalValue(portText) > MaxPort then
      None
    else
      Some((host, if portText == "" then None else Some(DecimalValue(portText))))
  }

  /** An empty path becomes `/`, a lone `?` an empty search, and the fragment is dropped. */
  function PathSearch(tail: string): (r: (string, string))
    requires tail == [] || tail[0] in AuthorityEnd
    ensures r.0 != [] && r.0[0] == '/'
    ensures r.1 == "" || r.1[0] == '?'
  {
    var q := FirstOf(tail, PathEnd);
    var path := tail[..q];
    var afterPath := tail[q..];
    var query := afterPath[..FirstOf(afterPath, {'#'})];
    assert path != [] ==> path[0] == '/' by {
      if path != [] {
        assert tail[0] !in PathEnd;
      }
    }
    (if path == "" then "/" else path, if |query| <= 1 then "" else query)
  }

  /** The text of a URL: `scheme://host[:port]path[search]`. */
  function Format(u: Url): string {
    SchemePrefix(u.scheme) + u.hostname + PortSuffix(u.port) + u.pathname + u.search
  }

  function PortSuffix(port: Option<nat>): string {
    if port.Some? then ":" + NatToDecimal(port.value) else ""
  }

  /** URLs whose text the parser reads back unchanged. */
  predicate WellFormed(u: Url) {
    && u.hostname != "" && NoneOf(u.hostname, AuthorityEnd + {':'})
    && (u.port.Some? ==> u.port.value <= MaxPort)
    && u.pathname != "" && u.pathname[0] == '/' && NoneOf(u.pathname, PathEnd)
    && (u.search == "" || (|u.search| > 1 && u.search[0] == '?' && NoneOf(u.search, {'#'})))
  }

  /** Parsing the text of a well-formed URL gives back that URL. */
  lemma ParseFormat(u: Url)
    requires WellFormed(u)
    ensures ParseUrl(Format(u)) == Some(u)
  {
    var rest := u.hostname + PortSuffix(u.port) + u.pathname + u.search;
    assert Format(u) == SchemePrefix(u.scheme) + rest;
    assert ParseUrl(Format(u)) == ParseAfterScheme(u.scheme, rest) by {
      ParseUrlOfPrefix(u.scheme, rest);
      assert rest[0] == u.hostname[0] && u.hostname[0] !in AuthorityEnd + {':'};
    }
    ParseAfterSchemeParts(u.scheme, u.hostname, u.port, u.pathname, u.search);
  }

  /** Extra slashes after `scheme://` are skipped: `https:///host` names `host`. */
  lemma ExtraSlashesSkipped(scheme: Scheme, slashes: string, u: Url)
    requires WellFormed(u) && u.scheme == scheme
    requires forall m | 0 <= m < |slashes| :: slashes[m] == '/'
    ensures ParseUrl(SchemePrefix(scheme) + slashes + u.hostname + PortSuffix(u.port) + u.pathname + u.search) == Some(u)
  {
    var rest := u.hostname + PortSuffix(u.port) + u.pathname + u.search;
    assert SchemePrefix(scheme) + slashes + u.hostname + PortSuffix(u.port) + u.pathname + u.search
      == SchemePrefix(scheme) + (slashes + rest);
    ParseUrlOfPrefix(scheme, slashes + rest);
    assert SkipSlashes(slashes + rest) == rest by {
      SlashesThenHost(slashes, rest);
    }
    ParseAfterSchemeParts(u.scheme, u.hostname, u.port, u.pathname, u.search);
  }

  /** Slashes before text that does not start with one are all skipped. */
  lemma {:induction false} SlashesThenHost(slashes: string, rest: string)
    requires forall m | 0 <= m < |slashes| :: slashes[m] == '/'
    requires rest == [] || rest[0] != '/'
    ensures SkipSlashes(slashes + rest) == rest
  {
    if slashes == [] {
      assert slashes + rest == rest;
    } else {
      assert (slashes + rest)[1..] == slashes[1..] + rest;
      SlashesThenHost(slashes[1..], rest);
    }
  }

  /** Text that starts with a scheme's prefix is parsed as that scheme, from the text after the prefix. */
  lemma ParseUrlOfPrefix(scheme: Scheme, rest: string)
    ensures ParseUrl(SchemePrefix(scheme) + rest) == ParseAfterScheme(scheme, SkipSlashes(rest))
  {
    var pre := SchemePrefix(scheme);
    var s := pre + rest;
    assert s[..|pre|] == pre;
    assert s[|pre|..] == rest;
    if scheme == Http {
      assert s[4] == ':' && HttpsPrefix[4] == 's';
      assert !StartsWith(s, HttpsPrefix);
    }
  }

  /**
   * The text after `scheme://` made of a host, an optional port, a path
   * (possibly empty) and a search is read back part by part.
   */
  lemma ParseAfterSchemeParts(scheme: Scheme, h: string, port: Option<nat>, p: string, q: string)
    requires h != "" && NoneOf(h, AuthorityEnd + {':'})
    requires port.Some? ==> port.value <= MaxPort
    requires p == "" || (p[0] == '/' && NoneOf(p, PathEnd))
    requires q == "" || (|q| > 1 && q[0] == '?' && NoneOf(q, {'#'}))
    ensures ParseAfterScheme(scheme, h + PortSuffix(port) + p + q)
      == Some(Url(scheme, h, port, if p == "" then "/" else p, q))
  {
    var ps := PortSuffix(port);
    var tail := p + q;
    var rest := h + ps + tail;
    assert h + ps + p + q == rest;
    PathOfFormat(p, q);
    AuthorityOfFormat(h, ps, tail, port);
    var a := |h| + |ps|;
    assert rest[..a] == h + ps;
    assert rest[a..] == tail;
    HostOfFormat(h, port);
  }

  /** The authority of a formatted URL ends where its path or search begins. */
  lemma AuthorityOfFormat(h: string, ps: string, tail: string, port: Option<nat>)
    requires NoneOf(h, AuthorityEnd + {':'}) && ps == PortSuffix(port)
    requires tail == [] || tail[0] in AuthorityEnd
    ensures FirstOf(h + ps + tail, AuthorityEnd) == |h| + |ps|
  {
    var rest := h + ps + tail;
    var a := |h| + |ps|;
    assert forall m :: 0 <= m < |ps| ==> ps[m] !in AuthorityEnd by {
      if port.Some? {
        var d := NatToDecimal(port.value);
        assert forall m :: 1 <= m < |ps| ==> ps[m] == d[m - 1];
      }
    }
    forall m | 0 <= m < a
      ensures rest[m] !in AuthorityEnd
    {
      if m < |h| {
        assert rest[m] == h[m];
      } else {
        assert rest[m] == ps[m - |h|];
      }
    }
    if tail != [] {
      assert rest[a] == tail[0];
    }
    FirstOfIs(rest, AuthorityEnd, a);
  }

  /** The host and port read back from a formatted authority. */
  lemma HostOfFormat(h: string, port: Option<nat>)
    requires h != "" && NoneOf(h, AuthorityEnd + {':'})
    requires port.Some? ==> port.value <= MaxPort
    ensures HostPort(h + PortSuffix(port)) == Some((h, port))
  {
    assert ':' !in h by {
      assert forall m | 0 <= m < |h| :: h[m] !in AuthorityEnd + {':'};
    }
    if port.Some? {
      HostWithPort(h, port.value);
    } else {
      SplitWithout(h, ':');
      assert h + PortSuffix(port) == h;
    }
  }

  /** `host:port` reads back as that host and that port. */
  lemma HostWithPort(h: string, n: nat)
    requires h != "" && ':' !in h && n <= MaxPort
    ensures HostPort(h + PortSuffix(Some(n))) == Some((h, Some(n)))
  {
    var d := NatToDecimal(n);
    var authority := h + PortSuffix(Some(n));
    assert SplitHead(authority, ':') == h && |h| < |authority| && authority[|h| + 1..] == d by {
      assert authority == h + [':'] + d;
      assert ':' !in d by {
        assert forall m | 0 <= m < |d| :: IsDigit(d[m]);
      }
      SplitAround(h, d, ':');
    }
    assert DecimalValue(d) == n by {
      DecimalRoundTrip(n);
    }
  }

  /** `host:port` with a port above 65535 is rejected, as `new URL` rejects it. */
  lemma HostWithBigPort(h: string, n: nat)
    requires h != "" && ':' !in h && n > MaxPort
    ensures HostPort(h + PortSuffix(Some(n))) == None
  {
    var d := NatToDecimal(n);
    var authority := h + PortSuffix(Some(n));
    assert SplitHead(authority, ':') == h && |h| < |authority| && authority[|h| + 1..] == d by {
      assert authority == h + [':'] + d;
      assert ':' !in d by {
        assert forall m | 0 <= m < |d| :: IsDigit(d[m]);
      }
      SplitAround(h, d, ':');
    }
    assert DecimalValue(d) == n by {
      DecimalRoundTrip(n);
    }
  }

  /** The path name and search read back from a formatted path and query. */
  lemma PathOfFormat(p: string, q: string)
    requires p == "" || (p[0] == '/' && NoneOf(p, PathEnd))
    requires q == "" || (|q| > 1 && q[0] == '?' && NoneOf(q, {'#'}))
    ensures p + q == [] || (p + q)[0] in AuthorityEnd
    ensures PathSearch(p + q) == (if p == "" then "/" else p, q)
  {
    var tail := p + q;
    if p != [] {
      assert tail[0] == p[0];
    } else if q != [] {
      assert tail[0] == q[0];
    }
    forall m | 0 <= m < |p|
      ensures tail[m] !in PathEnd
    {
      assert tail[m] == p[m];
    }
    FirstOfIs(tail, PathEnd, |p|);
    FirstOfIs(q, {'#'}, |q|);
    assert tail[..|p|] == p;
    assert tail[|p|..] == q;
    assert q[..|q|] == q;
  }
}
