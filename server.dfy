/**
 * The forwarding proxy (src/server.js): for every plain HTTP request it
 * works out the upstream target, strips the proxy's own headers, swaps the
 * client's Gemini credential for the configured one when the target is the
 * Gemini API, and relays the upstream answer or reports 400, 502 or 500.
 * CONNECT requests become an opaque tunnel. Sockets, piping and clocks are
 * replaced by parameters that say what the environment did.
 */
module Server {
  import opened Wrappers
  import opened Text
  import opened Urls
  import opened Hosts
  import opened KeyPattern
  import opened Logger

  const ProxyConnection: string := "proxy-connection"
  const ProxyAuthorization: string := "proxy-authorization"
  const NoHostBody: string := "Bad Request: No Host header"
  const ErrorPrefix: string := "Proxy Error: "
  const InvalidUrl: string := "Invalid URL"
  const Established: string := "HTTP/1.1 200 Connection Established\r\n\r\n"

  /** Request headers by the lower-case names Node.js gives them. */
  type Headers = map<string, string>

  /** An incoming request: method, request-target and headers. */
  datatype Inbound = Inbound(verb: string, url: string, headers: Headers)

  /** Where a request goes: `port` is text, as it comes from the URL or the Host header. */
  datatype Target = Target(host: string, port: string, path: string, scheme: Scheme)

  /** The outcome of target resolution: a target, no usable Host header, or `new URL` throwing. */
  datatype Resolution = Resolved(target: Target) | MissingHost | UrlThrew

  /** The upstream request as it is handed to `http.request`/`https.request`. */
  datatype Outbound = Outbound(hostname: string, port: string, path: string, verb: string, headers: Headers, scheme: Scheme)

  /**
   * What the upstream side did: it answered (after `elapsed` milliseconds,
   * possibly followed by a request error once the answer was already being
   * relayed), the request failed before any answer, or `request` threw.
   */
  datatype Upstream =
    | Answered(status: int, headers: Headers, elapsed: nat, lateError: Option<string>)
    | Refused(message: string)
    | DispatchThrew(message: string)

  /** What the client receives: the upstream status and headers, or a plain-text reply of the proxy's own. */
  datatype Reply = Relayed(status: int, headers: Headers) | Plain(status: int, body: string)

  /** A header value, `None` when the header is absent. */
  function Header(h: Headers, name: string): Option<string> {
    if name in h then Some(h[name]) else None
  }

  /** An absolute-form request-target, as a forward proxy receives it. */
  predicate IsAbsoluteForm(url: string) {
    StartsWith(url, HttpPrefix) || StartsWith(url, HttpsPrefix)
  }

  /**
   * The upstream target. An absolute-form URL is parsed and its port
   * defaults by scheme; otherwise the Host header names the host, the port
   * after its first `:` defaults to 443, the request-target is the path, and
   * HTTPS is assumed.
   */
  function ResolveTarget(url: string, headers: Headers): (r: Resolution)
    ensures r.UrlThrew? <==> IsAbsoluteForm(url) && ParseUrl(url).None?
    ensures r.MissingHost? <==> !IsAbsoluteForm(url) && !Truthy(Header(headers, HostHeader))
    ensures r.Resolved? && IsAbsoluteForm(url) ==>
      var u := ParseUrl(url).value;
      r.target == Target(u.hostname, PortText(u), u.pathname + u.search, u.scheme)
    ensures r.Resolved? && !IsAbsoluteForm(url) ==>
      var h := headers[HostHeader];
      && r.target.scheme == Https && r.target.path == url
      && r.target.host == SplitHead(h, ':') && r.target.host <= h && ':' !in r.target.host
      && r.target.port == OriginPort(h)
  {
    if IsAbsoluteForm(url) then
      match ParseUrl(url)
      case None => UrlThrew
      case Some(u) => Resolved(Target(u.hostname, PortText(u), u.pathname + u.search, u.scheme))
    else if !Truthy(Header(headers, HostHeader)) then
      MissingHost
    else
      var host := headers[HostHeader];
      Resolved(Target(SplitHead(host, ':'), OriginPort(host), url, Https))
  }

  /** The port a Host header names: the text after its first `:`, or 443 when that is absent or empty. */
  function OriginPort(host: string): (p: string)
    ensures SplitSecond(host, ':').Some? && SplitSecond(host, ':').value != "" ==> p == SplitSecond(host, ':').value
    ensures SplitSecond(host, ':').None? || SplitSecond(host, ':').value == "" ==> p == "443"
    ensures p != "" && ':' !in p
  {
    match SplitSecond(host, ':')
    case Some(p) => if p != "" then p else "443"
    case None => "443"
  }

  /** A well-formed absolute URL resolves to its own host, port (or the scheme's default) and path. */
  lemma AbsoluteFormTarget(u: Url, headers: Headers)
    requires WellFormed(u)
    ensures ResolveTarget(Format(u), headers)
      == Resolved(Target(u.hostname, PortText(u), u.pathname + u.search, u.scheme))
  {
    ParseFormat(u);
    assert StartsWith(Format(u), SchemePrefix(u.scheme));
  }

  /** An origin-form request goes to the Host header's host and port, 443 when it names none. */
  lemma {:induction false} OriginFormTarget(url: string, headers: Headers, host: string, port: string)
    requires !IsAbsoluteForm(url)
    requires host != "" && ':' !in host && ':' !in port
    requires Header(headers, HostHeader) == Some(if port == "" then host else host + ":" + port)
    ensures ResolveTarget(url, headers)
      == Resolved(Target(host, if port == "" then "443" else port, url, Https))
  {
    if port == "" {
      SplitWithout(host, ':');
    } else {
      SplitAround(host, port, ':');
    }
  }

  /**
   * A Host header with more than one `:` (an IPv6 literal, say) is cut at
   * the first two: the host is the text before the first, the port the text
   * between the first and the second, or 443 when that is empty.
   */
  lemma OriginFormTargetMoreColons(url: string, headers: Headers, host: string, port: string, more: string)
    requires !IsAbsoluteForm(url)
    requires ':' !in host && ':' !in port
    requires Header(headers, HostHeader) == Some(host + ":" + port + ":" + more)
    ensures ResolveTarget(url, headers)
      == Resolved(Target(host, if port == "" then "443" else port, url, Https))
  {
    SplitAroundMore(host, port, more, ':');
    assert host + ":" + port + ":" + more == host + [':'] + port + [':'] + more;
  }

  /** The Node.js `options` object, whose headers and path the handler edits in place. */
  class RequestOptions {
    const hostname: string
    const port: string
    var path: string
    const verb: string
    var headers: Headers
    const scheme: Scheme

    constructor(t: Target, verb: string, headers: Headers)
      ensures hostname == t.host && port == t.port && path == t.path && scheme == t.scheme
      ensures this.verb == verb && this.headers == headers
    {
      hostname := t.host;
      port := t.port;
      path := t.path;
      this.verb := verb;
      this.headers := headers;
      scheme := t.scheme;
    }

    /** `delete options.headers[name]`. */
    method DeleteHeader(name: string)
      modifies this
      ensures headers == old(headers) - {name} && path == old(path)
    {
      headers := headers - {name};
    }

    /** `options.headers[name] = value`. */
    method SetHeader(name: string, value: string)
      modifies this
      ensures headers == old(headers)[name := value] && path == old(path)
    {
      headers := headers[name := value];
    }

    /** `options.path = path`. */
    method SetPath(path: string)
      modifies this
      ensures this.path == path && headers == old(headers)
    {
      this.path := path;
    }

    function Snapshot(): Outbound
      reads this
    {
      Outbound(hostname, port, path, verb, headers, scheme)
    }
  }

  // ----- What the handler sends upstream -----

  lemma HeaderNamesDistinct()
    ensures ApiKeyHeader != ProxyConnection && ApiKeyHeader != ProxyAuthorization
  {
    assert |ApiKeyHeader| == 14 && |ProxyConnection| == 16 && |ProxyAuthorization| == 19;
  }

  function StripProxyHeaders(h: Headers): Headers {
    h - {ProxyConnection, ProxyAuthorization}
  }

  /** On the Gemini API a truthy `x-goog-api-key` is replaced by the trusted key. */
  function RewriteHeaders(h: Headers, gemini: bool, key: string): Headers {
    if gemini && Truthy(Header(h, ApiKeyHeader)) then h[ApiKeyHeader := key] else h
  }

  /** On the Gemini API a path containing `key=` has its first credential replaced. */
  function RewritePath(path: string, gemini: bool, key: string): string {
    if gemini && Contains(path, KeyEq) then ReplaceFirst(path, key) else path
  }

  /** The upstream request for a resolved target: the inbound request with the proxy's edits. */
  function PlanOutbound(t: Target, verb: string, inbound: Headers, key: string): Outbound {
    var gemini := IsGeminiHost(t.host);
    Outbound(t.host, t.port, RewritePath(t.path, gemini, key), verb,
      RewriteHeaders(StripProxyHeaders(inbound), gemini, key), t.scheme)
  }

  /**
   * Whatever the target, the upstream request goes to the resolved host,
   * port and scheme with the client's method; exactly the two proxy headers
   * are dropped, and every other header but `x-goog-api-key` is forwarded
   * unchanged. `x-goog-api-key` is forwarded exactly when the client sent it.
   */
  lemma PlanKeepsAllButCredentials(t: Target, verb: string, h: Headers, key: string)
    ensures var o := PlanOutbound(t, verb, h, key);
      && o.hostname == t.host && o.port == t.port && o.verb == verb && o.scheme == t.scheme
      && ProxyConnection !in o.headers && ProxyAuthorization !in o.headers
      && (ApiKeyHeader in o.headers <==> ApiKeyHeader in h)
      && forall n | n != ApiKeyHeader && n != ProxyConnection && n != ProxyAuthorization ::
           (n in o.headers <==> n in h) && (n in h ==> o.headers[n] == h[n])
  {
  }

  /** A request to any other host is forwarded verbatim apart from the two proxy headers. */
  lemma NonGeminiVerbatim(t: Target, verb: string, h: Headers, key: string)
    requires !IsGeminiHost(t.host)
    ensures PlanOutbound(t, verb, h, key)
      == Outbound(t.host, t.port, t.path, verb, h - {ProxyConnection, ProxyAuthorization}, t.scheme)
  {
  }

  /**
   * A request to the Gemini API carries the trusted key: a truthy header is
   * replaced, an empty one is passed on empty, and the path is rewritten
   * by the first-match rule whether or not the `key=` guard is checked.
   */
  lemma GeminiCredentialsReplaced(t: Target, verb: string, h: Headers, key: string)
    requires IsGeminiHost(t.host)
    ensures var o := PlanOutbound(t, verb, h, key);
      && o.path == ReplaceFirst(t.path, key)
      && (Truthy(Header(h, ApiKeyHeader)) ==> o.headers[ApiKeyHeader] == key)
      && (Header(h, ApiKeyHeader) == Some("") ==> o.headers[ApiKeyHeader] == "")
  {
    MatchNeedsKeyEq(t.path);
  }

  /**
   * With a capturable trusted key, the Gemini API sees the trusted key in
   * the header and in the first `key=` parameter of the path. Later `key=`
   * parameters reach it as the client sent them.
   */
  lemma FirstCredentialIsTrusted(t: Target, verb: string, h: Headers, key: string)
    requires IsGeminiHost(t.host) && CapturableKey(key)
    ensures var o := PlanOutbound(t, verb, h, key);
      && (ApiKeyHeader in o.headers ==> o.headers[ApiKeyHeader] in {key, ""})
      && (FirstMatch(o.path).Some? ==> Capture(o.path, FirstMatch(o.path).value) == key)
  {
    GeminiCredentialsReplaced(t, verb, h, key);
    if FirstMatch(t.path).Some? {
      ReplaceFirstPlacesKey(t.path, key);
    } else {
      assert ReplaceFirst(t.path, key) == t.path;
    }
  }

  /** Sending the proxy's own upstream request through it again changes nothing. */
  lemma PlanIdempotent(t: Target, verb: string, h: Headers, key: string)
    requires CapturableKey(key)
    ensures var o := PlanOutbound(t, verb, h, key);
      PlanOutbound(Target(o.hostname, o.port, o.path, o.scheme), verb, o.headers, key) == o
  {
    var o := PlanOutbound(t, verb, h, key);
    var gemini := IsGeminiHost(t.host);
    if gemini {
      MatchNeedsKeyEq(t.path);
      MatchNeedsKeyEq(o.path);
      ReplaceFirstIdempotent(t.path, key);
      assert o.path == ReplaceFirst(t.path, key);
      assert RewritePath(o.path, gemini, key) == o.path by {
        if !Contains(o.path, KeyEq) {
          assert FirstMatch(o.path).None?;
        }
      }
    }
    assert StripProxyHeaders(o.headers) == o.headers;
  }

  // ----- The reply and the log -----

  /** The error context `{ url, method }` given to `logError`. */
  function ErrorContext(url: string, verb: string): map<string, string> {
    map["url" := url, "method" := verb]
  }

  /**
   * The client's reply: 400 without a usable Host header, 502 when the
   * upstream request fails before an answer, 500 when the URL or the
   * dispatch throws; otherwise the upstream status and headers. An error
   * after the answer has started is logged, not answered.
   */
  function ReplyFor(res: Resolution, up: Upstream): (r: Reply)
    ensures r.Plain? && r.status == 400 <==> res.MissingHost?
    ensures r.Plain? && r.status == 502 <==> res.Resolved? && up.Refused?
    ensures r.Plain? && r.status == 500 <==> res.UrlThrew? || (res.Resolved? && up.DispatchThrew?)
    ensures r.Relayed? <==> res.Resolved? && up.Answered?
    ensures r.Relayed? ==> r.status == up.status && r.headers == up.headers
    ensures r == Plain(400, NoHostBody) || r.Relayed? || StartsWith(r.body, ErrorPrefix)
    ensures res.UrlThrew? ==> r == Plain(500, ErrorPrefix + InvalidUrl)
    ensures res.Resolved? && up.Refused? ==> r == Plain(502, ErrorPrefix + up.message)
    ensures res.Resolved? && up.DispatchThrew? ==> r == Plain(500, ErrorPrefix + up.message)
  {
    match res
    case MissingHost => Plain(400, NoHostBody)
    case UrlThrew => Plain(500, ErrorPrefix + InvalidUrl)
    case Resolved(_) =>
      match up
      case Answered(status, headers, _, _) => Relayed(status, headers)
      case Refused(m) => Plain(502, ErrorPrefix + m)
      case DispatchThrew(m) => Plain(500, ErrorPrefix + m)
  }

  /** The records the handler logs, in order. */
  function RequestLog(req: Inbound, res: Resolution, up: Upstream, key: string): seq<LogEvent> {
    match res
    case MissingHost => []
    case UrlThrew => [LogError(InvalidUrl, ErrorContext(req.url, req.verb))]
    case Resolved(t) =>
      var shown := HttpsPrefix + t.host + t.path;
      [LogRequest(req.verb, shown, Header(req.headers, ApiKeyHeader))]
      + SwapLog(t, req.headers, key)
      + UpstreamLog(req, shown, up)
  }

  /** The notes the handler logs while it edits a Gemini request. */
  function SwapLog(t: Target, inbound: Headers, key: string): seq<LogEvent> {
    var gemini := IsGeminiHost(t.host);
    var sent := Header(StripProxyHeaders(inbound), ApiKeyHeader);
    (if gemini && Truthy(sent) then [HeaderKeySwapped(Redact(sent.value), Redact(key))] else [])
    + (if gemini && Contains(t.path, KeyEq) then [QueryKeySwapped] else [])
  }

  function UpstreamLog(req: Inbound, shown: string, up: Upstream): seq<LogEvent> {
    match up
    case Answered(status, _, elapsed, late) =>
      [LogResponse(status, elapsed)]
      + (if late.Some? then [LogError(late.value, ErrorContext(shown, req.verb))] else [])
    case Refused(m) => [LogError(m, ErrorContext(shown, req.verb))]
    case DispatchThrew(m) => [LogError(m, ErrorContext(req.url, req.verb))]
  }

  predicate HasFailure(log: seq<LogEvent>) {
    exists i | 0 <= i < |log| :: log[i].Failure?
  }

  predicate HasResponse(log: seq<LogEvent>) {
    exists i | 0 <= i < |log| :: log[i].Response?
  }

  /** A log split in two has a failure, or a response, exactly when one of its parts has. */
  lemma EventsInParts(a: seq<LogEvent>, b: seq<LogEvent>)
    ensures HasFailure(a + b) <==> HasFailure(a) || HasFailure(b)
    ensures HasResponse(a + b) <==> HasResponse(a) || HasResponse(b)
  {
    var log := a + b;
    if HasFailure(a) {
      var i :| 0 <= i < |a| && a[i].Failure?;
      assert log[i] == a[i];
    }
    if HasResponse(a) {
      var i :| 0 <= i < |a| && a[i].Response?;
      assert log[i] == a[i];
    }
    if HasFailure(b) {
      var i :| 0 <= i < |b| && b[i].Failure?;
      assert log[|a| + i] == b[i];
    }
    if HasResponse(b) {
      var i :| 0 <= i < |b| && b[i].Response?;
      assert log[|a| + i] == b[i];
    }
    if HasFailure(log) {
      var i :| 0 <= i < |log| && log[i].Failure?;
      if i < |a| { assert a[i] == log[i]; } else { assert b[i - |a|] == log[i]; }
    }
    if HasResponse(log) {
      var i :| 0 <= i < |log| && log[i].Response?;
      if i < |a| { assert a[i] == log[i]; } else { assert b[i - |a|] == log[i]; }
    }
  }

  /** The request record and the swap notes are neither failures nor responses. */
  lemma PreambleQuiet(req: Inbound, t: Target, key: string)
    ensures var head := [LogRequest(req.verb, HttpsPrefix + t.host + t.path, Header(req.headers, ApiKeyHeader))]
                        + SwapLog(t, req.headers, key);
      !HasFailure(head) && !HasResponse(head)
  {
    var swaps := SwapLog(t, req.headers, key);
    var head := [LogRequest(req.verb, HttpsPrefix + t.host + t.path, Header(req.headers, ApiKeyHeader))] + swaps;
    assert forall e | e in swaps :: e.HeaderKeySwapped? || e.QueryKeySwapped?;
    forall i | 0 <= i < |head|
      ensures !head[i].Failure? && !head[i].Response?
    {
      if i > 0 {
        assert head[i] == swaps[i - 1];
      }
    }
  }

  /**
   * The upstream side logs a failure exactly when it did not answer or the
   * answer later failed, and a response exactly when it answered.
   */
  lemma UpstreamLogShows(req: Inbound, shown: string, up: Upstream)
    ensures HasFailure(UpstreamLog(req, shown, up)) <==> !up.Answered? || up.lateError.Some?
    ensures HasResponse(UpstreamLog(req, shown, up)) <==> up.Answered?
  {
    var tail := UpstreamLog(req, shown, up);
    match up
    case Answered(_, _, _, late) =>
      assert tail[0].Response?;
      if late.Some? {
        assert tail[1].Failure?;
      }
    case Refused(_) =>
      assert tail[0].Failure?;
    case DispatchThrew(_) =>
      assert tail[0].Failure?;
  }

  /**
   * The log agrees with the reply: an error is logged exactly when the
   * reply is a 5xx of the proxy's own or the relayed answer later failed,
   * a response is logged exactly when one is relayed, and a resolved
   * request is logged first, its header credential redacted and its URL as sent.
   */
  lemma LogMatchesReply(req: Inbound, res: Resolution, up: Upstream, key: string)
    ensures var log := RequestLog(req, res, up, key); var r := ReplyFor(res, up);
      && (HasFailure(log) <==> (r.Plain? && r.status >= 500) || (r.Relayed? && up.lateError.Some?))
      && (HasResponse(log) <==> r.Relayed?)
      && (res.Resolved? ==> log[0] == LogRequest(req.verb, HttpsPrefix + res.target.host + res.target.path,
                                                 Header(req.headers, ApiKeyHeader)))
  {
    match res
    case MissingHost =>
    case UrlThrew =>
      assert RequestLog(req, res, up, key)[0].Failure?;
    case Resolved(t) =>
      var shown := HttpsPrefix + t.host + t.path;
      var head := [LogRequest(req.verb, shown, Header(req.headers, ApiKeyHeader))] + SwapLog(t, req.headers, key);
      var tail := UpstreamLog(req, shown, up);
      assert RequestLog(req, res, up, key) == head + tail;
      EventsInParts(head, tail);
      PreambleQuiet(req, t, key);
      UpstreamLogShows(req, shown, up);
  }

  /**
   * Only the header credential is redacted in the log: the URL is logged as
   * the client sent it, so a credential in its query (the value the pattern
   * captures) appears in full in the request line and, when the upstream
   * request fails, in the error's context.
   */
  lemma LoggedUrlShowsQueryKey(req: Inbound, t: Target, up: Upstream, key: string, i: nat)
    requires FirstMatch(t.path) == Some(i)
    ensures var log := RequestLog(req, Resolved(t), up, key);
      && log[0].IncomingRequest? && Contains(log[0].url, Capture(t.path, i))
      && (up.Refused? ==>
            && log[|log| - 1] == LogError(up.message, ErrorContext(HttpsPrefix + t.host + t.path, req.verb))
            && Contains(log[|log| - 1].context["url"], Capture(t.path, i)))
  {
    var c := Capture(t.path, i);
    var shown := HttpsPrefix + t.host + t.path;
    var at := |HttpsPrefix| + |t.host| + i + 4;
    assert OccursAt(shown, c, at) by {
      assert shown[|HttpsPrefix| + |t.host|..] == t.path;
      assert shown[at..] == t.path[i + 4..];
      assert shown[at..][..|c|] == c;
    }
    var head := [LogRequest(req.verb, shown, Header(req.headers, ApiKeyHeader))] + SwapLog(t, req.headers, key);
    assert RequestLog(req, Resolved(t), up, key) == head + UpstreamLog(req, shown, up);
  }

  /** The handler's state: the configured key and the start time of every request in flight. */
  class ProxyServer {
    const apiKey: string
    var requestTimings: map<nat, nat>

    constructor(apiKey: string)
      ensures this.apiKey == apiKey && requestTimings == map[]
    {
      this.apiKey := apiKey;
      requestTimings := map[];
    }

    /**
     * Handles request `id`, arriving at time `now`, whose upstream side
     * behaves as `up`. Returns the request sent upstream (none when the
     * handler gives up first or `request` throws), the client's reply and the
     * log. The start time is recorded on arrival and removed only when the
     * upstream answers: requests that end in 400, 500 or 502 keep their entry.
     */
    method HandleRequest(id: nat, req: Inbound, now: nat, up: Upstream)
      returns (outbound: Option<Outbound>, reply: Reply, events: seq<LogEvent>)
      modifies this
      ensures var res := ResolveTarget(req.url, req.headers);
        outbound == (if res.Resolved? && !up.DispatchThrew?
                     then Some(PlanOutbound(res.target, req.verb, req.headers, apiKey)) else None)
      ensures reply == ReplyFor(ResolveTarget(req.url, req.headers), up)
      ensures events == RequestLog(req, ResolveTarget(req.url, req.headers), up, apiKey)
      ensures var res := ResolveTarget(req.url, req.headers);
        requestTimings == (if res.Resolved? && up.Answered?
                           then old(requestTimings) - {id} else old(requestTimings)[id := now])
    {
      var res := ResolveTarget(req.url, req.headers);
      Track(id, now, res.Resolved? && up.Answered?);
      outbound, reply, events := Respond(req, res, up);
    }

    /**
     * The start-time table: the entry for `id` is recorded on arrival and
     * removed once the response is `finished`.
     */
    method Track(id: nat, now: nat, finished: bool)
      modifies this
      ensures requestTimings == (if finished then old(requestTimings) - {id} else old(requestTimings)[id := now])
    {
      requestTimings := requestTimings[id := now];
      if finished {
        requestTimings := requestTimings - {id};
      }
    }

    /** What the handler sends upstream, answers and logs for a request resolved as `res`. */
    method Respond(req: Inbound, res: Resolution, up: Upstream)
      returns (outbound: Option<Outbound>, reply: Reply, events: seq<LogEvent>)
      ensures outbound == (if res.Resolved? && !up.DispatchThrew?
                           then Some(PlanOutbound(res.target, req.verb, req.headers, apiKey)) else None)
      ensures reply == ReplyFor(res, up)
      ensures events == RequestLog(req, res, up, apiKey)
    {
      if res.Resolved? {
        outbound, reply, events := Forward(req, res.target, up);
      } else {
        outbound := None;
        reply, events := Refuse(req, res, up);
      }
    }

    /**
     * The handler when no target could be resolved: 400 without a Host
     * header, and 500 with an error logged when `new URL` throws.
     */
    method Refuse(req: Inbound, res: Resolution, up: Upstream) returns (reply: Reply, events: seq<LogEvent>)
      requires !res.Resolved?
      ensures reply == ReplyFor(res, up)
      ensures events == RequestLog(req, res, up, apiKey)
    {
      if res.MissingHost? {
        reply, events := Plain(400, NoHostBody), [];
      } else {
        events := [LogError(InvalidUrl, ErrorContext(req.url, req.verb))];
        reply := Plain(500, ErrorPrefix + InvalidUrl);
      }
    }

    /**
     * The handler once the target is resolved: log the request, build and
     * edit the upstream request, dispatch it, and answer from what the
     * upstream side did.
     */
    method Forward(req: Inbound, t: Target, up: Upstream)
      returns (outbound: Option<Outbound>, reply: Reply, events: seq<LogEvent>)
      ensures outbound == (if up.DispatchThrew? then None else Some(PlanOutbound(t, req.verb, req.headers, apiKey)))
      ensures reply == ReplyFor(Resolved(t), up)
      ensures events == RequestLog(req, Resolved(t), up, apiKey)
    {
      var shown := HttpsPrefix + t.host + t.path;
      var options, swaps := Prepare(t, req.verb, req.headers);
      events := [LogRequest(req.verb, shown, Header(req.headers, ApiKeyHeader))] + swaps;
      outbound := if up.DispatchThrew? then None else Some(options.Snapshot());
      events := events + UpstreamLog(req, shown, up);
      reply := ReplyFor(Resolved(t), up);
    }

    /**
     * Builds the `options` object for a resolved target and edits it in
     * place: drops the proxy headers and, on the Gemini API, swaps the
     * credentials. The result is the planned upstream request.
     */
    method Prepare(t: Target, verb: string, inbound: Headers)
      returns (options: RequestOptions, swaps: seq<LogEvent>)
      ensures fresh(options)
      ensures options.Snapshot() == PlanOutbound(t, verb, inbound, apiKey)
      ensures swaps == SwapLog(t, inbound, apiKey)
    {
      options := new RequestOptions(t, verb, inbound);
      options.DeleteHeader(ProxyConnection);
      options.DeleteHeader(ProxyAuthorization);
      swaps := [];
      if IsGeminiHost(t.host) {
        if ApiKeyHeader in options.headers && options.headers[ApiKeyHeader] != "" {
          var oldKey := options.headers[ApiKeyHeader];
          options.SetHeader(ApiKeyHeader, apiKey);
          swaps := swaps + [HeaderKeySwapped(Redact(oldKey), Redact(apiKey))];
        }
        if Contains(t.path, KeyEq) {
          options.SetPath(ReplaceFirst(t.path, apiKey));
          swaps := swaps + [QueryKeySwapped];
        }
      }
    }
  }

  // ----- CONNECT tunnels -----

  /** What the CONNECT handler does to the two sockets, in order. */
  datatype SocketAction =
    | Dial(host: string, port: string)
    | WriteClient(text: string)
    | WriteUpstream(data: seq<bv8>)
    | Relay
    | EndClient
    | EndUpstream
    | Throw(message: string)

  /**
   * How the tunnel went: the upstream connection opened (after `elapsed`
   * milliseconds, the upstream or the client socket possibly failing later),
   * or it failed.
   */
  datatype Tunnel =
    | Connected(elapsed: nat, upstreamError: Option<string>, clientError: Option<string>)
    | DialFailed(message: string)

  datatype ConnectResult = ConnectResult(actions: seq<SocketAction>, events: seq<LogEvent>)

  /** The host and port a CONNECT target names, read as `https://` + target; `None` where `new URL` throws. */
  function ConnectTarget(target: string): (r: Option<(string, string)>)
    ensures r.Some? ==> r.value.0 != "" && r.value.1 != ""
  {
    match ParseUrl(HttpsPrefix + target)
    case None => None
    case Some(u) => Some((u.hostname, PortText(u)))
  }

  /** A CONNECT target `host` or `host:port` names that host, and that port or 443. */
  lemma ConnectTargetOf(host: string, port: Option<nat>)
    requires host != "" && NoneOf(host, AuthorityEnd + {':'})
    requires port.Some? ==> port.value <= MaxPort
    ensures ConnectTarget(host + PortSuffix(port))
      == Some((host, if port.Some? then NatToDecimal(port.value) else "443"))
  {
    var s := HttpsPrefix + (host + PortSuffix(port));
    assert s[|HttpsPrefix|..] == host + PortSuffix(port) + "" + "";
    assert StartsWith(s, HttpsPrefix);
    assert SkipSlashes(s[|HttpsPrefix|..]) == s[|HttpsPrefix|..] by {
      assert s[|HttpsPrefix|] == host[0] && host[0] !in AuthorityEnd + {':'};
    }
    ParseAfterSchemeParts(Https, host, port, "", "");
  }

  /**
   * The CONNECT handler: dial the target; once connected, answer the client
   * with `200 Connection Established`, forward the bytes already read, and
   * relay both ways. A failed dial ends the client socket without any 200; a
   * client failure ends the upstream socket. A target `new URL` rejects
   * throws out of the handler.
   */
  function HandleConnect(target: string, head: seq<bv8>, tunnel: Tunnel): (r: ConnectResult)
    ensures ConnectTarget(target).None? ==> r.actions == [Throw(InvalidUrl)] && r.events == []
    ensures ConnectTarget(target).Some? ==>
      var (h, p) := ConnectTarget(target).value;
      && |r.actions| >= 1 && r.actions[0] == Dial(h, p)
      && |r.events| >= 1 && r.events[0] == ConnectStarted(h + ":" + p)
      && (GeminiConnect in r.events <==> IsGeminiHost(h))
    ensures WriteClient(Established) in r.actions <==> ConnectTarget(target).Some? && tunnel.Connected?
    ensures ConnectTarget(target).Some? && tunnel.Connected? ==>
      |r.actions| >= 4 && r.actions[1..4] == [WriteClient(Established), WriteUpstream(head), Relay]
    ensures ConnectTarget(target).Some? && tunnel.DialFailed? ==> |r.actions| == 2 && r.actions[1] == EndClient
  {
    match ConnectTarget(target)
    case None => ConnectResult([Throw(InvalidUrl)], [])
    case Some((h, p)) => ConnectResult(TunnelActions(h, p, head, tunnel), TunnelLog(h, p, tunnel))
  }

  /** No socket action is an exception thrown out of the handler. */
  predicate NeverThrows(actions: seq<SocketAction>) {
    forall i | 0 <= i < |actions| :: !actions[i].Throw?
  }

  /**
   * A CONNECT target whose port is above 65535 makes `new URL` throw, and
   * the exception leaves the `connect` listener: nothing catches it, so it
   * ends the process instead of the one connection.
   */
  lemma BigPortConnectThrows(host: string, port: nat, head: seq<bv8>, tunnel: Tunnel)
    requires host != "" && NoneOf(host, AuthorityEnd + {':'})
    requires port > MaxPort
    ensures ConnectTarget(host + PortSuffix(Some(port))).None?
    ensures HandleConnect(host + PortSuffix(Some(port)), head, tunnel).actions == [Throw(InvalidUrl)]
    ensures !NeverThrows(HandleConnect(host + PortSuffix(Some(port)), head, tunnel).actions)
  {
    var target := host + PortSuffix(Some(port));
    var s := HttpsPrefix + target;
    assert StartsWith(s, HttpsPrefix) && s[|HttpsPrefix|..] == target;
    assert SkipSlashes(target) == target by {
      assert target[0] == host[0] && host[0] !in AuthorityEnd + {':'};
    }
    assert FirstOf(target, AuthorityEnd) == |target| by {
      assert target == host + PortSuffix(Some(port)) + "";
      AuthorityOfFormat(host, PortSuffix(Some(port)), "", Some(port));
    }
    assert target[..|target|] == target;
    HostWithBigPort(host, port);
    assert HandleConnect(target, head, tunnel).actions[0].Throw?;
  }

  /** `CONNECT example.com:99999` is such a target. */
  lemma ExampleBigPortConnectThrows(head: seq<bv8>, tunnel: Tunnel)
    ensures HandleConnect("example.com:99999", head, tunnel).actions == [Throw(InvalidUrl)]
  {
    var host := "example.com";
    assert host + PortSuffix(Some(99999)) == "example.com:99999" by {
      BigPortText();
    }
    BigPortConnectThrows(host, 99999, head, tunnel);
  }

  lemma BigPortText()
    ensures PortSuffix(Some(99999)) == ":99999"
  {
    assert NatToDecimal(9) == "9";
    assert NatToDecimal(99) == "99";
    assert NatToDecimal(999) == "999";
    assert NatToDecimal(9999) == "9999";
  }


  /**
   * The CONNECT handler with the target parsed inside the error handling:
   * a target `new URL` rejects is logged and the client socket ended, like
   * a failed dial; every other target is handled as before.
   */
  function HandleConnectGuarded(target: string, head: seq<bv8>, tunnel: Tunnel): (r: ConnectResult)
    ensures NeverThrows(r.actions)
    ensures ConnectTarget(target).Some? ==> r == HandleConnect(target, head, tunnel)
    ensures ConnectTarget(target).None? ==>
      && r.actions == [EndClient]
      && r.events == [LogError(InvalidUrl, map["context" := "CONNECT error", "target" := target])]
  {
    match ConnectTarget(target)
    case None => ConnectResult([EndClient], [LogError(InvalidUrl, map["context" := "CONNECT error", "target" := target])])
    case Some((h, p)) => ConnectResult(TunnelActions(h, p, head, tunnel), TunnelLog(h, p, tunnel))
  }

  /** The socket actions of a tunnel to `h:p`. */
  function TunnelActions(h: string, p: string, head: seq<bv8>, tunnel: Tunnel): (a: seq<SocketAction>)
    ensures |a| >= 2 && a[0] == Dial(h, p)
    ensures WriteClient(Established) in a <==> tunnel.Connected?
    ensures tunnel.Connected? ==> |a| >= 4 && a[1..4] == [WriteClient(Established), WriteUpstream(head), Relay]
    ensures tunnel.DialFailed? ==> a == [Dial(h, p), EndClient]
    ensures tunnel.Connected? ==> (EndClient in a <==> tunnel.upstreamError.Some?)
    ensures tunnel.Connected? ==> (EndUpstream in a <==> tunnel.clientError.Some?)
    ensures NeverThrows(a)
  {
    match tunnel
    case Connected(_, upstreamError, clientError) =>
      var a := [Dial(h, p), WriteClient(Established), WriteUpstream(head), Relay]
        + (if upstreamError.Some? then [EndClient] else [])
        + (if clientError.Some? then [EndUpstream] else []);
      assert a[1] == WriteClient(Established);
      a
    case DialFailed(_) =>
      [Dial(h, p), EndClient]
  }

  /** The log of a tunnel to `h:p`. */
  function TunnelLog(h: string, p: string, tunnel: Tunnel): (e: seq<LogEvent>)
    ensures |e| >= 1 && e[0] == ConnectStarted(h + ":" + p)
    ensures GeminiConnect in e <==> IsGeminiHost(h)
    ensures HasFailure(e) <==> tunnel.DialFailed? || tunnel.upstreamError.Some? || tunnel.clientError.Some?
    ensures tunnel.Connected? ==> ConnectEstablished(h + ":" + p, NatToDecimal(tunnel.elapsed) + "ms") in e
    ensures tunnel.DialFailed? ==> forall i | 0 <= i < |e| :: !e[i].ConnectEstablished?
  {
    var shown := h + ":" + p;
    var took := if tunnel.Connected? then NatToDecimal(tunnel.elapsed) + "ms" else "";
    var opening := [ConnectStarted(shown)] + (if IsGeminiHost(h) then [GeminiConnect] else []);
    var upstreamFailed :=
      if tunnel.Connected? && tunnel.upstreamError.Some? then
        [LogError(tunnel.upstreamError.value, map["context" := "CONNECT error", "target" := shown])]
      else [];
    var clientFailed :=
      if tunnel.Connected? && tunnel.clientError.Some? then
        [LogError(tunnel.clientError.value, map["context" := "Client socket error", "target" := shown])]
      else [];
    var closing :=
      if tunnel.Connected? then [ConnectEstablished(shown, took)] + upstreamFailed + clientFailed
      else [LogError(tunnel.message, map["context" := "CONNECT error", "target" := shown])];
    assert HasFailure(closing) <==> tunnel.DialFailed? || tunnel.upstreamError.Some? || tunnel.clientError.Some? by {
      if tunnel.Connected? {
        assert !HasFailure([ConnectEstablished(shown, took)]);
        assert upstreamFailed != [] ==> upstreamFailed[0].Failure?;
        assert clientFailed != [] ==> clientFailed[0].Failure?;
        EventsInParts([ConnectEstablished(shown, took)], upstreamFailed);
        EventsInParts([ConnectEstablished(shown, took)] + upstreamFailed, clientFailed);
      } else {
        assert closing[0].Failure?;
      }
    }
    assert !HasFailure(opening);
    EventsInParts(opening, closing);
    assert GeminiConnect !in closing;
    assert IsGeminiHost(h) ==> opening[1] == GeminiConnect;
    assert tunnel.Connected? ==> (opening + closing)[|opening|] == ConnectEstablished(shown, took);
    opening + closing
  }

  // ----- The smoke test -----

  /**
   * The repository's smoke test: an absolute-form GET of the Gemini model
   * list with a fake header key goes to port 443 over HTTPS with the
   * trusted key in its place, and everything else as the client sent it.
   */
  lemma SmokeTest(req: Inbound, key: string)
    requires req.verb == "GET"
    requires req.url == HttpsPrefix + GeminiHost + "/v1beta/models"
    requires Header(req.headers, ApiKeyHeader) == Some("fake_test_key_12345")
    ensures ResolveTarget(req.url, req.headers).Resolved?
    ensures var t := ResolveTarget(req.url, req.headers).target;
      PlanOutbound(t, req.verb, req.headers, key)
        == Outbound(GeminiHost, "443", "/v1beta/models", "GET",
                    StripProxyHeaders(req.headers)[ApiKeyHeader := key], Https)
  {
    SmokeTarget(req);
    SmokePlan(Target(GeminiHost, "443", "/v1beta/models", Https), req, key);
  }

  lemma SmokeTarget(req: Inbound)
    requires req.url == HttpsPrefix + GeminiHost + "/v1beta/models"
    ensures ResolveTarget(req.url, req.headers) == Resolved(Target(GeminiHost, "443", "/v1beta/models", Https))
  {
    var path := "/v1beta/models";
    var u := Url(Https, GeminiHost, None, path, "");
    assert WellFormed(u) by {
      assert NoneOf(path, PathEnd);
    }
    assert req.url == Format(u) by {
      assert Format(u) == HttpsPrefix + GeminiHost + "" + path + "";
    }
    AbsoluteFormTarget(u, req.headers);
    assert PortText(u) == "443" && u.pathname + u.search == path;
  }

  lemma SmokePlan(t: Target, req: Inbound, key: string)
    requires t == Target(GeminiHost, "443", "/v1beta/models", Https)
    requires req.verb == "GET"
    requires Header(req.headers, ApiKeyHeader) == Some("fake_test_key_12345")
    ensures PlanOutbound(t, req.verb, req.headers, key)
      == Outbound(GeminiHost, "443", "/v1beta/models", "GET",
                  StripProxyHeaders(req.headers)[ApiKeyHeader := key], Https)
  {
    EmbeddedHostIsGemini("", "");
    assert "" + GeminiHost + "" == GeminiHost;
    SmokePathHasNoKey(t.path);
    HeaderNamesDistinct();
    var h := StripProxyHeaders(req.headers);
    assert Header(h, ApiKeyHeader) == Some("fake_test_key_12345");
  }

  lemma SmokePathHasNoKey(path: string)
    requires path == "/v1beta/models"
    ensures !Contains(path, KeyEq)
  {
    assert |path| == 14;
    assert path[0] == '/' && path[1] == 'v' && path[2] == '1' && path[3] == 'b' && path[4] == 'e';
    assert path[5] == 't' && path[6] == 'a' && path[7] == '/' && path[8] == 'm' && path[9] == 'o';
    assert path[10] == 'd' && path[11] == 'e' && path[12] == 'l' && path[13] == 's';
    WithoutKChar(path);
  }
}
