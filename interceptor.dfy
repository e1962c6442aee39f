/**
 * The request interceptor class (src/interceptor.js): it edits an outgoing
 * request object and the incoming request it came from in place, putting
 * the configured key in the `x-goog-api-key` header and in the first `key=`
 * parameter of the URL, and tagging the request with its own user agent.
 */
module Interceptor {
  import opened Wrappers
  import opened Text
  import opened Urls
  import opened Hosts
  import opened KeyPattern
  import opened Logger

  /** `setHeader('User-Agent', …)` stores the header under its lower-case name. */
  const UserAgentHeader: string := "user-agent"
  const UserAgent: string := "Antigravity-Proxy/1.0"

  /** The outgoing request: headers by lower-case name, and the `host` option it was created with. */
  class ProxyRequest {
    var headers: map<string, string>
    const host: Option<string>

    constructor(headers: map<string, string>, host: Option<string>)
      ensures this.headers == headers && this.host == host
    {
      this.headers := headers;
      this.host := host;
    }

    /** `getHeader(name)`: `None` for a header that is not set. */
    function GetHeader(name: string): (v: Option<string>)
      reads this
      ensures v.Some? <==> name in headers
      ensures v.Some? ==> v.value == headers[name]
    {
      if name in headers then Some(headers[name]) else None
    }

    /** `setHeader(name, value)`. */
    method SetHeader(name: string, value: string)
      modifies this
      ensures headers == old(headers)[name := value]
    {
      headers := headers[name := value];
    }
  }

  /** The incoming request, whose URL the interceptor rewrites. */
  class IncomingRequest {
    var url: string
    const verb: string

    constructor(url: string, verb: string)
      ensures this.url == url && this.verb == verb
    {
      this.url := url;
      this.verb := verb;
    }
  }

  datatype KeySource = FromHeader | FromQuery

  /** Where the client's key was found, and the key. */
  datatype OriginalKey = OriginalKey(source: KeySource, key: string)

  class RequestInterceptor {
    const targetHost: string := GeminiHost
    const apiKey: string

    constructor(apiKey: string)
      ensures this.apiKey == apiKey
    {
      this.apiKey := apiKey;
    }

    /**
     * The host a request is for: the Host header when it is truthy,
     * otherwise the request's `host` option, otherwise nothing.
     */
    function HostOf(p: ProxyRequest): (h: string)
      reads p
      ensures Truthy(p.GetHeader(HostHeader)) ==> h == p.headers[HostHeader]
      ensures !Truthy(p.GetHeader(HostHeader)) && p.host.Some? ==> h == p.host.value
    {
      var header := p.GetHeader(HostHeader);
      if Truthy(header) then header.value else p.host.GetOr("")
    }

    /** `shouldIntercept`: the request's host contains the Gemini host name. */
    function ShouldIntercept(p: ProxyRequest): (r: bool)
      reads p
      ensures r <==> IsGeminiHost(HostOf(p))
      ensures r ==> HostOf(p) != ""
    {
      var host := HostOf(p);
      host != "" && Contains(host, targetHost)
    }

    /**
     * `extractOriginalKey`: a truthy `x-goog-api-key` header, else the value
     * of the first `key=` parameter of the URL, else nothing. A found key is
     * never empty.
     */
    function ExtractOriginalKey(p: ProxyRequest, req: IncomingRequest): (r: Option<OriginalKey>)
      reads p, req
      ensures r.Some? ==> r.value.key != ""
      ensures r.None? <==> !Truthy(p.GetHeader(ApiKeyHeader)) && FirstMatch(req.url).None?
      ensures Truthy(p.GetHeader(ApiKeyHeader)) ==> r == Some(OriginalKey(FromHeader, p.headers[ApiKeyHeader]))
      ensures !Truthy(p.GetHeader(ApiKeyHeader)) && FirstMatch(req.url).Some? ==>
        r == Some(OriginalKey(FromQuery, Capture(req.url, FirstMatch(req.url).value)))
    {
      var headerKey := p.GetHeader(ApiKeyHeader);
      if Truthy(headerKey) then
        Some(OriginalKey(FromHeader, headerKey.value))
      else if req.url != "" && Contains(req.url, KeyEq) then
        match FirstMatch(req.url)
        case Some(i) => Some(OriginalKey(FromQuery, Capture(req.url, i)))
        case None => None
      else
        MatchNeedsKeyEq(req.url);
        None
    }

    /** `replaceHeaderKey`: the header holds the configured key, whether or not it was set. */
    method ReplaceHeaderKey(p: ProxyRequest)
      modifies p
      ensures p.headers == old(p.headers)[ApiKeyHeader := apiKey]
    {
      p.SetHeader(ApiKeyHeader, apiKey);
    }

    /**
     * `replaceQueryKey`: the first credential in the URL becomes the
     * configured key; the result says whether the URL changed, which is
     * exactly when there was a credential other than the configured key.
     */
    method ReplaceQueryKey(req: IncomingRequest) returns (changed: bool)
      modifies req
      ensures req.url == ReplaceFirst(old(req.url), apiKey)
      ensures changed <==> req.url != old(req.url)
      ensures changed <==> FirstMatch(old(req.url)).Some? && Capture(old(req.url), FirstMatch(old(req.url)).value) != apiKey
    {
      ReplaceFirstUnchangedIff(req.url, apiKey);
      if req.url != "" && Contains(req.url, KeyEq) {
        var originalUrl := req.url;
        req.url := ReplaceFirst(req.url, apiKey);
        changed := originalUrl != req.url;
      } else {
        MatchNeedsKeyEq(req.url);
        changed := false;
      }
    }

    /**
     * `intercept`: a request for another host is left alone. A Gemini
     * request is logged with its original key, gets the configured key in
     * its header and its first URL credential and the proxy's user agent,
     * and a replacement is logged when the header was truthy or the URL
     * changed.
     */
    method Intercept(p: ProxyRequest, req: IncomingRequest) returns (events: seq<LogEvent>)
      modifies p, req
      ensures !old(ShouldIntercept(p)) ==> p.headers == old(p.headers) && req.url == old(req.url) && events == []
      ensures old(ShouldIntercept(p)) ==>
        && p.headers == old(p.headers)[ApiKeyHeader := apiKey][UserAgentHeader := UserAgent]
        && req.url == ReplaceFirst(old(req.url), apiKey)
      ensures old(ShouldIntercept(p)) ==>
        var original := old(ExtractOriginalKey(p, req));
        var oldKey := if original.Some? then Some(original.value.key) else None;
        var replaced := Truthy(old(p.GetHeader(ApiKeyHeader))) || req.url != old(req.url);
        && events == [LogRequest(req.verb, HttpsPrefix + targetHost + old(req.url), oldKey)]
                     + (if replaced then [LogKeyReplacement(oldKey, apiKey)] else [])
        && (replaced ==> events[1].oldKey != NoKey)
    {
      if !ShouldIntercept(p) {
        events := [];
        return;
      }
      var originalKey := ExtractOriginalKey(p, req);
      var oldKey := if originalKey.Some? then Some(originalKey.value.key) else None;
      events := [LogRequest(req.verb, HttpsPrefix + targetHost + req.url, oldKey)];
      var hadHeaderKey := p.GetHeader(ApiKeyHeader);
      ReplaceHeaderKey(p);
      var hadQueryKey := ReplaceQueryKey(req);
      if Truthy(hadHeaderKey) || hadQueryKey {
        events := events + [LogKeyReplacement(oldKey, apiKey)];
      }
      p.SetHeader(UserAgentHeader, UserAgent);
    }
  }
}
