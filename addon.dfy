/**
 * The mitmproxy add-on (mitmproxy-addon.py): the same credential swap as
 * the Node.js proxy, but every `key=` parameter of the URL is replaced and
 * a present header is replaced even when it is empty; two counters, a
 * response summary, and a Prometheus metrics endpoint.
 */
module Addon {
  import opened Wrappers
  import opened Text
  import opened Hosts
  import opened KeyPattern

  /** The key used when neither Secret Manager nor the environment gives one. */
  const PlaceholderKey: string := "YOUR_API_KEY_HERE"
  const MetricsPath: string := "/metrics"
  const MetricsContentType: string := "text/plain; version=0.4"
  const RequestsMetric: string := "antigravity_requests_intercepted"
  const KeysMetric: string := "antigravity_keys_replaced"

  /**
   * `YOUR_API_KEY`: the `gemini-api-key` secret when `GCP_PROJECT_ID` is
   * truthy (the secret's text is a parameter), otherwise `GEMINI_API_KEY`
   * if it is set at all, otherwise the placeholder.
   */
  function ResolveApiKey(gcpProjectId: Option<string>, secret: string, envKey: Option<string>): (k: string)
    ensures Truthy(gcpProjectId) ==> k == secret
    ensures !Truthy(gcpProjectId) && envKey.Some? ==> k == envKey.value
    ensures !Truthy(gcpProjectId) && envKey.None? ==> k == PlaceholderKey
  {
    if Truthy(gcpProjectId) then secret else envKey.GetOr(PlaceholderKey)
  }

  /** The module-level `stats` dictionary. */
  class Stats {
    var requestsIntercepted: nat
    var keysReplaced: nat

    constructor()
      ensures requestsIntercepted == 0 && keysReplaced == 0
    {
      requestsIntercepted := 0;
      keysReplaced := 0;
    }

    /** Each intercepted request replaces at most two keys: one in the header, one in the URL. */
    predicate Valid()
      reads this
    {
      keysReplaced <= 2 * requestsIntercepted
    }
  }

  /** The request side of a mitmproxy flow: host, method, headers and URL. */
  class FlowRequest {
    const prettyHost: string
    const verb: string
    var headers: map<string, string>
    var url: string

    constructor(prettyHost: string, verb: string, headers: map<string, string>, url: string)
      ensures this.prettyHost == prettyHost && this.verb == verb
      ensures this.headers == headers && this.url == url
    {
      this.prettyHost := prettyHost;
      this.verb := verb;
      this.headers := headers;
      this.url := url;
    }
  }

  /** What `response` prints: whether the status was 200, and the two counters. */
  datatype ResponseSummary = ResponseSummary(ok: bool, requests: nat, keys: nat)

  class AntigravityInterceptor {
    const apiKey: string
    const stats: Stats

    constructor(apiKey: string, stats: Stats)
      ensures this.apiKey == apiKey && this.stats == stats
    {
      this.apiKey := apiKey;
      this.stats := stats;
    }

    /**
     * `request`: a flow for another host is left alone. A Gemini flow is
     * counted; a present `x-goog-api-key` header (even an empty one) is
     * replaced and counted; when the URL has a credential every `key=`
     * parameter is replaced and counted once. The reported original key is
     * the header's value, or the first URL credential when that value is
     * absent or empty.
     */
    method Request(flow: FlowRequest) returns (originalKey: Option<string>)
      requires stats.Valid()
      modifies stats, flow
      ensures stats.Valid()
      ensures !IsGeminiHost(flow.prettyHost) ==>
        && stats.requestsIntercepted == old(stats.requestsIntercepted)
        && stats.keysReplaced == old(stats.keysReplaced)
        && flow.headers == old(flow.headers) && flow.url == old(flow.url)
        && originalKey == None
      ensures IsGeminiHost(flow.prettyHost) ==>
        var hadHeader := ApiKeyHeader in old(flow.headers);
        var hadQuery := FirstMatch(old(flow.url)).Some?;
        && stats.requestsIntercepted == old(stats.requestsIntercepted) + 1
        && stats.keysReplaced == old(stats.keysReplaced) + (if hadHeader then 1 else 0) + (if hadQuery then 1 else 0)
        && flow.headers == (if hadHeader then old(flow.headers)[ApiKeyHeader := apiKey] else old(flow.headers))
        && flow.url == ReplaceAll(old(flow.url), apiKey)
        && originalKey == (if hadQuery && !Truthy(if hadHeader then Some(old(flow.headers)[ApiKeyHeader]) else None)
                           then Some(Capture(old(flow.url), FirstMatch(old(flow.url)).value))
                           else if hadHeader then Some(old(flow.headers)[ApiKeyHeader]) else None)
    {
      if !Contains(flow.prettyHost, GeminiHost) {
        return None;
      }
      stats.requestsIntercepted := stats.requestsIntercepted + 1;
      originalKey := None;
      if ApiKeyHeader in flow.headers {
        originalKey := Some(flow.headers[ApiKeyHeader]);
        flow.headers := flow.headers[ApiKeyHeader := apiKey];
        stats.keysReplaced := stats.keysReplaced + 1;
      }
      MatchNeedsKeyEq(flow.url);
      if Contains(flow.url, KeyEq) {
        var found := FirstMatch(flow.url);
        if found.Some? {
          if !Truthy(originalKey) {
            originalKey := Some(Capture(flow.url, found.value));
          }
          flow.url := ReplaceAll(flow.url, apiKey);
          stats.keysReplaced := stats.keysReplaced + 1;
        }
      }
    }

    /** `response`: for a Gemini flow, whether the status was 200 and the current counters. */
    function Response(prettyHost: string, statusCode: int): (r: Option<ResponseSummary>)
      reads stats
      ensures r.Some? <==> IsGeminiHost(prettyHost)
      ensures r.Some? ==> (r.value.ok <==> statusCode == 200)
      ensures r.Some? ==> r.value.requests == stats.requestsIntercepted && r.value.keys == stats.keysReplaced
    {
      if !Contains(prettyHost, GeminiHost) then None
      else Some(ResponseSummary(statusCode == 200, stats.requestsIntercepted, stats.keysReplaced))
    }
  }

  /**
   * A Gemini request that left the add-on carries only the configured key
   * in its URL, and sending it through again changes the URL no further.
   */
  lemma AddonUrlCarriesOnlyConfiguredKey(url: string, key: string)
    requires CapturableKey(key)
    ensures AllCapturesAre(ReplaceAll(url, key), key)
    ensures ReplaceAll(ReplaceAll(url, key), key) == ReplaceAll(url, key)
  {
    ReplaceAllCapturesKey(url, key);
    ReplaceAllIdempotent(url, key);
  }

  // ----- The metrics endpoint -----

  /** One exposition-format sample line, without its line break. */
  function Sample(name: string, value: nat): string {
    name + " " + NatToDecimal(value)
  }

  /**
   * The metrics body as the source builds it: the f-strings write `\\n`,
   * so each "line break" is a backslash followed by the letter `n`.
   */
  function MetricsBodyAsWritten(requests: nat, keys: nat): (body: string)
    ensures '\n' !in body
  {
    Sample(RequestsMetric, requests) + "\\n" + Sample(KeysMetric, keys) + "\\n"
  }

  /** The body the exposition format needs: one sample per line, each ended by a line break. */
  function MetricsBody(requests: nat, keys: nat): (body: string)
    ensures |body| > 0 && body[|body| - 1] == '\n'
  {
    Sample(RequestsMetric, requests) + "\n" + Sample(KeysMetric, keys) + "\n"
  }

  /**
   * The as-written body is a single line: its first line is not the first
   * sample but both samples run together, so it does not read back.
   */
  lemma AsWrittenBodyIsOneLine(requests: nat, keys: nat)
    ensures var body := MetricsBodyAsWritten(requests, keys);
      && SplitHead(body, '\n') == body
      && SplitHead(body, '\n') != Sample(RequestsMetric, requests)
  {
    var body := MetricsBodyAsWritten(requests, keys);
    FirstOfIs(body, {'\n'}, |body|);
  }

  /** A sample line followed by a line break reads back as that line, whose value parses to the sample's value. */
  lemma ReadSample(name: string, value: nat, rest: string)
    requires '\n' !in name
    ensures var text := Sample(name, value) + "\n" + rest;
      && SplitHead(text, '\n') == Sample(name, value)
      && text[|Sample(name, value)| + 1..] == rest
      && ParseInt(Sample(name, value)[|name| + 1..]) == Some(value)
  {
    var line := Sample(name, value);
    var text := line + "\n" + rest;
    var d := NatToDecimal(value);
    assert forall m :: 0 <= m < |d| ==> line[|name| + 1 + m] == d[m];
    assert SplitHead(text, '\n') == line by {
      assert forall m :: 0 <= m < |line| ==> text[m] !in {'\n'} by {
        forall m | 0 <= m < |line|
          ensures text[m] !in {'\n'}
        {
          assert text[m] == line[m];
          if m > |name| {
            assert IsDigit(d[m - |name| - 1]);
          }
        }
      }
      FirstOfIs(text, {'\n'}, |line|);
    }
    assert text[|line| + 1..] == rest;
    assert ParseInt(line[|name| + 1..]) == Some(value) by {
      assert line[|name| + 1..] == d + "";
      ParseIntOfDecimal(value, "");
    }
  }

  /** The corrected body is two lines that give back both counters. */
  lemma MetricsBodyReadsBack(requests: nat, keys: nat)
    ensures var body := MetricsBody(requests, keys);
      var first := SplitHead(body, '\n');
      var second := SplitHead(body[|first| + 1..], '\n');
      && first == Sample(RequestsMetric, requests)
      && second == Sample(KeysMetric, keys)
      && ParseInt(first[|RequestsMetric| + 1..]) == Some(requests)
      && ParseInt(second[|KeysMetric| + 1..]) == Some(keys)
  {
    assert '\n' !in RequestsMetric && '\n' !in KeysMetric;
    var rest := Sample(KeysMetric, keys) + "\n";
    assert MetricsBody(requests, keys) == Sample(RequestsMetric, requests) + "\n" + rest;
    ReadSample(RequestsMetric, requests, rest);
    ReadSample(KeysMetric, keys, "");
    assert rest == Sample(KeysMetric, keys) + "\n" + "";
  }

  /** A reply of the metrics server. */
  datatype MetricsReply = MetricsReply(status: int, contentType: Option<string>, body: string)

  /**
   * `do_GET` as written: the counters at `/metrics`, 404 with no body
   * anywhere else. The body is the as-written one, a single line.
   */
  function DoGet(path: string, stats: Stats): (r: MetricsReply)
    reads stats
    ensures r.status == 200 <==> path == MetricsPath
    ensures r.status == 200 ==>
      && r.contentType == Some(MetricsContentType)
      && r.body == MetricsBodyAsWritten(stats.requestsIntercepted, stats.keysReplaced)
      && '\n' !in r.body
    ensures r.status != 200 ==> r.status == 404 && r.contentType == None && r.body == ""
  {
    if path == MetricsPath then
      MetricsReply(200, Some(MetricsContentType), MetricsBodyAsWritten(stats.requestsIntercepted, stats.keysReplaced))
    else
      MetricsReply(404, None, "")
  }

  /**
   * `do_GET` with real line breaks: the same status and content type as
   * `DoGet`, and at `/metrics` a body that reads back as the two counters.
   */
  function DoGetCorrected(path: string, stats: Stats): (r: MetricsReply)
    reads stats
    ensures r.status == DoGet(path, stats).status && r.contentType == DoGet(path, stats).contentType
    ensures r.status != 200 ==> r == DoGet(path, stats)
    ensures r.status == 200 ==>
      && r.body == MetricsBody(stats.requestsIntercepted, stats.keysReplaced)
      && r.body != DoGet(path, stats).body
  {
    if path == MetricsPath then
      var body := MetricsBody(stats.requestsIntercepted, stats.keysReplaced);
      assert '\n' in body;
      MetricsReply(200, Some(MetricsContentType), body)
    else
      MetricsReply(404, None, "")
  }
}
