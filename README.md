# Antigravity proxy: credential substitution, modelled in Dafny

The Antigravity proxy is a forward HTTP proxy. It sits between a client and
the Gemini API (`generativelanguage.googleapis.com`) and replaces the client's
API key with the key it was configured with. There are three implementations
of the same idea. This project models each of them, together with the
configuration loader and the logging helpers they use:

- **Node.js request handler** (`src/server.js`). It resolves the upstream
  target from an absolute-form or origin-form request-target. It strips the
  `proxy-connection` and `proxy-authorization` headers. On the Gemini API it
  replaces a truthy `x-goog-api-key` header and the *first* `key=` credential
  of the path. It then relays the answer or replies 400, 502 or 500. It keeps
  a map of request start times, and it opens a CONNECT tunnel in a fixed
  order of socket writes.
- **`RequestInterceptor` class** (`src/interceptor.js`). This second variant
  edits request objects in place. It always sets the header, also rewrites
  only the first URL credential, adds its own `User-Agent`, and reports
  whether the URL changed.
- **mitmproxy add-on** (`mitmproxy-addon.py`). It replaces a header that is
  present at all, even an empty one. Its `re.sub` replaces *every* `key=`
  credential of the URL. It counts intercepted requests and replaced keys,
  and serves those counters as Prometheus metrics.
- **Configuration** (`src/config.js`). The key must be set and must not be
  the placeholder, otherwise the process exits with status 1. Every other
  setting has a default.
- **Logging** (`src/logger.js`). Keys are redacted to their first 15
  characters followed by `***`. A response status is classified by success,
  emoji and level.

The modules follow the program:

| file | module |
|---|---|
| `wrappers.dfy` | `Option` |
| `text.dfy` | JavaScript string helpers (`includes`, `startsWith`, `split`, `substring`, `parseInt`, decimal rendering) |
| `keypattern.dfy` | the regular expression `key=([^&]+)`, JavaScript's first-match replacement and Python's all-match replacement |
| `urls.dfy` | the part of WHATWG URL parsing the proxy reads |
| `hosts.dfy` | the header names shared by all variants, and the Gemini host test |
| `config.dfy` | `src/config.js` |
| `logger.dfy` | `src/logger.js` |
| `server.dfy` | `src/server.js` |
| `interceptor.dfy` | `src/interceptor.js` |
| `addon.dfy` | `mitmproxy-addon.py` |

The handler's `options` object, the interceptor's request objects and the
add-on's `stats` dictionary and flow are classes whose methods update them in
place. Each such method states the new state as a function of the old one,
and the lemmas beside those functions prove what the source promises.

## Model

| member | source | states |
|---|---|---|
| Config.OrDefault | src/config.js:33-42 | definition of `v \|\| d`: a set, non-empty value is kept, an unset or empty one gives the default |
| Config.ValidateConfig | src/config.js:13-18 | no error exactly when the key is set, non-empty and not `your_api_key_here`; otherwise the single missing-key message |
| Config.Load | src/config.js:20-50 | the process exits with status 1 and the missing-key error exactly when the key is unusable; an exported configuration carries the environment's key unchanged, which is then neither empty nor the placeholder |
| Config.DefaultsApply | src/config.js:33-42 | with only the key set, the target URL is the Gemini API, the port is 8080, the level `info`, and the Antigravity path its default |
| Config.ExplicitPort | src/config.js:36 | a decimal `PROXY_PORT` is parsed back to that port |
| Config.PaddedPort | src/config.js:36 | a `PROXY_PORT` of white space followed by a decimal port, or `+` followed by one, is read as that port |
| Config.PlaceholderIsCaseSensitive | src/config.js:16 | the placeholder test is case-sensitive: `YOUR_API_KEY_HERE` passes validation and is exported as the key |
| Text.Contains | src/server.js:77 | definition of `includes`: some position holds the text; characterised by `KeyPattern.MatchNeedsKeyEq` and `Hosts.EmbeddedHostIsGemini` |
| Text.StartsWith | src/server.js:27 | definition of `startsWith`: the text begins with the prefix; characterised by `Urls.ParseUrlOfPrefix` |
| Text.Prefix | src/logger.js:60 | `substring(0, n)`: at most `n` characters, a prefix of the text, and the whole text when it is no longer than `n` |
| Text.Truthy | src/server.js:70 | definition of JavaScript truthiness for an optional header value: present and not empty |
| Text.NatToDecimal | src/logger.js:77 | the template-literal rendering of a number: at least one character, all decimal digits, no leading zero; `Text.DecimalRoundTrip` proves it denotes the number |
| Text.ParseIntOfDecimal | src/config.js:36 | `parseInt` reads back the decimal rendering of a number whatever non-digit text follows it |
| Text.ReadDigits | src/config.js:36 | the digit reader fails exactly on text that does not start with a digit |
| Text.ParseInt | src/config.js:36 | text starting with a digit is read by the digit reader; empty text, or text starting with anything but white space, a sign or a digit, is `NaN`; a negative result needs a `-` |
| Text.ParseIntSkipsBlanks | src/config.js:36 | leading ECMAScript white space does not change what `parseInt` reads |
| Text.ParseIntOfSigned | src/config.js:36 | `+` or `-` before a decimal number, followed by a non-digit or nothing, reads as that number or its negation |
| Text.DecimalRoundTrip | src/logger.js:77 | the decimal rendering of a number denotes that number |
| Text.LeadingDigitsOfDigits | src/config.js:36 | `parseInt` stops at the first non-digit after a digit string |
| Text.SplitHead | src/server.js:42 | `split(':')[0]` is a prefix of the text, contains no `:`, and is followed by a `:` when it is not the whole text |
| Text.SplitSecond | src/server.js:43 | `split(':')[1]` exists exactly when the text has a `:`; it lies between the first `:` and the next `:` or the end, and holds no `:` |
| Text.SplitWithout | src/server.js:42-43 | a `Host` value without `:` is all host, with no port text |
| Text.SplitAround | src/server.js:42-43 | `host:port` with no other `:` splits into exactly that host and that port |
| Text.SplitAroundMore | src/server.js:42-43 | `a:b:more` with `:`-free `a` and `b` splits into exactly `a` and `b`, whatever follows the second `:` |
| Text.FirstOfIs | src/server.js:42 | the first stop character is at the index its characterisation names |
| Logger.Redact | src/logger.js:60 | a redacted key is at most 18 characters, is the key's first 15 characters followed by `***`, and a key of at most 15 characters appears whole |
| Logger.RedactOptional | src/logger.js:60 | an absent or empty key is logged as `none` and only such a key is; any other key is redacted |
| Logger.RedactionSeesOnlyPrefix | src/logger.js:60 | two keys that share their first 15 characters are logged identically |
| Logger.LogRequest | src/logger.js:56-62 | the request record keeps method and URL and carries the redacted original key, or `none` |
| Logger.LogKeyReplacement | src/logger.js:64-69 | the old key is redacted or `none`; the new key is always redacted |
| Logger.LogResponse | src/logger.js:71-80 | `success` and the check-mark emoji hold exactly for 2xx; the level is `warn` exactly from 400 up, else `info`; the duration is the number followed by `ms` and parses back to that number |
| Logger.LogError | src/logger.js:82-88 | definition of the error record: it carries the message and exactly the given context |
| Logger.LogStartup | src/logger.js:90-94 | the listening address is `http://localhost:` followed by text that parses back to the port; the key is redacted |
| Urls.PortText | src/server.js:30 | `url.port \|\| default`: an explicit port parses back to itself, otherwise 443 for https and 80 for http |
| Urls.ParseUrl | src/server.js:28-31 | a parsed URL starts with its scheme's prefix, has a non-empty host without `:`, `/`, `?` or `#`, a path starting with `/`, and a port of at most 65535; text with neither prefix does not parse |
| Urls.HostPort | src/server.js:28-29 | the host is a non-empty prefix of the authority without `:`; a port is at most 65535 |
| Urls.PathSearch | src/server.js:31 | the path name starts with `/` and the search is empty or starts with `?` |
| Urls.ParseFormat | src/server.js:28-31 | parsing the text of a well-formed URL gives back that URL (for the splitter described under Left out) |
| Urls.ParseUrlOfPrefix | src/server.js:27-28 | text starting with `http://` or `https://` is parsed as that scheme from the text after the prefix, once any further `/` are skipped |
| Urls.SkipSlashes | src/server.js:28 | the authority starts after the longest run of `/` following the scheme prefix: what is skipped is all `/`, and what remains is a suffix not starting with `/` |
| Urls.ExtraSlashesSkipped | src/server.js:28 | any number of extra `/` after `scheme://` parses to the same well-formed URL, so `https:///x` names host `x` |
| Urls.ParseAfterSchemeParts | src/server.js:133 | host, optional port, path and search written after `scheme://` are read back part by part, an empty path as `/` |
| Urls.AuthorityOfFormat | src/server.js:28-29 | the authority of a formatted URL reads back as its host and port |
| Urls.HostOfFormat | src/server.js:29 | the host of a formatted URL reads back unchanged |
| Urls.HostWithPort | src/server.js:29-30 | `host:port` reads back as that host and that port |
| Urls.HostWithBigPort | src/server.js:28-30 | `host:port` with a port above 65535 does not parse, as `new URL` rejects it |
| Urls.PathOfFormat | src/server.js:31 | the path and search of a formatted URL read back unchanged |
| Hosts.IsGeminiHost | src/server.js:52 | definition of the Gemini gate, `includes` of the Gemini host name (also the `in pretty_host` test of the add-on at mitmproxy-addon.py:88); characterised by `Hosts.EmbeddedHostIsGemini`, `Hosts.LookalikeHostIsGemini` and `Hosts.ShortHostIsNotGemini` |
| Hosts.LookalikeHostIsGemini | src/server.js:52 | `evil-generativelanguage.googleapis.com.attacker.example` passes the Gemini gate |
| Hosts.EmbeddedHostIsGemini | src/server.js:52 | any host embedding the Gemini host name passes the gate, whatever surrounds it |
| Hosts.ShortHostIsNotGemini | src/server.js:52 | a host shorter than the Gemini host name never passes the gate |
| KeyPattern.MatchAt | src/server.js:78 | definition of a match of `key=([^&]+)` at an index: `key=` followed by a character other than `&`; characterised by `KeyPattern.MatchNeedsKeyEq` and `KeyPattern.MatchDependsOnPrefix` |
| KeyPattern.FirstMatch | src/interceptor.js:33 | definition of the unanchored search (`match`, and `re.search` at mitmproxy-addon.py:111) from the start of the text; characterised by `KeyPattern.FirstMatchFrom` and `KeyPattern.FirstMatchIs` |
| KeyPattern.ReplaceFirst | src/server.js:78 | definition of the non-global `replace` (also src/interceptor.js:55): the leftmost match becomes `key=` and the key; characterised by `KeyPattern.ReplaceFirstFills`, `KeyPattern.ReplaceFirstPlacesKey` and `KeyPattern.ReplaceFirstUnchangedIff` |
| KeyPattern.ReplaceAll | mitmproxy-addon.py:115-117 | definition of `re.sub` over every non-overlapping match, scanning left to right; characterised by `KeyPattern.ReplaceAllInPlace`, `KeyPattern.ReplaceAllFills` and `KeyPattern.ReplaceAllCapturesKey` |
| KeyPattern.ValueEnd | src/server.js:78 | the greedy `[^&]+` stops at the first `&` or at the end, and holds no `&` |
| KeyPattern.FirstMatchFrom | src/server.js:78 | the search finds the leftmost match at or after the start, and finds none exactly when there is none |
| KeyPattern.MatchEnd | src/server.js:78 | a match is followed by `&` or by the end of the text |
| KeyPattern.Capture | src/interceptor.js:33-35 | a capture is non-empty, holds no `&`, and is followed by the rest of the text after the match |
| KeyPattern.FirstMatchIs | src/server.js:78 | a match with no match before it is the one the search finds |
| KeyPattern.MatchDependsOnPrefix | src/server.js:78 | whether the pattern matches at an index depends only on the five characters from there |
| KeyPattern.ValueEndIs | src/server.js:78 | a value free of `&` followed by `&` or the end is consumed whole by `[^&]+` |
| KeyPattern.Splice | src/server.js:78 | writing `key=` and a capturable value where the leftmost `key=` stood, followed by `&` or nothing, gives a text whose leftmost match is at the same place and captures exactly that value |
| KeyPattern.ReplaceFirstUnchangedIff | src/interceptor.js:55-56 | the first-match rewrite leaves the text unchanged exactly when there is no match or the leftmost capture already is the key |
| KeyPattern.ReplaceFirstPlacesKey | src/server.js:77-78 | after the rewrite, the leftmost match is where it was and captures the trusted key, and every character before and after it is kept |
| KeyPattern.ReplaceFirstIdempotent | src/server.js:78 | rewriting an already rewritten path changes nothing |
| KeyPattern.ReplaceAllKeepsAfterMatch | mitmproxy-addon.py:115-117 | rewriting text that is empty or starts with `&` gives text that is empty or starts with `&` |
| KeyPattern.ScanStep | mitmproxy-addon.py:115-117 | the all-match rewrite replaces the leftmost capture and continues after it |
| KeyPattern.ReplaceAllUnchangedIff | mitmproxy-addon.py:115-117 | `re.sub` leaves the URL unchanged exactly when every credential in it already is the key |
| KeyPattern.UnchangedStep | mitmproxy-addon.py:115-117 | an unchanged rewrite means the leftmost capture is the key and the rest is unchanged |
| KeyPattern.ChangedStep | mitmproxy-addon.py:115-117 | a changed rewrite means the leftmost capture differs from the key or the rest changed |
| KeyPattern.ReplaceAllCapturesKey | mitmproxy-addon.py:115-117 | after `re.sub` every credential in the URL is the trusted key |
| KeyPattern.ReplaceAllIdempotent | mitmproxy-addon.py:115-117 | `re.sub` on its own output changes nothing |
| KeyPattern.FirstAndAllAgreeIff | src/server.js:78 | the JavaScript and Python rewrites give the same text exactly when there is no match or every credential after the first already is the key |
| KeyPattern.FirstAndAllAgree | mitmproxy-addon.py:115-117 | with at most one credential the two rewrites agree |
| KeyPattern.LeadingMatch | src/server.js:78 | a `key=` with no earlier match, followed by a capturable value and then `&` or the end, is the leftmost match and captures that value |
| KeyPattern.FirstOnlyExample | src/server.js:78 | `/v1/x?key=AAA&other=1&key=BBB` becomes `/v1/x?key=<key>&other=1&key=BBB` |
| KeyPattern.EmptyKeySkippedExample | src/server.js:78 | in `?key=&key=B` the empty value is skipped and `B` is rewritten |
| KeyPattern.UnanchoredExample | src/server.js:78 | the pattern is unanchored: the `key=` inside `apikey=` is rewritten |
| KeyPattern.TwoValuesExample | mitmproxy-addon.py:111-117 | for any text with two credentials `a?key=v&key=w`, `re.sub` replaces both while the JavaScript rewrite keeps the second |
| KeyPattern.SingleMatchRewritten | mitmproxy-addon.py:115-117 | a single credential after any text without a match is replaced by the key, and that text is kept |
| KeyPattern.Pieces | mitmproxy-addon.py:115-117 | a text splits into one more gap than it has credential values |
| KeyPattern.PiecesOf | mitmproxy-addon.py:115-117 | every text is its gaps and credential values put back together, and they are exactly what the left-to-right scan finds |
| KeyPattern.PiecesOfFill | mitmproxy-addon.py:115-117 | gaps and values that the scan would find are recovered from the text they make up, so the split is unique |
| KeyPattern.ReplaceAllFills | mitmproxy-addon.py:115-117 | `re.sub` keeps every gap and puts the key in place of every credential value |
| KeyPattern.ReplaceFirstFills | src/server.js:78 | the JavaScript rewrite keeps every gap, puts the key in place of the first credential value and keeps all the others |
| KeyPattern.ReplaceAllInPlace | mitmproxy-addon.py:115-117 | the all-match rewrite of any text is that text with each credential value replaced by the key in place, and nothing else changed |
| KeyPattern.MatchNeedsKeyEq | src/server.js:77 | a text without `key=` has no match, so the `includes('key=')` guard never hides a credential |
| KeyPattern.WithoutKChar | src/server.js:77 | a text without the letter `k` holds no `key=` |
| Server.HeaderNamesDistinct | src/server.js:64-72 | definition check: the API key header is neither of the two stripped proxy headers |
| Server.ResolveTarget | src/server.js:27-46 | an absolute-form URL that does not parse throws; an origin-form request without a truthy `Host` header is refused, and only such a request is; an absolute-form target has the URL's host, port or default port, path and search, and scheme; an origin-form target has the request-target as its path, HTTPS, the text of `Host` before its first `:` as its host, and as its port the text between the first and second `:` when that is non-empty, else 443 |
| Server.AbsoluteFormTarget | src/server.js:27-32 | a well-formed absolute URL resolves to its own host, its port or 443 for https and 80 for http, and its path and search |
| Server.OriginFormTarget | src/server.js:35-45 | with `Host: host[:port]` the target is that host, that port or 443, the raw request-target, and HTTPS |
| Server.OriginPort | src/server.js:43 | `split(':')[1] \|\| 443`: a non-empty second field is the port, a missing or empty one gives 443; the port is never empty and holds no `:` |
| Server.OriginFormTargetMoreColons | src/server.js:42-45 | with `Host: host:port:more` the target is that host and that port (or 443 when it is empty); the text after the second `:` is dropped |
| Server.RequestOptions.constructor | src/server.js:55-61 | the options object starts with the target's host, port, path and scheme, the client's method and a copy of its headers |
| Server.RequestOptions.DeleteHeader | src/server.js:64-65 | `delete options.headers[name]` removes exactly that header |
| Server.RequestOptions.SetHeader | src/server.js:72 | the header is set and nothing else changes |
| Server.RequestOptions.SetPath | src/server.js:78 | the path is replaced and nothing else changes |
| Server.StripProxyHeaders | src/server.js:63-65 | definition of the two `delete`s: the headers without `proxy-connection` and `proxy-authorization` |
| Server.RewriteHeaders | src/server.js:70-72 | definition of the header swap: on the Gemini API a truthy `x-goog-api-key` becomes the trusted key |
| Server.RewritePath | src/server.js:77-78 | definition of the path swap: on the Gemini API a path containing `key=` gets the first-match rewrite |
| Server.PlanOutbound | src/server.js:55-81 | definition of the upstream request the handler builds; characterised by `Server.PlanKeepsAllButCredentials`, `Server.NonGeminiVerbatim`, `Server.GeminiCredentialsReplaced` and `Server.PlanIdempotent`, and matched by `Server.ProxyServer.Prepare` |
| Server.PlanKeepsAllButCredentials | src/server.js:55-65 | the upstream request goes to the resolved host, port and scheme with the client's method; the two proxy headers are dropped; every other header but the key header is forwarded unchanged; the key header is forwarded exactly when the client sent one |
| Server.NonGeminiVerbatim | src/server.js:60-68 | a request to another host is forwarded exactly as it came, minus the two proxy headers |
| Server.GeminiCredentialsReplaced | src/server.js:68-78 | on the Gemini API a truthy key header becomes the trusted key, an empty one is forwarded empty, and the path gets the first-match rewrite |
| Server.FirstCredentialIsTrusted | src/server.js:70-78 | with a capturable trusted key, the Gemini API sees only the trusted key (or an empty header) in the header and in the first `key=` of the path |
| Server.PlanIdempotent | src/server.js:60-80 | sending the proxy's own upstream request through it again changes nothing |
| Server.ReplyFor | src/server.js:36-123 | 400 exactly without a usable `Host`; 502 exactly when the upstream request fails before an answer, with body `Proxy Error: ` and the error's message; 500 exactly when the URL or the dispatch throws, with body `Proxy Error: ` and `Invalid URL` or the thrown message; otherwise the upstream status and headers are relayed |
| Server.ErrorContext | src/server.js:101-104 | definition of the `{ url, method }` context the handler passes to `logError` |
| Server.SwapLog | src/server.js:68-80 | definition of the key-swap notes: one for a replaced header key, one for a rewritten path; matched by `Server.ProxyServer.Prepare` |
| Server.UpstreamLog | src/server.js:84-110 | definition of what the upstream side logs: the response, then a late error, or the error alone; characterised by `Server.UpstreamLogShows` |
| Server.RequestLog | src/server.js:49-123 | definition of the handler's whole log for one request; characterised by `Server.LogMatchesReply`, `Server.PreambleQuiet` and `Server.LoggedUrlShowsQueryKey` |
| Server.UpstreamLogShows | src/server.js:84-110 | the upstream side logs an error exactly when there was no answer or the answer later failed, and a response exactly when it answered |
| Server.PreambleQuiet | src/server.js:49-79 | the request record and the key-swap notes logged before dispatch are neither errors nor responses |
| Server.LogMatchesReply | src/server.js:49-123 | an error is logged exactly when the reply is a 5xx of the proxy's own or a relayed answer later fails; a response is logged exactly when one is relayed; a resolved request is logged first, with its header key redacted and its URL as the client sent it |
| Server.LoggedUrlShowsQueryKey | src/server.js:49-104 | the logged request URL holds the client's first `key=` value unredacted, and so does the `url` context of a later upstream error |
| Server.ProxyServer.constructor | src/server.js:10 | the server starts with no request timings |
| Server.ProxyServer.HandleRequest | src/server.js:13-126 | the upstream request is the planned one, and none exists when the handler gives up or the dispatch throws; the reply and log are as specified; the start time is recorded on arrival and removed only when the upstream answers, so requests ending in 400, 500 or 502 keep their entry |
| Server.ProxyServer.Track | src/server.js:14-87 | the request's start time is recorded, and removed once the upstream has answered; no other entry changes |
| Server.ProxyServer.Respond | src/server.js:25-125 | the upstream request, the reply and the log are the planned ones for the resolution and what the upstream side did |
| Server.ProxyServer.Refuse | src/server.js:36-124 | an unresolved request gets the 400 or 500 reply and the matching log, with no upstream request |
| Server.ProxyServer.Forward | src/server.js:48-113 | for a resolved target, the upstream request is the planned one unless the dispatch throws, and the reply and log are those the handler specifies for what the upstream side did |
| Server.ProxyServer.Prepare | src/server.js:55-81 | editing the fresh options object in place yields exactly the planned upstream request, and the swap notes for what was replaced |
| Server.ConnectTarget | src/server.js:133-135 | a CONNECT target, read as `https://` plus the target, names a non-empty host and port |
| Server.ConnectTargetOf | src/server.js:133-134 | `host` or `host:port` names that host, and that port or 443 |
| Server.HandleConnect | src/server.js:129-177 | a target that does not parse throws before anything is logged; otherwise the first socket action is the dial and the first log record names the target, and the Gemini API is noted exactly for Gemini hosts; `200 Connection Established` is written exactly when the dial succeeds, followed by `head` upstream and then the relay; a failed dial ends the client socket |
| Server.TunnelActions | src/server.js:148-176 | the dial comes first; after a successful dial the client gets the 200 before `head` goes upstream; the client socket is ended exactly when the dial or the upstream socket fails, the upstream socket exactly when the client socket fails; nothing throws |
| Server.TunnelLog | src/server.js:138-174 | the target is logged first, the Gemini note appears exactly for Gemini hosts, the established record carries the tunnel's duration in `ms` exactly when the dial succeeds, and an error is logged exactly when the dial, the upstream socket or the client socket fails |
| Server.BigPortConnectThrows | src/server.js:133 | a CONNECT target `host:port` with a port above 65535 makes `new URL` throw out of the listener, before anything is logged |
| Server.ExampleBigPortConnectThrows | src/server.js:133 | `CONNECT example.com:99999` throws out of the listener |
| Server.HandleConnectGuarded | src/server.js:129-177 | the corrected handler never throws: a target that does not parse is logged as a CONNECT error and the client socket ended; any other target is handled exactly as before |
| Server.SmokeTest | src/test.js:9-30 | the smoke-test GET of `https://generativelanguage.googleapis.com/v1beta/models` goes to port 443 over HTTPS with `fake_test_key_12345` replaced by the trusted key and every other header as sent |
| Server.SmokeTarget | src/test.js:25-30 | the smoke-test URL resolves to the Gemini host, port 443, `/v1beta/models` and HTTPS |
| Server.SmokePlan | src/test.js:9-17 | the smoke-test request's header key is replaced and its path is kept |
| Server.SmokePathHasNoKey | src/test.js:12 | the smoke-test path holds no `key=` |
| Interceptor.ProxyRequest.GetHeader | src/interceptor.js:26 | definition of the header lookup: a header is present exactly when it is set, with its stored value |
| Interceptor.ProxyRequest.SetHeader | src/interceptor.js:46 | the header is set and no other header changes |
| Interceptor.RequestInterceptor.HostOf | src/interceptor.js:17 | definition of the host choice: a truthy `host` header wins, otherwise the request's `host` option |
| Interceptor.RequestInterceptor.ShouldIntercept | src/interceptor.js:16-19 | a request is intercepted exactly when its host is non-empty and contains the Gemini host name |
| Interceptor.RequestInterceptor.ExtractOriginalKey | src/interceptor.js:24-40 | a truthy header key, else the first `key=` capture of the URL, else nothing; nothing exactly when neither exists, and a found key is never empty |
| Interceptor.RequestInterceptor.ReplaceHeaderKey | src/interceptor.js:45-47 | the header holds the configured key whether or not one was sent |
| Interceptor.RequestInterceptor.ReplaceQueryKey | src/interceptor.js:52-59 | the URL gets the first-match rewrite; the result is true exactly when the URL changed, which is exactly when its first credential differed from the configured key |
| Interceptor.RequestInterceptor.Intercept | src/interceptor.js:64-87 | another host's request is untouched and nothing is logged; a Gemini request gets the configured key in its header and first URL credential plus the proxy's user agent; the request is logged with its URL as sent and its original key redacted, and a replacement is logged exactly when a truthy header existed or the URL changed |
| Addon.ResolveApiKey | mitmproxy-addon.py:29-38 | definition of the key source: the Secret Manager secret when a project is set, else `GEMINI_API_KEY` when set, else `YOUR_API_KEY_HERE` |
| Addon.Stats.constructor | mitmproxy-addon.py:41-44 | both counters start at zero |
| Addon.AntigravityInterceptor.Request | mitmproxy-addon.py:84-121 | another host's flow and the counters are untouched; a Gemini flow adds one request; a present header, even an empty one, becomes the key and counts one; a URL with a credential has every credential replaced and counts one; the original key is the header's value, or the first capture when that value is absent or empty; the counters keep `keys ≤ 2·requests` |
| Addon.AntigravityInterceptor.Response | mitmproxy-addon.py:131-154 | reads but does not change the counters; reports only Gemini flows, whether the status was 200, and the current counters |
| Addon.AddonUrlCarriesOnlyConfiguredKey | mitmproxy-addon.py:110-118 | a rewritten URL carries only the configured key in every credential, and a second pass changes nothing |
| Addon.MetricsBodyAsWritten | mitmproxy-addon.py:50-53 | the body as written holds no line break at all |
| Addon.AsWrittenBodyIsOneLine | mitmproxy-addon.py:51-52 | the body as written is one line whose first line is not the first sample |
| Addon.MetricsBody | mitmproxy-addon.py:50-53 | the corrected body is not empty and ends with a line break |
| Addon.ReadSample | mitmproxy-addon.py:51 | a sample line followed by a line break reads back as that line, and its value parses back |
| Addon.MetricsBodyReadsBack | mitmproxy-addon.py:50-53 | the corrected body is two lines giving back the request counter and then the key counter |
| Addon.DoGet | mitmproxy-addon.py:48-60 | 200 exactly for `/metrics`, with the exposition content type and the body as written, which holds no line break; 404 with no content type and no body anywhere else |
| Addon.DoGetCorrected | mitmproxy-addon.py:48-60 | the corrected handler answers with the same status and content type; at `/metrics` it serves the two-line body, which differs from the one served as written, and elsewhere it is the handler as written |

## Left out

- Socket I/O: `req.pipe`, `proxyRes.pipe` and the CONNECT relay are not modelled. Dialing with `net.connect` and `http(s).request` is a parameter (`Upstream`, `Tunnel`) saying what the network did. The tunnel records the order of its socket actions, not the bytes relayed.
- Server.TunnelActions: when both the upstream and the client socket fail, the model ends the client socket first; the source does not fix the order of the two `error` events.
- `Date.now()` is a parameter (`now`, `elapsed`); durations are plain naturals.
- Server lifecycle: `server.listen`, the server `error` handler, `process.exit` and the SIGINT/SIGTERM handlers are process plumbing and are not modelled.
- `res.headersSent`: once the upstream answer is being relayed a later error is logged but not answered, and before it nothing has been sent. Partial writes in between are not modelled.
- Logging sinks: winston transports, chalk colours, the log files and the console lines are not modelled. Each helper yields the record it would log.
- Logger.Redact: `substring(0, 15)` counts UTF-16 code units, while a Dafny string counts Unicode scalar values. For a key with characters outside the Basic Multilingual Plane the source logs fewer characters and may split a surrogate pair; the model keeps the first 15 scalar values whole.
- Logger.LogError: the `stack` field of the error record is not modelled, because a stack trace depends on the runtime.
- Configuration loading: `dotenv`, `load_dotenv`, `rootDir` and `logsDir` are not modelled. The environment is a record of optional strings. The Secret Manager lookup is not modelled; the secret's text is a parameter of `Addon.ResolveApiKey`.
- Urls.ParseUrl: a simplified splitter for `http(s)://host[:port]path[?search][#fragment]`. It skips any further `/` after the scheme prefix, as the WHATWG parser does for special schemes. It does not do percent-encoding, IDNA, host lowercasing, user-info, IPv6 literals, backslashes, tab or newline removal, or whitespace trimming. It does not remove dot segments: `https://h/a/../b` keeps the path `/a/../b`, where `new URL` gives `/b`. It does not reject forbidden host code points: `https://a^b/` parses here, where `new URL` throws and the handler answers 500. It does not parse IPv4 numbers: the host `0x7f.1` stays as written, where `new URL` gives `127.0.0.1`. It rejects a port above 65535 and an empty host, as the WHATWG parser does. An explicit port equal to the scheme's default is kept rather than reported as empty; both give the same port text.
- Text.ParseInt: integers are unbounded, so the loss of precision of `parseInt` above 2^53 is not modelled. Leading ECMAScript white space, a sign and the digits are; with radix 10 there is no `0x` prefix to model.
- Config.Load: a negative or out-of-range `PROXY_PORT` is exported as read, as in the source; whether `server.listen` accepts it is not modelled.
- Regular-expression replacement text is taken literally. The JavaScript `$&` and `$1` and the Python `\1` expansions are not modelled, so a configured key containing them is out of scope. The idempotence lemmas require a capturable key (non-empty, no `&`).
- Headers are a map from lower-case names to single values. Node.js's name lowercasing, array-valued duplicate headers and mitmproxy's case-insensitive multi-dict are not modelled.
- The add-on's body previews, error previews and statistics prints are output only and are not modelled. `Addon.AntigravityInterceptor.Response` returns the summary it would print.
- The metrics server's thread and TCP listener (`start_metrics_server`) are not modelled; `Addon.DoGet` is its request handler.
- Addon.DoGet: serves the body as written, one line with literal backslashes; `Addon.DoGetCorrected` is the handler with real line breaks (see Findings).
- The `RequestInterceptor` class is not called by the server. It is modelled on its own, with `apiKey` given to its constructor rather than read from the configuration module.
- `main.py` (a Flask page) and `examples/*.c` (post-quantum crypto wrappers) are unrelated to the proxy and are not part of this model.
- Keys and host names are compared as given, case-sensitively, with no Unicode normalisation.

## Findings

| source | as written | input that shows it | evidently intended | confidence | as-written member | corrected member |
|---|---|---|---|---|---|---|
| mitmproxy-addon.py:51-52 | each sample ends with `\\n` inside an f-string, which is a backslash followed by the letter `n`, so the metrics body is one line | any counters, e.g. 0 requests and 0 keys, give `antigravity_requests_intercepted 0\nantigravity_keys_replaced 0\n` with literal backslashes and no line break | one sample per line, each ended by a real line break, as the Prometheus exposition format requires | high, not executed | Addon.AsWrittenBodyIsOneLine | Addon.MetricsBodyReadsBack |
| src/server.js:129-135 | the CONNECT target is parsed with `new URL` outside any `try`, inside the `connect` listener | `CONNECT example.com:99999 HTTP/1.1`: the port is above 65535, so `new URL("https://example.com:99999")` throws; the exception leaves the listener and ends the process | log the bad target and end that client's socket, as the request handler's `catch` does for its own URL errors | medium, not executed | Server.BigPortConnectThrows | Server.HandleConnectGuarded |
