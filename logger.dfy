/**
 * The structured records the proxy hands to its logger (src/logger.js):
 * credential redaction to a 15-character prefix plus `***`, and the
 * classification of a response status. Transports, colours and the log
 * directory are not modelled; each helper yields the record it would log.
 */
module Logger {
  import opened Wrappers
  import opened Text

  const RedactedLength: nat := 15
  const Mask: string := "***"
  const NoKey: string := "none"
  const ListenPrefix: string := "http://localhost:"

  datatype Level = Info | Warn | Error

  datatype Emoji = Check | Cross

  /** One record handed to the logger. */
  datatype LogEvent =
      /** logRequest */
    | IncomingRequest(httpMethod: string, url: string, originalKey: string)
      /** logKeyReplacement */
    | KeyReplacement(oldKey: string, newKey: string)
      /** logResponse */
    | Response(level: Level, emoji: Emoji, statusCode: int, duration: string, success: bool)
      /** logError, with the context fields it is given */
    | Failure(message: string, context: map<string, string>)
      /** logStartup: the listening address and the redacted key */
    | Startup(listening: string, apiKey: string)
      /** the server's own one-line notes: header key swapped, query key swapped, CONNECT */
    | HeaderKeySwapped(oldKey: string, newKey: string)
    | QueryKeySwapped
    | ConnectStarted(target: string)
    | GeminiConnect
    | ConnectEstablished(target: string, duration: string)

  /** `${key.substring(0, 15)}***`: never more than 15 characters of the key. */
  function Redact(key: string): (r: string)
    ensures |r| <= RedactedLength + |Mask|
    ensures r == Prefix(key, RedactedLength) + Mask
    ensures r[..|r| - |Mask|] <= key && r[|r| - |Mask|..] == Mask
    ensures |key| <= RedactedLength ==> r == key + Mask
  {
    Prefix(key, RedactedLength) + Mask
  }

  /** `key ? redact(key) : 'none'`: an absent or empty key is logged as `none`. */
  function RedactOptional(key: Option<string>): (r: string)
    ensures r == NoKey <==> (key.None? || key.value == "")
    ensures key.Some? && key.value != "" ==> r == Redact(key.value)
  {
    if key.Some? && key.value != "" then Redact(key.value) else NoKey
  }

  /** logRequest(method, url, originalKey). */
  function LogRequest(httpMethod: string, url: string, originalKey: Option<string>): (e: LogEvent)
    ensures e.IncomingRequest? && e.httpMethod == httpMethod && e.url == url
    ensures e.originalKey == RedactOptional(originalKey)
  {
    IncomingRequest(httpMethod, url, RedactOptional(originalKey))
  }

  /** logKeyReplacement(oldKey, newKey): the new key is always redacted, the old one may be `none`. */
  function LogKeyReplacement(oldKey: Option<string>, newKey: string): (e: LogEvent)
    ensures e.KeyReplacement?
    ensures e.oldKey == RedactOptional(oldKey) && e.newKey == Redact(newKey)
  {
    KeyReplacement(RedactOptional(oldKey), Redact(newKey))
  }

  /** logResponse(statusCode, duration). */
  function LogResponse(statusCode: int, duration: nat): (e: LogEvent)
    ensures e.Response? && e.statusCode == statusCode
    ensures e.success <==> 200 <= statusCode < 300
    ensures e.emoji == Check <==> e.success
    ensures e.level == Warn <==> statusCode >= 400
    ensures e.level == Warn || e.level == Info
    ensures |e.duration| > 2 && e.duration[|e.duration| - 2..] == "ms"
    ensures ParseInt(e.duration) == Some(duration)
  {
    var ok := statusCode >= 200 && statusCode < 300;
    var text := NatToDecimal(duration) + "ms";
    ParseIntOfDecimal(duration, "ms");
    Response(
      if statusCode >= 400 then Warn else Info,
      if ok then Check else Cross,
      statusCode,
      text,
      ok)
  }

  /** logError(error, context). */
  function LogError(message: string, context: map<string, string>): (e: LogEvent)
    ensures e.Failure? && e.message == message && e.context == context
  {
    Failure(message, context)
  }

  /** logStartup(port, apiKey): the address the proxy listens on and the redacted key. */
  function LogStartup(port: nat, apiKey: string): (e: LogEvent)
    ensures e.Startup? && e.apiKey == Redact(apiKey)
    ensures StartsWith(e.listening, ListenPrefix)
    ensures ParseInt(e.listening[|ListenPrefix|..]) == Some(port)
  {
    var listening := ListenPrefix + NatToDecimal(port);
    ParseIntOfDecimal(port, "");
    assert listening[|ListenPrefix|..] == NatToDecimal(port) + "";
    Startup(listening, Redact(apiKey))
  }

  /** Two keys that share their first 15 characters are logged identically. */
  lemma RedactionSeesOnlyPrefix(a: string, b: string)
    requires |a| >= RedactedLength && |b| >= RedactedLength
    requires a[..RedactedLength] == b[..RedactedLength]
    ensures Redact(a) == Redact(b)
  {
  }
}
