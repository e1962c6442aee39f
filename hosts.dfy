/** Which requests are for the Gemini API, and the header that carries their credential. */
module Hosts {
  import opened Text

  /** The request header that names the host of an origin-form request. */
  const HostHeader: string := "host"

  /** The request header that carries a Gemini API key. */
  const ApiKeyHeader: string := "x-goog-api-key"

  /** The host whose requests have their credential replaced. */
  const GeminiHost: string := "generativelanguage.googleapis.com"

  /**
   * A host is treated as the Gemini API when it contains the Gemini host
   * name anywhere: a plain, case-sensitive substring test, not a match on
   * the whole name or on a domain suffix.
   */
  predicate IsGeminiHost(host: string) {
    Contains(host, GeminiHost)
  }

  /** A host name that only embeds the Gemini host name is classified as the Gemini API. */
  lemma LookalikeHostIsGemini(host: string)
    requires host == "evil-" + GeminiHost + ".attacker.example"
    ensures IsGeminiHost(host)
  {
    assert OccursAt(host, GeminiHost, 5);
  }

  /** A host containing the Gemini host name stays one whatever is put around it. */
  lemma EmbeddedHostIsGemini(before: string, after: string)
    ensures IsGeminiHost(before + GeminiHost + after)
  {
    var host := before + GeminiHost + after;
    assert host[|before|..|before| + |GeminiHost|] == GeminiHost;
    assert OccursAt(host, GeminiHost, |before|);
  }

  /** A host shorter than the Gemini host name is never classified as the Gemini API. */
  lemma ShortHostIsNotGemini(host: string)
    requires |host| < |GeminiHost|
    ensures !IsGeminiHost(host)
  {
  }
}
