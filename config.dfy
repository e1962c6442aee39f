/**
 * The proxy's configuration (src/config.js): environment values with
 * defaults, and the start-up validation that refuses a missing or
 * placeholder Gemini API key with exit status 1.
 */
module Config {
  import opened Wrappers
  import opened Text

  /** The environment variables the configuration reads; `None` is an unset variable. */
  datatype Env = Env(
    geminiApiKey: Option<string>,     // GEMINI_API_KEY
    targetApiUrl: Option<string>,     // TARGET_API_URL
    proxyPort: Option<string>,        // PROXY_PORT
    logLevel: Option<string>,         // LOG_LEVEL
    antigravityPath: Option<string>)  // ANTIGRAVITY_PATH

  /** The exported configuration. `proxyPort` is `None` where `parseInt` gives `NaN`. */
  datatype ProxyConfig = ProxyConfig(
    geminiApiKey: string,
    targetApiUrl: string,
    proxyPort: Option<int>,
    logLevel: string,
    antigravityPath: string)

  /** What loading the configuration module does: exit the process, or export the configuration. */
  datatype Startup = Exited(status: int, errors: seq<string>) | Loaded(config: ProxyConfig)

  const Placeholder: string := "your_api_key_here"
  const MissingKeyError: string := "GEMINI_API_KEY is not configured. Please set it in .env file"
  const DefaultTargetApiUrl: string := "https://generativelanguage.googleapis.com"
  const DefaultProxyPort: string := "8080"
  const DefaultLogLevel: string := "info"
  const DefaultAntigravityPath: string := "/Applications/Antigravity.app/Contents/MacOS/Antigravity"

  /** JavaScript `v || d` on an environment value. */
  function OrDefault(v: Option<string>, d: string): (r: string)
    ensures Truthy(v) ==> r == v.value
    ensures !Truthy(v) ==> r == d
  {
    if Truthy(v) then v.value else d
  }

  /** A key the proxy accepts: set, not empty, and not literally the placeholder. */
  predicate UsableKey(v: Option<string>) {
    Truthy(v) && v.value != Placeholder
  }

  /** The errors `validateConfig` collects before deciding whether to exit. */
  function ValidateConfig(env: Env): (errors: seq<string>)
    ensures errors == [] <==> UsableKey(env.geminiApiKey)
    ensures errors != [] ==> errors == [MissingKeyError]
  {
    var errors := [];
    if !Truthy(env.geminiApiKey) || env.geminiApiKey.value == Placeholder then
      errors + [MissingKeyError]
    else
      errors
  }

  /**
   * Loading the module: the configuration record of defaulting expressions,
   * then validation, which exits with status 1 before anything is exported.
   */
  function Load(env: Env): (r: Startup)
    ensures r.Exited? <==> !UsableKey(env.geminiApiKey)
    ensures r.Exited? ==> r.status == 1 && r.errors == [MissingKeyError]
    ensures r.Loaded? ==> r.config.geminiApiKey == env.geminiApiKey.value
    ensures r.Loaded? ==> r.config.geminiApiKey != "" && r.config.geminiApiKey != Placeholder
  {
    var errors := ValidateConfig(env);
    if errors != [] then
      Exited(1, errors)
    else
      Loaded(ProxyConfig(
        env.geminiApiKey.value,
        OrDefault(env.targetApiUrl, DefaultTargetApiUrl),
        ParseInt(OrDefault(env.proxyPort, DefaultProxyPort)),
        OrDefault(env.logLevel, DefaultLogLevel),
        OrDefault(env.antigravityPath, DefaultAntigravityPath)))
  }

  /** With only the key set, every other setting takes its default; the port is 8080. */
  lemma DefaultsApply(env: Env)
    requires UsableKey(env.geminiApiKey)
    requires !Truthy(env.targetApiUrl) && !Truthy(env.proxyPort)
    requires !Truthy(env.logLevel) && !Truthy(env.antigravityPath)
    ensures Load(env) == Loaded(ProxyConfig(
      env.geminiApiKey.value,
      "https://generativelanguage.googleapis.com",
      Some(8080),
      "info",
      DefaultAntigravityPath))
  {
    assert NatToDecimal(8080) == DefaultProxyPort by {
      assert NatToDecimal(8) == "8";
      assert NatToDecimal(80) == "80";
      assert NatToDecimal(808) == "808";
    }
    ParseIntOfDecimal(8080, "");
    assert DefaultProxyPort + "" == DefaultProxyPort;
  }

  /** A port given in the environment in decimal is the port the proxy listens on. */
  lemma ExplicitPort(env: Env, port: nat)
    requires env.proxyPort == Some(NatToDecimal(port))
    requires UsableKey(env.geminiApiKey)
    ensures Load(env).Loaded? && Load(env).config.proxyPort == Some(port)
  {
    ParseIntOfDecimal(port, "");
    assert NatToDecimal(port) + "" == NatToDecimal(port);
  }

  /**
   * `parseInt` tolerates white space and a sign before the port digits:
   * ` 8080` and `+8080` both give port 8080.
   */
  lemma PaddedPort(env: Env, blanks: string, port: nat)
    requires forall i | 0 <= i < |blanks| :: IsBlank(blanks[i])
    requires env.proxyPort == Some(blanks + NatToDecimal(port)) || env.proxyPort == Some("+" + NatToDecimal(port))
    requires UsableKey(env.geminiApiKey)
    ensures Load(env).Loaded? && Load(env).config.proxyPort == Some(port)
  {
    assert NatToDecimal(port) + "" == NatToDecimal(port);
    assert Truthy(env.proxyPort);
    if env.proxyPort == Some(blanks + NatToDecimal(port)) {
      ParseIntSkipsBlanks(blanks, NatToDecimal(port));
      ParseIntOfDecimal(port, "");
    } else {
      ParseIntOfSigned('+', port, "");
      assert ['+'] + NatToDecimal(port) + "" == "+" + NatToDecimal(port);
    }
  }

  /** The placeholder test is case-sensitive: an upper-case placeholder passes validation. */
  lemma PlaceholderIsCaseSensitive(env: Env)
    requires env.geminiApiKey == Some("YOUR_API_KEY_HERE")
    ensures ValidateConfig(env) == []
    ensures Load(env).Loaded? && Load(env).config.geminiApiKey == "YOUR_API_KEY_HERE"
  {
    assert "YOUR_API_KEY_HERE"[0] != Placeholder[0];
  }
}
