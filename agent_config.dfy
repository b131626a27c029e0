/**
 * The agent's settings (internal/agent/config.go): six variables with
 * defaults, two durations that must parse, and a TLS server name derived
 * from the server address when it is not given.
 *
 * `time.ParseDuration`, `os.Hostname` and `net.SplitHostPort` are not part
 * of this model; they are parameters: `parseDuration` maps a string to
 * nanoseconds or an error, `hostname` is the host name or the lookup's
 * error, and `splitHost` maps an address to its host part when it splits.
 */
module AgentConfig {
  import opened Wrappers
  import opened Env

  // ---------------------------------------------------------------------------
  // strings.TrimSpace

  /** `unicode.IsSpace`. */
  predicate IsSpace(c: char) {
    c == '\t' || c == '\n' || c == '\U{000B}' || c == '\U{000C}' || c == '\r' || c == ' ' ||
    c == '\U{0085}' || c == '\U{00A0}' || c == '\U{1680}' || ('\U{2000}' <= c <= '\U{200A}') ||
    c == '\U{2028}' || c == '\U{2029}' || c == '\U{202F}' || c == '\U{205F}' || c == '\U{3000}'
  }

  /** The first position at or after `i` that does not hold white space (or the end). */
  function SkipSpaces(s: string, i: nat): (r: nat)
    requires i <= |s|
    ensures i <= r <= |s| && (r == |s| || !IsSpace(s[r]))
    ensures forall k :: i <= k < r ==> IsSpace(s[k])
    decreases |s| - i
  {
    if i < |s| && IsSpace(s[i]) then SkipSpaces(s, i + 1) else i
  }

  /** The position after the last character in `s[lo..j]` that is not white space (or `lo`). */
  function SkipSpacesBack(s: string, lo: nat, j: nat): (r: nat)
    requires lo <= j <= |s|
    ensures lo <= r <= j && (r == lo || !IsSpace(s[r - 1]))
    ensures forall k :: r <= k < j ==> IsSpace(s[k])
    decreases j - lo
  {
    if j > lo && IsSpace(s[j - 1]) then SkipSpacesBack(s, lo, j - 1) else j
  }

  /** Where the text of `s` starts once leading white space is skipped. */
  function TextStart(s: string): (i: nat)
    ensures i <= |s|
  {
    SkipSpaces(s, 0)
  }

  /** Where the text of `s` ends once trailing white space is dropped. */
  function TextEnd(s: string): (j: nat)
    ensures TextStart(s) <= j <= |s|
  {
    SkipSpacesBack(s, TextStart(s), |s|)
  }

  /**
   * `strings.TrimSpace`: the infix of `s` after its leading and before its
   * trailing white space; it neither starts nor ends with white space, only
   * white space is cut off around it, and it is empty exactly when `s` is
   * all white space.
   */
  function TrimSpace(s: string): (r: string)
    ensures r == s[TextStart(s)..TextEnd(s)]
    ensures r == [] || (!IsSpace(r[0]) && !IsSpace(r[|r| - 1]))
    ensures forall k :: 0 <= k < TextStart(s) ==> IsSpace(s[k])
    ensures forall k :: TextEnd(s) <= k < |s| ==> IsSpace(s[k])
    ensures r == [] <==> forall k :: 0 <= k < |s| ==> IsSpace(s[k])
  {
    s[TextStart(s)..TextEnd(s)]
  }

  // ---------------------------------------------------------------------------
  // hostFromAddr

  /** What `net.SplitHostPort` guarantees here: an address without a colon has no port and does not split. */
  ghost predicate SplitNeedsColon(splitHost: string -> Option<string>) {
    forall s :: ':' !in s ==> splitHost(s).None?
  }

  /**
   * `hostFromAddr`: the host of the trimmed address when it splits
   * ("localhost" for an empty host); otherwise "" for a blank address,
   * "localhost" for one that starts with a colon, and the trimmed address
   * itself for any other.
   */
  function HostFromAddr(addr: string, splitHost: string -> Option<string>): (r: string)
    ensures var trimmed := TrimSpace(addr);
            && (splitHost(trimmed).Some? ==> r == if splitHost(trimmed).value != "" then splitHost(trimmed).value else "localhost")
            && (splitHost(trimmed).None? && trimmed != "" ==> r == if trimmed[0] == ':' then "localhost" else trimmed)
    ensures r == "" <==> splitHost(TrimSpace(addr)).None? && TrimSpace(addr) == ""
  {
    var trimmed := TrimSpace(addr);
    match splitHost(trimmed)
    case Some(host) => if host != "" then host else "localhost"
    case None =>
      if trimmed == "" then ""
      else if trimmed[0] == ':' then "localhost"
      else trimmed
  }

  /** A blank or all-white-space address has no host, whatever else `SplitHostPort` does. */
  lemma BlankAddressHasNoHost(addr: string, splitHost: string -> Option<string>)
    requires SplitNeedsColon(splitHost)
    requires forall k :: 0 <= k < |addr| ==> IsSpace(addr[k])
    ensures HostFromAddr(addr, splitHost) == ""
  {
    assert ':' !in TrimSpace(addr);
  }

  /** An address that is neither blank nor splittable is its own host, trimmed; one starting with a colon means this host. */
  lemma UnsplittableAddress(addr: string, splitHost: string -> Option<string>)
    requires SplitNeedsColon(splitHost)
    requires ':' !in addr && exists k :: 0 <= k < |addr| && !IsSpace(addr[k])
    ensures HostFromAddr(addr, splitHost) == TrimSpace(addr) && TrimSpace(addr) != ""
  {
    var trimmed := TrimSpace(addr);
    assert ':' !in trimmed by {
      var i := TextStart(addr);
      forall k | 0 <= k < |trimmed| ensures trimmed[k] != ':' {
        assert trimmed[k] == addr[i + k];
      }
    }
  }

  // ---------------------------------------------------------------------------
  // LoadConfig

  datatype Config = Config(serverAddr: string, agentId: string, interval: int,
                           caCertPath: string, serverName: string, dialTimeout: int)

  datatype ConfigError =
    | BadInterval(cause: string)      // parse TELEMETRY_SCRAPE_INTERVAL
    | BadDialTimeout(cause: string)   // parse TELEMETRY_DIAL_TIMEOUT
    | MissingServerAddr               // server address must be provided
    | NonPositiveInterval             // interval must be positive
    | NonPositiveDialTimeout          // dial timeout must be positive
    | MissingCACert                   // CA certificate path must be provided

  const ServerAddrKey := "TELEMETRY_SERVER_ADDR"
  const AgentIdKey := "TELEMETRY_AGENT_ID"
  const IntervalKey := "TELEMETRY_SCRAPE_INTERVAL"
  const CACertKey := "TELEMETRY_SERVER_CA_CERT"
  const ServerNameKey := "TELEMETRY_SERVER_NAME"
  const DialTimeoutKey := "TELEMETRY_DIAL_TIMEOUT"

  /** The agent id: the variable when set, else the host name, else "unknown-agent". */
  function AgentIdOf(env: map<string, string>, hostname: Result<string, string>): (id: string)
    ensures AgentIdKey in env ==> id == env[AgentIdKey]
    ensures AgentIdKey !in env && hostname.Ok? ==> id == hostname.value
    ensures AgentIdKey !in env && hostname.Err? ==> id == "unknown-agent"
  {
    Getenv(env, AgentIdKey, match hostname case Ok(h) => h case Err(_) => "unknown-agent")
  }

  /**
   * The TLS server name: the variable when set and non-empty, else the host
   * of the server address, else "localhost".
   */
  function ServerNameOf(env: map<string, string>, serverAddr: string, splitHost: string -> Option<string>): (name: string)
    ensures name != ""
    ensures ServerNameKey in env && env[ServerNameKey] != "" ==> name == env[ServerNameKey]
    ensures !(ServerNameKey in env && env[ServerNameKey] != "") ==>
              name == if HostFromAddr(serverAddr, splitHost) != "" then HostFromAddr(serverAddr, splitHost) else "localhost"
  {
    var name := Getenv(env, ServerNameKey, HostFromAddr(serverAddr, splitHost));
    if name != "" then name
    else
      var derived := HostFromAddr(serverAddr, splitHost);
      if derived != "" then derived else "localhost"
  }

  /**
   * `LoadConfig`: both durations must parse (interval first); then the
   * address, the two durations and the CA path are checked in that order;
   * the server name is filled in last and is never empty.
   */
  function LoadConfig(env: map<string, string>, parseDuration: string -> Result<int, string>,
                      hostname: Result<string, string>, splitHost: string -> Option<string>): (r: Result<Config, ConfigError>)
    ensures parseDuration(Getenv(env, IntervalKey, "2s")).Err? ==>
              r == Err(BadInterval(parseDuration(Getenv(env, IntervalKey, "2s")).error))
    ensures parseDuration(Getenv(env, IntervalKey, "2s")).Ok? && parseDuration(Getenv(env, DialTimeoutKey, "5s")).Err? ==>
              r == Err(BadDialTimeout(parseDuration(Getenv(env, DialTimeoutKey, "5s")).error))
    ensures r.Ok? ==>
              && r.value.serverAddr == Getenv(env, ServerAddrKey, "127.0.0.1:50051") != ""
              && r.value.interval > 0 && Ok(r.value.interval) == parseDuration(Getenv(env, IntervalKey, "2s"))
              && r.value.dialTimeout > 0 && Ok(r.value.dialTimeout) == parseDuration(Getenv(env, DialTimeoutKey, "5s"))
              && r.value.caCertPath == Getenv(env, CACertKey, "deploy/certs/dev/ca.pem") != ""
              && r.value.agentId == AgentIdOf(env, hostname)
              && r.value.serverName == ServerNameOf(env, r.value.serverAddr, splitHost) != ""
  {
    var defaultAddr := Getenv(env, ServerAddrKey, "127.0.0.1:50051");
    match parseDuration(Getenv(env, IntervalKey, "2s"))
    case Err(e) => Err(BadInterval(e))
    case Ok(interval) =>
      match parseDuration(Getenv(env, DialTimeoutKey, "5s"))
      case Err(e) => Err(BadDialTimeout(e))
      case Ok(dialTimeout) =>
        if defaultAddr == "" then Err(MissingServerAddr)
        else if interval <= 0 then Err(NonPositiveInterval)
        else if dialTimeout <= 0 then Err(NonPositiveDialTimeout)
        else
          var caCert := Getenv(env, CACertKey, "deploy/certs/dev/ca.pem");
          if caCert == "" then Err(MissingCACert)
          else Ok(Config(defaultAddr, AgentIdOf(env, hostname), interval, caCert,
                         ServerNameOf(env, defaultAddr, splitHost), dialTimeout))
  }

  /**
   * Once both durations parse, `LoadConfig` succeeds exactly when the
   * address and CA path are non-empty and both durations are positive; the
   * first failing check decides the error.
   */
  lemma LoadConfigChecks(env: map<string, string>, parseDuration: string -> Result<int, string>,
                         hostname: Result<string, string>, splitHost: string -> Option<string>)
    requires parseDuration(Getenv(env, IntervalKey, "2s")).Ok? && parseDuration(Getenv(env, DialTimeoutKey, "5s")).Ok?
    ensures var interval := parseDuration(Getenv(env, IntervalKey, "2s")).value;
            var dialTimeout := parseDuration(Getenv(env, DialTimeoutKey, "5s")).value;
            var addr := Getenv(env, ServerAddrKey, "127.0.0.1:50051");
            var caCert := Getenv(env, CACertKey, "deploy/certs/dev/ca.pem");
            && (LoadConfig(env, parseDuration, hostname, splitHost).Ok? <==>
                  addr != "" && interval > 0 && dialTimeout > 0 && caCert != "")
            && (addr == "" ==> LoadConfig(env, parseDuration, hostname, splitHost) == Err(MissingServerAddr))
            && (addr != "" && interval <= 0 ==> LoadConfig(env, parseDuration, hostname, splitHost) == Err(NonPositiveInterval))
            && (addr != "" && interval > 0 && dialTimeout <= 0 ==>
                  LoadConfig(env, parseDuration, hostname, splitHost) == Err(NonPositiveDialTimeout))
            && (addr != "" && interval > 0 && dialTimeout > 0 && caCert == "" ==>
                  LoadConfig(env, parseDuration, hostname, splitHost) == Err(MissingCACert))
  {
  }

  /**
   * With nothing set, the agent dials 127.0.0.1:50051 every 2 s with a 5 s
   * timeout, trusts the development CA, names itself after the host and
   * expects the server name 127.0.0.1.
   */
  lemma DefaultConfig(parseDuration: string -> Result<int, string>, hostname: Result<string, string>,
                      splitHost: string -> Option<string>)
    requires parseDuration("2s") == Ok(2_000_000_000) && parseDuration("5s") == Ok(5_000_000_000)
    requires splitHost("127.0.0.1:50051") == Some("127.0.0.1")
    ensures LoadConfig(map[], parseDuration, hostname, splitHost) ==
              Ok(Config("127.0.0.1:50051", match hostname case Ok(h) => h case Err(_) => "unknown-agent",
                        2_000_000_000, "deploy/certs/dev/ca.pem", "127.0.0.1", 5_000_000_000))
  {
    assert TrimSpace("127.0.0.1:50051") == "127.0.0.1:50051" by {
      assert !IsSpace("127.0.0.1:50051"[0]);
      assert !IsSpace("127.0.0.1:50051"[|"127.0.0.1:50051"| - 1]);
    }
  }
}
