/**
 * The server's settings (internal/server/config.go): five variables with
 * defaults, checked in a fixed order; the first empty one is the error.
 */
module ServerConfig {
  import opened Wrappers
  import opened Env

  datatype Config = Config(grpcAddr: string, httpAddr: string, tlsCertPath: string,
                           tlsKeyPath: string, postgresDsn: string)

  const GrpcAddrKey := "TELEMETRY_SERVER_GRPC_ADDR"
  const HttpAddrKey := "TELEMETRY_SERVER_HTTP_ADDR"
  const TlsCertKey := "TELEMETRY_SERVER_TLS_CERT"
  const TlsKeyKey := "TELEMETRY_SERVER_TLS_KEY"
  const PostgresDsnKey := "TELEMETRY_SERVER_POSTGRES_DSN"

  /** The configuration before validation: each variable, or its default. */
  function Settings(env: map<string, string>): (c: Config)
    ensures c.grpcAddr == if GrpcAddrKey in env then env[GrpcAddrKey] else ":50051"
    ensures c.httpAddr == if HttpAddrKey in env then env[HttpAddrKey] else ":8080"
    ensures c.tlsCertPath == if TlsCertKey in env then env[TlsCertKey] else "deploy/certs/dev/server.pem"
    ensures c.tlsKeyPath == if TlsKeyKey in env then env[TlsKeyKey] else "deploy/certs/dev/server-key.pem"
    ensures c.postgresDsn == if PostgresDsnKey in env then env[PostgresDsnKey] else ""
  {
    Config(
      Getenv(env, GrpcAddrKey, ":50051"),
      Getenv(env, HttpAddrKey, ":8080"),
      Getenv(env, TlsCertKey, "deploy/certs/dev/server.pem"),
      Getenv(env, TlsKeyKey, "deploy/certs/dev/server-key.pem"),
      Getenv(env, PostgresDsnKey, ""))
  }

  /** Every field is non-empty. */
  predicate Complete(c: Config) {
    c.grpcAddr != "" && c.httpAddr != "" && c.tlsCertPath != "" && c.tlsKeyPath != "" && c.postgresDsn != ""
  }

  /**
   * `LoadConfig`: the settings when all five are non-empty; otherwise the
   * message naming the first empty one, in the order gRPC address, HTTP
   * address, certificate, key, database DSN.
   */
  function LoadConfig(env: map<string, string>): (r: Result<Config, string>)
    ensures r.Ok? <==> Complete(Settings(env))
    ensures r.Ok? ==> r.value == Settings(env)
    ensures Settings(env).grpcAddr == "" ==> r == Err("TELEMETRY_SERVER_GRPC_ADDR must be set")
    ensures Settings(env).grpcAddr != "" && Settings(env).httpAddr == "" ==>
              r == Err("TELEMETRY_SERVER_HTTP_ADDR must be set")
    ensures Settings(env).grpcAddr != "" && Settings(env).httpAddr != "" && Settings(env).tlsCertPath == "" ==>
              r == Err("TELEMETRY_SERVER_TLS_CERT must be provided")
    ensures Settings(env).grpcAddr != "" && Settings(env).httpAddr != "" && Settings(env).tlsCertPath != "" &&
            Settings(env).tlsKeyPath == "" ==>
              r == Err("TELEMETRY_SERVER_TLS_KEY must be provided")
    ensures Settings(env).grpcAddr != "" && Settings(env).httpAddr != "" && Settings(env).tlsCertPath != "" &&
            Settings(env).tlsKeyPath != "" && Settings(env).postgresDsn == "" ==>
              r == Err("TELEMETRY_SERVER_POSTGRES_DSN must be provided")
  {
    var cfg := Settings(env);
    if cfg.grpcAddr == "" then Err("TELEMETRY_SERVER_GRPC_ADDR must be set")
    else if cfg.httpAddr == "" then Err("TELEMETRY_SERVER_HTTP_ADDR must be set")
    else if cfg.tlsCertPath == "" then Err("TELEMETRY_SERVER_TLS_CERT must be provided")
    else if cfg.tlsKeyPath == "" then Err("TELEMETRY_SERVER_TLS_KEY must be provided")
    else if cfg.postgresDsn == "" then Err("TELEMETRY_SERVER_POSTGRES_DSN must be provided")
    else Ok(cfg)
  }

  /**
   * The database DSN has no usable default: without it `LoadConfig` always
   * fails, and with only it set every other field takes its default.
   */
  lemma DsnIsRequired(env: map<string, string>, dsn: string)
    requires dsn != ""
    ensures PostgresDsnKey !in env ==> LoadConfig(env).Err?
    ensures LoadConfig(map[PostgresDsnKey := dsn]) ==
              Ok(Config(":50051", ":8080", "deploy/certs/dev/server.pem", "deploy/certs/dev/server-key.pem", dsn))
  {
  }

  /** A variable set to the empty string is not replaced by its default: it fails the check. */
  lemma EmptyOverridesDefault(env: map<string, string>)
    ensures LoadConfig(env[GrpcAddrKey := ""]) == Err("TELEMETRY_SERVER_GRPC_ADDR must be set")
  {
  }
}
