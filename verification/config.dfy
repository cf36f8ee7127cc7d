/**
 * The configuration records of config.go, with the library objects they
 * point to reduced to the fields the defaulting code sets. A nil pointer
 * field is `None`.
 */
module Config {
  import opened Wrappers

  /** `time.Second` in nanoseconds, the unit of Go's `time.Duration`. */
  const Second: int := 1_000_000_000

  /** The keep-alive period both sides use when no QUIC config is given: 15 seconds. */
  const DefaultKeepAlivePeriod: int := 15 * Second

  /** `tls.VersionTLS13`. */
  const VersionTLS13: int := 0x0304

  /** The ALPN protocol name of the RPC protocol. */
  const ProtocolName: string := "zaprpc"

  /**
   * The `tls.Config` fields the code sets. `minVersion == 0` is Go's unset
   * minimum; `selfSignedCert` marks the generated bootstrap certificate.
   */
  datatype TlsConfig = TlsConfig(
    minVersion: int,
    serverName: string,
    insecureSkipVerify: bool,
    nextProtos: seq<string>,
    selfSignedCert: bool)

  /** The `quic.Config` field the code sets, in nanoseconds. */
  datatype QuicConfig = QuicConfig(keepAlivePeriod: int)

  /** A codec implementation; `Gob` is `GOBCodec`. */
  datatype Codec = Gob | CustomCodec(name: string)

  /** A logger sink; `NopLogger` is `zap.NewNop()`. */
  datatype Logger = NopLogger | NamedLogger(name: string)

  /** A caller-supplied, already bound `quic.Transport`, identified by its local port. */
  datatype TransportHandle = TransportHandle(localPort: int)

  datatype ServerConfig = ServerConfig(
    tls: Option<TlsConfig>,
    quic: Option<QuicConfig>,
    transport: Option<TransportHandle>,
    codec: Option<Codec>,
    logger: Option<Logger>)

  datatype ConnectionConfig = ConnectionConfig(
    tls: Option<TlsConfig>,
    quic: Option<QuicConfig>)

  /** The QUIC config both sides fill in when none is given. */
  function DefaultQuicConfig(): (q: QuicConfig)
    ensures q.keepAlivePeriod == 15 * Second
  {
    QuicConfig(DefaultKeepAlivePeriod)
  }

  /**
   * What `generateTLSConfig` returns: a fresh self-signed certificate and
   * the protocol name, nothing else set. The key material is not modelled.
   */
  function ServerBootstrapTls(): (t: TlsConfig)
    ensures t.selfSignedCert && t.nextProtos == ["zaprpc"]
    ensures t.minVersion == 0 && !t.insecureSkipVerify && t.serverName == ""
  {
    TlsConfig(0, "", false, [ProtocolName], true)
  }

  /** The client's TLS config when none is given: TLS 1.3 at least, verifying the server named `host`. */
  function ClientDefaultTls(host: string): (t: TlsConfig)
    ensures t.minVersion == 0x0304 && t.serverName == host
    ensures !t.insecureSkipVerify && t.nextProtos == ["zaprpc"] && !t.selfSignedCert
  {
    TlsConfig(VersionTLS13, host, false, [ProtocolName], false)
  }
}
