/**
 * Server construction in server.go: `NewServer` defaulting, the `With*`
 * setters and `RegisterService`. Go mutates the server in place and returns
 * it; here each operation returns the updated server.
 */
module ServerSetup {
  import opened Wrappers
  import opened Config
  import opened Dispatch

  datatype Server = Server(services: Registry, cfg: ServerConfig)

  /** A server config whose logger, QUIC config, TLS config and codec are all set. */
  predicate Filled(c: ServerConfig) {
    c.logger.Some? && c.quic.Some? && c.tls.Some? && c.codec.Some?
  }

  /** The value the caller supplied for a field, or the default when the field or the whole config is nil. */
  function OrDefault<T>(supplied: Option<T>, default: T): (v: T)
    ensures supplied.Some? ==> v == supplied.value
    ensures supplied.None? ==> v == default
  {
    if supplied.Some? then supplied.value else default
  }

  /**
   * `NewServer`: copy the caller's config (the zero config when nil) and fill
   * only the nil logger, QUIC config, TLS config and codec. The transport
   * handle is copied and never defaulted. The registry starts empty.
   */
  function NewServer(cfg: Option<ServerConfig>): (s: Server)
    ensures s.services == map[]
    ensures Filled(s.cfg)
    ensures cfg.Some? && cfg.value.logger.Some? ==> s.cfg.logger == cfg.value.logger
    ensures cfg.Some? && cfg.value.quic.Some? ==> s.cfg.quic == cfg.value.quic
    ensures cfg.Some? && cfg.value.tls.Some? ==> s.cfg.tls == cfg.value.tls
    ensures cfg.Some? && cfg.value.codec.Some? ==> s.cfg.codec == cfg.value.codec
    ensures (cfg.None? || cfg.value.logger.None?) ==> s.cfg.logger == Some(NopLogger)
    ensures (cfg.None? || cfg.value.quic.None?) ==> s.cfg.quic == Some(QuicConfig(15 * Second))
    ensures (cfg.None? || cfg.value.tls.None?) ==> s.cfg.tls == Some(ServerBootstrapTls())
    ensures (cfg.None? || cfg.value.codec.None?) ==> s.cfg.codec == Some(Gob)
    ensures s.cfg.transport == (if cfg.Some? then cfg.value.transport else None)
  {
    var c := OrDefault(cfg, ServerConfig(None, None, None, None, None));
    var filled := ServerConfig(
      tls := Some(OrDefault(c.tls, ServerBootstrapTls())),
      quic := Some(OrDefault(c.quic, DefaultQuicConfig())),
      transport := c.transport,
      codec := Some(OrDefault(c.codec, Gob)),
      logger := Some(OrDefault(c.logger, NopLogger)));
    Server(map[], filled)
  }

  /** Defaulting is idempotent: a server built from a filled config keeps it exactly. */
  lemma NewServerIdempotent(cfg: Option<ServerConfig>)
    ensures NewServer(Some(NewServer(cfg).cfg)).cfg == NewServer(cfg).cfg
  {
  }

  /** A config with every defaulted field already set is copied unchanged. */
  lemma NewServerKeepsFilled(cfg: ServerConfig)
    requires Filled(cfg)
    ensures NewServer(Some(cfg)).cfg == cfg
  {
  }

  /** `WithTransport`: replace the transport handle when the argument is non-nil. */
  function WithTransport(s: Server, t: Option<TransportHandle>): (r: Server)
    ensures t.Some? ==> r.cfg.transport == t
    ensures t.None? ==> r == s
    ensures r.services == s.services
    ensures r.cfg.(transport := s.cfg.transport) == s.cfg
  {
    if t.Some? then s.(cfg := s.cfg.(transport := t)) else s
  }

  /** `WithQUICConfig`: replace the QUIC config when the argument is non-nil. */
  function WithQuicConfig(s: Server, q: Option<QuicConfig>): (r: Server)
    ensures q.Some? ==> r.cfg.quic == q
    ensures q.None? ==> r == s
    ensures r.services == s.services
    ensures r.cfg.(quic := s.cfg.quic) == s.cfg
  {
    if q.Some? then s.(cfg := s.cfg.(quic := q)) else s
  }

  /** `WithTLSConfig`: replace the TLS config when the argument is non-nil. */
  function WithTlsConfig(s: Server, t: Option<TlsConfig>): (r: Server)
    ensures t.Some? ==> r.cfg.tls == t
    ensures t.None? ==> r == s
    ensures r.services == s.services
    ensures r.cfg.(tls := s.cfg.tls) == s.cfg
  {
    if t.Some? then s.(cfg := s.cfg.(tls := t)) else s
  }

  /** `WithLogger`: replace the logger when the argument is non-nil. */
  function WithLogger(s: Server, l: Option<Logger>): (r: Server)
    ensures l.Some? ==> r.cfg.logger == l
    ensures l.None? ==> r == s
    ensures r.services == s.services
    ensures r.cfg.(logger := s.cfg.logger) == s.cfg
  {
    if l.Some? then s.(cfg := s.cfg.(logger := l)) else s
  }

  /** The setters keep a filled config filled. */
  lemma SettersKeepFilled(s: Server, t: Option<TransportHandle>, q: Option<QuicConfig>, tls: Option<TlsConfig>, l: Option<Logger>)
    requires Filled(s.cfg)
    ensures Filled(WithLogger(WithTlsConfig(WithQuicConfig(WithTransport(s, t), q), tls), l).cfg)
  {
  }

  /** Setting the same field twice: the last non-nil value wins. */
  lemma SetterLastWriteWins(s: Server, a: Logger, b: Option<Logger>)
    ensures WithLogger(WithLogger(s, Some(a)), b).cfg.logger == (if b.Some? then b else Some(a))
  {
  }

  /** Setters of different fields commute, for every pair of the four. */
  lemma SettersCommute(s: Server, tr: Option<TransportHandle>, q: Option<QuicConfig>, t: Option<TlsConfig>, l: Option<Logger>)
    ensures WithTlsConfig(WithQuicConfig(s, q), t) == WithQuicConfig(WithTlsConfig(s, t), q)
    ensures WithQuicConfig(WithTransport(s, tr), q) == WithTransport(WithQuicConfig(s, q), tr)
    ensures WithTlsConfig(WithTransport(s, tr), t) == WithTransport(WithTlsConfig(s, t), tr)
    ensures WithLogger(WithTransport(s, tr), l) == WithTransport(WithLogger(s, l), tr)
    ensures WithLogger(WithQuicConfig(s, q), l) == WithQuicConfig(WithLogger(s, l), q)
    ensures WithLogger(WithTlsConfig(s, t), l) == WithTlsConfig(WithLogger(s, l), t)
  {
  }

  /** `RegisterService`: add or overwrite one registry entry; the config is untouched. */
  function RegisterService(s: Server, name: string, service: Service): (r: Server)
    ensures r.cfg == s.cfg
    ensures name in r.services && r.services[name] == service
    ensures forall n :: n != name ==> (n in r.services <==> n in s.services)
    ensures forall n :: n != name && n in s.services ==> r.services[n] == s.services[n]
  {
    s.(services := Register(s.services, name, service))
  }

  /** Re-registering a name overwrites silently: only the last registration is kept. */
  lemma RegisterLastWriteWins(s: Server, name: string, a: Service, b: Service)
    ensures RegisterService(RegisterService(s, name, a), name, b) == RegisterService(s, name, b)
  {
  }
}
