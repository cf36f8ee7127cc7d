/**
 * The client of client.go: `NewConn` target checking and config
 * defaulting, and `Zap`'s request and response handling. Host/port
 * splitting, dialling and the stream exchange are external and appear as
 * oracles.
 */
module Client {
  import opened Wrappers
  import opened Values
  import opened Config

  /** What `quic.DialAddr` is called with. */
  datatype DialRequest = DialRequest(target: string, tls: TlsConfig, quic: QuicConfig)

  datatype ConnError =
    | EmptyTarget                   // "empty target"
    | InvalidTarget(target: string) // "invalid target %q: ..."
    | DialFailed(req: DialRequest)  // "failed to dial: ..."

  /**
   * `NewConn`: reject an empty target, then one `SplitHostPort` rejects
   * (`splitHost` returns the host part), fill a nil TLS config with the
   * TLS 1.3 default for that host and a nil QUIC config with the 15-second
   * keep-alive, then dial. On success the connection is represented by the
   * dial request that established it.
   */
  function NewConn(target: string, cfg: Option<ConnectionConfig>, splitHost: string -> Option<string>,
                   dial: DialRequest -> bool): (r: Result<DialRequest, ConnError>)
    ensures target == "" ==> r == Failure(EmptyTarget)
    ensures target != "" && splitHost(target).None? ==> r == Failure(InvalidTarget(target))
    ensures r.Success? ==> r.value.target == target && dial(r.value)
    ensures r.Success? || (r.Failure? && r.error.DialFailed?) ==>
              var req := if r.Success? then r.value else r.error.req;
              && target != "" && splitHost(target).Some?
              && req.target == target
              && (cfg.Some? && cfg.value.tls.Some? ==> req.tls == cfg.value.tls.value)
              && (cfg.None? || cfg.value.tls.None? ==> req.tls == ClientDefaultTls(splitHost(target).value))
              && (cfg.Some? && cfg.value.quic.Some? ==> req.quic == cfg.value.quic.value)
              && (cfg.None? || cfg.value.quic.None? ==> req.quic == QuicConfig(15 * Second))
    ensures r.Failure? && r.error.DialFailed? ==> !dial(r.error.req)
    ensures target != "" && splitHost(target).Some? ==> r.Success? || r.error.DialFailed?
  {
    if target == "" then Failure(EmptyTarget)
    else
      match splitHost(target)
      case None => Failure(InvalidTarget(target))
      case Some(host) =>
        var c := if cfg.Some? then cfg.value else ConnectionConfig(None, None);
        var tls := if c.tls.Some? then c.tls.value else ClientDefaultTls(host);
        var quic := if c.quic.Some? then c.quic.value else DefaultQuicConfig();
        var req := DialRequest(target, tls, quic);
        if dial(req) then Success(req) else Failure(DialFailed(req))
  }

  /** A target that is empty or that `SplitHostPort` rejects fails the same way whatever the network would do: nothing is dialled. */
  lemma BadTargetNeverDials(target: string, cfg: Option<ConnectionConfig>, splitHost: string -> Option<string>,
                            dial1: DialRequest -> bool, dial2: DialRequest -> bool)
    requires target == "" || splitHost(target).None?
    ensures NewConn(target, cfg, splitHost, dial1) == NewConn(target, cfg, splitHost, dial2)
    ensures NewConn(target, cfg, splitHost, dial1).Failure?
  {
  }

  /** What happened on the stream `Zap` opened. */
  datatype Exchange =
    | OpenFailed                // conn.OpenStream failed
    | RequestEncodeFailed       // enc.Encode(req) failed
    | ResponseDecodeFailed      // dec.Decode(&response) failed
    | Received(resp: Response)  // a response was read

  datatype ClientError =
    | OpenStreamFailed
    | EncodeRequestFailed
    | DecodeResponseFailed
    | RemoteError(message: string)  // errors.New(text) of a server error reply

  /**
   * The response check of `Zap`: a `struct{ Error string }` with a
   * non-empty message becomes an error with that message and no value;
   * every other value, an empty-message error struct included, is the
   * result.
   */
  function Interpret(v: Value): (r: Result<Value, ClientError>)
    ensures r.Failure? <==> v.ErrorStruct? && v.text != ""
    ensures r.Failure? ==> r.error == RemoteError(v.text)
    ensures r.Success? ==> r.value == v
  {
    if v.ErrorStruct? && v.text != "" then Failure(RemoteError(v.text)) else Success(v)
  }

  /**
   * `Zap`: send `Request(serviceMethod, args)` on a fresh stream through
   * the `exchange` oracle and interpret the reply.
   */
  function Zap(serviceMethod: string, args: seq<Value>, exchange: Request -> Exchange): (r: Result<Value, ClientError>)
    ensures exchange(Request(serviceMethod, args)).OpenFailed? ==> r == Failure(OpenStreamFailed)
    ensures exchange(Request(serviceMethod, args)).RequestEncodeFailed? ==> r == Failure(EncodeRequestFailed)
    ensures exchange(Request(serviceMethod, args)).ResponseDecodeFailed? ==> r == Failure(DecodeResponseFailed)
    ensures exchange(Request(serviceMethod, args)).Received? ==>
              r == Interpret(exchange(Request(serviceMethod, args)).resp.value)
  {
    match exchange(Request(serviceMethod, args))
    case OpenFailed => Failure(OpenStreamFailed)
    case RequestEncodeFailed => Failure(EncodeRequestFailed)
    case ResponseDecodeFailed => Failure(DecodeResponseFailed)
    case Received(resp) => Interpret(resp.value)
  }

  /** The request on the wire carries the method name and the arguments verbatim. */
  lemma ZapSendsRequestVerbatim(serviceMethod: string, args: seq<Value>, exchange: Request -> Exchange, seen: Request)
    requires forall req :: exchange(req).Received? <==> req == seen
    requires Zap(serviceMethod, args, exchange).Success?
    ensures seen.serviceMethod == serviceMethod && seen.args == args
  {
  }
}
