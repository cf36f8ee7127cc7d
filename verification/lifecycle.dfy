/**
 * The accept loops of `Serve` and `handleSession` and the per-stream
 * exchange of `handleStream` (server.go), as pure functions from abstract
 * transport events to the actions the server takes. Connections and
 * streams are identified by numbers; the goroutine spawned for each is
 * represented by the identity being handed on.
 */
module Lifecycle {
  import opened Wrappers
  import opened Values
  import opened ErrorClass
  import opened Config
  import opened Dispatch
  import opened Transport
  import opened ServerSetup

  /** How an accept loop ends. */
  datatype StopKind = Graceful | TimedOut | Fatal(err: ErrorChain)

  /** One call of `Accept` or `AcceptStream`: an item, or an error seen with the context's state. */
  datatype AcceptEvent = Accepted(id: nat) | AcceptFailed(err: ErrorChain, ctxDone: bool)

  /**
   * The switch after a failed accept: graceful close or a cancelled
   * context first, then a timeout, and anything else is fatal.
   */
  function AcceptDecision(err: ErrorChain, ctxDone: bool): (k: StopKind)
    ensures k == Graceful <==> IsGracefulClose(err) || ctxDone
    ensures k == TimedOut <==> !IsGracefulClose(err) && !ctxDone && IsTimeout(err)
    ensures k.Fatal? ==> k.err == err
  {
    if IsGracefulClose(err) || ctxDone then Graceful
    else if IsTimeout(err) then TimedOut
    else Fatal(err)
  }

  /** Graceful is checked first: an error that is both graceful and a timeout stops gracefully. */
  lemma GracefulBeatsTimeout(err: ErrorChain)
    requires IsGracefulClose(err) && IsTimeout(err)
    ensures AcceptDecision(err, false) == Graceful
  {
  }

  /** A non-nil error of no recognised kind, with the context live, is fatal. */
  lemma UnrecognisedErrorIsFatal(err: ErrorChain)
    requires |err| > 0 && forall i :: 0 <= i < |err| ==> err[i].OtherError?
    ensures AcceptDecision(err, false) == Fatal(err)
  {
    UnrecognisedIsFatal(err);
  }

  /** The items handed on by an accept loop, and why it stopped (`None`: the events ran out while it still runs). */
  datatype LoopOutcome = LoopOutcome(spawned: seq<nat>, stop: Option<StopKind>)

  /** The `for` loop shared by `Serve` and `handleSession`: continue on every accepted item, stop at the first failure. */
  function AcceptLoop(events: seq<AcceptEvent>): (o: LoopOutcome)
    ensures |o.spawned| <= |events|
    ensures forall i :: 0 <= i < |o.spawned| ==> events[i] == Accepted(o.spawned[i])
    ensures o.stop.None? <==> forall i :: 0 <= i < |events| ==> events[i].Accepted?
    ensures o.stop.None? ==> |o.spawned| == |events|
    ensures o.stop.Some? ==>
              && |o.spawned| < |events|
              && events[|o.spawned|].AcceptFailed?
              && o.stop.value == AcceptDecision(events[|o.spawned|].err, events[|o.spawned|].ctxDone)
  {
    if |events| == 0 then LoopOutcome([], None)
    else
      match events[0]
      case AcceptFailed(err, ctxDone) => LoopOutcome([], Some(AcceptDecision(err, ctxDone)))
      case Accepted(id) =>
        var rest := AcceptLoop(events[1..]);
        LoopOutcome([id] + rest.spawned, rest.stop)
  }

  /** Events after a failure are never consumed. */
  lemma AcceptLoopStopsAtFailure(events: seq<AcceptEvent>, i: nat, later: seq<AcceptEvent>)
    requires i < |events| && events[i].AcceptFailed?
    ensures AcceptLoop(events + later) == AcceptLoop(events)
  {
    var all := events + later;
    var o1 := AcceptLoop(events);
    var o2 := AcceptLoop(all);
    assert all[i] == events[i];
    var n1 := |o1.spawned|;
    assert all[n1] == events[n1];
    assert o1.spawned == o2.spawned;
  }

  /** Why `Serve` returned an error. */
  datatype ServeError =
    | TransportSetupFailed(outcome: TransportOutcome)
    | ListenFailed
    | AcceptError(err: ErrorChain)

  /**
   * The state of a `Serve` call after the given events: still serving, or
   * returned with its result. `closesTransport` says whether the deferred
   * close of a transport `Serve` created itself runs; `closesListener`
   * whether the deferred listener close runs.
   */
  datatype ServeState =
    | Serving(sessions: seq<nat>)
    | Stopped(err: Option<ServeError>, sessions: seq<nat>, closesTransport: bool, closesListener: bool)

  /** The address `Serve` binds when the config has no transport. */
  const ServeDefaultPort: Port := 6121

  /**
   * `Serve`: use the configured transport, or create one on port 6121 and
   * own it; listen (`listenOk` is the outcome of `tr.Listen`); then run
   * the accept loop, spawning one session per connection.
   */
  function Serve(cfg: ServerConfig, bind: int -> BindResult, listenOk: bool, events: seq<AcceptEvent>): (st: ServeState)
    ensures cfg.transport.Some? && st.Stopped? ==> !st.closesTransport
    ensures st.Stopped? && st.err == Some(ListenFailed) ==> st.closesTransport == cfg.transport.None?
    ensures st.Stopped? && cfg.transport.None? && !(st.err.Some? && st.err.value.TransportSetupFailed?) ==>
              st.closesTransport
    ensures st.Stopped? && st.err.Some? && st.err.value.TransportSetupFailed? ==>
              cfg.transport.None? && st.sessions == [] && !st.closesTransport && !st.closesListener
    ensures st.Stopped? && st.err == Some(ListenFailed) ==> !listenOk && st.sessions == [] && !st.closesListener
    ensures st.Stopped? && st.closesListener ==> listenOk
    ensures st.Stopped? && st.err.None? ==>
              listenOk && AcceptLoop(events).stop.Some? && !AcceptLoop(events).stop.value.Fatal?
    ensures st.Stopped? && st.err.Some? && st.err.value.AcceptError? ==>
              AcceptLoop(events).stop == Some(Fatal(st.err.value.err))
    ensures st.Serving? ==> listenOk && st.sessions == AcceptLoop(events).spawned && AcceptLoop(events).stop.None?
    ensures st.Stopped? && st.closesListener ==> st.sessions == AcceptLoop(events).spawned
    ensures var o := NewTransport(Some(ServeDefaultPort), bind).outcome;
      (st.Stopped? && st.err.Some? && st.err.value.TransportSetupFailed?) <==>
        cfg.transport.None? && !(o.Bound? || o.BoundEphemeral?)
    ensures st.Stopped? && st.err.Some? && st.err.value.TransportSetupFailed? ==>
              st.err.value.outcome == NewTransport(Some(ServeDefaultPort), bind).outcome
    ensures st.Stopped? && listenOk && !(st.err.Some? && st.err.value.TransportSetupFailed?) ==> st.closesListener
    ensures TransportReady(cfg, bind) && !listenOk ==> st == Stopped(Some(ListenFailed), [], cfg.transport.None?, false)
  {
    var setup :=
      if cfg.transport.Some? then None
      else Some(NewTransport(Some(ServeDefaultPort), bind).outcome);
    if setup.Some? && !(setup.value.Bound? || setup.value.BoundEphemeral?) then
      Stopped(Some(TransportSetupFailed(setup.value)), [], false, false)
    else
      var owned := setup.Some?;
      if !listenOk then Stopped(Some(ListenFailed), [], owned, false)
      else
        var loop := AcceptLoop(events);
        match loop.stop
        case None => Serving(loop.spawned)
        case Some(Fatal(err)) => Stopped(Some(AcceptError(err)), loop.spawned, owned, true)
        case Some(_) => Stopped(None, loop.spawned, owned, true)
  }

  /** Whether `Serve` gets past transport setup: the transport is supplied, or binding on port 6121 succeeds. */
  predicate TransportReady(cfg: ServerConfig, bind: int -> BindResult) {
    var o := NewTransport(Some(ServeDefaultPort), bind).outcome;
    cfg.transport.Some? || o.Bound? || o.BoundEphemeral?
  }

  /**
   * Cancelling the context makes the next failed accept end `Serve` with a
   * nil error, whether the transport was supplied or created; only a
   * created one is closed.
   */
  lemma CancelledServeReturnsNil(cfg: ServerConfig, bind: int -> BindResult, accepted: seq<nat>, err: ErrorChain)
    requires TransportReady(cfg, bind)
    ensures var events := seq(|accepted|, i requires 0 <= i < |accepted| => Accepted(accepted[i])) + [AcceptFailed(err, true)];
      Serve(cfg, bind, true, events) == Stopped(None, accepted, cfg.transport.None?, true)
  {
    var events := seq(|accepted|, i requires 0 <= i < |accepted| => Accepted(accepted[i])) + [AcceptFailed(err, true)];
    var loop := AcceptLoop(events);
    assert events[|accepted|].AcceptFailed?;
    assert |loop.spawned| == |accepted|;
    assert loop.spawned == accepted;
  }

  /** The close code and reason of the deferred `CloseWithError` ending every session. */
  const SessionCloseCode: int := 0
  const SessionCloseReason: string := "Server closing"

  /** A session after the given stream-accept events: still accepting, or closed with a code and reason. */
  datatype SessionState =
    | Accepting(streams: seq<nat>)
    | SessionClosed(streams: seq<nat>, stop: StopKind, closeCode: int, closeReason: string)

  /** `handleSession`: accept streams until the first failure, whatever its class, then close the connection with code 0. */
  function HandleSession(events: seq<AcceptEvent>): (st: SessionState)
    ensures st.Accepting? <==> forall i :: 0 <= i < |events| ==> events[i].Accepted?
    ensures st.SessionClosed? ==> st.closeCode == 0 && st.closeReason == "Server closing"
    ensures st.streams == AcceptLoop(events).spawned
    ensures st.SessionClosed? ==> Some(st.stop) == AcceptLoop(events).stop
  {
    var loop := AcceptLoop(events);
    match loop.stop
    case None => Accepting(loop.spawned)
    case Some(k) => SessionClosed(loop.spawned, k, SessionCloseCode, SessionCloseReason)
  }

  /** What `codec.Unmarshal` produced from the stream. */
  datatype DecodeOutcome = DecodeFailed(err: ErrorChain, ctxDone: bool) | Decoded(req: Request)

  /** What the stream handler does to its stream, in order. `Write` records whether `codec.Marshal` succeeded. */
  datatype StreamAction = Write(resp: Response, ok: bool) | CancelRead | CancelWrite | Close

  /** Writes `resp` and closes, cancelling the write side if encoding fails. */
  function Reply(resp: Response, marshal: Response -> bool): seq<StreamAction> {
    if marshal(resp) then [Write(resp, true), Close]
    else [Write(resp, false), CancelWrite, Close]
  }

  /** The reply carrying a dispatch error: `ZapResponse{Value: struct{ Error string }{err.Error()}}`. */
  function ErrorReply(e: CallError): Response {
    Response(ErrorStruct(Message(e)))
  }

  /** Whether the actions start with the one and only write, and it is of `resp`. */
  predicate WritesOnly(acts: seq<StreamAction>, resp: Response) {
    && |acts| > 0 && acts[0].Write? && acts[0].resp == resp
    && forall j :: 1 <= j < |acts| ==> !acts[j].Write?
  }

  /**
   * `handleStream`: decode, dispatch through the registry, encode the
   * value or the error reply, with the recovered panic cancelling both
   * sides and the stream closed last on every path.
   */
  function HandleStream(decoded: DecodeOutcome, services: Registry, marshal: Response -> bool): (acts: seq<StreamAction>)
    ensures |acts| >= 2 && acts[|acts| - 1] == Close
    ensures forall i :: 0 <= i < |acts| - 1 ==> acts[i] != Close
    ensures decoded.DecodeFailed? ==> acts == [CancelRead, CancelWrite, Close]
    ensures decoded.Decoded? ==> var r := CallMethod(services, decoded.req.serviceMethod, decoded.req.args);
      && (r.Panicked? ==> acts == [CancelRead, CancelWrite, Close])
      && (r.Err? ==> WritesOnly(acts, ErrorReply(r.err)))
      && (r.Ok? ==> WritesOnly(acts, Response(r.value)))
    ensures CancelRead in acts <==>
              decoded.DecodeFailed? || CallMethod(services, decoded.req.serviceMethod, decoded.req.args).Panicked?
    ensures CancelWrite in acts <==>
              decoded.DecodeFailed? || (exists i :: 0 <= i < |acts| && acts[i].Write? && !acts[i].ok)
                || CallMethod(services, decoded.req.serviceMethod, decoded.req.args).Panicked?
    ensures forall i :: 0 <= i < |acts| && acts[i].Write? ==> acts[i].ok == marshal(acts[i].resp)
    ensures |acts| <= 3 && forall i, j :: 0 <= i < j < |acts| ==> acts[i] != acts[j]
  {
    match decoded
    case DecodeFailed(_, _) => [CancelRead, CancelWrite, Close]
    case Decoded(req) =>
      match CallMethod(services, req.serviceMethod, req.args)
      case Panicked => [CancelRead, CancelWrite, Close]
      case Err(e) => Reply(ErrorReply(e), marshal)
      case Ok(v) => Reply(Response(v), marshal)
  }

  /** Action `i` is a successful write and no earlier action is one. */
  predicate FirstDeliveryAt(acts: seq<StreamAction>, i: nat) {
    i < |acts| && acts[i].Write? && acts[i].ok && forall j :: 0 <= j < i ==> !(acts[j].Write? && acts[j].ok)
  }

  /** The response the client reads from the stream: the first successful write, if any. */
  function Delivered(acts: seq<StreamAction>): (r: Option<Response>)
    ensures r.Some? <==> exists i :: 0 <= i < |acts| && acts[i].Write? && acts[i].ok
    ensures r.Some? ==> exists i: nat :: FirstDeliveryAt(acts, i) && acts[i].resp == r.value
  {
    if |acts| == 0 then None
    else if acts[0].Write? && acts[0].ok then
      assert FirstDeliveryAt(acts, 0);
      Some(acts[0].resp)
    else
      var rest := Delivered(acts[1..]);
      assert forall i :: 1 <= i < |acts| ==> acts[i] == acts[1..][i - 1];
      if rest.Some? then
        var k: nat :| FirstDeliveryAt(acts[1..], k) && acts[1..][k].resp == rest.value;
        assert FirstDeliveryAt(acts, k + 1);
        rest
      else rest
  }

  /** With a working codec, every decoded request is answered with the dispatch result or its error reply. */
  lemma StreamAnswersEveryDecodedRequest(req: Request, services: Registry, marshal: Response -> bool)
    requires forall resp :: marshal(resp)
    requires !CallMethod(services, req.serviceMethod, req.args).Panicked?
    ensures var r := CallMethod(services, req.serviceMethod, req.args);
      Delivered(HandleStream(Decoded(req), services, marshal)) ==
        Some(if r.Ok? then Response(r.value) else ErrorReply(r.err))
  {
  }
}
