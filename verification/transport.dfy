/**
 * The port-retry policy of `NewTransport` (server.go). Address resolution
 * and `net.ListenUDP` are external: the resolved port is an input and each
 * bind attempt is answered by an oracle.
 */
module Transport {
  import opened Wrappers

  /** The port substituted when the requested port is 0. */
  const DefaultPort: int := 6121

  /** How many consecutive ports are tried before the ephemeral fallback. */
  const MaxRetries: nat := 32

  /** A port `net.ResolveUDPAddr` can return. */
  type Port = p: int | 0 <= p <= 0xFFFF

  /**
   * The answer of `net.ListenUDP` for one port as the retry loop sees it:
   * bound, busy (the loop moves on), or any other error (the loop aborts).
   * Which errors count as busy is decided by a classifier below; the retry
   * model is stated for any classification.
   */
  datatype BindResult = BindOk | AddrInUse | OtherBindError

  /** One layer of an error value, outermost first; each layer wraps the next. */
  datatype ErrLayer = OpError | SyscallError(call: string) | Errno(code: int) | OtherLayer

  /** `syscall.EADDRINUSE` on Linux. */
  const EADDRINUSE: int := 98

  /** The error `net.ListenUDP` returns when `bind(2)` fails: an `OpError` wrapping `os.NewSyscallError("bind", errno)`. */
  function ListenUdpError(errno: int): seq<ErrLayer> {
    [OpError, SyscallError("bind"), Errno(errno)]
  }

  /** `errors.As(err, &opErr)` from position `from`: the first `*net.OpError` layer. */
  function FirstOpError(err: seq<ErrLayer>, from: nat): (r: Option<nat>)
    requires from <= |err|
    ensures r.Some? ==> from <= r.value < |err| && err[r.value] == OpError
    ensures r.Some? ==> forall k :: from <= k < r.value ==> err[k] != OpError
    ensures r.None? <==> forall k :: from <= k < |err| ==> err[k] != OpError
    decreases |err| - from
  {
    if from == |err| then None
    else if err[from] == OpError then Some(from)
    else FirstOpError(err, from + 1)
  }

  /** Layer `i` is the first `OpError` of the chain. */
  predicate FirstOpErrorAt(err: seq<ErrLayer>, i: nat) {
    i < |err| && err[i] == OpError && forall k :: 0 <= k < i ==> err[k] != OpError
  }

  /**
   * The busy-port test of server.go:88-93 as written: the first `OpError`
   * must wrap the errno EADDRINUSE directly (`opErr.Err.(syscall.Errno)`).
   * `None` is a nil error.
   */
  function ClassifyAsWritten(err: Option<seq<ErrLayer>>): (b: BindResult)
    ensures b == BindOk <==> err.None?
    ensures b == AddrInUse <==>
              && err.Some?
              && exists i :: 0 <= i < |err.value| - 1 && FirstOpErrorAt(err.value, i) && err.value[i + 1] == Errno(EADDRINUSE)
  {
    if err.None? then BindOk
    else if WrapsBusyErrno(err.value, FirstOpError(err.value, 0)) then
      assert FirstOpErrorAt(err.value, FirstOpError(err.value, 0).value);
      AddrInUse
    else OtherBindError
  }

  /** `opErr.Err.(syscall.Errno)` succeeding with EADDRINUSE, for the `OpError` found at `at`. */
  predicate WrapsBusyErrno(err: seq<ErrLayer>, at: Option<nat>) {
    at.Some? && at.value + 1 < |err| && err[at.value + 1] == Errno(EADDRINUSE)
  }

  /**
   * The evidently intended test, `errors.Is(err, syscall.EADDRINUSE)`: the
   * errno anywhere in the chain, however it is wrapped. The retry model
   * describes the intended program when its oracle is `IntendedBind(listen)`.
   */
  function ClassifyIntended(err: Option<seq<ErrLayer>>): (b: BindResult)
    ensures b == BindOk <==> err.None?
    ensures b == AddrInUse <==> err.Some? && exists i :: 0 <= i < |err.value| && err.value[i] == Errno(EADDRINUSE)
  {
    if err.None? then BindOk
    else if Errno(EADDRINUSE) in err.value then AddrInUse
    else OtherBindError
  }

  /** The bind oracle seen by the code as written, given the raw error of each `ListenUDP` call. */
  function AsWrittenBind(listen: int -> Option<seq<ErrLayer>>): int -> BindResult {
    p => ClassifyAsWritten(listen(p))
  }

  /** The bind oracle under the intended test. */
  function IntendedBind(listen: int -> Option<seq<ErrLayer>>): int -> BindResult {
    p => ClassifyIntended(listen(p))
  }

  datatype TransportOutcome =
    | InvalidAddress           // ResolveUDPAddr failed
    | Bound(port: int)         // bound on one of the fixed ports
    | BoundEphemeral           // bound on an OS-assigned port
    | BindFailed(port: int)    // a non-EADDRINUSE error on this port
    | EphemeralFailed          // the fallback bind failed

  /** The outcome together with the ports handed to `ListenUDP`, in call order (0 is the ephemeral request). */
  datatype Attempt = Attempt(outcome: TransportOutcome, tried: seq<int>)

  /** The first port tried for a resolved address. */
  function StartPort(requested: Port): (p: int)
    ensures requested == 0 ==> p == 6121
    ensures requested != 0 ==> p == requested
    ensures p >= 1
  {
    if requested == 0 then DefaultPort else requested
  }

  /** The fallback after every fixed port was busy: one bind on port 0. */
  function Ephemeral(bind: int -> BindResult): TransportOutcome {
    if bind(0) == BindOk then BoundEphemeral else EphemeralFailed
  }

  /** Every port in `[lo, hi)` answers EADDRINUSE. */
  predicate AllBusy(bind: int -> BindResult, lo: int, hi: int) {
    forall p :: lo <= p < hi ==> bind(p) == AddrInUse
  }

  /** The `n` consecutive ports from `lo`, ascending. */
  function Ports(lo: int, n: nat): (s: seq<int>)
    ensures |s| == n && forall k :: 0 <= k < n ==> s[k] == lo + k
  {
    seq(n, k => lo + k)
  }

  /** The retry loop from iteration `i`, the ports before `start + i` all having been in use. */
  function TryFrom(start: int, i: nat, bind: int -> BindResult): (a: Attempt)
    requires i <= MaxRetries
    requires AllBusy(bind, start, start + i)
    ensures a.outcome.Bound? ==> start + i <= a.outcome.port < start + 32 && bind(a.outcome.port) == BindOk
    ensures a.outcome.BindFailed? ==> start + i <= a.outcome.port < start + 32 && bind(a.outcome.port) == OtherBindError
    ensures (a.outcome.Bound? || a.outcome.BindFailed?) ==>
              && AllBusy(bind, start, a.outcome.port)
              && a.tried == Ports(start + i, a.outcome.port - (start + i) + 1)
    ensures (a.outcome.BoundEphemeral? || a.outcome.EphemeralFailed?) <==> AllBusy(bind, start, start + 32)
    ensures (a.outcome.BoundEphemeral? || a.outcome.EphemeralFailed?) ==>
              a.outcome == Ephemeral(bind) && a.tried == Ports(start + i, 32 - i) + [0]
    ensures !a.outcome.InvalidAddress?
    decreases MaxRetries - i
  {
    if i == MaxRetries then Attempt(Ephemeral(bind), [0])
    else
      var port := start + i;
      match bind(port)
      case BindOk => Attempt(Bound(port), [port])
      case OtherBindError => Attempt(BindFailed(port), [port])
      case AddrInUse =>
        var rest := TryFrom(start, i + 1, bind);
        assert [port] + Ports(start + i + 1, 32 - i - 1) == Ports(start + i, 32 - i);
        assert rest.outcome.Bound? || rest.outcome.BindFailed? ==>
          [port] + Ports(port + 1, rest.outcome.port - (port + 1) + 1) == Ports(port, rest.outcome.port - port + 1);
        Attempt(rest.outcome, [port] + rest.tried)
  }

  /**
   * `NewTransport`: start at the requested port (6121 for port 0), try 32
   * ascending ports, advance only on EADDRINUSE, abort on any other error
   * naming the port, and after 32 busy ports bind once to port 0.
   */
  function NewTransport(resolved: Option<Port>, bind: int -> BindResult): (a: Attempt)
    ensures resolved.None? <==> a.outcome.InvalidAddress?
    ensures resolved.None? ==> a.tried == []
    ensures resolved.Some? ==> var start := StartPort(resolved.value);
      && (a.outcome.Bound? ==> start <= a.outcome.port < start + 32 && bind(a.outcome.port) == BindOk)
      && (a.outcome.BindFailed? ==> start <= a.outcome.port < start + 32 && bind(a.outcome.port) == OtherBindError)
      && ((a.outcome.Bound? || a.outcome.BindFailed?) ==>
            AllBusy(bind, start, a.outcome.port) && a.tried == Ports(start, a.outcome.port - start + 1))
      && ((a.outcome.BoundEphemeral? || a.outcome.EphemeralFailed?) <==> AllBusy(bind, start, start + 32))
      && ((a.outcome.BoundEphemeral? || a.outcome.EphemeralFailed?) ==> a.tried == Ports(start, 32) + [0])
      && (a.outcome.BoundEphemeral? ==> bind(0) == BindOk)
      && (a.outcome.EphemeralFailed? ==> bind(0) != BindOk)
  {
    match resolved
    case None => Attempt(InvalidAddress, [])
    case Some(port) => TryFrom(StartPort(port), 0, bind)
  }

  /** No port is handed to `ListenUDP` twice. */
  lemma NeverTriesTwice(resolved: Option<Port>, bind: int -> BindResult)
    ensures var t := NewTransport(resolved, bind).tried;
      forall i, j :: 0 <= i < j < |t| ==> t[i] != t[j]
  {
  }

  /** The retry loop from iteration `i` reaches the first free port `start + k` and binds it. */
  lemma {:induction false} TryFromReachesFreePort(start: int, i: nat, bind: int -> BindResult, k: nat)
    requires i <= k < 32
    requires AllBusy(bind, start, start + k)
    requires bind(start + k) == BindOk
    ensures TryFrom(start, i, bind).outcome == Bound(start + k)
    decreases k - i
  {
    if i < k {
      assert bind(start + i) == AddrInUse;
      TryFromReachesFreePort(start, i + 1, bind, k);
    }
  }

  /** With the first `k` ports busy and the next one free, the transport binds that port. */
  lemma FirstFreePortWins(requested: Port, bind: int -> BindResult, k: nat)
    requires k < 32
    requires AllBusy(bind, StartPort(requested), StartPort(requested) + k)
    requires bind(StartPort(requested) + k) == BindOk
    ensures NewTransport(Some(requested), bind).outcome == Bound(StartPort(requested) + k)
  {
    TryFromReachesFreePort(StartPort(requested), 0, bind, k);
  }

  /** Any error other than EADDRINUSE on the first port aborts at once, reporting that port. */
  lemma OtherErrorAbortsAtOnce(requested: Port, bind: int -> BindResult)
    requires bind(StartPort(requested)) == OtherBindError
    ensures NewTransport(Some(requested), bind) == Attempt(BindFailed(StartPort(requested)), [StartPort(requested)])
  {
  }

  /** As written, no error `ListenUDP` returns is taken for a busy port, whatever its errno. */
  lemma AsWrittenMissesListenErrors(errno: int)
    ensures ClassifyAsWritten(Some(ListenUdpError(errno))) == OtherBindError
  {
    assert FirstOpError(ListenUdpError(errno), 0) == Some(0);
  }

  /** The intended test recognises exactly the busy-port errno in a `ListenUDP` error. */
  lemma IntendedRecognisesBusyPort(errno: int)
    ensures ClassifyIntended(Some(ListenUdpError(errno))) == AddrInUse <==> errno == EADDRINUSE
  {
    assert ListenUdpError(errno)[2] == Errno(errno);
  }

  /** Every error the code as written treats as busy is busy under the intended test too. */
  lemma AsWrittenBusyIsIntendedBusy(err: Option<seq<ErrLayer>>)
    ensures ClassifyAsWritten(err) == AddrInUse ==> ClassifyIntended(err) == AddrInUse
  {
  }

  /** As written, a busy first port aborts the transport after one attempt instead of moving on. */
  lemma BusyPortAbortsAsWritten(requested: Port, listen: int -> Option<seq<ErrLayer>>)
    requires listen(StartPort(requested)) == Some(ListenUdpError(EADDRINUSE))
    ensures NewTransport(Some(requested), AsWrittenBind(listen)) ==
              Attempt(BindFailed(StartPort(requested)), [StartPort(requested)])
  {
    AsWrittenMissesListenErrors(EADDRINUSE);
  }

  /** Under the intended test, a busy first port and a free second one bind the second. */
  lemma BusyPortRetriesIntended(requested: Port, listen: int -> Option<seq<ErrLayer>>)
    requires listen(StartPort(requested)) == Some(ListenUdpError(EADDRINUSE))
    requires listen(StartPort(requested) + 1).None?
    ensures NewTransport(Some(requested), IntendedBind(listen)) ==
              Attempt(Bound(StartPort(requested) + 1), [StartPort(requested), StartPort(requested) + 1])
  {
    IntendedRecognisesBusyPort(EADDRINUSE);
    var bind := IntendedBind(listen);
    FirstFreePortWins(requested, bind, 1);
  }
}
