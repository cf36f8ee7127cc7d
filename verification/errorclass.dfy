/**
 * The transport error classifier of helpers.go. A Go error is modelled as
 * its unwrap chain, outermost first; the empty chain is the nil error.
 * `errors.Is` becomes membership in the chain and `errors.As` the first
 * element of the requested kind.
 */
module ErrorClass {
  import opened Wrappers

  /** The error values the classifier distinguishes. */
  datatype ErrKind =
    | EOF                      // io.EOF
    | NetErrClosed             // net.ErrClosed
    | ContextCanceled          // context.Canceled
    | ContextDeadlineExceeded  // context.DeadlineExceeded
    | QuicApplicationError     // *quic.ApplicationError
    | QuicIdleTimeoutError     // *quic.IdleTimeoutError
    | TimeoutReporter(timedOut: bool)  // any other error with a `Timeout() bool` method
    | OtherError(description: string)  // anything else

  type ErrorChain = seq<ErrKind>

  /**
   * Whether the kind has a `Timeout() bool` method. In the Go standard
   * library `context.DeadlineExceeded` answers true and `net.ErrClosed`
   * answers false; quic-go's idle timeout answers true.
   */
  predicate HasTimeoutMethod(k: ErrKind) {
    k.NetErrClosed? || k.ContextDeadlineExceeded? || k.QuicIdleTimeoutError? || k.TimeoutReporter?
  }

  /** What `Timeout()` returns for a kind that has the method. */
  function TimeoutOf(k: ErrKind): bool
    requires HasTimeoutMethod(k)
  {
    match k
    case TimeoutReporter(t) => t
    case NetErrClosed => false
    case _ => true
  }

  /** `errors.Is(err, target)` for a target that matches only itself. */
  predicate Is(chain: ErrorChain, target: ErrKind) {
    target in chain
  }

  /** `errors.As`: the index of the first element of the chain that `kind` accepts, scanning from `from`. */
  function AsFrom(chain: ErrorChain, kind: ErrKind -> bool, from: nat): (r: Option<nat>)
    requires from <= |chain|
    ensures r.Some? ==> from <= r.value < |chain| && kind(chain[r.value])
    ensures r.Some? ==> forall j :: from <= j < r.value ==> !kind(chain[j])
    ensures r.None? <==> forall j :: from <= j < |chain| ==> !kind(chain[j])
    decreases |chain| - from
  {
    if from == |chain| then None
    else if kind(chain[from]) then Some(from)
    else AsFrom(chain, kind, from + 1)
  }

  function As(chain: ErrorChain, kind: ErrKind -> bool): (r: Option<nat>)
    ensures r.Some? ==> r.value < |chain| && kind(chain[r.value])
    ensures r.Some? ==> forall j :: 0 <= j < r.value ==> !kind(chain[j])
    ensures r.None? <==> forall j :: 0 <= j < |chain| ==> !kind(chain[j])
  {
    AsFrom(chain, kind, 0)
  }

  /** isGracefulClose (helpers.go:11-26). */
  predicate IsGracefulClose(err: ErrorChain) {
    if |err| == 0 then true
    else if Is(err, EOF) || Is(err, NetErrClosed) || Is(err, ContextCanceled) then true
    else As(err, (k: ErrKind) => k.QuicApplicationError?).Some?
  }

  /** isTimeout (helpers.go:28-42). */
  predicate IsTimeout(err: ErrorChain) {
    if |err| == 0 then false
    else if Is(err, ContextDeadlineExceeded) then true
    else
      var te := As(err, HasTimeoutMethod);
      if te.Some? && TimeoutOf(err[te.value]) then true
      else As(err, (k: ErrKind) => k.QuicIdleTimeoutError?).Some?
  }

  /** The kinds that make a non-nil error a graceful close. */
  predicate GracefulKind(k: ErrKind) {
    k.EOF? || k.NetErrClosed? || k.ContextCanceled? || k.QuicApplicationError?
  }

  /** The `Timeout()` branch fires at `i`: the first element with the method is at `i`, and it reports true. */
  predicate TimeoutMethodFiresAt(err: ErrorChain, i: nat) {
    && i < |err|
    && HasTimeoutMethod(err[i])
    && TimeoutOf(err[i])
    && forall j :: 0 <= j < i ==> !HasTimeoutMethod(err[j])
  }

  /** A nil error is a graceful close and not a timeout. */
  lemma NilClassification()
    ensures IsGracefulClose([])
    ensures !IsTimeout([])
  {
  }

  /** isGracefulClose holds exactly for nil or a chain holding one of the four graceful kinds. */
  lemma GracefulCharacterization(err: ErrorChain)
    ensures IsGracefulClose(err) <==> (|err| == 0 || exists i :: 0 <= i < |err| && GracefulKind(err[i]))
  {
  }

  /**
   * isTimeout holds exactly for a non-nil chain holding a deadline-exceeded
   * error or an idle timeout, or whose first `Timeout()`-capable element
   * reports true.
   */
  lemma TimeoutCharacterization(err: ErrorChain)
    ensures IsTimeout(err) <==>
      (&& |err| > 0
       && (|| ContextDeadlineExceeded in err
           || QuicIdleTimeoutError in err
           || exists i :: 0 <= i < |err| && TimeoutMethodFiresAt(err, i)))
  {
    if |err| > 0 {
      var te := As(err, HasTimeoutMethod);
      var idle := As(err, (k: ErrKind) => k.QuicIdleTimeoutError?);
      if te.Some? && TimeoutOf(err[te.value]) {
        assert TimeoutMethodFiresAt(err, te.value);
      }
      if idle.Some? {
        assert err[idle.value] == QuicIdleTimeoutError;
      }
      if QuicIdleTimeoutError in err {
        var i :| 0 <= i < |err| && err[i] == QuicIdleTimeoutError;
        assert idle.Some?;
      }
      if exists i :: 0 <= i < |err| && TimeoutMethodFiresAt(err, i) {
        var i :| 0 <= i < |err| && TimeoutMethodFiresAt(err, i);
        assert te.Some?;
        assert te.value == i;
      }
    }
  }

  /**
   * Only the first element with a `Timeout()` method is asked: an earlier
   * element answering false hides a later one answering true.
   */
  lemma FirstTimeoutMethodDecides(err: ErrorChain, i: nat, j: nat)
    requires i < j < |err|
    requires HasTimeoutMethod(err[i]) && !TimeoutOf(err[i])
    requires HasTimeoutMethod(err[j]) && TimeoutOf(err[j])
    requires forall k :: 0 <= k < i ==> !HasTimeoutMethod(err[k])
    requires ContextDeadlineExceeded !in err && QuicIdleTimeoutError !in err
    ensures !IsTimeout(err)
  {
  }

  /** A non-nil chain holding none of the recognised kinds is neither graceful nor a timeout. */
  lemma UnrecognisedIsFatal(err: ErrorChain)
    requires |err| > 0
    requires forall i :: 0 <= i < |err| ==> err[i].OtherError?
    ensures !IsGracefulClose(err) && !IsTimeout(err)
  {
  }

  /** The two predicates overlap: a chain can be both graceful and a timeout. */
  lemma NotExclusive()
    ensures IsGracefulClose([ContextCanceled, ContextDeadlineExceeded])
    ensures IsTimeout([ContextCanceled, ContextDeadlineExceeded])
  {
  }
}
