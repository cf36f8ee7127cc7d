/**
 * One call from `Zap` to `handleStream` and back, with a codec that
 * transports every value faithfully: the stream exchange the client sees
 * is whatever the server's stream handler wrote.
 */
module EndToEnd {
  import opened Wrappers
  import opened Values
  import opened Config
  import opened Dispatch
  import opened ServerSetup
  import opened Lifecycle
  import opened Client
  import opened Calculator

  /** The client's view of one stream served by `HandleStream` over `services`. */
  function ServedBy(services: Registry, marshal: Response -> bool): Request -> Exchange {
    (req: Request) =>
      match Delivered(HandleStream(Decoded(req), services, marshal))
      case Some(resp) => Received(resp)
      case None => ResponseDecodeFailed
  }

  /**
   * What the client gets back for each dispatch outcome: a server error
   * with a non-empty message arrives as that message, an empty-message
   * error arrives as a successful error-struct value, a panic leaves the
   * client without a response, and a value arrives as itself unless it has
   * the error sentinel's shape.
   */
  lemma ClientSeesDispatch(services: Registry, serviceMethod: string, args: seq<Value>, marshal: Response -> bool)
    requires forall resp :: marshal(resp)
    ensures var d := CallMethod(services, serviceMethod, args);
      var r := Zap(serviceMethod, args, ServedBy(services, marshal));
      && (d.Err? && Message(d.err) != "" ==> r == Failure(RemoteError(Message(d.err))))
      && (d.Err? && Message(d.err) == "" ==> r == Success(ErrorStruct("")))
      && (d.Ok? ==> r == Interpret(d.value))
      && (d.Panicked? ==> r == Failure(DecodeResponseFailed))
  {
  }

  /** A failed encode of the reply leaves the client without a response. */
  lemma EncodeFailureReachesClientAsDecodeError(services: Registry, serviceMethod: string, args: seq<Value>)
    ensures Zap(serviceMethod, args, ServedBy(services, (resp: Response) => false)) == Failure(DecodeResponseFailed)
  {
  }

  /** A value that merely has the sentinel's shape is taken for an error by the client. */
  lemma SentinelShapedValueBecomesError(text: string)
    requires text != ""
    ensures Interpret(ErrorStruct(text)) == Failure(RemoteError(text))
  {
  }

  /** "Calculator.Divide" by zero reaches the client as the error "division by zero". */
  lemma DivideByZeroOverTheWire(logger: Logger, transport: Option<TransportHandle>, a: Int64)
    ensures Zap("Calculator.Divide", [Int(a), Int(0)], ServedBy(CalculatorServer(logger, transport).services, (resp: Response) => true))
            == Failure(RemoteError("division by zero"))
  {
    var services := CalculatorServer(logger, transport).services;
    DivideDispatch(logger, transport, a, 0);
    assert Message(Returned("division by zero")) == "division by zero";
    ClientSeesDispatch(services, "Calculator.Divide", [Int(a), Int(0)], (resp: Response) => true);
  }

  /** "Calculator.Add" of 10 and 20 reaches the client as the value 30. */
  lemma AddOverTheWire(logger: Logger, transport: Option<TransportHandle>)
    ensures Zap("Calculator.Add", [Int(10), Int(20)], ServedBy(CalculatorServer(logger, transport).services, (resp: Response) => true))
            == Success(Int(30))
  {
    var services := CalculatorServer(logger, transport).services;
    AddExample(logger, transport);
    ClientSeesDispatch(services, "Calculator.Add", [Int(10), Int(20)], (resp: Response) => true);
  }

  /** The stream for "Calculator.Divide" by zero writes exactly the error reply "division by zero" and closes. */
  lemma DivideByZeroStream(logger: Logger, transport: Option<TransportHandle>, a: Int64)
    ensures HandleStream(Decoded(Request("Calculator.Divide", [Int(a), Int(0)])),
                         CalculatorServer(logger, transport).services, (resp: Response) => true)
            == [Write(Response(ErrorStruct("division by zero")), true), Close]
  {
    DivideDispatch(logger, transport, a, 0);
  }
}
