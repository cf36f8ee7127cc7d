/**
 * The example server of example/server/main.go: `CalculatorServiceImpl`
 * as a method table, registered under "Calculator". Each method takes two
 * Go `int` arguments; any other argument list makes `reflect.Value.Call`
 * panic.
 */
module Calculator {
  import opened Wrappers
  import opened Values
  import opened Config
  import opened Dispatch
  import opened ServerSetup

  /** The error message of `Divide` by zero. */
  const DivisionByZero: string := "division by zero"

  /** A binary `int -> int` method whose result is `op(a, b)`. */
  function IntBinary(args: seq<Value>, op: (Int64, Int64) -> Int64): (inv: Invocation)
    ensures (|args| == 2 && args[0].Int? && args[1].Int?) <==> inv.Returns?
    ensures inv.Returns? ==> inv.results == [Plain(Int(op(args[0].i, args[1].i)))]
  {
    if |args| == 2 && args[0].Int? && args[1].Int? then Returns([Plain(Int(op(args[0].i, args[1].i)))])
    else Panic
  }

  function Add(args: seq<Value>): Invocation {
    IntBinary(args, (a: Int64, b: Int64) => Wrap64(a as int + b as int))
  }

  function Subtract(args: seq<Value>): Invocation {
    IntBinary(args, (a: Int64, b: Int64) => Wrap64(a as int - b as int))
  }

  function Multiply(args: seq<Value>): Invocation {
    IntBinary(args, (a: Int64, b: Int64) => Wrap64(a as int * b as int))
  }

  /** `Divide(a, b) (float64, error)`: zero and an error for `b == 0`, else the float64 quotient and nil. */
  function Divide(args: seq<Value>): (inv: Invocation)
    ensures (|args| == 2 && args[0].Int? && args[1].Int?) <==> inv.Returns?
    ensures inv.Returns? && args[1].i == 0 ==>
              inv.results == [Plain(Float64Quotient(0, 1)), ErrorTyped(Some("division by zero"))]
    ensures inv.Returns? && args[1].i != 0 ==>
              inv.results == [Plain(Float64Quotient(args[0].i, args[1].i)), ErrorTyped(None)]
  {
    if |args| == 2 && args[0].Int? && args[1].Int? then
      var a := args[0].i;
      var b := args[1].i;
      if b == 0 then Returns([Plain(Float64Quotient(0, 1)), ErrorTyped(Some(DivisionByZero))])
      else Returns([Plain(Float64Quotient(a, b)), ErrorTyped(None)])
    else Panic
  }

  /** `new(CalculatorServiceImpl)`: its four exported methods. */
  function CalculatorService(): (s: Service)
    ensures s.Instance? && s.methods.Keys == {"Add", "Subtract", "Multiply", "Divide"}
  {
    Instance(map["Add" := Add, "Subtract" := Subtract, "Multiply" := Multiply, "Divide" := Divide])
  }

  /**
   * The server of `serverMain`: a logger and the transport `NewTransport`
   * returned for ":5000", with "Calculator" registered. `serverMain`
   * discards that call's error, so the transport is `None` when the bind
   * failed, and `Serve` then creates its own on port 6121.
   */
  function CalculatorServer(logger: Logger, transport: Option<TransportHandle>): (s: Server)
    ensures s.services.Keys == {"Calculator"} && s.services["Calculator"] == CalculatorService()
    ensures s.cfg.transport == transport && s.cfg.logger == Some(logger)
    ensures s.cfg.codec == Some(Gob)
  {
    var cfg := ServerConfig(None, None, transport, None, Some(logger));
    RegisterService(NewServer(Some(cfg)), "Calculator", CalculatorService())
  }

  /** Calls addressed to "Calculator.<name>" reach the service's method `name`. */
  lemma CalculatorCall(logger: Logger, transport: Option<TransportHandle>, name: string, args: seq<Value>)
    ensures CallMethod(CalculatorServer(logger, transport).services, "Calculator." + name, args)
            == Invoke(CalculatorService(), name, args)
  {
    assert "Calculator." + name == "Calculator" + "." + name;
    ParseJoin("Calculator", name);
  }

  /** "Calculator.Add" returns `a + b` bare, wrapped to 64 bits as Go's `int` addition is. */
  lemma AddDispatch(logger: Logger, transport: Option<TransportHandle>, a: Int64, b: Int64)
    ensures CallMethod(CalculatorServer(logger, transport).services, "Calculator.Add", [Int(a), Int(b)])
            == Ok(Int(Wrap64(a as int + b as int)))
  {
    var args := [Int(a), Int(b)];
    CalculatorCall(logger, transport, "Add", args);
    assert "Calculator." + "Add" == "Calculator.Add";
    assert CalculatorService().methods["Add"] == Add;
    var r := Wrap64(a as int + b as int);
    assert Add(args) == Returns([Plain(Int(r))]);
    assert ShapeResults([Plain(Int(r))]) == Ok(Int(r));
  }

  /** "Calculator.Subtract" returns `a - b` bare. */
  lemma SubtractDispatch(logger: Logger, transport: Option<TransportHandle>, a: Int64, b: Int64)
    ensures CallMethod(CalculatorServer(logger, transport).services, "Calculator.Subtract", [Int(a), Int(b)])
            == Ok(Int(Wrap64(a as int - b as int)))
  {
    var args := [Int(a), Int(b)];
    CalculatorCall(logger, transport, "Subtract", args);
    assert "Calculator." + "Subtract" == "Calculator.Subtract";
    assert CalculatorService().methods["Subtract"] == Subtract;
    var r := Wrap64(a as int - b as int);
    assert Subtract(args) == Returns([Plain(Int(r))]);
    assert ShapeResults([Plain(Int(r))]) == Ok(Int(r));
  }

  /** "Calculator.Multiply" returns `a * b` bare. */
  lemma MultiplyDispatch(logger: Logger, transport: Option<TransportHandle>, a: Int64, b: Int64)
    ensures CallMethod(CalculatorServer(logger, transport).services, "Calculator.Multiply", [Int(a), Int(b)])
            == Ok(Int(Wrap64(a as int * b as int)))
  {
    var args := [Int(a), Int(b)];
    CalculatorCall(logger, transport, "Multiply", args);
    assert "Calculator." + "Multiply" == "Calculator.Multiply";
    assert CalculatorService().methods["Multiply"] == Multiply;
    var r := Wrap64(a as int * b as int);
    assert Multiply(args) == Returns([Plain(Int(r))]);
    assert ShapeResults([Plain(Int(r))]) == Ok(Int(r));
  }

  /** "Calculator.Divide" by zero yields only the error "division by zero"; otherwise the bare quotient. */
  lemma DivideDispatch(logger: Logger, transport: Option<TransportHandle>, a: Int64, b: Int64)
    ensures b == 0 ==> CallMethod(CalculatorServer(logger, transport).services, "Calculator.Divide", [Int(a), Int(b)])
                       == Err(Returned("division by zero"))
    ensures b != 0 ==> CallMethod(CalculatorServer(logger, transport).services, "Calculator.Divide", [Int(a), Int(b)])
                       == Ok(Float64Quotient(a, b))
  {
    CalculatorCall(logger, transport, "Divide", [Int(a), Int(b)]);
    assert "Calculator." + "Divide" == "Calculator.Divide";
    var rs := [Plain(Float64Quotient(a, b)), ErrorTyped(None)];
    assert rs[..1] == [Plain(Float64Quotient(a, b))];
  }

  /** The worked example: `Add(10, 20)` through dispatch is the bare value 30. */
  lemma AddExample(logger: Logger, transport: Option<TransportHandle>)
    ensures CallMethod(CalculatorServer(logger, transport).services, "Calculator.Add", [Int(10), Int(20)]) == Ok(Int(30))
  {
    AddDispatch(logger, transport, 10, 20);
  }

  /** A name without a `.` fails first, whatever the registry holds. */
  lemma NoDotExample(logger: Logger, transport: Option<TransportHandle>)
    ensures CallMethod(CalculatorServer(logger, transport).services, "NoDotHere", [])
            == Err(InvalidServiceMethod("NoDotHere"))
  {
  }

  /** An unregistered service fails next. */
  lemma MissingServiceExample(logger: Logger, transport: Option<TransportHandle>)
    ensures CallMethod(CalculatorServer(logger, transport).services, "Missing.Foo", [])
            == Err(ServiceNotFound("Missing"))
  {
    ParseJoin("Missing", "Foo");
    assert "Missing" + "." + "Foo" == "Missing.Foo";
  }

  /** A registered service without the method fails last. */
  lemma MissingMethodExample(logger: Logger, transport: Option<TransportHandle>)
    ensures CallMethod(CalculatorServer(logger, transport).services, "Calculator.Nope", [])
            == Err(MethodNotFound("Nope"))
  {
    CalculatorCall(logger, transport, "Nope", []);
    assert "Calculator." + "Nope" == "Calculator.Nope";
  }

  /**
   * A call to any of the four methods with an argument list it cannot take
   * (a wrong count, or a non-integer argument) panics inside the call rather
   * than returning an error.
   */
  lemma ArityMismatchPanics(logger: Logger, transport: Option<TransportHandle>, name: string, args: seq<Value>)
    requires name in {"Add", "Subtract", "Multiply", "Divide"}
    requires !(|args| == 2 && args[0].Int? && args[1].Int?)
    ensures CallMethod(CalculatorServer(logger, transport).services, "Calculator." + name, args).Panicked?
  {
    CalculatorCall(logger, transport, name, args);
  }
}
