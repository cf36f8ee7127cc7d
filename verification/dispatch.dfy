/**
 * Service-name parsing, the service registry and method dispatch of
 * server.go (`parseServiceMethod`, `RegisterService`, `callMethod`). Go
 * reflection is replaced by an explicit method table per service.
 */
module Dispatch {
  import opened Wrappers
  import opened Values

  /** The triple `(service, method, found)` returned by `parseServiceMethod`. */
  datatype Parsed = Parsed(serviceName: string, methodName: string, found: bool)

  /** The scan of `parseServiceMethod` from index `i`, where no earlier character is a `.`. */
  function ScanForDot(s: string, i: nat): (p: Parsed)
    requires i <= |s|
    requires forall j :: 0 <= j < i ==> s[j] != '.'
    ensures p.found <==> '.' in s
    ensures p.found ==> p.serviceName + "." + p.methodName == s && '.' !in p.serviceName
    ensures !p.found ==> p.serviceName == "" && p.methodName == ""
    decreases |s| - i
  {
    if i == |s| then Parsed("", "", false)
    else if s[i] == '.' then Parsed(s[..i], s[i + 1..], true)
    else ScanForDot(s, i + 1)
  }

  /**
   * Splits `"Service.Method"` at the first `.`. Empty parts are accepted,
   * and the method part may itself contain further dots.
   */
  function ParseServiceMethod(s: string): (p: Parsed)
    ensures p.found <==> '.' in s
    ensures p.found ==> p.serviceName + "." + p.methodName == s && '.' !in p.serviceName
    ensures !p.found ==> p.serviceName == "" && p.methodName == ""
  {
    ScanForDot(s, 0)
  }

  /** Two dot-free prefixes of the same string before a `.` are equal. */
  lemma {:induction false} DotFreePrefixUnique(a: string, b: string, c: string, d: string)
    requires '.' !in a && '.' !in c
    requires a + "." + b == c + "." + d
    ensures a == c && b == d
  {
    var s := a + "." + b;
    assert s[|a|] == '.' && s[|c|] == '.';
    assert a == s[..|a|] == c;
    assert b == s[|a| + 1..] == d;
  }

  /** Parsing is the inverse of joining a dot-free service name and any method name. */
  lemma ParseJoin(service: string, methodName: string)
    requires '.' !in service
    ensures ParseServiceMethod(service + "." + methodName) == Parsed(service, methodName, true)
  {
    var s := service + "." + methodName;
    assert s[|service|] == '.';
    var p := ParseServiceMethod(s);
    DotFreePrefixUnique(p.serviceName, p.methodName, service, methodName);
  }

  /**
   * One value returned by a method. `ErrorTyped` is a result whose declared
   * type implements `error` and can be nil (an interface, pointer, map,
   * slice, chan or func type); `None` is the nil error. `ErrorValue` is a
   * result whose declared type implements `error` but cannot be nil (an
   * integer type such as `syscall.Errno`, or a struct with a value-receiver
   * `Error`), on which `reflect.Value.IsNil` panics.
   */
  datatype Ret = Plain(v: Value) | ErrorTyped(err: Option<string>) | ErrorValue(message: string)

  /** `reflect.Value.Interface()` of one result. */
  function Interface(r: Ret): Value {
    match r
    case Plain(v) => v
    case ErrorTyped(None) => Nil
    case ErrorTyped(Some(m)) => GoError(m)
    case ErrorValue(m) => GoError(m)
  }

  /** What `method.Call` does: panic (arity or type mismatch, or a panicking method) or return results. */
  datatype Invocation = Panic | Returns(results: seq<Ret>)

  type Method = seq<Value> -> Invocation

  /** A registered service: a nil interface value, or an instance with its exported methods. */
  datatype Service = NilService | Instance(methods: map<string, Method>)

  type Registry = map<string, Service>

  /** The errors `callMethod` returns. `Returned` is an error a method itself returned. */
  datatype CallError =
    | InvalidServiceMethod(serviceMethod: string)
    | ServiceNotFound(name: string)
    | MethodNotFound(name: string)
    | Returned(message: string)

  /** `err.Error()` for the errors of `callMethod`. */
  function Message(e: CallError): string {
    match e
    case InvalidServiceMethod(sm) => "invalid service method: " + sm
    case ServiceNotFound(n) => "service not found: " + n
    case MethodNotFound(n) => "method not found: " + n
    case Returned(m) => m
  }

  /** Every error `callMethod` builds itself has a non-empty message. */
  lemma DispatchMessagesNonEmpty(e: CallError)
    requires !e.Returned?
    ensures |Message(e)| > 0
  {
  }

  /** The outcome of `callMethod`; `Panicked` is a panic that unwinds to the stream handler. */
  datatype CallResult = Ok(value: Value) | Err(err: CallError) | Panicked

  function Last<T>(s: seq<T>): T
    requires |s| > 0
  {
    s[|s| - 1]
  }

  /** Whether the result list ends in a nillable error-typed result. */
  predicate EndsInErrorTyped(results: seq<Ret>) {
    |results| > 0 && Last(results).ErrorTyped?
  }

  /** Whether the result list ends in a result whose type implements `error`, nillable or not. */
  predicate EndsInError(results: seq<Ret>) {
    |results| > 0 && (Last(results).ErrorTyped? || Last(results).ErrorValue?)
  }

  /** One remaining result is returned bare; zero or several become a slice in declared order. */
  function Collect(results: seq<Ret>): (v: Value)
    ensures |results| == 1 ==> v == Interface(results[0])
    ensures |results| != 1 ==> v.Slice? && |v.items| == |results|
    ensures |results| != 1 ==> forall i :: 0 <= i < |results| ==> v.items[i] == Interface(results[i])
  {
    if |results| == 1 then Interface(results[0])
    else Slice(seq(|results|, i requires 0 <= i < |results| => Interface(results[i])))
  }

  /**
   * The trailing-error convention of `callMethod`: a non-nil trailing error
   * is the only thing returned; a nil one is dropped once, and the rest is
   * collected. A trailing error of a type that cannot be nil makes the
   * `IsNil` check panic.
   */
  function ShapeResults(results: seq<Ret>): (r: CallResult)
    ensures r.Panicked? <==> |results| > 0 && Last(results).ErrorValue?
    ensures r.Err? <==> EndsInErrorTyped(results) && Last(results).err.Some?
    ensures r.Err? ==> r.err == Returned(Last(results).err.value)
    ensures r.Ok? && EndsInErrorTyped(results) ==> r.value == Collect(results[..|results| - 1])
    ensures r.Ok? && !EndsInErrorTyped(results) ==> r.value == Collect(results)
  {
    if |results| > 0 && Last(results).ErrorValue? then Panicked
    else if EndsInErrorTyped(results) then
      match Last(results).err
      case Some(m) => Err(Returned(m))
      case None => Ok(Collect(results[..|results| - 1]))
    else Ok(Collect(results))
  }

  /** A non-nil trailing error wins over every other result. */
  lemma ShapeErrorWins(results: seq<Ret>, m: string)
    ensures ShapeResults(results + [ErrorTyped(Some(m))]) == Err(Returned(m))
  {
  }

  /** A nil trailing error is dropped: the call looks as if the method did not return it. */
  lemma ShapeDropsNilError(results: seq<Ret>)
    requires !EndsInError(results)
    ensures ShapeResults(results + [ErrorTyped(None)]) == ShapeResults(results)
  {
  }

  /** Only the last result is inspected: an error-typed result before a nil error is an ordinary value. */
  lemma ShapeChecksLastOnly(m: string)
    ensures ShapeResults([ErrorTyped(Some(m)), ErrorTyped(None)]) == Ok(GoError(m))
  {
  }

  /** A trailing error whose type cannot be nil panics in the `IsNil` check, whatever precedes it. */
  lemma ShapeNonNillableErrorPanics(results: seq<Ret>, m: string)
    ensures ShapeResults(results + [ErrorValue(m)]) == Panicked
  {
  }

  /** A nil trailing error after a non-nillable error result: only the last is checked, so that error is the value. */
  lemma ShapeEarlierErrorValueIsValue(m: string)
    ensures ShapeResults([ErrorValue(m), ErrorTyped(None)]) == Ok(GoError(m))
  {
  }

  /** Zero results give an empty slice, not a void value. */
  lemma ShapeNoResults()
    ensures ShapeResults([]) == Ok(Slice([]))
    ensures ShapeResults([ErrorTyped(None)]) == Ok(Slice([]))
  {
  }

  /** `RegisterService`: store under `name`, last write wins. */
  function Register(services: Registry, name: string, service: Service): (r: Registry)
    ensures name in r && r[name] == service
    ensures forall n :: n != name ==> (n in r <==> n in services)
    ensures forall n :: n != name && n in services ==> r[n] == services[n]
  {
    services[name := service]
  }

  /** Method lookup and invocation on a service that was found. */
  function Invoke(service: Service, methodName: string, args: seq<Value>): (r: CallResult)
    ensures service.NilService? ==> r.Panicked?
    ensures service.Instance? && methodName !in service.methods ==> r == Err(MethodNotFound(methodName))
    ensures service.Instance? && methodName in service.methods && service.methods[methodName](args).Panic? ==> r.Panicked?
    ensures service.Instance? && methodName in service.methods && service.methods[methodName](args).Returns? ==>
              r == ShapeResults(service.methods[methodName](args).results)
  {
    match service
    case NilService => Panicked
    case Instance(methods) =>
      if methodName !in methods then Err(MethodNotFound(methodName))
      else
        match methods[methodName](args)
        case Panic => Panicked
        case Returns(results) => ShapeResults(results)
  }

  /**
   * `callMethod`: the failures are tried in the order bad name, unknown
   * service, unknown method, and each returns no value.
   */
  function CallMethod(services: Registry, serviceMethod: string, args: seq<Value>): (r: CallResult)
    ensures var p := ParseServiceMethod(serviceMethod);
      && (r == Err(InvalidServiceMethod(serviceMethod)) <==> '.' !in serviceMethod)
      && (r == Err(ServiceNotFound(p.serviceName)) <==> '.' in serviceMethod && p.serviceName !in services)
      && ('.' in serviceMethod && p.serviceName in services ==> r == Invoke(services[p.serviceName], p.methodName, args))
  {
    var p := ParseServiceMethod(serviceMethod);
    if !p.found then Err(InvalidServiceMethod(serviceMethod))
    else if p.serviceName !in services then Err(ServiceNotFound(p.serviceName))
    else Invoke(services[p.serviceName], p.methodName, args)
  }

  /** After `Register(services, name, s)`, calls on `name` reach `s`. */
  lemma CallAfterRegister(services: Registry, name: string, s: Service, methodName: string, args: seq<Value>)
    requires '.' !in name
    ensures CallMethod(Register(services, name, s), name + "." + methodName, args) == Invoke(s, methodName, args)
  {
    ParseJoin(name, methodName);
  }

  /** Registering one name changes no call addressed to another service. */
  lemma RegisterLeavesOthers(services: Registry, name: string, s: Service, serviceMethod: string, args: seq<Value>)
    requires ParseServiceMethod(serviceMethod).serviceName != name || '.' !in serviceMethod
    ensures CallMethod(Register(services, name, s), serviceMethod, args) == CallMethod(services, serviceMethod, args)
  {
  }
}
