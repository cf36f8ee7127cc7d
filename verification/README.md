# zaprpc decision logic in Dafny

This project models the decision logic of zaprpc, a small RPC library in Go that runs over QUIC. A client opens one stream per call. It sends `struct{ ServiceMethod string; Args []any }` on the stream and reads back a `ZapResponse{Value}`. The server does the following:

- it binds a UDP port; the retry on busy ports is meant to move to the next port, but as written it aborts (see "## Findings");
- it accepts connections and then streams;
- it splits `"Service.Method"` at the first `.` and looks up a registered service;
- it calls the method by reflection and shapes its results by the trailing-error convention;
- it writes the value, or a `struct{ Error string }` error reply.

All networking is replaced by abstract inputs. Bind results, dial results, stream exchanges and codec outcomes are oracle functions. Accept results are event sequences. Each operation is a pure function from those inputs to what the code returns or does.

Modules, one per component:

- `Wrappers` (wrappers.dfy): `Option` and `Result`.
- `Values` (values.dfy): transportable values. Go's `int` is the 64-bit `Int64`, with explicit wrap-around (`Wrap64`).
- `ErrorClass` (errorclass.dfy): `isGracefulClose` and `isTimeout` of helpers.go. A Go error is its unwrap chain (`seq<ErrKind>`, and `[]` is nil). `errors.Is` is membership in the chain. `errors.As` is the first element of a kind.
- `Dispatch` (dispatch.dfy): `parseServiceMethod`, the registry and `callMethod`. Reflection becomes an explicit method table `map<string, Method>`. A `Method` is a function from arguments to `Panic` or `Returns(results)`. Each result is `Plain(v)`, `ErrorTyped(nil or message)` or `ErrorValue(message)`. `ErrorTyped` marks a result whose declared type implements `error` and can be nil. `ErrorValue` marks one whose type implements `error` but cannot be nil, such as `syscall.Errno`; `reflect.Value.IsNil` panics on it.
- `Config` and `ServerSetup` (config.dfy, server_setup.dfy): the config records, `NewServer` defaulting, the `With*` setters and `RegisterService`.
- `Transport` (transport.dfy): the port-retry policy of `NewTransport`.
- `Lifecycle` (lifecycle.dfy): the accept loops of `Serve` and `handleSession`, and the actions `handleStream` takes on its stream.
- `Client` (client.dfy): `NewConn` and `Zap`.
- `Calculator` (calculator.dfy): the example `CalculatorServiceImpl` registered as "Calculator".
- `EndToEnd` (endtoend.dfy): one call from `Zap` through `handleStream` and back.

## Where the code departs from what callers might expect

The model follows the code in each case below.

- Service names: callers might expect an empty service or method part to be rejected as malformed. `parseServiceMethod` accepts both. The method part may itself contain dots (`ParseServiceMethod`, `ParseJoin`).
- Argument mismatch: callers might expect a dispatch error naming the mismatch. In the code, `method.Call` panics and `handleStream` recovers the panic. The stream is cancelled and no reply is sent (`ArityMismatchPanics`, `HandleStream`).
- Trailing nil error: one might expect it to be dropped and the remaining results to be classified again. The code inspects only the last result, once (`ShapeChecksLastOnly`).
- Zero results: one might expect a void value, distinct from any slice. The code returns an empty slice (`ShapeNoResults`).
- `NewConn` config type: client.go:14 takes a `*ClientConfig` but reads `TLSConfig` and `QUICConfig`, which only `ConnectionConfig` (config.go:25-28) has. The model takes a `ConnectionConfig`.

## Model

| member | source | states |
|---|---|---|
| Values.Wrap64 | example/server/main.go:22-32 | Go `int` arithmetic: the exact result when it fits in 64 bits, and otherwise a value congruent to it modulo 2^64 |
| ErrorClass.As | helpers.go:21-22 | `errors.As` finds the first element of the chain of the requested kind; it fails exactly when no element has that kind |
| ErrorClass.NilClassification | helpers.go:11-31 | a nil error is a graceful close and is not a timeout |
| ErrorClass.GracefulCharacterization | helpers.go:11-26 | `isGracefulClose` holds exactly for nil, or for a chain containing EOF, `net.ErrClosed`, `context.Canceled` or a QUIC application error |
| ErrorClass.TimeoutCharacterization | helpers.go:28-42 | `isTimeout` holds exactly for a non-nil chain that contains a deadline-exceeded error or an idle timeout, or whose first element with a `Timeout()` method answers true |
| ErrorClass.FirstTimeoutMethodDecides | helpers.go:35-39 | only the first element with a `Timeout()` method is asked; an earlier one answering false hides a later one answering true |
| ErrorClass.UnrecognisedIsFatal | helpers.go:11-42 | a non-nil chain of unrecognised errors is neither graceful nor a timeout |
| ErrorClass.NotExclusive | helpers.go:15-34 | the two predicates can both hold for one error |
| Dispatch.ScanForDot | server.go:314-319 | the scan finds a dot exactly when one exists; the service part is then dot-free and service + "." + method rebuilds the input; otherwise both parts are empty |
| Dispatch.ParseServiceMethod | server.go:313-320 | no `.` gives `("", "", false)`; otherwise the input splits at its first `.` |
| Dispatch.ParseJoin | server.go:313-320 | parsing inverts joining: any dot-free service name and any method name, empty ones included, come back unchanged |
| Dispatch.DispatchMessagesNonEmpty | server.go:266-278 | the three dispatch errors built by `callMethod` have non-empty messages |
| Dispatch.Collect | server.go:299-310 | one result is returned bare; zero or several become a slice of the same length in declared order |
| Dispatch.ShapeResults | server.go:288-310 | a non-nil trailing error is the only thing returned; a nil trailing error is dropped; the rest is collected; shaping panics exactly when the trailing error's type cannot be nil, in the `IsNil` check |
| Dispatch.ShapeErrorWins | server.go:289-293 | appending a non-nil error to any results makes the call return exactly that error |
| Dispatch.ShapeDropsNilError | server.go:291-296 | appending a nil error to results that do not already end in an error result changes nothing |
| Dispatch.ShapeNonNillableErrorPanics | server.go:289-292 | a trailing result whose type implements `error` but cannot be nil makes `IsNil` panic, whatever precedes it |
| Dispatch.ShapeEarlierErrorValueIsValue | server.go:289-301 | a non-nillable error before a nil trailing error is returned as the value, because only the last result is checked |
| Dispatch.ShapeChecksLastOnly | server.go:289-297 | an error-typed result before a nil trailing error is returned as an ordinary value |
| Dispatch.ShapeNoResults | server.go:304-310 | no results, or only a nil error, give an empty slice |
| Dispatch.Register | server.go:133-134 | after registration the name maps to the new service and every other entry is unchanged |
| Dispatch.Invoke | server.go:275-286 | an unknown method fails with method-not-found; a nil service or a panicking call panics; otherwise the results are shaped |
| Dispatch.CallMethod | server.go:262-311 | the failures come in a fixed order: invalid name exactly when there is no `.`, then service-not-found exactly when the service part is unregistered, then method lookup |
| Dispatch.CallAfterRegister | server.go:263-279 | after registering `s` under a dot-free name, calls to that name reach `s` |
| Dispatch.RegisterLeavesOthers | server.go:133-134 | a registration changes no call addressed to another service |
| Config.DefaultQuicConfig | server.go:33-37 | the default QUIC config has a 15-second keep-alive |
| Config.ServerBootstrapTls | server.go:339-342 | the generated server TLS config carries a self-signed certificate and the protocol "zaprpc", and sets no minimum version, no server name and no verification skip |
| Config.ClientDefaultTls | client.go:26-33 | the default client TLS config has minimum version TLS 1.3, server name equal to the host, verification on, and protocol "zaprpc" |
| ServerSetup.NewServer | server.go:25-51 | the registry starts empty; supplied logger, QUIC, TLS and codec are kept; nil ones get Nop, 15-second keep-alive, bootstrap TLS and gob; the transport is copied and never defaulted |
| ServerSetup.NewServerIdempotent | server.go:25-44 | building a server from an already built config changes nothing |
| ServerSetup.NewServerKeepsFilled | server.go:26-44 | a config with every defaulted field set is copied unchanged |
| ServerSetup.WithTransport | server.go:106-112 | a non-nil argument replaces the transport and nothing else; nil leaves the server unchanged |
| ServerSetup.WithQuicConfig | server.go:113-119 | a non-nil argument replaces the QUIC config and nothing else; nil leaves the server unchanged |
| ServerSetup.WithTlsConfig | server.go:120-125 | a non-nil argument replaces the TLS config and nothing else; nil leaves the server unchanged |
| ServerSetup.WithLogger | server.go:126-131 | a non-nil argument replaces the logger and nothing else; nil leaves the server unchanged |
| ServerSetup.SettersKeepFilled | server.go:106-131 | the setters never unset a defaulted field |
| ServerSetup.SetterLastWriteWins | server.go:126-131 | setting a field twice keeps the last non-nil value |
| ServerSetup.SettersCommute | server.go:106-131 | each pair of the four setters, which set different fields, commutes for all arguments |
| ServerSetup.RegisterService | server.go:133-136 | registration adds or overwrites one entry, leaves the others and the config untouched |
| ServerSetup.RegisterLastWriteWins | server.go:133-134 | re-registering a name keeps only the last service |
| Transport.StartPort | server.go:63-66 | the first port tried is 6121 when the requested port is 0, else the requested port |
| Transport.TryFrom | server.go:68-103 | from iteration i: bind the first free port, or abort on the first port with another error; every earlier port was busy; the ports tried ascend from start + i; after 32 busy ports, one bind on port 0 |
| Transport.NewTransport | server.go:53-104 | an unresolvable address fails before any bind; otherwise the bound or failing port is the first non-busy one among start .. start+31; the ephemeral fallback happens exactly when all 32 are busy, and it is the last attempt |
| Transport.NeverTriesTwice | server.go:70-98 | no port is handed to `ListenUDP` twice |
| Transport.TryFromReachesFreePort | server.go:70-92 | from any iteration up to k, with the ports before start + k busy and that port free, the loop binds start + k |
| Transport.FirstFreePortWins | server.go:70-86 | with the first k ports busy and the next free, that port is bound |
| Transport.OtherErrorAbortsAtOnce | server.go:88-95 | any other error on the first port aborts at once, reporting that port, after a single attempt |
| Transport.FirstOpError | server.go:88-89 | `errors.As` into a `*net.OpError` finds the first `OpError` layer of the chain, and fails exactly when there is none |
| Transport.ClassifyAsWritten | server.go:77-95 | as written, a failed bind counts as busy exactly when the first `OpError` directly wraps the errno EADDRINUSE; a nil error is a successful bind |
| Transport.ClassifyIntended | server.go:88-92 | under the intended test, a failed bind counts as busy exactly when EADDRINUSE appears anywhere in its chain |
| Transport.AsWrittenMissesListenErrors | server.go:88-95 | as written, no error `ListenUDP` returns counts as busy, whatever its errno, because the errno sits under an `os.SyscallError` |
| Transport.IntendedRecognisesBusyPort | server.go:88-92 | the intended test treats a `ListenUDP` error as busy exactly when its errno is EADDRINUSE |
| Transport.AsWrittenBusyIsIntendedBusy | server.go:88-92 | every error the code as written treats as busy is also busy under the intended test |
| Transport.BusyPortAbortsAsWritten | server.go:70-95 | as written, a busy first port ends `NewTransport` with a bind failure on that port after one attempt |
| Transport.BusyPortRetriesIntended | server.go:70-92 | under the intended test, a busy first port followed by a free one binds the second port |
| Lifecycle.AcceptDecision | server.go:173-184 | a graceful error or a cancelled context stops gracefully; otherwise a timeout stops quietly; anything else is fatal and carries the error |
| Lifecycle.GracefulBeatsTimeout | server.go:174-180 | an error that is both graceful and a timeout stops gracefully |
| Lifecycle.UnrecognisedErrorIsFatal | server.go:181-183 | an unrecognised error with a live context is fatal |
| Lifecycle.AcceptLoop | server.go:171-187 | every accepted item before the first failure is handed on, in order; the loop stops exactly at the first failure, with that failure's decision |
| Lifecycle.AcceptLoopStopsAtFailure | server.go:171-185 | events after a failure are never consumed |
| Lifecycle.Serve | server.go:138-189 | setup fails exactly when no transport is supplied and `NewTransport` on port 6121 fails, and it reports that outcome; a caller-supplied transport is never closed; a transport `Serve` created is closed on every exit after it was created; when the transport is ready, a failed listen returns the listen error with no sessions, closing only a transport `Serve` created; after a successful listen the listener is closed on every exit; nil is returned only for graceful or timeout stops; a fatal accept error is returned |
| Lifecycle.CancelledServeReturnsNil | server.go:138-177 | with the transport supplied, or created by `NewTransport(":6121")` on any port it binds, ephemeral included, a failed accept with the context cancelled after any accepted connections returns nil, closes the listener, and closes the transport exactly when `Serve` created it |
| Lifecycle.HandleSession | server.go:191-212 | the session accepts streams until the first failure of any class, then closes the connection with code 0 and reason "Server closing" |
| Lifecycle.HandleStream | server.go:214-260 | a decode error or a panic cancels read and write and sends nothing; a dispatch error writes exactly one `{Error: message}` reply; success writes exactly one reply with the value; a failed write cancels the write side; the stream is closed last, once, on every path; no action is taken twice and there are at most three |
| Lifecycle.StreamAnswersEveryDecodedRequest | server.go:244-259 | with a working codec, every decoded request that does not panic is answered with the value or the error reply |
| Client.NewConn | client.go:14-47 | an empty target fails before anything else; a target `SplitHostPort` rejects fails next; every other target is dialled, and the result is the dial's; the dial uses the raw target, the supplied TLS and QUIC configs, or the TLS 1.3 default for the host and the 15-second keep-alive |
| Client.BadTargetNeverDials | client.go:15-21 | for an empty or unparsable target the result does not depend on the network: nothing is dialled |
| Client.Interpret | client.go:74-78 | an error struct with a non-empty message becomes an error with exactly that message and no value; every other value, an empty-message error struct included, is returned unchanged |
| Client.Zap | client.go:49-79 | each stream failure maps to its own error; a received reply is interpreted |
| Client.ZapSendsRequestVerbatim | client.go:57-63 | the request sent carries the method name and the arguments unchanged |
| Calculator.IntBinary | example/server/main.go:22-32 | a two-`int` method returns its one result for two integer arguments and panics on any other argument list |
| Calculator.Divide | example/server/main.go:34-39 | division by zero returns zero and the error "division by zero"; otherwise the quotient and a nil error |
| Calculator.CalculatorService | example/server/main.go:20-39 | the service exposes exactly Add, Subtract, Multiply and Divide |
| Calculator.CalculatorServer | example/server/main.go:43-48 | the example server has only "Calculator" registered, keeps its logger, keeps the transport `NewTransport` returned (nil when that bind failed, its error being discarded), and uses gob |
| Calculator.CalculatorCall | example/server/main.go:48 | calls to "Calculator.<name>" reach the calculator's method `name` |
| Calculator.AddDispatch | example/server/main.go:22-24 | "Calculator.Add" returns a + b bare, wrapped as Go `int` |
| Calculator.SubtractDispatch | example/server/main.go:26-28 | "Calculator.Subtract" returns a - b bare |
| Calculator.MultiplyDispatch | example/server/main.go:30-32 | "Calculator.Multiply" returns a * b bare |
| Calculator.DivideDispatch | example/server/main.go:34-37 | "Calculator.Divide" by zero returns only the error "division by zero"; otherwise the bare quotient |
| Calculator.AddExample | server.go:299-301 | dispatching "Calculator.Add" with 10 and 20 yields the bare value 30 |
| Calculator.NoDotExample | server.go:263-267 | "NoDotHere" fails as an invalid service method |
| Calculator.MissingServiceExample | server.go:269-273 | "Missing.Foo" fails with service not found: Missing |
| Calculator.MissingMethodExample | server.go:275-279 | "Calculator.Nope" fails with method not found: Nope |
| Calculator.ArityMismatchPanics | server.go:281-286 | a call to any of the four calculator methods with an argument list it cannot take (a wrong count or a non-integer argument) panics instead of returning an error |
| EndToEnd.ClientSeesDispatch | client.go:72-78 | a server error with a non-empty message reaches the client as that message; an empty-message error arrives as a success value; a panic leaves the client without a reply; a value arrives as the client's interpretation of it |
| EndToEnd.EncodeFailureReachesClientAsDecodeError | server.go:254-258 | when the reply cannot be encoded, the client gets no response |
| EndToEnd.SentinelShapedValueBecomesError | client.go:74-76 | a legitimate value shaped like the error sentinel is taken for an error |
| EndToEnd.DivideByZeroOverTheWire | server.go:245-253 | "Calculator.Divide" by zero reaches the client as the error "division by zero" |
| EndToEnd.AddOverTheWire | client.go:74-78 | "Calculator.Add" with 10 and 20 reaches the client as 30 |
| EndToEnd.DivideByZeroStream | server.go:244-253 | the stream for a division by zero writes exactly the reply `{Error: "division by zero"}` and closes |

## Findings

| source | as written | input that shows it | evidently intended | confidence | as-written member | corrected member |
|---|---|---|---|---|---|---|
| server.go:88-93 | a port counts as busy only when `opErr.Err` is itself a `syscall.Errno` equal to EADDRINUSE | `net.ListenUDP` on a busy port returns an `OpError` wrapping `os.NewSyscallError("bind", EADDRINUSE)`, i.e. the chain `[OpError, SyscallError("bind"), Errno(EADDRINUSE)]`; the type assertion fails and `NewTransport` returns "failed to bind UDP 6121" after one attempt | a busy port is detected however the errno is wrapped (`errors.Is(err, syscall.EADDRINUSE)`), and the loop moves to the next port | medium; based on reading Go's `net` package, not executed | Transport.ClassifyAsWritten, Transport.BusyPortAbortsAsWritten | Transport.ClassifyIntended, Transport.BusyPortRetriesIntended |

The retry model (`TryFrom`, `NewTransport`, `FirstFreePortWins`, `Serve`) takes a bind oracle that is already classified. It describes the intended behaviour, that is, the oracle is read through `ClassifyIntended` (`IntendedBind`). Under `AsWrittenBind` the same functions give the program as written, and every real busy port is then an `OtherBindError`.

## Left out

- QUIC and TLS networking are abstract. `ListenUDP` is a bind oracle. `ResolveUDPAddr` appears only as its resolved port. `tr.Listen` is a success flag. `Accept` and `AcceptStream` are event sequences. `DialAddr` is a dial oracle. `SplitHostPort` is a host oracle. `OpenStream` and the client's encode and decode are one exchange oracle. All of these are foreign I/O.
- The bind oracle answers for every integer port. Go's own rejection of ports above 65535 is left to the oracle.
- `generateTLSConfig` is left out beyond its result shape, because RSA key and certificate generation are crypto library calls.
- codec.go is treated as abstract: gob round-trips are not modelled. `Marshal` is an oracle and decode results are inputs. The end-to-end lemmas assume a codec that carries every value faithfully. With the default gob codec this assumption probably fails for some replies: gob encodes a value held in an interface field only when its concrete type is registered. Neither `struct{ Error string }` (server.go:247) nor `[]interface{}` (server.go:305) is registered in the files modelled here. If so, the error reply and multi-result replies fail to encode and take the `CancelWrite` path. `DivideByZeroOverTheWire` and `ClientSeesDispatch` then describe a codec that can carry these values, not necessarily the default build. `Zap` uses gob directly rather than a configured codec, so a server with a different codec would fail to decode client requests; this is not modelled.
- Goroutines per session and per stream are left out. Each session and stream is handled sequentially, and a spawned handler is represented by its identity being handed on. `HandleSession` takes no input from the streams it spawns, so a stream's panic cannot end it.
- Logging is left out, including the log level `handleStream` picks when a decode fails. Every class of decode failure takes the same actions.
- `context.Context` appears only as whether it is cancelled when an accept or decode fails.
- Go reflection type rules are left out beyond three things: the per-result error-typed mark, whether that error type can be nil, and a panic for an argument list the method cannot take. Unexported methods are not in the table.
- The float64 success value of `Divide` is left symbolic as `Float64Quotient(a, b)`, because floating point is out of scope.
- Error trees (`errors.Join`) and library-defined `Is`/`As` methods are left out: each error kind matches only itself. `net.ErrClosed` answers `Timeout()` with false, as Go's standard library defines it.
- example/client/main.go is left out. It calls functions client.go does not define (`NewClient`, `client.Zap`), so it has no coherent behaviour to model.
- The client-side deferred `stream.Close` in `Zap` is not modelled, because the whole stream is one exchange oracle.
