# ThriftMux server dispatch, modelled in Dafny

This project models the server side of the scales ThriftMux transport. That is the part that:

- accepts client connections;
- answers mux pings inline;
- forwards each other frame into the dispatch chain on a fresh per-request sink stack;
- invokes the handler method named by the request;
- turns the outcome into a `MethodReturnMessage`, which travels back through the stack and is written out as an `Rdispatch` frame under the request's tag.

Modules, one per component of `scales/thriftmux/server_sink.py`:

- `Messages` (messages.dfy): the values that travel through the chain.
  - Handler values are `PyValue`, where Python's `None` is a value of its own.
  - Errors, the property bag, request and return messages, and the terminal state of an `AsyncResult`.
  - `ReadReply`, the way a caller reads a return message back (an error wins, otherwise the return value). Reply construction is checked against it.
- `SinkStacks` (sink_stack.dfy): the per-request `ClientMessageSinkStack`, reduced to what the server sinks use.
  - `Push` of a `(sink, context)` frame.
  - `DeliverMessage`: pops the top frame and hands it the message unchanged, recorded in a delivery log.
- `MuxTransport` (transport.dfy): `ServerMuxSocketTransportSink` as a class.
  - It has a log of written frames (`sent`) and a log of calls to the next sink (`forwarded`).
  - Frames and headers are datatypes. `BuildHeader` is a constructor and `ReadHeader` a projection.
  - The received stream is a class with a read offset.
- `CallBuilder` (call_builder.dfy): `ServerCallBuilderSink`.
  - Its lookup and reply building are pure functions: `LookupMethod`, `UnknownMethodReply`, `MethodResponse` and `ProcessRequest`, with lemmas.
  - Its three methods are proved against those functions.
- `ServerSocket` (server_socket.dfy): `ThriftMuxServerSocketSink` as a class with these fields:
  - the `acceptor` field;
  - the `clients` registry keyed by peer address;
  - a log of effects (listen, start of the accept loop, start of each client).
  - Its accept loop runs over a finite sequence of accept attempts. It is proved equal to the fold `AcceptAll`, and the fold's properties are proved as lemmas.
- `Exchange` (exchange.dfy): whole exchanges on one connection.
  - It shows that the tag of a request comes back on its reply.
  - It shows that a ping never reaches the call builder.
  - It shows that two requests answered in the opposite order still get their own tags.

Points where the code is easy to misread:

- A reply carries the `Method` and `SequenceId` properties only when the invocation succeeded (`server_sink.py:113-118`). A failure reply has an empty property bag.
- The "exactly one of return value and error" rule holds per branch: a failure sets only `error`, and a success sets only `return_value`. A handler that returns `None` gives a reply with neither field set, because `MethodReturnMessage` defaults both to `None` (`NoneResultSetsNeitherField`).
- The sequence id is read from the request inside the continuation lambda (`server_sink.py:110`). A request without one therefore raises `KeyError` only after the `AsyncResult` exists, and nothing is delivered (`Dispatch.ContinuationRaised`).
- An attribute that does not exist is not answered with an error reply. `getattr` at line 102 has no default, so `AttributeError` propagates out of `AsyncProcessRequest` (`Dispatch.Propagated`). Only an attribute that exists but is not callable gets the "Unable to find callable for method ..." reply.

## Model

| member | source | states |
|---|---|---|
| `MuxTransport.ServerMuxSocketTransportSink.ProcessRecv` | scales/thriftmux/server_sink.py:29-38 | A `Tping` adds exactly one sent frame: `Rping`, same tag, length 0, empty body. Nothing is forwarded. Any other kind sends nothing, rewinds the stream to offset 0 and forwards exactly once, with that stream, on a fresh stack whose only frame is `(this, tag)` and which has delivered nothing |
| `MuxTransport.ServerMuxSocketTransportSink.AsyncProcessResponse` | scales/thriftmux/server_sink.py:40-43 | Exactly one frame is sent: the header under the pushed context with kind `Rdispatch` and length `len(body)`, followed by the unchanged body |
| `MuxTransport.ServerMuxSocketTransportSink.Send` | scales/thriftmux/server_sink.py:43 | Writing appends the frame to the socket's log and nothing else |
| `MuxTransport.PingReply` | scales/thriftmux/server_sink.py:31-32 | The ping answer has the ping's tag, kind `Rping`, declared length 0 and no body |
| `MuxTransport.DispatchReply` | scales/thriftmux/server_sink.py:41-43 | A reply frame decodes to (`Rdispatch`, context), and its declared length is the length of its body, which is the given body unchanged |
| `MuxTransport.HeaderRoundTrip` | scales/thriftmux/server_sink.py:42 | Reading back a header built for a body gives the kind and tag it was built from, and the declared length equals the body's length |
| `MuxTransport.ServerMuxSocketTransportSink.constructor` | scales/thriftmux/server_sink.py:16-18 | A new transport sink has written nothing and forwarded nothing; the log of forwarded requests stands for the calls to `next_sink` |
| `MuxTransport.RecvStream.constructor` | scales/thriftmux/server_sink.py:29 | A received stream holds the frame it was built with and is read from offset 0 |
| `MuxTransport.RecvStream.ReadHeader` | scales/thriftmux/server_sink.py:30 | Returns the received frame's kind and tag and leaves the offset past the header |
| `MuxTransport.RecvStream.Seek` | scales/thriftmux/server_sink.py:35 | Sets the read offset to the given one |
| `SinkStacks.SinkStack.constructor` | scales/thriftmux/server_sink.py:36 | A new stack has no frames and has delivered nothing |
| `SinkStacks.SinkStack.Push` | scales/thriftmux/server_sink.py:37 | Appends `(sink, context)` on top and delivers nothing |
| `SinkStacks.SinkStack.DeliverMessage` | scales/thriftmux/server_sink.py:122 | Pops exactly the top frame and records one delivery, of the unchanged message, to that frame |
| `CallBuilder.UnknownMethodReply` | scales/thriftmux/server_sink.py:104 | Read back, the reply is the failure `Exception("Unable to find callable for method <name>")`. It has no return value and no properties |
| `CallBuilder.MethodResponse` | scales/thriftmux/server_sink.py:112-118 | Read back, the reply is the outcome it was built from. It never carries both fields. A failure has no properties; a success has exactly `Method` = the method name and `SequenceId` = the sequence id |
| `CallBuilder.ProcessRequest` | scales/thriftmux/server_sink.py:101-119 | An error propagates exactly when the attribute is missing. An `AsyncResult` is created exactly when it is callable. At most one message is delivered. The immediate reply is the unknown-method reply. The later reply is the method response for the request's sequence id. The continuation raises exactly when the method is callable and the request has no `SequenceId` |
| `CallBuilder.MissingMethodRaises` | scales/thriftmux/server_sink.py:102 | A missing attribute raises `AttributeError(name)` and delivers nothing |
| `CallBuilder.NotCallableRepliesWithError` | scales/thriftmux/server_sink.py:103-106 | A non-callable attribute delivers exactly the unknown-method error reply and creates no `AsyncResult`, whatever the invocation outcome would have been |
| `CallBuilder.CallableRepliesWithOutcome` | scales/thriftmux/server_sink.py:108-119 | A callable method on a request with a sequence id delivers exactly one reply. Read back, it is the outcome. A failure carries only the error, with no properties. A success carries the value, no error, and the request's `Method` and `SequenceId` |
| `CallBuilder.DeliveredRepliesNeverBoth` | scales/thriftmux/server_sink.py:113-116 | No delivered reply carries both a return value and an error. A later reply carries an error exactly when the invocation failed |
| `CallBuilder.NoneResultSetsNeitherField` | scales/thriftmux/server_sink.py:116 | A handler returning `None` yields a reply with neither field set |
| `CallBuilder.ServerCallBuilderSink.constructor` | scales/thriftmux/server_sink.py:97-99 | The sink keeps the handler it was built with |
| `CallBuilder.ServerCallBuilderSink.AsyncProcessRequest` | scales/thriftmux/server_sink.py:101-110 | Its result is `ProcessRequest` of the handler, request and outcome. With no reply, the stack is untouched. Otherwise exactly the top frame is popped and the reply is delivered to it once |
| `CallBuilder.ServerCallBuilderSink.ProcessMethodResponse` | scales/thriftmux/server_sink.py:112-119 | Builds `MethodResponse` of the finished result and delivers that reply exactly once to the top frame |
| `CallBuilder.ServerCallBuilderSink.AsyncProcessResponse` | scales/thriftmux/server_sink.py:121-122 | Passes the message unchanged to the top frame, exactly once |
| `ServerSocket.ThriftMuxServerSocketSink.constructor` | scales/thriftmux/server_sink.py:61-67 | A new listener has no acceptor, no clients and no effects |
| `ServerSocket.ThriftMuxServerSocketSink.Open` | scales/thriftmux/server_sink.py:87-94 | While no accept loop runs, the call sets the acceptor to a loop named `Scales AcceptLoop for <service> [<host>:<port>]`. It then listens with backlog 1000, starts the loop and returns a completed result, in that order. If `listen` raises, the unstarted loop stays assigned, nothing is listened or started, and the exception leaves Open. Once the loop runs, a call changes nothing and returns a completed result |
| `ServerSocket.ThriftMuxServerSocketSink.AcceptLoop` | scales/thriftmux/server_sink.py:75-85 | After a run of attempts, the registry is `AcceptAll` of the old registry and the effects are the old ones followed by a start for each accepted client, in order |
| `ServerSocket.AcceptStep` | scales/thriftmux/server_sink.py:78-83 | One iteration removes no registered address and adds at most the address it accepted |
| `ServerSocket.AcceptAll` | scales/thriftmux/server_sink.py:76-85 | Over a run of iterations the registry only grows, by at most one address per iteration; no client is ever removed |
| `ServerSocket.AcceptAllAppend` | scales/thriftmux/server_sink.py:76-85 | Running two stretches of the loop in turn equals running them together, for the registry and for the effects |
| `ServerSocket.FailedAttemptChangesNothing` | scales/thriftmux/server_sink.py:84-85 | An attempt that raised can be dropped from any run without changing the final registry or the effects, so the loop carries on as if it had not happened |
| `ServerSocket.AcceptAllKeys` | scales/thriftmux/server_sink.py:82 | An address is registered afterwards if and only if it was registered before or some iteration accepted a client from it |
| `ServerSocket.AcceptAllLatest` | scales/thriftmux/server_sink.py:82 | The entry for an address is the client from the last iteration that accepted that address, which overwrites earlier entries |
| `ServerSocket.AcceptAllUntouched` | scales/thriftmux/server_sink.py:82 | An address that no iteration accepted keeps its previous entry |
| `ServerSocket.AllEffectsStartsRegistered` | scales/thriftmux/server_sink.py:83 | The loop starts exactly one client per accepted iteration and has no other effect. It starts a client for an address if and only if some iteration accepted that address |
| `ServerSocket.DecimalString` | scales/thriftmux/server_sink.py:66 | str() of the port is a non-empty run of decimal digits |
| `Exchange.ReplyThrough` | scales/thriftmux/server_sink.py:40-43 | A delivery that reaches the transport's frame produces one `Rdispatch` frame under that frame's context |
| `Exchange.ServeFrame` | scales/thriftmux/server_sink.py:29-43 | A ping gets its `Rping` and never reaches the call builder. Any other frame runs `ProcessRequest`. If that delivers a reply, exactly one `Rdispatch` with the request's own tag and the reply body is written; otherwise no frame is written |
| `Exchange.ServeOutOfOrder` | scales/thriftmux/server_sink.py:35-43 | The first request must be answered by its AsyncResult's continuation (line 110), the only step that can run after later frames are read. When the second is answered before it, the frames written are the second's reply under the second's tag, then the first's reply under the first's tag |

## Left out

- Sockets, `ScalesSocket.fromAccept`, `listen` and `_Send` byte I/O: replaced by logs of effects (`sent`, `effects`). Accept attempts are an input sequence of outcomes.
- `ServerSocket.ThriftMuxServerSocketSink.AcceptLoop`: a finite run of iterations stands in for `while True`, because the real loop never ends.
- Greenlets, `AsyncResult.SafeLink`, `ContinueWith(on_hub=True)` and hub ordering: concurrency and scheduling. The handler's outcome is an input, and the continuation is run to completion within the call.
- `ServerSocket.ThriftMuxServerSocketSink.Open`: `NamedGreenlet` comes from `scales/async.py`, which is not part of this model. `if not self._acceptor` is read with gevent's meaning: a greenlet is true only once it has been started and while it runs. The accept loop never returns, so a started loop stays true. An unstarted loop left behind by a failed `listen` is false, so a later Open tries again.
- `CallBuilder.MethodResponse`: `AsyncResult` comes from `scales/async.py`, which is not part of this model. The model reads `ar.successful` at line 113 as a truth value that is true exactly when the invocation returned normally. If `successful` were a method, as in gevent's `AsyncResult`, then `not ar.successful` would always be false. Every outcome would then take lines 116-118, and a failure would reply with `return_value=ar.value` (None), no error, and the `Method` and `SequenceId` properties. The failure branch of `MethodResponse`, `CallableRepliesWithOutcome` and `DeliveredRepliesNeverBoth` rests on the first reading.
- An exception raised by `client.Start()` after the client was registered is swallowed. The client stays registered, exactly as after a successful start, so the model does not tell the two apart.
- Logging calls and the logger-name formatting: they have no behaviour.
- `ThriftMuxMessageSerializerSink.ReadHeader`, `MessageSerializer.BuildHeader` and the mux header layout: they are taken as a constructor and its projections. The number of bytes a header occupies is a parameter of the stream. In the mux wire format the tag sits in a fixed-width (three-byte) field. The model's tag is an unbounded `int`, so the truncation or rejection of tags outside that width is not modelled.
- The base class `MuxSocketTransportSink` and `_ClientConnectionHandler.Start` (the client sink's `Open`): they belong to code that is not part of this model. Starting a client is recorded as an effect.
- `ClientMessageSinkStack` internals: only push and delivery to the top frame are modelled. Delivery needs a non-empty stack, because the behaviour of an empty stack is not part of this model.
- The deserializer and serializer stages between the transport and the call builder: the `Exchange` scenarios take the decoded request and the encoded reply body as inputs. Without dynamic dispatch, the scenario itself hands a delivery that reaches the transport's frame to the transport.
- The argument passing `fn(*msg.args, **msg.kwargs)`: the arguments are carried in the request but not used, because the outcome is an input.
- The no-op overrides `_CheckInitialConnection`, `_OnTimeout` and `_BuildHeader`: they have no logic.
- `test/test_pynagle.py`: a client-side load script, not part of the server.
