# steeplejack-socketio adapter, modelled in Dafny

The repository plugs socket.io into the steeplejack server framework as a
swappable strategy. Its only logic is the `SocketIO` adapter class in
`src/strategy.js`. This project models that class and proves what it does.

- `broadcast(request, broadcast)` resolves the target of an outbound event and
  makes exactly one emission. A missing target becomes the sender's own
  socket id. A truthy target is addressed through `nsp.to(target)`. A falsy
  target (`null` or `""`) is emitted on the namespace itself. The emitted
  arguments are the event name followed by the data, in order.
- `connect(namespace, middleware)` looks up the namespace and attaches each
  middleware in list order. It then subscribes to new connections and
  returns the adapter. For each new connection the adapter emits one local
  `${namespace}_connected` event carrying `{ socket, nsp }`.
- `disconnect`, `joinChannel`, `leaveChannel` and `listen` each make one call
  on the connection. `getSocketId` reads the connection's id and calls
  nothing. `createSocket` asks the host for its raw server and builds the
  socket.io server on it.

The socket.io engine is not modelled. Its objects are plain values:
- a namespace is a server instance plus a name;
- a connection is an opaque reference plus its id;
- an addressee is either a whole namespace or the room `nsp.to(target)` names.

Every call the adapter makes on such an object is appended to a trace of
`Call` records, and so is every local event it emits. Each method's contract
states exactly which records it appends, in which order.

Files:
- `engine.dfy` (module `Engine`): the foreign objects, the `Call` records and
  `Emissions`, which extracts the emits that reach clients from a trace.
- `routing.dfy` (module `Routing`): the target datatype (`Unset | Null | Str`),
  JavaScript truthiness, target resolution, and the call sequences that
  `broadcast` and `connect` produce, with their properties.
- `strategy.dfy` (module `Strategy`): the adapter class `SocketIO`, the
  mutable `BroadcastIntent`, and the three broadcast cases of the unit tests
  (`test/unit/strategy.test.js:76-139`) as three methods, each with the test's
  event name and data on a new adapter, stated as assertions about the contracts.

Where the comment and the code disagree, the model follows the code.
The comment on `src/strategy.js:29` says a missing target broadcasts to all
connected sockets. The code on line 30 sends to the sender's own id instead,
and the unit test at `test/unit/strategy.test.js:76-97` expects that.

The code also decides what happens when the sender's id is empty. An unset
target then resolves to `""`, which is falsy, so the event reaches the
whole namespace. socket.io never hands out empty ids, but the model keeps
the case and `Routing.Route` states it.

## Model

| member | source | states |
|---|---|---|
| Routing.ResolveTarget | src/strategy.js:28-31 | the resolved target is never unset; it differs from the given one exactly when that was unset, and then it is the sender's id |
| Routing.ResolveTargetIdempotent | src/strategy.js:28-31 | once resolved, the target stays put: broadcasting the same intent object again from any connection keeps the first resolution |
| Routing.EmitArgs | src/strategy.js:37-41 | the emitted argument list has one more element than the data; the first is the event name, and data element i is argument i + 1 |
| Routing.Addressed | src/strategy.js:33-51 | a resolved target reaches a room exactly when it is truthy (a non-empty string), and then the room is that string; otherwise it reaches the whole namespace |
| Routing.Route | src/strategy.js:27-52 | unset target with a non-empty sender id goes to the sender; a non-empty explicit target goes to exactly that target; `null` or `""` goes to the whole namespace; an explicit target's routing does not depend on the sender |
| Routing.Dispatch | src/strategy.js:33-51 | the calls of one dispatch hold exactly one emission, made last; a `to` call occurs exactly when the target is truthy, with that target, and before the emit on the room it returns; nothing else is called |
| Routing.UseCalls | src/strategy.js:68 | one `use` call per middleware, call i attaching middleware i |
| Routing.UseCallsSnoc | src/strategy.js:68 | attaching one more middleware appends its `use` call after all earlier ones |
| Routing.ConnectCalls | src/strategy.js:64-79 | connect makes `of(name)` first and never again, then the `use` calls in list order, then the connection subscription last; it emits nothing to clients |
| Routing.ConnectAddsNoEmission | src/strategy.js:64-79 | whatever trace connect extends, the emissions that reach clients stay exactly as they were |
| Routing.ConnectedEvent | src/strategy.js:72 | the local event name is the namespace name followed by `_connected` |
| Routing.ConnectedEventInjective | src/strategy.js:72 | two namespaces announce connections under the same event name only if they are the same namespace |
| Strategy.SocketIO.constructor | src/strategy.js:15 | a new adapter is unbound, has registered nothing and has made no call |
| Strategy.SocketIO.Broadcast | src/strategy.js:27-52 | writes the resolved target back into the intent; appends exactly the dispatch calls for it; adds exactly one emission, routed by `Route`, with the event name followed by the data |
| Strategy.SocketIO.Connect | src/strategy.js:64-79 | unbound: throws `TypeError` and changes nothing; bound: appends the connect calls, registers one connection callback for the namespace and returns the adapter itself; no emission either way |
| Strategy.SocketIO.ConnectionArrived | src/strategy.js:70-76 | a new connection on a registered callback's namespace adds one local `${name}_connected` event carrying the socket and the namespace, and nothing else; the event is named after that namespace, and the namespace's connection subscription was already recorded |
| Strategy.SocketIO.CreateSocket | src/strategy.js:90-92 | asks the host for its raw server, builds a new socket.io server on it and keeps it as `inst` |
| Strategy.SocketIO.Disconnect | src/strategy.js:101-103 | appends exactly one `disconnect()` call on the handle's connection |
| Strategy.SocketIO.GetSocketId | src/strategy.js:114-116 | returns the id of the handle's connection |
| Strategy.SocketIO.JoinChannel | src/strategy.js:126-128 | appends exactly one `join(channel)` call on the handle's connection |
| Strategy.SocketIO.LeaveChannel | src/strategy.js:139-141 | appends exactly one `leave(channel)` call on the handle's connection |
| Strategy.SocketIO.Listen | src/strategy.js:153-155 | appends exactly one `on(event, fn)` call on the handle's connection |

## Left out

- The socket.io engine: the wire protocol, transports, rooms and membership. `io(...)`, `of`, `use`, `on`, `to`, `emit`, `join`, `leave` and `disconnect` are recorded calls with no modelled effect.
- `EventEmitter` internals: the adapter's own `this.emit` is a `LocalEmit` record. Local listeners and the boolean `emit` returns are not modelled.
- The asynchronous, repeated `connection` callback. The engine invoking callback k for a new socket is the method `ConnectionArrived`, not concurrency.
- `src/plugin.js` and the `exports.default` / `exports.inject` wiring at `src/strategy.js:160-167`. They only package the class for the framework.
- JavaScript falsy targets other than `null` and `""` (`0`, `false`, `NaN`). Targets are documented and tested only as strings or `null`.
- A `data` field that is not an array. `concat` would then append the value itself, or `undefined` when `data` is missing; the model takes `data` as a sequence.
