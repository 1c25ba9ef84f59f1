# socket.io-rpc-event-handlers in Dafny

A model of the event handlers that turn a socket.io connection into a
bidirectional RPC channel, with proofs about it. Each end of a connection
exposes a tree of functions. It can announce that tree, or a subtree of it,
to its peer (`fetchNode`). The peer rebuilds the tree as proxies. Calling a
proxy sends a `call` message tagged with a numeric `Id`. The end that receives
the call looks the dotted `fnPath` up in its own tree, runs the function and
answers with `resolve` or `reject` under the same `Id`. Errors crossing the
boundary are wrapped as `{error: ...}`. In production their `stack` keys are
removed first.

The model has these modules:

- `Wrappers`: `Option`, `Result` and `Outcome`.
- `JsonValue`: the JSON-like values that travel in messages, and path lookup
  into them (`Select`).
- `ErrSerialization`: `errToPOJO` in both modes. The production variant walks
  the caller's error and deletes every `stack` key in place (`ErrToPojo` on
  the `ErrorRef` object). `StripStack` is the function that specifies that walk.
- `FunctionTree`: the exposed tree. Paths are split on `.` with JavaScript's
  `split` semantics and looked up key by key, as traverse's `get` does.
- `Discovery`: both sides of `fetchNode`. The announcing side maps the subtree
  to a `Shape` in which each function is replaced by its arity. The consuming
  side turns the shape into a `Proxy` tree whose leaves are bound to full
  dotted paths.
- `Events`: the log of emitted messages and hook calls (`batchStarts`,
  `batchEnds`, `calling`, `wasCalled`, `response`).
- `Dispatch`: the `call` handler, as a function from the tree, the payload,
  the mode and the outcome of the called function to the effects it produces.
- `RpcConnection`: the per-connection state, as the class `RpcSocket`. Its
  fields are `deferreds`, `invocationCounter`, `endCounter` and
  `reconnecting`, plus a record of every call issued and of the promise it
  returned. The invariant `Registry` says the following:
  - the registered `Id`s are exactly those of the calls issued and not yet
    answered;
  - each of them lies in `1..invocationCounter`;
  - there are `invocationCounter - endCounter` of them;
  - the counters are equal only when both are 0.

  From this it follows that resetting the counters never leaves an `Id`
  outstanding, and that a new call never overwrites one.

## Model

| member | source | states |
|---|---|---|
| ErrSerialization.StripStack | lib/err-serialization.js:7-9 | The stripped error has no `stack` key at any depth. Objects stay objects. Arrays keep their length. |
| ErrSerialization.StripLeavesNoStackPath | lib/err-serialization.js:7-9 | After stripping, nothing can be reached through a path that steps through a `stack` key. |
| ErrSerialization.StripKeepsOtherPaths | lib/err-serialization.js:7-9 | A path that avoids `stack` keys exists in the stripped error exactly when it exists in the original. It leads to the stripped original value. |
| ErrSerialization.StripKeepsClean | lib/err-serialization.js:7-9 | An error without `stack` keys comes out of the walk unchanged. |
| ErrSerialization.StripIdempotent | lib/err-serialization.js:7-9 | Stripping an already stripped error changes nothing. |
| ErrSerialization.Serialized | lib/err-serialization.js:5-16 | The payload is an object whose only key is `error`. In production the wrapped error is the stripped error, so it has no `stack` key anywhere. Otherwise it is the error itself, `stack` included. |
| ErrSerialization.ErrToPojo | lib/err-serialization.js:5-16 | In production the caller's error is stripped in place. Otherwise it is left alone. The result wraps the caller's error object as it is after the call. |
| FunctionTree.Split | socket-event-handlers.js:136 | `split('.')` always yields at least one segment. |
| FunctionTree.SplitCount | socket-event-handlers.js:136 | `split('.')` yields one segment more than there are dots. |
| FunctionTree.Join | socket-event-handlers.js:207 | Joining non-empty, dot-free keys puts exactly one dot between each two. |
| FunctionTree.Get | socket-event-handlers.js:168 | traverse's `get`: no keys give the tree itself. Anything found below the root lies under a key that the root object owns, so nothing is found below a function. |
| FunctionTree.GetLast | socket-event-handlers.js:168 | The lookup read from the end: the last key is looked up among the children of what the other keys lead to. A missing key, or a key asked of a function, gives nothing. |
| FunctionTree.SplitSegment | socket-event-handlers.js:136 | A key without dots splits into itself. |
| FunctionTree.SplitAtDot | socket-event-handlers.js:209 | Splitting `a + '.' + b` gives the segments of `a` followed by those of `b`. |
| FunctionTree.SplitJoin | socket-event-handlers.js:207 | Splitting the dotted join of non-empty, dot-free keys gives back those keys. |
| FunctionTree.GetAppend | socket-event-handlers.js:168 | Looking up `a + b` is looking up `b` in what `a` leads to. |
| FunctionTree.GetBelowFn | socket-event-handlers.js:136 | Nothing lies below a function. |
| Discovery.Announce | socket-event-handlers.js:178-184 | The announced shape has the keys of the tree at every level, and each function's arity in its place. |
| Discovery.OnFetchNode | socket-event-handlers.js:163-186 | The reply echoes `path`. It has no `tree` exactly when nothing is at the path. The empty path announces the whole tree. Otherwise the tree announced is the subtree at the path. |
| Discovery.AnnounceAt | socket-event-handlers.js:178-184 | Looking up keys in the announced shape gives the announcement of what the tree has there, or nothing when the tree has nothing there. |
| Discovery.OnNodeReply | socket-event-handlers.js:202-220 | The consumer fails exactly when `data.tree` is falsy. It fails with "Node is not defined on the socket <id>" carrying `data.path`. Otherwise the proxy tree it builds mirrors the announced shape. |
| Discovery.BuildProxy | socket-event-handlers.js:204-214 | The proxy tree has the keys of the shape at every level, and a remote call exactly at each leaf. Each call carries the leaf itself as its `remoteLength`: the arity, or the empty object. |
| Discovery.ProxyAtShape | socket-event-handlers.js:204-213 | The proxy tree has the keys of the shape. It has a remote call exactly where the shape has a leaf. That call is bound to `data.path + '.' + join(keys)`, or to `join(keys)` when the path is empty. Its `remoteLength` is the announced leaf: the arity of a function, or `{}` for an empty object. |
| Discovery.AnnouncedArity | socket-event-handlers.js:178-184 | A shape is the arity `n` exactly when it announces a function of arity `n`. |
| Discovery.DiscoveryRoundTrip | socket-event-handlers.js:204-212 | A proxy leaf for a function, under dot-free keys, is bound to a path that `split` turns back into the requested path's keys followed by the leaf's own keys. The announcing side's lookup of it therefore reaches the leaf's own position, which holds a function of the same arity. |
| Discovery.FetchFunctionPath | socket-event-handlers.js:166-212 | Fetching a path that names a function gives one of two results. For arity 0 the consumer reports the node as not defined. For any other arity it gives a single proxy bound to `path + '.'`, which no lookup resolves. |
| Dispatch.EmitRes | socket-event-handlers.js:129-133 | The reply is one emission of the given kind. Its keys are exactly those of the reply data plus `Id`. It carries the caller's `Id` and every field of the reply data, and is reported to `wasCalled`. |
| Dispatch.Callable | socket-event-handlers.js:141 | `method && method.apply`: every function passes. Nothing passes unless the lookup finds something. An object passes when it owns an `apply` member. |
| Dispatch.OnCall | socket-event-handlers.js:117-162 | A payload without a numeric `Id` gives exactly one `rpcError` with the fixed reason, and only then. Otherwise there is no reply or one `resolve`/`reject` tagged with the caller's `Id`. A `fnPath` that is not a string is rejected with the TypeError that `split` throws. A path that leads neither to a function nor to an object owning `apply` is rejected with "no function exposed on: <fnPath>". An `apply` member that is an object is rejected with the TypeError of calling it. Otherwise a value is resolved, and a rejection or throw is rejected with the serialised error, with no stack in production. A thrown `null` gives no reply. |
| Dispatch.OnCallReplyKeys | socket-event-handlers.js:129-161 | Every reply to a well-formed call has exactly two keys: `Id` and `value` for `resolve`, or `Id` and `error` for `reject`. |
| Dispatch.ProxiedPathIsCallable | socket-event-handlers.js:141-147 | A call through a proxy that discovery bound under dot-free keys passes the handler's test and calls a function. It is never rejected as "no function exposed". |
| RpcConnection.RegistryIsOutstanding | socket-event-handlers.js:31-71 | Under the invariant, the registered `Id`s are exactly the `Id`s of the calls not yet answered. Their deferreds are exactly those calls. |
| RpcConnection.IssueKeepsRegistry | socket-event-handlers.js:63-71 | The next `Id` is free. It is 1 exactly when the registry is empty. Registering a call under it keeps the invariant. |
| RpcConnection.EndKeepsRegistry | socket-event-handlers.js:35-45 | Completing a registered `Id` keeps the invariant. The counters are reset exactly when that empties the registry. |
| RpcConnection.RpcSocket.constructor | socket-event-handlers.js:30-86 | A connection starts with no deferreds, both counters at 0 and not reconnecting. |
| RpcConnection.RpcSocket.RemoteCall | socket-event-handlers.js:56-78 | The counter goes up by exactly one and the new `Id` was free. A `call` with that `Id`, path and arguments is emitted and reported to `calling`. `batchStarts` fires exactly when the counter has become 1. The deferred is registered under the `Id`. While reconnecting the promise is rejected with "socket <id> disconnected, call rejected", but the call is still counted, emitted and registered. The invariant is kept. |
| RpcConnection.RpcSocket.RemoteCallEnded | socket-event-handlers.js:35-50 | For a registered `Id`, only that entry is removed. `endCounter` goes up and is reported to `response`. When it reaches `invocationCounter`, `batchEnds` fires and both counters are reset. An unknown `Id` is an error and changes nothing. The invariant is kept. |
| RpcConnection.RpcSocket.OnReply | socket-event-handlers.js:187-193 | A reply for an `Id` with no deferred is an error and changes nothing. Otherwise the promise of the call sent under that `Id`, and only that one, is settled with the value or error, unless it was already settled. The call is then ended as `RemoteCallEnded` does. |
| RpcConnection.RpcSocket.OnDisconnect | socket-event-handlers.js:113-114 | `disconnect` sets `reconnecting`. |
| RpcConnection.RpcSocket.OnReconnect | socket-event-handlers.js:101-107 | `reconnect` clears `reconnecting` on a client. A server never registers that handler, so the flag stays as it was. |

## Left out

- The socket transport is not modelled: `socket.emit`, `socket.on` and the
  acknowledgement callbacks. Emissions and hook calls are appended to an
  `effects` log, and an acknowledgement is the value a handler returns.
- The `debug` logger is not modelled, because it is output with no
  behaviour.
- `co.wrap` and generator detection are not modelled. The called function's
  outcome is a parameter (`HandlerResult`): a value, which covers values
  resolved later, a synchronous throw, or a rejection. The `this` binding and
  the arguments it receives are not modelled either.
- Promise scheduling is not modelled. A promise is a settlement cell where
  the first settlement wins. The asynchronous outcome of a handler is given
  as its final result.
- The client's `initializedP` promise, `connect`/`connect_error`, and the
  assignment of `socketId` from the engine are not modelled, because they
  are transport lifecycle. `socketId` is a constant of the connection.
- `serialize-error` is the identity here. The real library also copies an
  `Error`'s non-enumerable `name`, `message` and `stack`. Because traverse
  does not see those, a thrown `Error` would still carry its stack in
  production.
- ErrSerialization.StripStack: aliasing and cycles in error objects are not
  modelled. The error is a tree value, so a subtree shared between two
  places, or with the caller, is not stripped through its other
  references.
- Dispatch.OnCall: the TypeErrors that the engine throws (for `split` of a
  non-string `fnPath`, or for an `apply` member that is an object) are
  `{name, message}` objects with V8's message text. The exact text, and the
  `stack` that a real TypeError carries, depend on the JavaScript engine.
- Dispatch.OnCall: a thrown `undefined` crashes the handler at `err.stack`,
  like `null`, but the value model has no `undefined`.
- FunctionTree.Get: a function's own properties (`length`, `name`,
  `prototype`) are not modelled, so any key asked of a function gives
  nothing.
- Numbers are integers, so a call `Id` or arity that is not an integer is
  not modelled.
- RpcConnection.RpcSocket.OnReply: reply `Id`s are integers. The coercion of
  a string `Id` such as `"1"` to the array index `1` is not modelled.
- Discovery.OnNodeReply: an empty object in the announced shape survives
  the announcement, because its `length` is undefined. The consumer then
  passes the leaf itself, `{}`, as the proxy's `remoteLength`. The model
  carries that leaf as it is, but it does not model what callers of the
  proxy make of a non-numeric `remoteLength`.
