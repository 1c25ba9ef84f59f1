/**
 * The `call` handler: validates the inbound payload, resolves its dotted
 * `fnPath` in the local function tree and answers with `resolve` or `reject`,
 * tagged with the caller's `Id`. What the called function does is not
 * modelled; it is given as the result it produced for `data.args`.
 */
module Dispatch {
  import opened Wrappers
  import opened JsonValue
  import opened FunctionTree
  import opened ErrSerialization
  import opened Events
  import Discovery

  const IdKey: string := "Id"
  const FnPathKey: string := "fnPath"
  const IdRequired: string := "Id is a required property for a call data payload"
  const NoFunctionPrefix: string := "no function exposed on: "
  const ApplyKey: string := "apply"

  /**
   * How the called function ended: a value (returned, or resolved later by
   * its promise, generators included), a synchronous throw, or a rejection
   * of the promise it returned.
   */
  datatype HandlerResult = Returned(value: Json) | Threw(error: Json) | Rejected(error: Json)

  function TypeError(message: string): Json
  {
    Obj(map["name" := Str("TypeError"), "message" := Str(message)])
  }

  /**
   * What `data.fnPath.split('.')` throws when `fnPath` is not a string: a
   * missing or null `fnPath` has no properties at all, any other value has no
   * `split` method.
   */
  function SplitError(data: Json): Json
    requires data.Obj?
  {
    if FnPathKey !in data.fields then TypeError("Cannot read properties of undefined (reading 'split')")
    else if data.fields[FnPathKey].Null? then TypeError("Cannot read properties of null (reading 'split')")
    else TypeError("data.fnPath.split is not a function")
  }

  /** What `method.apply(...)` throws when the `apply` member found is an object. */
  const ApplyError: Json := TypeError("method.apply is not a function")

  /** `data && typeof data.Id === 'number'` */
  predicate WellFormedCall(data: Json)
  {
    data.Obj? && IdKey in data.fields && data.fields[IdKey].Num?
  }

  function FnPathOf(data: Json): Option<string>
  {
    if data.Obj? && FnPathKey in data.fields && data.fields[FnPathKey].Str?
    then Some(data.fields[FnPathKey].s)
    else None
  }

  /**
   * `method && method.apply`: the path leads to a function, or to an object
   * that owns an `apply` member, which the handler then calls in its place.
   */
  predicate Callable(tree: Tree, fnPath: string)
    ensures Get(tree, Split(fnPath)).Some? && Get(tree, Split(fnPath)).value.Fn? ==> Callable(tree, fnPath)
    ensures Callable(tree, fnPath) ==> Get(tree, Split(fnPath)).Some?
  {
    var found := Get(tree, Split(fnPath));
    found.Some? && (found.value.Fn? || ApplyKey in found.value.children)
  }

  /** The object found owns an `apply` member that is not a function: calling it throws. */
  predicate ApplyIsObject(tree: Tree, fnPath: string)
  {
    var found := Get(tree, Split(fnPath));
    found.Some? && found.value.Node? && ApplyKey in found.value.children && found.value.children[ApplyKey].Node?
  }

  /** `emitRes`: tag the reply with the caller's `Id`, emit it, report it to `wasCalled`. */
  function EmitRes(data: Json, kind: string, resData: Json): (effects: seq<Effect>)
    requires WellFormedCall(data) && resData.Obj?
    ensures IsReply(effects, data, kind)
    ensures effects[0].payload.fields.Keys == resData.fields.Keys + {IdKey}
    ensures forall name | name in resData.fields && name != IdKey ::
      ReplyField(effects, name) == Some(resData.fields[name])
  {
    var tagged := Obj(resData.fields[IdKey := data.fields[IdKey]]);
    [Emit(kind, tagged), WasCalled(data, tagged)]
  }

  const RpcError: Effect := Emit("rpcError", Single("reason", Str(IdRequired)))

  /** `effects` is one `kind` reply for `data`, tagged with its `Id`, seen by `wasCalled`. */
  predicate IsReply(effects: seq<Effect>, data: Json, kind: string)
    requires WellFormedCall(data)
  {
    && |effects| == 2
    && effects[0].Emit? && effects[0].event == kind
    && effects[0].payload.Obj? && IdKey in effects[0].payload.fields
    && effects[0].payload.fields[IdKey] == data.fields[IdKey]
    && effects[1] == WasCalled(data, effects[0].payload)
  }

  /** The field `name` of the reply in `effects`, as the peer receives it. */
  function ReplyField(effects: seq<Effect>, name: string): Option<Json>
  {
    if |effects| > 0 && effects[0].Emit? && effects[0].payload.Obj? && name in effects[0].payload.fields
    then Some(effects[0].payload.fields[name])
    else None
  }

  /**
   * The `call` handler. `result` is how the function called ended; it is not
   * used when no function is called.
   */
  function OnCall(tree: Tree, data: Json, production: bool, result: HandlerResult): (effects: seq<Effect>)
    ensures !WellFormedCall(data) <==> effects == [RpcError]
    ensures WellFormedCall(data) ==>
      effects == [] || IsReply(effects, data, "resolve") || IsReply(effects, data, "reject")
    ensures WellFormedCall(data) && FnPathOf(data).None? ==>
      IsReply(effects, data, "reject")
      && ReplyField(effects, ErrorKey) == Some(Serialized(production, SplitError(data)).fields[ErrorKey])
    ensures WellFormedCall(data) && FnPathOf(data).Some? && !Callable(tree, FnPathOf(data).value) ==>
      IsReply(effects, data, "reject")
      && ReplyField(effects, ErrorKey) == Some(Single("message", Str(NoFunctionPrefix + FnPathOf(data).value)))
    ensures WellFormedCall(data) && FnPathOf(data).Some? && ApplyIsObject(tree, FnPathOf(data).value) ==>
      IsReply(effects, data, "reject")
      && ReplyField(effects, ErrorKey) == Some(Serialized(production, ApplyError).fields[ErrorKey])
    ensures WellFormedCall(data) && FnPathOf(data).Some? && Callable(tree, FnPathOf(data).value)
            && !ApplyIsObject(tree, FnPathOf(data).value) ==>
      match result
      case Returned(v) => IsReply(effects, data, "resolve") && ReplyField(effects, "value") == Some(v)
      case Rejected(e) => IsReply(effects, data, "reject") && ReplyField(effects, ErrorKey) == Some(Serialized(production, e).fields[ErrorKey])
      case Threw(e) =>
        if e == Null then effects == []
        else IsReply(effects, data, "reject") && ReplyField(effects, ErrorKey) == Some(Serialized(production, e).fields[ErrorKey])
    ensures production && FnPathOf(data).Some? && Callable(tree, FnPathOf(data).value) && ReplyField(effects, ErrorKey).Some? ==>
      NoStack(ReplyField(effects, ErrorKey).value)
  {
    if !WellFormedCall(data) then [RpcError]
    else if FnPathOf(data).None? then EmitRes(data, "reject", Serialized(production, SplitError(data)))
    else
      var fnPath := FnPathOf(data).value;
      if !Callable(tree, fnPath) then
        EmitRes(data, "reject", Single(ErrorKey, Single("message", Str(NoFunctionPrefix + fnPath))))
      else if ApplyIsObject(tree, fnPath) then
        EmitRes(data, "reject", Serialized(production, ApplyError))
      else
        match result
        case Returned(v) => EmitRes(data, "resolve", Single("value", v))
        case Rejected(e) => EmitRes(data, "reject", Serialized(production, e))
        // the catch block logs `err.stack`, which itself throws for a thrown null
        case Threw(e) => if e == Null then [] else EmitRes(data, "reject", Serialized(production, e))
  }

  /**
   * A reply carries the caller's `Id` and nothing else but its `value`, for
   * `resolve`, or its `error`, for `reject`.
   */
  lemma OnCallReplyKeys(tree: Tree, data: Json, production: bool, result: HandlerResult)
    requires WellFormedCall(data)
    ensures var effects := OnCall(tree, data, production, result);
      effects != [] ==>
        && effects[0].Emit? && effects[0].payload.Obj?
        && effects[0].payload.fields.Keys == {IdKey, if effects[0].event == "resolve" then "value" else ErrorKey}
  {
  }

  /**
   * A call through a proxy that discovery bound under dot-free keys reaches a
   * function of the announcing side: the handler calls it rather than
   * rejecting the path.
   */
  lemma ProxiedPathIsCallable(tree: Tree, path: string, socketId: string, keys: seq<string>, f: string, n: nat)
    requires Discovery.OnNodeReply(Discovery.OnFetchNode(tree, path), socketId).Success?
    requires Discovery.ProxyAt(Discovery.OnNodeReply(Discovery.OnFetchNode(tree, path), socketId).value, keys)
             == Some(Discovery.Remote(f, Discovery.SArity(n)))
    requires keys != [] && DotFree(keys)
    ensures Callable(tree, f) && !ApplyIsObject(tree, f)
  {
    Discovery.DiscoveryRoundTrip(tree, path, socketId, keys, f, n);
  }
}
