/**
 * The per-connection call registry and batch accounting. Each remote call
 * takes the next `Id` from `invocationCounter`, is emitted as a `call` message
 * and leaves a deferred in `deferreds` until the peer's `resolve` or `reject`
 * for that `Id` arrives; `endCounter` counts the completed calls of the
 * current batch, and both counters go back to 0 when the batch is over.
 */
module RpcConnection {
  import opened Wrappers
  import opened JsonValue
  import opened Events

  /** The promise a remote call returned to its caller. */
  datatype Settlement = Pending | Fulfilled(value: Json) | Broken(reason: Json)

  /** One call made through a proxy: the `Id` it was sent under, its path and arguments. */
  datatype Invocation = Invocation(id: int, fnPath: string, args: seq<Json>)

  datatype ReplyKind = ResolveReply | RejectReply

  datatype ReplyError =
    | NoDeferred(id: int)    // `deferreds[data.Id]` is undefined: the handler throws on the dereference
    | SettledTwice(id: int)  // the explicit throw of `remoteCallEnded`

  /** `{Id, fnPath, args}` of a `call` message. */
  function CallParams(id: int, fnPath: string, args: seq<Json>): Json
  {
    Obj(map["Id" := Num(id), "fnPath" := Str(fnPath), "args" := Arr(args)])
  }

  function DisconnectedError(socketId: string): Json
  {
    Single("message", Str("socket " + socketId + " disconnected, call rejected"))
  }

  /** A deferred settles once: later `resolve`/`reject` calls leave it alone. */
  function Settle(p: Settlement, s: Settlement): Settlement
  {
    if p.Pending? then s else p
  }

  function ReplySettlement(kind: ReplyKind, payload: Json): Settlement
  {
    if kind == ResolveReply then Fulfilled(payload) else Broken(payload)
  }

  /**
   * The registry invariant. The registered Ids are exactly those of the calls
   * not yet completed, each pointing at its own call; they lie in
   * 1..invocationCounter and there are invocationCounter - endCounter of
   * them. The counters are equal only when both are 0.
   */
  ghost predicate Registry(deferreds: map<int, nat>, invocations: seq<Invocation>, completed: set<nat>,
                           invocationCounter: int, endCounter: int)
  {
    && 0 <= endCounter <= invocationCounter
    && (endCounter == invocationCounter ==> invocationCounter == 0)
    && |deferreds| == invocationCounter - endCounter
    && (forall id | id in deferreds ::
          && 1 <= id <= invocationCounter
          && deferreds[id] < |invocations|
          && invocations[deferreds[id]].id == id
          && deferreds[id] !in completed)
    && (forall k | 0 <= k < |invocations| && k !in completed ::
          invocations[k].id in deferreds && deferreds[invocations[k].id] == k)
    && (forall k | k in completed :: k < |invocations|)
  }

  /** The calls issued and not yet completed. */
  ghost function Outstanding(invocations: seq<Invocation>, completed: set<nat>): set<nat>
  {
    set k | 0 <= k < |invocations| && k !in completed
  }

  /** The Ids those calls were sent under. */
  ghost function OutstandingIds(invocations: seq<Invocation>, completed: set<nat>): set<int>
  {
    set k | 0 <= k < |invocations| && k !in completed :: invocations[k].id
  }

  /** Under the invariant the registry holds exactly the outstanding calls, under their Ids. */
  lemma RegistryIsOutstanding(deferreds: map<int, nat>, invocations: seq<Invocation>, completed: set<nat>,
                              invocationCounter: int, endCounter: int)
    requires Registry(deferreds, invocations, completed, invocationCounter, endCounter)
    ensures deferreds.Keys == OutstandingIds(invocations, completed)
    ensures deferreds.Values == Outstanding(invocations, completed)
  {
    forall id | id in deferreds ensures id in OutstandingIds(invocations, completed) {
      var k := deferreds[id];
      assert 0 <= k < |invocations| && k !in completed && invocations[k].id == id;
    }
    forall k | k in Outstanding(invocations, completed) ensures k in deferreds.Values {
      assert deferreds[invocations[k].id] == k;
    }
  }

  /**
   * Issuing a call under `invocationCounter + 1` keeps the invariant: that Id
   * is free, and the registry was empty exactly when the new Id is 1.
   */
  lemma IssueKeepsRegistry(deferreds: map<int, nat>, invocations: seq<Invocation>, completed: set<nat>,
                           invocationCounter: int, endCounter: int, fnPath: string, args: seq<Json>)
    requires Registry(deferreds, invocations, completed, invocationCounter, endCounter)
    ensures invocationCounter + 1 !in deferreds
    ensures invocationCounter + 1 == 1 <==> deferreds == map[]
    ensures Registry(deferreds[invocationCounter + 1 := |invocations|],
                     invocations + [Invocation(invocationCounter + 1, fnPath, args)],
                     completed, invocationCounter + 1, endCounter)
  {
  }

  /**
   * Completing the call registered under `id` keeps the invariant: its entry
   * goes, it counts as completed, and the counters are reset exactly when
   * that empties the registry.
   */
  lemma EndKeepsRegistry(deferreds: map<int, nat>, invocations: seq<Invocation>, completed: set<nat>,
                         invocationCounter: int, endCounter: int, id: int)
    requires Registry(deferreds, invocations, completed, invocationCounter, endCounter)
    requires id in deferreds
    ensures endCounter + 1 == invocationCounter <==> deferreds - {id} == map[]
    ensures var reset := endCounter + 1 == invocationCounter;
      Registry(deferreds - {id}, invocations, completed + {deferreds[id]},
               if reset then 0 else invocationCounter, if reset then 0 else endCounter + 1)
  {
  }

  class RpcSocket {
    /** `socket.id`, or the engine id a client took when it connected. */
    const socketId: string
    /** Whether this end is the client, the only one that listens for `reconnect`. */
    const isClient: bool

    /** The deferred of each outstanding `Id`: where its call is in `invocations`. */
    var deferreds: map<int, nat>
    var invocationCounter: int
    var endCounter: int
    /** `rpc.reconnecting` */
    var reconnecting: bool
    /** Every call made so far, in order. */
    var invocations: seq<Invocation>
    /** The promise each of those calls returned, at the same position. */
    var promises: seq<Settlement>
    /** What the connection emitted and reported to its hooks, in order. */
    var effects: seq<Effect>
    /** The calls whose reply has been processed. */
    ghost var completed: set<nat>

    ghost predicate Valid()
      reads this
    {
      |promises| == |invocations| && Registry(deferreds, invocations, completed, invocationCounter, endCounter)
    }

    constructor (socketId: string, isClient: bool)
      ensures Valid()
      ensures this.socketId == socketId && this.isClient == isClient
      ensures deferreds == map[] && invocationCounter == 0 && endCounter == 0
      ensures !reconnecting && invocations == [] && promises == [] && effects == []
    {
      this.socketId := socketId;
      this.isClient := isClient;
      deferreds := map[];
      invocationCounter := 0;
      endCounter := 0;
      reconnecting := false;
      invocations := [];
      promises := [];
      effects := [];
      completed := {};
    }

    /**
     * `remoteCall`: a call through the proxy of `fnPath`. While reconnecting
     * its promise is rejected at once, but it is counted, emitted and
     * registered all the same. Returns where the call is in `invocations`.
     */
    method RemoteCall(fnPath: string, args: seq<Json>) returns (handle: nat)
      requires Valid()
      modifies this
      ensures Valid()
      ensures invocationCounter == old(invocationCounter) + 1 && endCounter == old(endCounter)
      ensures invocationCounter !in old(deferreds)
      ensures handle == |old(invocations)|
      ensures deferreds == old(deferreds)[invocationCounter := handle]
      ensures invocations == old(invocations) + [Invocation(invocationCounter, fnPath, args)]
      ensures promises == old(promises) + [if old(reconnecting) then Broken(DisconnectedError(socketId)) else Pending]
      ensures effects == old(effects) +
        [Emit("call", CallParams(invocationCounter, fnPath, args)), Calling(CallParams(invocationCounter, fnPath, args))] +
        (if invocationCounter == 1 then [BatchStarts(1)] else [])
      ensures invocationCounter == 1 <==> old(deferreds) == map[]
      ensures reconnecting == old(reconnecting)
      ensures completed == old(completed)
    {
      var promise := Pending;
      if reconnecting {
        promise := Broken(DisconnectedError(socketId));
      }
      var id := invocationCounter + 1;
      var callParams := CallParams(id, fnPath, args);
      var emitted := [Emit("call", callParams), Calling(callParams)];
      if id == 1 {
        emitted := emitted + [BatchStarts(id)];
      }
      handle := |invocations|;
      IssueKeepsRegistry(deferreds, invocations, completed, invocationCounter, endCounter, fnPath, args);
      invocationCounter, effects := id, effects + emitted;
      invocations, promises := invocations + [Invocation(id, fnPath, args)], promises + [promise];
      deferreds := deferreds[id := handle];
    }

    /** What completing the call registered under `id` does to the state. */
    twostate predicate Ended(id: int)
      reads this
    {
      && old(id in deferreds)
      && deferreds == old(deferreds) - {id}
      && completed == old(completed) + {old(deferreds)[id]}
      && var ended := old(endCounter) + 1;
         if ended == old(invocationCounter) then
           && effects == old(effects) + [Response(ended), BatchEnds(ended)]
           && invocationCounter == 0 && endCounter == 0
         else
           && effects == old(effects) + [Response(ended)]
           && invocationCounter == old(invocationCounter) && endCounter == ended
    }

    /**
     * `remoteCallEnded`: removes the deferred of `id`, counts the completion
     * and, when it was the last outstanding call, ends the batch.
     */
    method RemoteCallEnded(id: int) returns (r: Outcome<ReplyError>)
      requires Valid()
      modifies this
      ensures Valid()
      ensures old(id in deferreds) ==> r == Pass && Ended(id)
      ensures old(id !in deferreds) ==> r == Fail(SettledTwice(id)) && unchanged(this)
      ensures invocations == old(invocations) && promises == old(promises) && reconnecting == old(reconnecting)
      ensures invocationCounter == 0 <==> deferreds == map[]
    {
      if id in deferreds {
        EndKeepsRegistry(deferreds, invocations, completed, invocationCounter, endCounter, id);
        var ended := endCounter + 1;
        completed, deferreds := completed + {deferreds[id]}, deferreds - {id};
        if ended == invocationCounter {
          invocationCounter, endCounter, effects := 0, 0, effects + [Response(ended), BatchEnds(ended)];
        } else {
          endCounter, effects := ended, effects + [Response(ended)];
        }
        r := Pass;
      } else {
        r := Fail(SettledTwice(id));
      }
    }

    /**
     * The `resolve` and `reject` handlers: settle the deferred of the reply's
     * `Id` with its value or error, then end the call. A reply for an `Id`
     * with no deferred throws before anything changes.
     */
    method OnReply(kind: ReplyKind, id: int, payload: Json) returns (r: Outcome<ReplyError>)
      requires Valid()
      modifies this
      ensures Valid()
      ensures old(id !in deferreds) ==> r == Fail(NoDeferred(id)) && unchanged(this)
      ensures old(id in deferreds) ==>
        && r == Pass && Ended(id)
        && var k := old(deferreds)[id];
           && invocations[k].id == id
           && promises == old(promises)[k := Settle(old(promises)[k], ReplySettlement(kind, payload))]
      ensures invocations == old(invocations) && reconnecting == old(reconnecting)
    {
      if id !in deferreds {
        return Fail(NoDeferred(id));
      }
      var k := deferreds[id];
      // the settlement is recorded once the bookkeeping is done; nothing in between reads it
      var settled := Settle(promises[k], ReplySettlement(kind, payload));
      r := RemoteCallEnded(id);
      promises := promises[k := settled];
    }

    /** The `disconnect` handler. */
    method OnDisconnect()
      requires Valid()
      modifies this`reconnecting
      ensures Valid() && reconnecting
    {
      reconnecting := true;
    }

    /** The `reconnect` handler, which only a client registers. */
    method OnReconnect()
      requires Valid()
      modifies this`reconnecting
      ensures Valid()
      ensures reconnecting == (old(reconnecting) && !isClient)
    {
      if isClient {
        reconnecting := false;
      }
    }
  }

  /**
   * Two calls answered in the opposite order: each promise gets the value
   * sent under its own Id, and the counters reset once both are in.
   */
  method TwoCallsAnsweredOutOfOrder(a: Json, b: Json)
  {
    var socket := new RpcSocket("s1", false);
    var first := socket.RemoteCall("math.add", [Num(2), Num(3)]);
    var second := socket.RemoteCall("math.neg", [Num(1)]);
    assert socket.deferreds == map[1 := first, 2 := second];
    var r := socket.OnReply(ResolveReply, 2, b);
    assert socket.invocationCounter == 2 && socket.endCounter == 1;
    r := socket.OnReply(ResolveReply, 1, a);
    assert r == Pass && socket.deferreds == map[];
    assert socket.promises == [Fulfilled(a), Fulfilled(b)];
    assert socket.invocationCounter == 0 && socket.endCounter == 0;
  }
}
