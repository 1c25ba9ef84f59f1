/**
 * What a connection does that its peer or its embedder can observe: messages
 * it emits on the socket, and calls of the `socket.rpc.events` hooks (no-ops
 * unless the embedder replaces them).
 */
module Events {
  import opened JsonValue

  datatype Effect =
    | Emit(event: string, payload: Json)
    | Calling(params: Json)
    | WasCalled(data: Json, reply: Json)
    | BatchStarts(count: int)
    | BatchEnds(count: int)
    | Response(count: int)
}
