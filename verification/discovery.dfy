/**
 * Remote tree discovery. The announcing side answers a `fetchNode` request
 * with the shape of the subtree at the requested path, every function replaced
 * by its arity; the consuming side turns that shape into a tree of proxies,
 * each bound to the full dotted path of the remote function it stands for.
 */
module Discovery {
  import opened Wrappers
  import opened FunctionTree

  /** An announced shape: objects stay objects, a function becomes its `length`. */
  datatype Shape = SObj(fields: map<string, Shape>) | SArity(n: nat)

  /** The answer to `fetchNode`: `{path}` when nothing is there, else `{path, tree}`. */
  datatype NodeReply = NodeReply(path: string, tree: Option<Shape>)

  /**
   * A proxy tree: nested objects whose leaves call the peer. A remote call
   * keeps the announced leaf it replaced as its `remoteLength`: an arity, or
   * an empty object.
   */
  datatype Proxy = PNode(members: map<string, Proxy>) | Remote(fnPath: string, remoteLength: Shape)

  /** The error a consumer rejects with when the peer has no such node. */
  datatype NodeError = NodeError(message: string, path: string)

  const NotDefinedPrefix: string := "Node is not defined on the socket "

  /** `s` has the keys of `t` at every level and the arity of each of its functions. */
  predicate Mirrors(s: Shape, t: Tree)
  {
    match t
    case Fn(n) => s == SArity(n)
    case Node(m) =>
      s.SObj? && s.fields.Keys == m.Keys && forall k | k in m :: Mirrors(s.fields[k], m[k])
  }

  /**
   * `traverse(methods).map(...)` of the announcing side: a leaf function is
   * replaced by its arity; an empty object is a leaf too, but its `length` is
   * undefined, so it stays an empty object.
   */
  function Announce(t: Tree): (s: Shape)
    ensures Mirrors(s, t)
  {
    match t
    case Fn(n) => SArity(n)
    case Node(m) => SObj(map k | k in m :: Announce(m[k]))
  }

  /** The keys looked up for a requested path: none for the empty path (the whole tree). */
  function Base(path: string): seq<string>
  {
    if path == "" then [] else Split(path)
  }

  /** The `fetchNode` handler of the announcing side. */
  function OnFetchNode(tree: Tree, path: string): (r: NodeReply)
    ensures r.path == path
    ensures r.tree.None? <==> Get(tree, Base(path)).None?
    ensures path == "" ==> r.tree.Some? && Mirrors(r.tree.value, tree)
    ensures r.tree.Some? ==> Mirrors(r.tree.value, Get(tree, Base(path)).value)
  {
    var methods := if path != "" then Get(tree, Split(path)) else Some(tree);
    if methods.None? then NodeReply(path, None)
    else NodeReply(path, Some(Announce(methods.value)))
  }

  function ShapeAt(s: Shape, keys: seq<string>): Option<Shape>
    decreases |keys|
  {
    if keys == [] then Some(s)
    else if s.SObj? && keys[0] in s.fields then ShapeAt(s.fields[keys[0]], keys[1..])
    else None
  }

  /** Looking up keys in the announced shape is announcing what the tree has there. */
  lemma {:induction false} AnnounceAt(t: Tree, keys: seq<string>)
    ensures ShapeAt(Announce(t), keys) == if Get(t, keys).Some? then Some(Announce(Get(t, keys).value)) else None
    decreases |keys|
  {
    if keys != [] && t.Node? && keys[0] in t.children {
      AnnounceAt(t.children[keys[0]], keys[1..]);
    }
  }

  /** A leaf for traverse: anything without keys. */
  predicate IsShapeLeaf(s: Shape)
  {
    s.SArity? || s.fields == map[]
  }

  /** `data.path + '.' + keyPath`, or the key path alone when `data.path` is empty. */
  function BindPath(path: string, keys: seq<string>): string
  {
    if path == "" then Join(keys) else path + [Dot] + Join(keys)
  }

  /**
   * `p` has the keys of `s` at every level, and a remote call exactly where
   * `s` has a leaf, carrying that leaf.
   */
  predicate ProxyMirrors(p: Proxy, s: Shape)
  {
    if IsShapeLeaf(s) then p.Remote? && p.remoteLength == s
    else p.PNode? && p.members.Keys == s.fields.Keys && forall k | k in s.fields :: ProxyMirrors(p.members[k], s.fields[k])
  }

  /** `traverse(data.tree).map(...)` of the consuming side, below the keys `prefix`. */
  function BuildProxy(s: Shape, path: string, prefix: seq<string>): (p: Proxy)
    ensures ProxyMirrors(p, s)
  {
    if IsShapeLeaf(s) then Remote(BindPath(path, prefix), s)
    else PNode(map k | k in s.fields :: BuildProxy(s.fields[k], path, prefix + [k]))
  }

  /** `if (data.tree)`: a missing tree and the number 0 are falsy. */
  predicate Truthy(tree: Option<Shape>)
  {
    tree.Some? && tree.value != SArity(0)
  }

  /** The `fetchNode` acknowledgement on the consuming side. */
  function OnNodeReply(data: NodeReply, socketId: string): (r: Result<Proxy, NodeError>)
    ensures r.Failure? <==> !Truthy(data.tree)
    ensures r.Failure? ==> r.error == NodeError(NotDefinedPrefix + socketId, data.path)
    ensures r.Success? ==> ProxyMirrors(r.value, data.tree.value)
  {
    if Truthy(data.tree) then Success(BuildProxy(data.tree.value, data.path, []))
    else Failure(NodeError(NotDefinedPrefix + socketId, data.path))
  }

  function ProxyAt(p: Proxy, keys: seq<string>): Option<Proxy>
    decreases |keys|
  {
    if keys == [] then Some(p)
    else if p.PNode? && keys[0] in p.members then ProxyAt(p.members[keys[0]], keys[1..])
    else None
  }

  /**
   * The proxy tree has the keys of the shape; it has a remote call exactly
   * where the shape has a leaf, bound to the path joined from `data.path` and
   * the leaf's keys.
   */
  lemma {:induction false} ProxyAtShape(s: Shape, path: string, prefix: seq<string>, keys: seq<string>)
    ensures ProxyAt(BuildProxy(s, path, prefix), keys).Some? <==> ShapeAt(s, keys).Some?
    ensures ShapeAt(s, keys).Some? ==>
      (ProxyAt(BuildProxy(s, path, prefix), keys).value.Remote? <==> IsShapeLeaf(ShapeAt(s, keys).value))
    ensures ShapeAt(s, keys).Some? && IsShapeLeaf(ShapeAt(s, keys).value) ==>
      ProxyAt(BuildProxy(s, path, prefix), keys).value
        == Remote(BindPath(path, prefix + keys), ShapeAt(s, keys).value)
    decreases |keys|
  {
    if keys == [] {
      assert prefix + keys == prefix;
    } else if !IsShapeLeaf(s) && keys[0] in s.fields {
      var k := keys[0];
      ProxyAtShape(s.fields[k], path, prefix + [k], keys[1..]);
      assert prefix + [k] + keys[1..] == prefix + keys;
    }
  }

  lemma AnnouncedArity(u: Tree, n: nat)
    ensures Announce(u) == SArity(n) <==> u == Fn(n)
  {
  }

  /**
   * The round trip of discovery: a proxy leaf built from the announcement of
   * a function, under dot-free keys, is bound to a path that the announcing
   * side's lookup resolves to that very function.
   */
  lemma DiscoveryRoundTrip(tree: Tree, path: string, socketId: string, keys: seq<string>, f: string, n: nat)
    requires OnNodeReply(OnFetchNode(tree, path), socketId).Success?
    requires ProxyAt(OnNodeReply(OnFetchNode(tree, path), socketId).value, keys) == Some(Remote(f, SArity(n)))
    requires keys != [] && DotFree(keys)
    ensures Split(f) == Base(path) + keys
    ensures Get(tree, Split(f)) == Get(tree, Base(path) + keys) == Some(Fn(n))
  {
    var sub := Get(tree, Base(path)).value;
    var s := Announce(sub);
    assert OnFetchNode(tree, path).tree == Some(s);
    ProxyAtShape(s, path, [], keys);
    assert [] + keys == keys;
    var leaf := ShapeAt(s, keys).value;
    assert leaf == SArity(n) && f == BindPath(path, keys);
    AnnounceAt(sub, keys);
    AnnouncedArity(Get(sub, keys).value, n);
    SplitJoin(keys);
    if path != "" {
      SplitAtDot(path, Join(keys));
    }
    GetAppend(tree, Base(path), keys);
  }

  /**
   * Fetching a path that names a function: the shape is the bare arity, so a
   * zero-arity function is reported as not defined, and any other gives a
   * single proxy bound to `path + '.'`, which no lookup resolves.
   */
  lemma FetchFunctionPath(tree: Tree, path: string, socketId: string, n: nat)
    requires path != "" && Get(tree, Split(path)) == Some(Fn(n))
    ensures n == 0 ==> OnNodeReply(OnFetchNode(tree, path), socketId).Failure?
    ensures n > 0 ==> OnNodeReply(OnFetchNode(tree, path), socketId) == Success(Remote(path + [Dot], SArity(n)))
    ensures Get(tree, Split(path + [Dot])) == None
  {
    SplitAtDot(path, "");
    assert path + [Dot] + "" == path + [Dot];
    GetBelowFn(tree, Split(path), [""]);
  }
}
