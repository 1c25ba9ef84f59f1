/**
 * The tree of exposed functions and the dotted paths that name its members.
 * A path is split on '.' as JavaScript's `split('.')` does (the empty string
 * gives one empty segment), and looked up one key at a time as traverse's
 * `get` does: a missing key, or a key asked of a function, gives nothing.
 */
module FunctionTree {
  import opened Wrappers

  datatype Tree = Node(children: map<string, Tree>) | Fn(arity: nat)

  const Dot: char := '.'

  /** `s.split('.')`. */
  function Split(s: string): (r: seq<string>)
    ensures |r| >= 1
  {
    if s == [] then [""]
    else if s[0] == Dot then [""] + Split(s[1..])
    else
      var rest := Split(s[1..]);
      [[s[0]] + rest[0]] + rest[1..]
  }

  /** `split('.')` gives one segment more than there are dots. */
  lemma {:induction false} SplitCount(s: string)
    ensures |Split(s)| == multiset(s)[Dot] + 1
  {
    if s != [] {
      assert s == [s[0]] + s[1..];
      SplitCount(s[1..]);
    }
  }

  /** `keys.join('.')`: dot-free keys are joined with one dot between each two. */
  function Join(keys: seq<string>): (r: string)
    ensures keys != [] && DotFree(keys) ==> multiset(r)[Dot] == |keys| - 1
  {
    if keys == [] then ""
    else if |keys| == 1 then keys[0]
    else
      assert DotFree(keys) ==> DotFree(keys[1..]) by {
        if DotFree(keys) {
          forall i | 0 <= i < |keys[1..]| ensures Dot !in keys[1..][i] {
            assert keys[1..][i] == keys[i + 1];
          }
        }
      }
      keys[0] + [Dot] + Join(keys[1..])
  }

  predicate DotFree(keys: seq<string>)
  {
    forall i | 0 <= i < |keys| :: Dot !in keys[i]
  }

  /**
   * `traverse(t).get(keys)`: no keys give the tree itself, and anything found
   * below it lies under a key the root object owns.
   */
  function Get(t: Tree, keys: seq<string>): (r: Option<Tree>)
    ensures keys == [] ==> r == Some(t)
    ensures r.Some? && keys != [] ==> t.Node? && keys[0] in t.children
    decreases |keys|
  {
    if keys == [] then Some(t)
    else if t.Node? && keys[0] in t.children then Get(t.children[keys[0]], keys[1..])
    else None
  }

  /** A segment without dots splits into itself. */
  lemma {:induction false} SplitSegment(k: string)
    requires Dot !in k
    ensures Split(k) == [k]
  {
    if k != [] {
      SplitSegment(k[1..]);
      assert [k[0]] + k[1..] == k;
    }
  }

  /** Splitting at a dot splits each side. */
  lemma {:induction false} SplitAtDot(a: string, b: string)
    ensures Split(a + [Dot] + b) == Split(a) + Split(b)
  {
    if a == [] {
      assert a + [Dot] + b == [Dot] + b;
      assert ([Dot] + b)[1..] == b;
    } else {
      assert (a + [Dot] + b)[1..] == a[1..] + [Dot] + b;
      SplitAtDot(a[1..], b);
    }
  }

  /** Joining dot-free keys and splitting the result gives the keys back. */
  lemma {:induction false} SplitJoin(keys: seq<string>)
    requires keys != [] && DotFree(keys)
    ensures Split(Join(keys)) == keys
  {
    SplitSegment(keys[0]);
    if |keys| > 1 {
      SplitJoin(keys[1..]);
      SplitAtDot(keys[0], Join(keys[1..]));
    }
  }

  /** Looking up `a + b` looks up `a`, then `b` in what was found. */
  lemma {:induction false} GetAppend(t: Tree, a: seq<string>, b: seq<string>)
    ensures Get(t, a + b) == if Get(t, a).Some? then Get(Get(t, a).value, b) else None
    decreases |a|
  {
    if a == [] {
      assert a + b == b;
    } else {
      assert (a + b)[0] == a[0] && (a + b)[1..] == a[1..] + b;
      if t.Node? && a[0] in t.children {
        GetAppend(t.children[a[0]], a[1..], b);
      }
    }
  }

  /**
   * The lookup read from the other end: the last key is looked up among the
   * children of what the other keys lead to.
   */
  lemma {:induction false} GetLast(t: Tree, keys: seq<string>)
    requires keys != []
    ensures var up := Get(t, keys[..|keys| - 1]);
      var last := keys[|keys| - 1];
      Get(t, keys) == if up.Some? && up.value.Node? && last in up.value.children then Some(up.value.children[last]) else None
  {
    var n := |keys|;
    assert keys == keys[..n - 1] + [keys[n - 1]];
    GetAppend(t, keys[..n - 1], [keys[n - 1]]);
  }

  /** Nothing lies below a function. */
  lemma GetBelowFn(t: Tree, a: seq<string>, b: seq<string>)
    requires Get(t, a).Some? && Get(t, a).value.Fn? && b != []
    ensures Get(t, a + b) == None
  {
    GetAppend(t, a, b);
  }
}
