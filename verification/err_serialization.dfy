/**
 * The error boundary: how a failure is turned into the payload of a `reject`
 * reply. In production every `stack` key is deleted from the error, at any
 * depth and in place, before the error is wrapped as `{error: ...}`; otherwise
 * the error is wrapped as it is. The serialisation library is the identity here.
 */
module ErrSerialization {
  import opened Wrappers
  import opened JsonValue

  const StackKey: string := "stack"
  const ErrorKey: string := "error"

  /** No object inside `v` has a key named `stack`. */
  predicate NoStack(v: Json)
  {
    match v
    case Arr(items) => forall i | 0 <= i < |items| :: NoStack(items[i])
    case Obj(fields) => StackKey !in fields && forall k | k in fields :: NoStack(fields[k])
    case _ => true
  }

  /** A path that never steps through a key named `stack`. */
  predicate AvoidsStack(path: seq<Step>)
  {
    forall i | 0 <= i < |path| :: path[i] != Key(StackKey)
  }

  /**
   * The walk of the production variant: every `stack` key is removed together
   * with whatever lies beneath it; array elements are never removed, because
   * an array index is never the key `stack`.
   */
  function StripStack(v: Json): (r: Json)
    ensures NoStack(r)
    ensures r.Obj? <==> v.Obj?
    ensures r.Arr? ==> v.Arr? && |r.items| == |v.items|
  {
    match v
    case Arr(items) => Arr(seq(|items|, i requires 0 <= i < |items| => StripStack(items[i])))
    case Obj(fields) => Obj(map k | k in fields && k != StackKey :: StripStack(fields[k]))
    case _ => v
  }

  /** After stripping, nothing can be reached through a `stack` key. */
  lemma {:induction false} StripLeavesNoStackPath(v: Json, path: seq<Step>)
    requires !AvoidsStack(path)
    ensures Select(StripStack(v), path) == None
    decreases |path|
  {
    var s := StripStack(v);
    if path[0] == Key(StackKey) {
      assert !(s.Obj? && StackKey in s.fields);
    } else {
      assert !AvoidsStack(path[1..]) by {
        var i :| 0 <= i < |path| && path[i] == Key(StackKey);
        assert path[1..][i - 1] == Key(StackKey);
      }
      match path[0]
      case Key(k) =>
        if s.Obj? && k in s.fields {
          StripLeavesNoStackPath(v.fields[k], path[1..]);
        }
      case Index(i) =>
        if s.Arr? && i < |s.items| {
          StripLeavesNoStackPath(v.items[i], path[1..]);
        }
    }
  }

  /**
   * Every path that avoids `stack` keys is kept: it exists after stripping
   * exactly when it existed before, and leads to the stripped original value.
   */
  lemma {:induction false} StripKeepsOtherPaths(v: Json, path: seq<Step>)
    requires AvoidsStack(path)
    ensures Select(v, path).Some? <==> Select(StripStack(v), path).Some?
    ensures Select(v, path).Some? ==> Select(StripStack(v), path).value == StripStack(Select(v, path).value)
    decreases |path|
  {
    if path != [] {
      assert AvoidsStack(path[1..]) by {
        forall i | 0 <= i < |path[1..]| ensures path[1..][i] != Key(StackKey) {
          assert path[1..][i] == path[i + 1];
        }
      }
      match path[0]
      case Key(k) =>
        if v.Obj? && k in v.fields {
          StripKeepsOtherPaths(v.fields[k], path[1..]);
        }
      case Index(i) =>
        if v.Arr? && i < |v.items| {
          StripKeepsOtherPaths(v.items[i], path[1..]);
        }
    }
  }

  /** A value without `stack` keys is left exactly as it is. */
  lemma {:induction false} StripKeepsClean(v: Json)
    requires NoStack(v)
    ensures StripStack(v) == v
  {
    match v
    case Arr(items) =>
      forall i | 0 <= i < |items| ensures StripStack(items[i]) == items[i] {
        StripKeepsClean(items[i]);
      }
    case Obj(fields) =>
      forall k | k in fields ensures StripStack(fields[k]) == fields[k] {
        StripKeepsClean(fields[k]);
      }
      assert StripStack(v).fields == fields;
    case _ =>
  }

  /** Stripping an already stripped error changes nothing. */
  lemma StripIdempotent(v: Json)
    ensures StripStack(StripStack(v)) == StripStack(v)
  {
  }

  /** The payload errToPOJO returns for `err` in the given mode. */
  function Serialized(production: bool, err: Json): (r: Json)
    ensures r.Obj? && r.fields.Keys == {ErrorKey}
    ensures production ==> NoStack(r.fields[ErrorKey]) && r.fields[ErrorKey] == StripStack(err)
    ensures !production ==> r.fields[ErrorKey] == err
  {
    Single(ErrorKey, if production then StripStack(err) else err)
  }

  /** The caller's error object, which the production variant changes in place. */
  class ErrorRef {
    var value: Json

    constructor (value: Json)
      ensures this.value == value
    {
      this.value := value;
    }
  }

  /**
   * errToPOJO: in production, deletes the `stack` keys of the caller's error
   * itself, then wraps it; otherwise wraps it untouched.
   */
  method ErrToPojo(production: bool, err: ErrorRef) returns (pojo: Json)
    modifies err
    ensures err.value == if production then StripStack(old(err.value)) else old(err.value)
    ensures pojo == Serialized(production, old(err.value))
    ensures pojo.fields[ErrorKey] == err.value
  {
    if production {
      err.value := StripStack(err.value);
    }
    pojo := Single(ErrorKey, err.value);
  }
}
