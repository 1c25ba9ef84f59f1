/**
 * JSON-like values: the payloads that travel over the socket and the error
 * objects that are serialised into them. An object is the map of its own
 * enumerable keys.
 */
module JsonValue {
  import opened Wrappers

  datatype Json =
    | Null
    | Bool(b: bool)
    | Num(n: int)
    | Str(s: string)
    | Arr(items: seq<Json>)
    | Obj(fields: map<string, Json>)

  /** One step of a path into a value: an object key or an array index. */
  datatype Step = Key(key: string) | Index(index: nat)

  /** The value reached from `v` along `path`, if every step exists. */
  function Select(v: Json, path: seq<Step>): Option<Json>
    decreases |path|
  {
    if path == [] then Some(v)
    else
      match path[0]
      case Key(k) =>
        if v.Obj? && k in v.fields then Select(v.fields[k], path[1..]) else None
      case Index(i) =>
        if v.Arr? && i < |v.items| then Select(v.items[i], path[1..]) else None
  }

  /** A one-field object `{name: value}`. */
  function Single(name: string, value: Json): (r: Json)
    ensures r.Obj? && r.fields.Keys == {name} && r.fields[name] == value
  {
    Obj(map[name := value])
  }
}
