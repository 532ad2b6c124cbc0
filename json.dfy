/**
  The values `json.loads` produces, and the few Python operations the bridge
  applies to them without knowing their shape in advance.
 */
module JsonValues {
  import opened Wrappers
  import Text

  /**
    A decoded JSON value. Numbers are kept as their literal text: the bridge
    never computes with them, it only copies them into the store.
   */
  datatype Json =
    | Null
    | Bool(b: bool)
    | Num(literal: string)
    | Str(s: string)
    | Arr(items: seq<Json>)
    | Obj(members: map<string, Json>)

  /**
    Python's `key in value` for a `str` key: membership of a key in a dict,
    equality with some element of a list, a substring of a str. On a number,
    a boolean or null Python raises TypeError, here `None`.
   */
  function PyIn(key: string, value: Json): (r: Option<bool>)
    ensures r.Some? <==> value.Obj? || value.Arr? || value.Str?
    ensures value.Obj? ==> r == Some(key in value.members)
  {
    match value
    case Obj(m) => Some(key in m)
    case Arr(items) => Some(Str(key) in items)
    case Str(s) => Some(Text.Contains(s, key))
    case _ => None
  }

  /** Python's `d.get(key, default)` on a dict. */
  function Get(members: map<string, Json>, key: string, default: Json): (v: Json)
    ensures key in members ==> v == members[key]
    ensures key !in members ==> v == default
  {
    if key in members then members[key] else default
  }

  /** What iterating over a `str` yields: its characters, each a one-character `str`. */
  function Chars(s: string): (cells: seq<Json>)
    ensures |cells| == |s|
    ensures forall i | 0 <= i < |s| :: cells[i] == Str([s[i]])
  {
    seq(|s|, i requires 0 <= i < |s| => Str([s[i]]))
  }

  /** Python can use the value as a dict key: lists and dicts are unhashable. */
  predicate Hashable(value: Json)
  {
    !value.Arr? && !value.Obj?
  }
}
