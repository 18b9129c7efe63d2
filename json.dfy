/** Decoded JSON values as Python sees them after `json.loads`, with Python's
    truthiness, `dict.get` and `str()`. JSON text itself is not modelled. */
module Json {
  import opened Wrappers
  import opened Text

  datatype Json =
    | Null
    | Bool(b: bool)
    | Num(n: int)
    | Str(s: string)
    | Arr(items: seq<Json>)
    | Obj(fields: map<string, Json>)

  /** What `json.loads` made of a file's text: a decode error, or a value. */
  datatype Parsed = Malformed(message: string) | Decoded(value: Json)

  /** Python's `bool(v)`: None, False, 0, "", [] and {} are false. */
  predicate Truthy(j: Json)
  {
    match j
    case Null => false
    case Bool(b) => b
    case Num(n) => n != 0
    case Str(s) => s != ""
    case Arr(items) => items != []
    case Obj(fields) => fields != map[]
  }

  /** Python's `d.get(key)`. */
  function Get(fields: map<string, Json>, key: string): (r: Option<Json>)
    ensures r.Some? <==> key in fields
    ensures r.Some? ==> r.value == fields[key]
  {
    if key in fields then Some(fields[key]) else None
  }

  /** Python's `d.get(key) or default`. */
  function GetOr(fields: map<string, Json>, key: string, default: Json): (r: Json)
    ensures key in fields && Truthy(fields[key]) ==> r == fields[key]
    ensures !(key in fields && Truthy(fields[key])) ==> r == default
  {
    match Get(fields, key)
    case Some(v) => if Truthy(v) then v else default
    case None => default
  }

  /** Python's `repr()` of a decoded value, as `str()` shows it inside containers. */
  function Repr(j: Json): (r: string)
    ensures r != ""
    ensures j.Str? ==> |r| == |j.s| + 2 && r[0] == '\'' && r[|r| - 1] == '\'' && r[1..|r| - 1] == j.s
    ensures !j.Str? ==> r == PyStr(j)
    decreases j, 1
  {
    match j
    case Str(s) => "'" + s + "'"
    case _ => PyStr(j)
  }

  /** Python's `str()` of a decoded value. */
  function PyStr(j: Json): (r: string)
    ensures j.Str? ==> r == j.s
    ensures Truthy(j) ==> r != ""
    ensures !j.Str? ==> r != ""
    decreases j, 0
  {
    match j
    case Null => "None"
    case Bool(b) => if b then "True" else "False"
    case Num(n) => IntToDecimal(n)
    case Str(s) => s
    case Arr(items) =>
      "[" + JoinSep(seq(|items|, i requires 0 <= i < |items| => Repr(items[i]))) + "]"
    case Obj(fields) =>
      var keys := SortedStrings(fields.Keys);
      "{" + JoinSep(seq(|keys|, i requires 0 <= i < |keys| => "'" + keys[i] + "': " + Repr(fields[keys[i]]))) + "}"
  }

  /** Python's `", ".join(parts)`. */
  function JoinSep(parts: seq<string>): string
  {
    if |parts| == 0 then "" else if |parts| == 1 then parts[0] else parts[0] + ", " + JoinSep(parts[1..])
  }

  /** Every item is a string (`all(isinstance(x, str) for x in items)`). */
  predicate AllStrings(items: seq<Json>)
  {
    forall i :: 0 <= i < |items| ==> items[i].Str?
  }

  function StringsOf(items: seq<Json>): (r: seq<string>)
    requires AllStrings(items)
    ensures |r| == |items| && forall i :: 0 <= i < |items| ==> items[i] == Str(r[i])
  {
    seq(|items|, i requires 0 <= i < |items| => items[i].s)
  }

  function JsonStrings(names: seq<string>): (r: seq<Json>)
    ensures AllStrings(r) && StringsOf(r) == names
  {
    seq(|names|, i requires 0 <= i < |names| => Str(names[i]))
  }
}
