/** The values the server handles: what Python's `json.loads` returns for a
    model reply or a request body, and what the data-access layer binds as
    SQL parameters. A dict is kept as its list of members in order; it
    stands for a Python dict, whose keys are unique, so `Lookup` taking the
    first binding is only meaningful for member lists without a repeated key
    (`json.loads` keeps the last of two duplicates). */
module Json {
  import opened Wrappers
  import opened Strings

  datatype Json =
    | JNull
    | JBool(b: bool)
    | JNumber(n: real)
    | JString(s: string)
    | JList(items: seq<Json>)
    | JObject(fields: seq<(string, Json)>)

  /** The value bound to `key` among `fields` (the first binding). */
  function Lookup(fields: seq<(string, Json)>, key: string): (r: Option<Json>)
    ensures r.None? <==> forall i :: 0 <= i < |fields| ==> fields[i].0 != key
    ensures r.Some? ==>
      exists i :: 0 <= i < |fields| && fields[i] == (key, r.value) &&
        forall j :: 0 <= j < i ==> fields[j].0 != key
  {
    if |fields| == 0 then None
    else if fields[0].0 == key then Some(fields[0].1)
    else
      var r := Lookup(fields[1..], key);
      assert forall i :: 1 <= i < |fields| ==> fields[i] == fields[1..][i - 1];
      r
  }

  /** Python `d.get(key, default)`; None when `d` is not a dict (AttributeError). */
  function Get(d: Json, key: string, default: Json): Option<Json> {
    if d.JObject? then Some(Lookup(d.fields, key).GetOr(default)) else None
  }

  /** Python `d[key]`; None when `d` is not a dict (TypeError) or lacks the key (KeyError). */
  function Subscript(d: Json, key: string): Option<Json> {
    if d.JObject? then Lookup(d.fields, key) else None
  }

  /** The elements a Python `for` loop visits in `v`: a list's items, a dict's
      keys, a string's characters; None when `v` is not iterable (TypeError). */
  function Iterate(v: Json): (r: Option<seq<Json>>)
    ensures v.JList? ==> r == Some(v.items)
    ensures v.JNull? || v.JBool? || v.JNumber? <==> r.None?
    ensures r.Some? && !v.JList? ==> forall i :: 0 <= i < |r.value| ==> r.value[i].JString?
    ensures r.Some? ==> (|r.value| == 0 <==> !Truthy(v))
  {
    match v
    case JList(items) => Some(items)
    case JObject(fields) => Some(seq(|fields|, i requires 0 <= i < |fields| => JString(fields[i].0)))
    case JString(s) => Some(seq(|s|, i requires 0 <= i < |s| => JString([s[i]])))
    case _ => None
  }

  /** Python truthiness: None, False, 0, "", [] and {} are false. */
  predicate Truthy(v: Json) {
    match v
    case JNull => false
    case JBool(b) => b
    case JNumber(n) => n != 0.0
    case JString(s) => s != ""
    case JList(items) => items != []
    case JObject(fields) => fields != []
  }

  /** Python `needle in hay`; None when Python raises TypeError. */
  function Contains(needle: Json, hay: Json): (r: Option<bool>)
    ensures needle.JString? && hay.JString? ==> r == Some(IsSubstring(needle.s, hay.s))
    ensures hay.JString? && !needle.JString? ==> r.None?
    ensures hay.JNull? || hay.JBool? || hay.JNumber? ==> r.None?
  {
    match hay
    case JString(h) => if needle.JString? then Some(IsSubstring(needle.s, h)) else None
    case JList(items) => Some(needle in items)
    case JObject(fields) =>
      if needle.JList? || needle.JObject? then None
      else Some(needle.JString? && Lookup(fields, needle.s).Some?)
    case _ => None
  }

  /** The Python values `sqlite3` accepts as a statement parameter; a list
      or a dict makes the call raise. */
  predicate Bindable(v: Json) {
    !v.JList? && !v.JObject?
  }

  /** A TEXT column holding JSON: either what `json.dumps` wrote, or any
      text that `json.loads` rejects. */
  datatype JsonText = Dumped(value: Json) | Unreadable

  /** `json.loads(text)` guarded by a bare `except` that substitutes `fallback`. */
  function LoadsOr(t: JsonText, fallback: Json): Json {
    match t
    case Dumped(v) => v
    case Unreadable => fallback
  }
}
