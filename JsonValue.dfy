/** The values `json.loads` produces, and the few Python operations the
    services apply to them: truth value, `str()`, `dict.get` and iteration. */
module JsonValue {
  import opened Common

  /** A decoded JSON value. A number carries its value (for its truth value)
      and the text Python's `str()` gives for it. An object is a Python dict:
      its members in insertion order. `json.loads` gives each key once; the
      type does not enforce that, and `DictGet` returns the first member with
      the key, where a dict with a repeated key would keep the last. */
  datatype Json =
    | JNull
    | JBool(b: bool)
    | JNum(value: real, repr: string)
    | JStr(s: string)
    | JArr(items: seq<Json>)
    | JObj(members: seq<Member>)

  datatype Member = Member(key: string, value: Json)

  predicate IsScalar(j: Json) {
    !j.JArr? && !j.JObj?
  }

  /** Python's truth value: `None`, `False`, zero and empty containers are false. */
  predicate Truthy(j: Json) {
    match j
    case JNull => false
    case JBool(b) => b
    case JNum(v, _) => v != 0.0
    case JStr(s) => s != []
    case JArr(xs) => xs != []
    case JObj(ms) => ms != []
  }

  /** `str(x)` for a scalar. */
  function PyStr(j: Json): string
    requires IsScalar(j)
  {
    match j
    case JNull => "None"
    case JBool(b) => if b then "True" else "False"
    case JNum(_, repr) => repr
    case JStr(s) => s
  }

  /** `d.get(key, default)` on a dict given by its members. */
  function DictGet(ms: seq<Member>, key: string, default: Json): (r: Json)
    ensures (forall i :: 0 <= i < |ms| ==> ms[i].key != key) ==> r == default
    ensures (exists i :: 0 <= i < |ms| && ms[i].key == key) ==> exists i :: 0 <= i < |ms| && ms[i].key == key && r == ms[i].value
  {
    if ms == [] then default
    else if ms[0].key == key then ms[0].value
    else
      assert forall i :: 1 <= i < |ms| ==> ms[1..][i - 1] == ms[i];
      DictGet(ms[1..], key, default)
  }

  /** What `for x in j` visits: a list's elements, a string's characters,
      a dict's keys; `None` when Python raises `TypeError` (null, booleans
      and numbers are not iterable). */
  function Iterate(j: Json): (r: Option<seq<Json>>)
    ensures r.None? <==> IsScalar(j) && !j.JStr?
    ensures j.JArr? ==> r == Some(j.items)
    ensures j.JStr? ==> r.Some? && |r.value| == |j.s| && forall i :: 0 <= i < |j.s| ==> r.value[i] == JStr([j.s[i]])
  {
    match j
    case JArr(xs) => Some(xs)
    case JStr(s) => Some(seq(|s|, i requires 0 <= i < |s| => JStr([s[i]])))
    case JObj(ms) => Some(seq(|ms|, i requires 0 <= i < |ms| => JStr(ms[i].key)))
    case _ => None
  }
}
