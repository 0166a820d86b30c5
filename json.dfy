/** JSON-like Python values (`dict[str, Any]` payloads, evidence bags and metadata)
    and the Python operations the modelled code applies to them. */
module JsonValues {
  import opened Wrappers
  import opened Text

  /** A Python value as it appears in parsed JSON: `None`, `bool`, `int`, `float`, `str`,
      `list` or `dict`. `int` and `float` stay apart because the code tests
      `isinstance(x, int)` and `isinstance(x, float)`. */
  datatype Json =
    | Null
    | Bool(b: bool)
    | Int(i: int)
    | Num(r: real)
    | Str(s: string)
    | Arr(items: seq<Json>)
    | Obj(fields: map<string, Json>)

  /** `d.get(k)`: the stored value, or `None` when the key is absent. */
  function Get(d: map<string, Json>, k: string): Json {
    if k in d then d[k] else Null
  }

  /** `d.get(k, default)`. */
  function GetOr(d: map<string, Json>, k: string, default: Json): Json {
    if k in d then d[k] else default
  }

  /** Python truthiness (`if x:`, `not x`, `x or y`). */
  predicate Truthy(j: Json) {
    match j
    case Null => false
    case Bool(b) => b
    case Int(i) => i != 0
    case Num(r) => r != 0.0
    case Str(s) => s != ""
    case Arr(a) => a != []
    case Obj(m) => m != map[]
  }

  /** `x or y`. */
  function Or(x: Json, y: Json): Json {
    if Truthy(x) then x else y
  }

  /** The numeric value of a `bool`, `int` or `float`. */
  function NumericValue(j: Json): Option<real> {
    match j
    case Bool(b) => Some(if b then 1.0 else 0.0)
    case Int(i) => Some(i as real)
    case Num(r) => Some(r)
    case _ => None
  }

  /** Python `==`: `bool`, `int` and `float` compare by numeric value, lists element by
      element, dicts key by key with their values compared by `==`; strings and `None`
      only equal themselves. */
  predicate PyEq(a: Json, b: Json)
    decreases a
  {
    if NumericValue(a).Some? && NumericValue(b).Some? then NumericValue(a) == NumericValue(b)
    else match a
      case Arr(xs) =>
        && b.Arr? && |xs| == |b.items|
        && forall i :: 0 <= i < |xs| ==> PyEq(xs[i], b.items[i])
      case Obj(m) =>
        && b.Obj? && m.Keys == b.fields.Keys
        && forall k :: k in m ==> PyEq(m[k], b.fields[k])
      case _ => a == b
  }

  /** Every value equals itself. */
  lemma {:induction false} PyEqReflexive(a: Json)
    ensures PyEq(a, a)
    decreases a
  {
    match a
    case Arr(xs) =>
      forall i | 0 <= i < |xs| ensures PyEq(xs[i], xs[i]) {
        PyEqReflexive(xs[i]);
      }
    case Obj(m) =>
      forall k | k in m ensures PyEq(m[k], m[k]) {
        PyEqReflexive(m[k]);
      }
    case _ =>
  }

  /** `==` is symmetric. */
  lemma {:induction false} PyEqSymmetric(a: Json, b: Json)
    requires PyEq(a, b)
    ensures PyEq(b, a)
    decreases a
  {
    if NumericValue(a).Some? && NumericValue(b).Some? {
    } else {
      match a
      case Arr(xs) =>
        forall i | 0 <= i < |xs| ensures PyEq(b.items[i], xs[i]) {
          PyEqSymmetric(xs[i], b.items[i]);
        }
      case Obj(m) =>
        forall k | k in b.fields ensures PyEq(b.fields[k], m[k]) {
          PyEqSymmetric(m[k], b.fields[k]);
        }
      case _ =>
    }
  }

  /** Numbers inside containers also compare by value: `[1] == [1.0]` and
      `{"u": True} == {"u": 1}`. */
  lemma ContainersCompareNumbersByValue()
    ensures PyEq(Arr([Int(1)]), Arr([Num(1.0)]))
    ensures PyEq(Obj(map["u" := Bool(true)]), Obj(map["u" := Int(1)]))
    ensures !PyEq(Arr([Int(1)]), Arr([Int(1), Int(1)]))
  {
    assert PyEq(Arr([Int(1)]).items[0], Arr([Num(1.0)]).items[0]);
    var m := map["u" := Bool(true)];
    assert PyEq(m["u"], map["u" := Int(1)]["u"]);
  }

  /** How `str(x)` renders a `float`, a `list` or a `dict`; left to the caller. */
  type Show = Json -> string

  /** `str(x)`: the string itself, `None`, `True`/`False`, the decimal integer, or what
      `show` says for floats and containers. */
  function PyStr(j: Json, show: Show): (r: string)
    ensures j.Str? ==> r == j.s
    ensures j.Null? ==> r == "None"
    ensures j.Bool? ==> r == if j.b then "True" else "False"
    ensures j.Int? ==> r == IntToString(j.i)
    ensures j.Num? || j.Arr? || j.Obj? ==> r == show(j)
  {
    match j
    case Str(s) => s
    case Null => "None"
    case Bool(b) => if b then "True" else "False"
    case Int(i) => IntToString(i)
    case _ => show(j)
  }
}
