/**
 * Decoded JSON as the client sees it after `response.json()`, and the
 * Python operations the client applies to it: truthiness, `dict.get`,
 * `str()` and the numeric coercion done by `timedelta`.
 */
module Json {
  import opened Wrappers
  import Text

  datatype Value =
    | Null
    | Bool(b: bool)
    | Int(i: int)
    | Str(s: string)
    | List(items: seq<Value>)
    | Obj(fields: map<string, Value>)

  /** Python truthiness: None, False, 0, "", [] and {} are false. */
  predicate Truthy(v: Value) {
    match v
    case Null => false
    case Bool(b) => b
    case Int(i) => i != 0
    case Str(s) => |s| > 0
    case List(items) => |items| > 0
    case Obj(fields) => |fields| > 0
  }

  /** The falsy values are exactly None, False, 0, "", [] and {}. */
  lemma FalsyValues(v: Value)
    ensures !Truthy(v) <==> v in {Null, Bool(false), Int(0), Str(""), List([]), Obj(map[])}
  {
    if v.Obj? && |v.fields| == 0 {
      assert v.fields == map[];
    }
  }

  /** `d.get(key)`: None for a missing key. */
  function Get(d: map<string, Value>, key: string): (r: Value)
    ensures key in d ==> r == d[key]
    ensures key !in d ==> r == Null
    ensures r == GetOr(d, key, Null)
  {
    if key in d then d[key] else Null
  }

  /** `d.get(key, default)`: an explicit null stays null, and the default is used only for a missing key. */
  function GetOr(d: map<string, Value>, key: string, default: Value): (r: Value)
    ensures key in d ==> r == d[key]
    ensures key !in d ==> r == default
  {
    if key in d then d[key] else default
  }

  /** The number `timedelta` accepts: an int, or a bool as 0/1; None where it raises TypeError. */
  function AsNumber(v: Value): (r: Option<int>)
    ensures r.Some? <==> v.Int? || v.Bool?
    ensures v.Int? ==> r == Some(v.i)
    ensures r.Some? ==> (r.value != 0 <==> Truthy(v))
    ensures v.Bool? ==> r.value == 0 || r.value == 1
  {
    match v
    case Int(i) => Some(i)
    case Bool(b) => Some(if b then 1 else 0)
    case _ => None
  }

  /**
   * `str(v)`, as an f-string renders a value. Only the empty string renders
   * empty, a string renders as itself, and an integer renders as the numeral
   * `int()` reads back.
   */
  function PyStr(v: Value): (r: string)
    ensures r == "" <==> v == Str("")
    ensures v.Str? ==> r == v.s
    ensures v.Int? ==> Text.ParseDecimal(r) == Some(v.i)
  {
    match v
    case Null => "None"
    case Bool(b) => if b then "True" else "False"
    case Int(i) => Text.IntToDecimalParses(i); Text.IntToDecimal(i)
    case Str(s) => s
    case List(_) => "[...]"
    case Obj(_) => "{...}"
  }
}
