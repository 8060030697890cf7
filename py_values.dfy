/** JSON-shaped Python values as the integration handles them, and the few Python operations on them
    whose outcome the integration's rules depend on: truthiness, `in`, subscripting, `.get`,
    float(), int(), comparison with a number, negation and repetition. */
module PyValues {
  import opened Outcomes
  import NumberText

  /** A decoded JSON value. Python's None is Null; JSON has no distinct integer type here, so every
      number is a real. A Python dict is a map from its (string) keys to values. */
  datatype Value =
    | Null
    | Bool(b: bool)
    | Num(x: real)
    | Str(s: string)
    | List(items: seq<Value>)
    | Dict(fields: map<string, Value>)

  /** bool(v): None, False, 0, and empty strings, lists and dicts are false. */
  predicate Truthy(v: Value) {
    match v
    case Null => false
    case Bool(b) => b
    case Num(x) => x != 0.0
    case Str(s) => s != []
    case List(items) => items != []
    case Dict(fields) => fields != map[]
  }

  /** `v if isinstance(v, dict) else {}`. */
  function AsDict(v: Value): (m: map<string, Value>)
    ensures v.Dict? ==> m == v.fields
    ensures !v.Dict? ==> m == map[]
  {
    if v.Dict? then v.fields else map[]
  }

  /** `m.get(k, default)` on a dict. */
  function GetOr(m: map<string, Value>, k: string, default: Value): Value {
    if k in m then m[k] else default
  }

  /** `m.get(k)` on a dict: None for a missing key. */
  function Get(m: map<string, Value>, k: string): Value {
    GetOr(m, k, Null)
  }

  /** `k in s` for strings: k occurs in s at some position. */
  predicate IsSubstring(k: string, s: string)
    decreases |s|
  {
    k <= s || (s != [] && IsSubstring(k, s[1..]))
  }

  /** `k in v` for a string k: key membership for a dict, element equality for a list, substring for
      a string; for None, booleans and numbers Python raises TypeError. */
  function Contains(v: Value, k: string): Attempt<bool> {
    match v
    case Dict(fields) => Ok(k in fields)
    case List(items) => Ok(Str(k) in items)
    case Str(s) => Ok(IsSubstring(k, s))
    case _ => Raised
  }

  /** `v[k]` for a string k: succeeds only on a dict that has the key (KeyError or TypeError otherwise). */
  function Subscript(v: Value, k: string): (r: Attempt<Value>)
    ensures r.Ok? <==> v.Dict? && k in v.fields
  {
    if v.Dict? && k in v.fields then Ok(v.fields[k]) else Raised
  }

  /** `v.get(k, default)`: only dicts have the method (AttributeError otherwise). */
  function MethodGet(v: Value, k: string, default: Value): (r: Attempt<Value>)
    ensures r.Ok? <==> v.Dict?
  {
    if v.Dict? then Ok(GetOr(v.fields, k, default)) else Raised
  }

  /** The numeric value of a number or a boolean (True is 1), as Python's arithmetic and comparisons see it. */
  function NumberOf(v: Value): Option<real> {
    match v
    case Num(x) => Some(x)
    case Bool(b) => Some(if b then 1.0 else 0.0)
    case _ => None
  }

  /** float(v); None stands for the ValueError or TypeError it raises. */
  function ToFloat(v: Value): (r: Option<real>)
    ensures v.Num? ==> r == Some(v.x)
    ensures v.Null? || v.List? || v.Dict? ==> r == None
  {
    match v
    case Str(s) => NumberText.ParseFloat(s)
    case _ => NumberOf(v)
  }

  /** Python's int() of a number: truncation toward zero. */
  function Truncate(x: real): (n: int)
    ensures x >= 0.0 ==> n as real <= x < n as real + 1.0
    ensures x < 0.0 ==> n as real - 1.0 < x <= n as real
  {
    if x >= 0.0 then x.Floor else -((-x).Floor)
  }

  /** int(v); None stands for the ValueError or TypeError it raises. */
  function ToInt(v: Value): Option<int> {
    match v
    case Str(s) => NumberText.ParseInt(s)
    case Num(x) => Some(Truncate(x))
    case Bool(b) => Some(if b then 1 else 0)
    case _ => None
  }

  /** `v > c` for a number c: defined for numbers and booleans, TypeError for anything else. */
  function Greater(v: Value, c: real): (r: Attempt<bool>)
    ensures r.Ok? <==> NumberOf(v).Some?
    ensures r.Ok? ==> (r.value <==> NumberOf(v).value > c)
  {
    match NumberOf(v)
    case Some(x) => Ok(x > c)
    case None => Raised
  }

  /** `v < c` for a number c: defined for numbers and booleans, TypeError for anything else. */
  function Less(v: Value, c: real): (r: Attempt<bool>)
    ensures r.Ok? <==> NumberOf(v).Some?
    ensures r.Ok? ==> (r.value <==> NumberOf(v).value < c)
  {
    match NumberOf(v)
    case Some(x) => Ok(x < c)
    case None => Raised
  }

  /** `-v`: defined for numbers and booleans, TypeError for anything else. */
  function Negate(v: Value): (r: Attempt<Value>)
    ensures v.Num? ==> r == Ok(Num(-v.x))
    ensures r.Ok? <==> NumberOf(v).Some?
  {
    match NumberOf(v)
    case Some(x) => Ok(Num(-x))
    case None => Raised
  }

  function Repeat<T>(s: seq<T>, n: nat): (r: seq<T>)
    ensures |r| == n * |s|
  {
    if n == 0 then [] else s + Repeat(s, n - 1)
  }

  /** `v * n` for an int n: arithmetic on numbers and booleans, repetition of strings and lists,
      TypeError for None and dicts. */
  function Times(v: Value, n: nat): (r: Attempt<Value>)
    ensures v.Num? ==> r == Ok(Num(v.x * (n as real)))
    ensures r.Raised? <==> v.Null? || v.Dict?
  {
    if v.Num? then Ok(Num(v.x * (n as real)))
    else if v.Bool? then Ok(Num(if v.b then n as real else 0.0))
    else if v.Str? then Ok(Str(Repeat(v.s, n)))
    else if v.List? then Ok(List(Repeat(v.items, n)))
    else Raised
  }

  /** The float value of `m[k]` when the key is present and float() accepts it, as in the
      `if k in m: try: float(m[k]) except (ValueError, TypeError): pass` pattern. */
  function FloatField(m: map<string, Value>, k: string): (r: Option<real>)
    ensures r.Some? <==> k in m && ToFloat(m[k]).Some?
  {
    if k in m then ToFloat(m[k]) else None
  }

  /** The int value of `m[k]` when the key is present and int() accepts it. */
  function IntField(m: map<string, Value>, k: string): (r: Option<int>)
    ensures r.Some? <==> k in m && ToInt(m[k]).Some?
  {
    if k in m then ToInt(m[k]) else None
  }

  /** A parsed float as the value a sensor returns, or the next candidate when there is none. */
  function OrElse(a: Option<real>, next: Value): (v: Value)
    ensures a.Some? ==> v == Num(a.value)
    ensures a.None? ==> v == next
  {
    if a.Some? then Num(a.value) else next
  }

  /** float() of text that str() produced for an integer gives that integer back. */
  lemma ToFloatOfIntText(n: int)
    ensures ToFloat(Str(NumberText.IntToString(n))) == Some(n as real)
  {
    NumberText.ParseFloatOfIntToString(n);
  }

  /** int() of text that str() produced for an integer gives that integer back. */
  lemma ToIntOfIntText(n: int)
    ensures ToInt(Str(NumberText.IntToString(n))) == Some(n)
  {
    NumberText.ParseIntOfIntToString(n);
  }
}
