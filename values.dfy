/** The subset of Python's object model that the listing backend works on:
    JSON-like values, dictionaries with string keys, and the behaviour of the
    built-ins the code applies to them (truthiness, `len`, `str.strip`,
    `float`, `int`, `==`, iteration and `dict.get`). */
module Values {
  import opened Wrappers

  /** The ISO-8601 text of a clock reading (`datetime.now().isoformat()`). */
  type Timestamp = string

  /** A Python value as it appears in a request payload or a stored record.
      `Int` and `Float` are kept apart because `isinstance(x, int)` tells them
      apart; a float is modelled as an exact real. */
  datatype Value =
    | Null
    | Bool(b: bool)
    | Int(i: int)
    | Float(f: real)
    | Str(s: string)
    | List(items: seq<Value>)
    | Dict(entries: map<string, Value>)

  /** A Python dict with string keys: a payload, a stored record, or the
      attributes of an object. */
  type Record = map<string, Value>

  /** `bool(v)`. */
  predicate Truthy(v: Value)
  {
    match v
    case Null => false
    case Bool(b) => b
    case Int(i) => i != 0
    case Float(f) => f != 0.0
    case Str(s) => s != ""
    case List(items) => items != []
    case Dict(entries) => entries != map[]
  }

  /** `len(v)`; None where Python raises TypeError. */
  function Len(v: Value): (r: Option<nat>)
    ensures r.Some? <==> (v.Str? || v.List? || v.Dict?)
    ensures v.Str? ==> r == Some(|v.s|)
    ensures r.Some? ==> (r.value == 0 <==> !Truthy(v))
  {
    match v
    case Str(s) => Some(|s|)
    case List(items) => Some(|items|)
    case Dict(entries) => Some(|entries|)
    case _ => None
  }

  /** `c.isspace()` for one character: the characters `str.strip()` removes. */
  predicate IsSpace(c: char)
  {
    || c == ' '
    || '\t' <= c <= '\r'
    || '\U{1c}' <= c <= '\U{1f}'
    || c == '\U{85}' || c == '\U{a0}' || c == '\U{1680}'
    || '\U{2000}' <= c <= '\U{200a}'
    || c == '\U{2028}' || c == '\U{2029}' || c == '\U{202f}' || c == '\U{205f}'
    || c == '\U{3000}'
  }

  /** The number of whitespace characters at the start of `s`. */
  function LeadingSpaces(s: string): (n: nat)
    ensures n <= |s|
    ensures forall k :: 0 <= k < n ==> IsSpace(s[k])
    ensures n < |s| ==> !IsSpace(s[n])
  {
    if s == [] || !IsSpace(s[0]) then 0 else 1 + LeadingSpaces(s[1..])
  }

  /** The length of `s` once its trailing whitespace is removed. */
  function TrailingStart(s: string): (m: nat)
    ensures m <= |s|
    ensures forall k :: m <= k < |s| ==> IsSpace(s[k])
    ensures m > 0 ==> !IsSpace(s[m - 1])
  {
    if s == [] || !IsSpace(s[|s| - 1]) then |s| else TrailingStart(s[..|s| - 1])
  }

  /** `r` occurs in `s` at `i` with only whitespace before and after it. */
  ghost predicate StrippedAt(s: string, i: int, r: string)
  {
    && 0 <= i <= |s| - |r| && s[i..i + |r|] == r
    && (forall k :: 0 <= k < i ==> IsSpace(s[k]))
    && (forall k :: i + |r| <= k < |s| ==> IsSpace(s[k]))
  }

  /** `s.strip()`: `s` without its leading and trailing whitespace. */
  function Strip(s: string): (r: string)
    ensures |r| <= |s|
    ensures r == "" <==> forall k :: 0 <= k < |s| ==> IsSpace(s[k])
    ensures r != "" ==> !IsSpace(r[0]) && !IsSpace(r[|r| - 1])
    ensures exists i :: StrippedAt(s, i, r)
  {
    var n := LeadingSpaces(s);
    if n == |s| then
      assert StrippedAt(s, 0, "");
      ""
    else
      var m := TrailingStart(s);
      assert !IsSpace(s[n]);
      assert n < m;
      assert StrippedAt(s, n, s[n..m]);
      s[n..m]
  }

  /** `s.strip() == ""`: the string is empty or only whitespace. */
  predicate IsBlank(s: string)
  {
    Strip(s) == ""
  }

  /** `isinstance(v, (int, float))`; a bool is an int in Python. */
  predicate IsNumber(v: Value)
  {
    v.Bool? || v.Int? || v.Float?
  }

  /** The numeric value of `v` as `float(v)` and the comparison operators see
      it; None where they raise. Parsing a numeric string is not modelled. */
  function Numeric(v: Value): (r: Option<real>)
    ensures r.Some? <==> IsNumber(v)
    ensures v.Int? ==> r == Some(v.i as real)
    ensures v.Float? ==> r == Some(v.f)
    ensures v.Bool? ==> r == Some(if v.b then 1.0 else 0.0)
  {
    match v
    case Bool(b) => Some(if b then 1.0 else 0.0)
    case Int(i) => Some(i as real)
    case Float(f) => Some(f)
    case _ => None
  }

  /** Truncation toward zero, as Python's `int()` applies it to a float. */
  function Truncate(f: real): (r: int)
    ensures f >= 0.0 ==> r as real <= f < r as real + 1.0
    ensures f < 0.0 ==> r as real - 1.0 < f <= r as real
  {
    if f >= 0.0 then f.Floor else -((-f).Floor)
  }

  /** `int(v)`; None where Python raises. Parsing a numeric string is not
      modelled. */
  function ToInt(v: Value): (r: Option<int>)
    ensures r.Some? <==> IsNumber(v)
    ensures v.Int? ==> r == Some(v.i)
    ensures v.Float? ==> r == Some(Truncate(v.f))
    ensures v.Bool? ==> r == Some(if v.b then 1 else 0)
  {
    match v
    case Bool(b) => Some(if b then 1 else 0)
    case Int(i) => Some(i)
    case Float(f) => Some(Truncate(f))
    case _ => None
  }

  /** Python's `a == b`: numbers compare by value across int, float and bool;
      everything else compares structurally. */
  predicate Equal(a: Value, b: Value)
  {
    if IsNumber(a) && IsNumber(b) then Numeric(a) == Numeric(b) else a == b
  }

  lemma EqualIsReflexiveAndSymmetric(a: Value, b: Value)
    ensures Equal(a, a)
    ensures Equal(a, b) <==> Equal(b, a)
    ensures a.Str? ==> (Equal(a, b) <==> a == b)
  {
  }

  /** The items a `for` loop over `v` visits: a list's elements or a string's
      one-character strings; None where Python raises (iterating a dict is not
      modelled). */
  function Iterate(v: Value): (r: Option<seq<Value>>)
    ensures v.List? ==> r == Some(v.items)
    ensures v.Str? ==> r.Some? && |r.value| == |v.s| &&
                       forall k :: 0 <= k < |v.s| ==> r.value[k] == Str([v.s[k]])
    ensures !v.List? && !v.Str? ==> r.None?
  {
    match v
    case List(items) => Some(items)
    case Str(s) => Some(seq(|s|, k requires 0 <= k < |s| => Str([s[k]])))
    case _ => None
  }

  /** `d.get(k, default)`. */
  function Get(d: Record, k: string, default: Value): (r: Value)
    ensures k in d ==> r == d[k]
    ensures k !in d ==> r == default
  {
    if k in d then d[k] else default
  }
}
