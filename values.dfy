/** The values a view can hold, with the few JavaScript behaviours the engine depends on:
    truthiness, `== null`, `typeof`, own-property tests, property reads and `String(v)`. */
module JsValues {
  import opened Outcomes

  /** A JavaScript value as a template view sees it. Numbers are integers; a function is an
      opaque `Lambda` identified by `id`, whose `source` is what `String(f)` prints. */
  datatype Value =
    | Undefined
    | Null
    | Bool(b: bool)
    | Num(n: int)
    | Str(s: string)
    | Arr(items: seq<Value>)
    | Obj(fields: map<string, Value>)
    | Lambda(id: nat, source: string)

  /** `v == null` (loose equality also holds for `undefined`). */
  predicate IsNil(v: Value) {
    v.Undefined? || v.Null?
  }

  /** `!v`: JavaScript's falsy values (NaN is not representable here). */
  predicate Falsy(v: Value) {
    v.Undefined? || v.Null? || v == Bool(false) || v == Num(0) || v == Str("")
  }

  /** `typeof v === 'object'` for a non-null `v`; arrays are objects. */
  predicate IsObjectType(v: Value) {
    v.Arr? || v.Obj?
  }

  predicate IsDigit(c: char) {
    '0' as int <= c as int <= '9' as int
  }

  function DigitChar(d: nat): (c: char)
    requires d < 10
    ensures IsDigit(c)
  {
    ('0' as int + d) as char
  }

  /** The decimal numeral of `n`, as `String(n)` prints a non-negative integer. */
  function Decimal(n: nat): (s: string)
    ensures |s| >= 1
    ensures forall i | 0 <= i < |s| :: IsDigit(s[i])
    ensures s[0] == '0' <==> n == 0
  {
    if n < 10 then [DigitChar(n)] else Decimal(n / 10) + [DigitChar(n % 10)]
  }

  /** The number a string of decimal digits denotes. */
  function DecimalValue(s: string): nat
    requires forall i | 0 <= i < |s| :: IsDigit(s[i])
  {
    if s == [] then 0
    else
      var last := s[|s| - 1];
      assert IsDigit(last);
      DecimalValue(s[..|s| - 1]) * 10 + (last as int - '0' as int)
  }

  /** `String(n)` for an integer. */
  function IntToString(n: int): string {
    if n < 0 then "-" + Decimal(-n) else Decimal(n)
  }

  /** The index an array-index property key denotes: a canonical decimal numeral
      ("0", "17", but not "017" or "" or "-1"). */
  function ArrayIndex(key: string): Option<nat> {
    if |key| > 0 && (forall i | 0 <= i < |key| :: IsDigit(key[i])) && (|key| == 1 || key[0] != '0')
    then Some(DecimalValue(key))
    else None
  }

  /** Reading back the numeral of an index gives the index. */
  lemma {:induction false} DecimalRoundTrip(n: nat)
    ensures DecimalValue(Decimal(n)) == n
  {
    if n >= 10 {
      DecimalRoundTrip(n / 10);
      var s := Decimal(n);
      assert s[..|s| - 1] == Decimal(n / 10);
    }
  }

  /** Every index is reachable through its own numeral as a property key. */
  lemma ArrayIndexOfDecimal(n: nat)
    ensures ArrayIndex(Decimal(n)) == Some(n)
  {
    DecimalRoundTrip(n);
  }

  /** The own properties of a value: an object's keys; an array's or a string's `length` and
      indices. Booleans, numbers and functions expose none here. */
  function OwnMember(v: Value, key: string): Option<Value> {
    match v
    case Obj(f) => if key in f then Some(f[key]) else None
    case Arr(items) =>
      if key == "length" then Some(Num(|items|))
      else
        var ix := ArrayIndex(key);
        if ix.Some? && ix.value < |items| then Some(items[ix.value]) else None
    case Str(s) =>
      if key == "length" then Some(Num(|s|))
      else
        var ix := ArrayIndex(key);
        if ix.Some? && ix.value < |s| then Some(Str([s[ix.value]])) else None
    case _ => None
  }

  /** `hasProperty`: a non-null object (or array) that has the key. */
  predicate HasProperty(v: Value, key: string) {
    !IsNil(v) && IsObjectType(v) && OwnMember(v, key).Some?
  }

  /** `primitiveHasOwnProperty`: a non-null non-object that has the key as an own property. */
  predicate PrimitiveHasOwnProperty(v: Value, key: string) {
    !IsNil(v) && !IsObjectType(v) && OwnMember(v, key).Some?
  }

  /** The two property tests split the non-null values between them: together they are the
      own-property test, and no value passes both. */
  lemma PropertyTests(v: Value, key: string)
    requires !IsNil(v)
    ensures HasProperty(v, key) || PrimitiveHasOwnProperty(v, key) <==> OwnMember(v, key).Some?
    ensures !(HasProperty(v, key) && PrimitiveHasOwnProperty(v, key))
    ensures v.Obj? ==> (HasProperty(v, key) <==> key in v.fields)
    ensures v.Str? ==> (PrimitiveHasOwnProperty(v, key) <==> key == "length" || (ArrayIndex(key).Some? && ArrayIndex(key).value < |v.s|))
  {
  }

  /** `v[key]` for a non-null `v`; a missing property reads as undefined. */
  function Get(v: Value, key: string): Value {
    OwnMember(v, key).GetOr(Undefined)
  }

  /** `String(v)`, which is also what `buffer += v` appends. */
  function ToJsString(v: Value): string
    decreases v
  {
    match v
    case Undefined => "undefined"
    case Null => "null"
    case Bool(b) => if b then "true" else "false"
    case Num(n) => IntToString(n)
    case Str(s) => s
    case Arr(items) => JoinElements(items)
    case Obj(_) => "[object Object]"
    case Lambda(_, source) => source
  }

  /** `items.join(',')`: null and undefined elements print as nothing. */
  function JoinElements(items: seq<Value>): string
    decreases items
  {
    if items == [] then ""
    else
      var first := if IsNil(items[0]) then "" else ToJsString(items[0]);
      if |items| == 1 then first else first + "," + JoinElements(items[1..])
  }
}
