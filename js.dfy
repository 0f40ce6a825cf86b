/** JSON values as JavaScript code sees them after `JSON.parse`, with the
    three pieces of JavaScript semantics the relay and its client rely on:
    truthiness (for `||` chains), optional property access (`v?.key`) and
    string conversion (`String(v)`, template literals, `new Error(v)`). */
module Js {

  /** `None` is JavaScript's `undefined`: a property that is not there. */
  datatype Option<+T> = None | Some(value: T)

  /** A parsed JSON value. Numbers are integers: only zero versus non-zero
      matters to the code modelled here. Objects are maps from keys to values. */
  datatype Json =
    | JNull
    | JBool(b: bool)
    | JNum(n: int)
    | JStr(s: string)
    | JArr(items: seq<Json>)
    | JObj(fields: map<string, Json>)

  /** JavaScript truthiness of a possibly undefined JSON value: `undefined`,
      `null`, `false`, `0` and `""` are falsy; every other value, including
      `[]` and `{}`, is truthy. */
  predicate Truthy(v: Option<Json>) {
    match v
    case None => false
    case Some(JNull) => false
    case Some(JBool(b)) => b
    case Some(JNum(n)) => n != 0
    case Some(JStr(s)) => s != ""
    case Some(_) => true
  }

  /** `v?.key`: the value of an own property of an object. Arrays, strings,
      numbers, booleans and `null` have no property with the names used
      here, so reading one gives `undefined`. */
  function Get(v: Json, key: string): Option<Json> {
    if v.JObj? && key in v.fields then Some(v.fields[key]) else None
  }

  /** `v?.key` where `v` itself may be `undefined`. */
  function GetOpt(v: Option<Json>, key: string): Option<Json> {
    if v.Some? then Get(v.value, key) else None
  }

  /** `v ?? fallback`: only `undefined` and `null` are replaced. */
  function Coalesce(v: Option<Json>, fallback: Json): Json {
    if v.None? || v.value == JNull then fallback else v.value
  }

  /** The value of the JavaScript expression `c0 || c1 || … || fallback`:
      the first truthy operand, or the last operand when none is. */
  function FirstTruthy(cands: seq<Option<Json>>, fallback: Json): (r: Json)
    ensures r == fallback || Some(r) in cands
    ensures Truthy(Some(r)) || r == fallback
  {
    if cands == [] then fallback
    else if Truthy(cands[0]) then cands[0].value
    else FirstTruthy(cands[1..], fallback)
  }

  /** An `||` chain yields the first truthy operand: every earlier one is
      skipped and every later one is never looked at. */
  lemma {:induction false} FirstTruthySelects(cands: seq<Option<Json>>, fallback: Json, k: nat)
    requires k < |cands| && Truthy(cands[k])
    requires forall j :: 0 <= j < k ==> !Truthy(cands[j])
    ensures FirstTruthy(cands, fallback) == cands[k].value
  {
    if k > 0 {
      FirstTruthySelects(cands[1..], fallback, k - 1);
    }
  }

  /** An `||` chain whose operands are all falsy yields its last operand. */
  lemma {:induction false} FirstTruthyFallsBack(cands: seq<Option<Json>>, fallback: Json)
    requires forall j :: 0 <= j < |cands| ==> !Truthy(cands[j])
    ensures FirstTruthy(cands, fallback) == fallback
  {
    if cands != [] {
      FirstTruthyFallsBack(cands[1..], fallback);
    }
  }

  function DigitChar(d: nat): char
    requires d < 10
  {
    ('0' as int + d) as char
  }

  predicate IsDigit(c: char) {
    '0' <= c <= '9'
  }

  /** Decimal notation of a natural number, without leading zeros. */
  function NatToDecimal(n: nat): (s: string)
    ensures s != []
    ensures forall i :: 0 <= i < |s| ==> IsDigit(s[i])
    ensures |s| == 1 <==> n < 10
    ensures s[0] == '0' <==> n == 0
    ensures |s| > 1 ==> s[0] != '0'
    decreases n
  {
    if n < 10 then [DigitChar(n)] else NatToDecimal(n / 10) + [DigitChar(n % 10)]
  }

  /** The number a string of decimal digits denotes: the reading side of
      `NatToDecimal`. */
  function DecimalValue(s: string): nat
    requires forall i :: 0 <= i < |s| ==> IsDigit(s[i])
  {
    if s == [] then 0
    else
      var last := s[|s| - 1];
      assert IsDigit(last);
      DecimalValue(s[..|s| - 1]) * 10 + (last as int - '0' as int)
  }

  /** Reading back the decimal notation of `n` gives `n`. */
  lemma {:induction false} DecimalRoundTrip(n: nat)
    ensures DecimalValue(NatToDecimal(n)) == n
  {
    if n >= 10 {
      var prefix := NatToDecimal(n / 10);
      var s := prefix + [DigitChar(n % 10)];
      assert s[..|s| - 1] == prefix;
      DecimalRoundTrip(n / 10);
    }
  }

  /** A three-digit status code prints as exactly three digits. */
  lemma ThreeDigits(n: nat)
    requires 100 <= n <= 999
    ensures |NatToDecimal(n)| == 3
  {
    assert |NatToDecimal(n / 100)| == 1;
    assert |NatToDecimal(n / 10)| == 2;
  }

  /** JavaScript's string form of an integer-valued number (below 10^21):
      a minus sign exactly for negative numbers, then the digits of the
      magnitude without leading zeros. */
  function IntToDecimal(i: int): (s: string)
    ensures s != ""
    ensures (i < 0) == (s[0] == '-')
    ensures var d := if i < 0 then s[1..] else s;
            d != [] && (forall k :: 0 <= k < |d| ==> IsDigit(d[k]))
            && DecimalValue(d) == (if i < 0 then -i else i)
            && (|d| > 1 ==> d[0] != '0')
  {
    var magnitude := if i < 0 then -i else i;
    DecimalRoundTrip(magnitude);
    var d := NatToDecimal(magnitude);
    if i < 0 then
      var s := "-" + d;
      assert s[1..] == d;
      s
    else d
  }

  /** The name and V8's message of the `TypeError` thrown when an object
      cannot be converted to a string. */
  const TypeErrorName := "TypeError"
  const ConversionErrorMessage := "Cannot convert object to primitive value"

  /** Whether `String(v)` returns rather than throws. An object parsed from
      JSON that has its own `toString` key cannot be printed: that property
      is not callable, and the object's `valueOf` returns the object itself,
      so the conversion throws a `TypeError`. An array prints its elements,
      so it is printable when all of them are. */
  predicate Printable(v: Json) {
    match v
    case JObj(fields) => "toString" !in fields
    case JArr(items) => forall i :: 0 <= i < |items| ==> Printable(items[i])
    case _ => true
  }

  /** `String(v)` for a printable JSON value: strings as they are, numbers
      in decimal, `"true"`/`"false"`, `"null"`, an object without its own
      `toString` `"[object Object]"`, and an array its elements' strings
      joined by `","` (a `null` element prints as the empty string). */
  function ToStr(v: Json): (s: string)
    requires Printable(v)
    ensures v.JStr? ==> s == v.s
    ensures v.JObj? ==> s == "[object Object]"
    ensures v.JBool? ==> s == (if v.b then "true" else "false")
    ensures v.JArr? && v.items == [] ==> s == ""
    decreases v, 1, 0
  {
    match v
    case JNull => "null"
    case JBool(b) => if b then "true" else "false"
    case JNum(n) => IntToDecimal(n)
    case JStr(s) => s
    case JArr(_) => JoinFrom(v, 0)
    case JObj(_) => "[object Object]"
  }

  /** `Array.prototype.join(",")` over the elements from index `from` on. */
  function JoinFrom(arr: Json, from: nat): string
    requires arr.JArr? && Printable(arr) && from <= |arr.items|
    decreases arr, 0, |arr.items| - from
  {
    if from == |arr.items| then ""
    else
      var e := arr.items[from];
      var head := if e == JNull then "" else ToStr(e);
      if from + 1 == |arr.items| then head else head + "," + JoinFrom(arr, from + 1)
  }

  /** Every truthy value other than an array has a non-empty string form. */
  lemma TruthyScalarPrintsNonEmpty(v: Json)
    requires Truthy(Some(v)) && !v.JArr? && Printable(v)
    ensures ToStr(v) != ""
  {
  }

  /** An object with its own `toString` key, alone or inside an array,
      cannot be printed. */
  lemma OwnToStringIsUnprintable()
    ensures !Printable(JObj(map["toString" := JNum(1)]))
    ensures !Printable(JArr([JNull, JObj(map["toString" := JNull])]))
    ensures Printable(JObj(map["valueOf" := JNum(1)]))
  {
    assert JArr([JNull, JObj(map["toString" := JNull])]).items[1] == JObj(map["toString" := JNull]);
  }

  /** A truthy array can still print as the empty string: `String([]) == ""`. */
  lemma EmptyArrayPrintsEmpty()
    ensures Truthy(Some(JArr([]))) && ToStr(JArr([])) == ""
    ensures Truthy(Some(JArr([JNull]))) && ToStr(JArr([JNull])) == ""
  {
  }
}
