// The slice of JavaScript value semantics that the page script and the proxy
// server depend on: truthiness, `||`, property reads that throw on
// null/undefined, and the String() conversion used by template literals.

module Js {

  datatype Option<T> = None | Some(value: T)

  type Bytes = seq<bv8>

  /** A JavaScript value as produced by JSON parsing (numbers are integers here). */
  datatype JsValue =
    | Undefined
    | Null
    | Bool(b: bool)
    | Num(n: int)
    | Str(s: string)
    | Arr(items: seq<JsValue>)
    | Obj(fields: map<string, JsValue>)

  /** How evaluating an expression ends: with a value, or by throwing an error with a message. */
  datatype Completion = Normal(value: JsValue) | Throw(message: string)

  predicate Truthy(v: JsValue) {
    match v
    case Undefined => false
    case Null => false
    case Bool(b) => b
    case Num(n) => n != 0
    case Str(s) => s != ""
    case Arr(_) => true
    case Obj(_) => true
  }

  /** `a || b` */
  function Or(a: JsValue, b: JsValue): JsValue {
    if Truthy(a) then a else b
  }

  predicate Nullish(v: JsValue) {
    v.Undefined? || v.Null?
  }

  /** The TypeError message V8 gives for reading `key` from undefined or null. */
  function ReadError(v: JsValue, key: string): string
    requires Nullish(v)
  {
    "Cannot read properties of " + (if v.Undefined? then "undefined" else "null") + " (reading '" + key + "')"
  }

  /**
   * `v.key` (or `v[key]`). Arrays and strings answer `length` and the index `0`,
   * the only built-in properties the source reads; a missing property is undefined.
   */
  function Prop(v: JsValue, key: string): (r: Completion)
    ensures r.Throw? <==> Nullish(v)
    ensures v.Obj? && key in v.fields ==> r == Normal(v.fields[key])
  {
    match v
    case Undefined => Throw(ReadError(v, key))
    case Null => Throw(ReadError(v, key))
    case Obj(m) => Normal(if key in m then m[key] else Undefined)
    case Arr(a) =>
      Normal(if key == "length" then Num(|a|) else if key == "0" && |a| > 0 then a[0] else Undefined)
    case Str(s) =>
      Normal(if key == "length" then Num(|s|) else if key == "0" && |s| > 0 then Str([s[0]]) else Undefined)
    case _ => Normal(Undefined)
  }

  /** `v.k1.k2...`: reads left to right, stopping at the first read that throws. */
  function Path(v: JsValue, keys: seq<string>): Completion
    decreases |keys|
  {
    if keys == [] then Normal(v)
    else
      match Prop(v, keys[0])
      case Throw(m) => Throw(m)
      case Normal(w) => Path(w, keys[1..])
  }

  /** The value of a field of an object literal such as a parsed request body. */
  function Field(body: map<string, JsValue>, key: string): JsValue {
    if key in body then body[key] else Undefined
  }

  /** `String(v)`, as a template literal `${v}` applies it. */
  function ToStr(v: JsValue): string {
    match v
    case Undefined => "undefined"
    case Null => "null"
    case Bool(b) => if b then "true" else "false"
    case Num(n) => IntToDecimal(n)
    case Str(s) => s
    case Arr(a) =>
      // Array.prototype.join(","): null and undefined elements print as ""
      Join(seq(|a|, i requires 0 <= i < |a| => if Nullish(a[i]) then "" else ToStr(a[i])), ",")
    case Obj(_) => "[object Object]"
  }

  /** The parts with `sep` between each two neighbours. */
  function Join(parts: seq<string>, sep: string): string
    decreases |parts|
  {
    if |parts| == 0 then ""
    else if |parts| == 1 then parts[0]
    else parts[0] + sep + Join(parts[1..], sep)
  }

  // ---- Decimal text of integers (String of a number) and its reading back ----

  predicate IsDigit(c: char) {
    '0' <= c <= '9'
  }

  predicate AllDigits(s: string) {
    forall i :: 0 <= i < |s| ==> IsDigit(s[i])
  }

  function DigitChar(d: nat): (c: char)
    requires d < 10
    ensures IsDigit(c) && c as int - '0' as int == d
  {
    "0123456789"[d]
  }

  function NatToDecimal(n: nat): string
    decreases n
  {
    if n < 10 then [DigitChar(n)] else NatToDecimal(n / 10) + [DigitChar(n % 10)]
  }

  function IntToDecimal(n: int): string {
    if n < 0 then "-" + NatToDecimal(-n) else NatToDecimal(n)
  }

  /** The number a string of decimal digits denotes. */
  function DecimalValue(s: string): nat
    requires AllDigits(s)
    decreases |s|
  {
    if s == [] then 0 else DecimalValue(s[..|s| - 1]) * 10 + (s[|s| - 1] as int - '0' as int)
  }

  lemma {:induction false} NatToDecimalRoundTrip(n: nat)
    ensures var t := NatToDecimal(n); |t| > 0 && AllDigits(t) && DecimalValue(t) == n
    ensures |NatToDecimal(n)| > 1 ==> NatToDecimal(n)[0] != '0'
    decreases n
  {
    var t := NatToDecimal(n);
    if n >= 10 {
      NatToDecimalRoundTrip(n / 10);
      var p := NatToDecimal(n / 10);
      assert t == p + [DigitChar(n % 10)];
      assert t[..|t| - 1] == p;
      assert t[0] == p[0];
    }
  }

  /** The digits at the start of a string, up to the first character that is not one. */
  function LeadingDigits(s: string): (r: string)
    ensures AllDigits(r) && r <= s
    decreases |s|
  {
    if s != [] && IsDigit(s[0]) then [s[0]] + LeadingDigits(s[1..]) else []
  }

  lemma {:induction false} LeadingDigitsOfConcat(d: string, t: string)
    requires AllDigits(d)
    requires t == [] || !IsDigit(t[0])
    ensures LeadingDigits(d + t) == d
    decreases |d|
  {
    if d != [] {
      assert (d + t)[1..] == d[1..] + t;
      LeadingDigitsOfConcat(d[1..], t);
    }
  }

  /** Reads the optionally negative integer that a string starts with, if any. */
  function ReadLeadingInt(s: string): Option<int> {
    if |s| > 0 && s[0] == '-' then Negated(ReadLeadingNat(s[1..])) else ReadLeadingNat(s)
  }

  function Negated(r: Option<int>): Option<int> {
    if r.Some? then Some(-r.value) else None
  }

  /** Reads the digits a string starts with, if there are any. */
  function ReadLeadingNat(s: string): Option<int> {
    var digits := LeadingDigits(s);
    if digits == [] then None else Some(DecimalValue(digits) as int)
  }

  /** A written integer reads back from the front of a string, whatever non-digit text follows. */
  lemma ReadLeadingIntBack(n: int, tail: string)
    requires tail == [] || !IsDigit(tail[0])
    ensures ReadLeadingInt(IntToDecimal(n) + tail) == Some(n)
  {
    if n < 0 {
      NegativeReadsBack(n, tail);
    } else {
      NatReadsBack(n, tail);
      NatToDecimalRoundTrip(n);
      assert (NatToDecimal(n) + tail)[0] != '-' by { assert IsDigit(NatToDecimal(n)[0]); }
    }
  }

  lemma NegativeReadsBack(n: int, tail: string)
    requires n < 0
    requires tail == [] || !IsDigit(tail[0])
    ensures ReadLeadingInt(IntToDecimal(n) + tail) == Some(n)
  {
    var m: nat := -n;
    var digits := NatToDecimal(m);
    assert IntToDecimal(n) == ['-'] + digits;
    ConcatAssoc(['-'], digits, tail);
    MinusSign(digits + tail);
    NatReadsBack(m, tail);
  }

  lemma ConcatAssoc(a: string, b: string, c: string)
    ensures (a + b) + c == a + (b + c)
  {
  }

  lemma MinusSign(rest: string)
    ensures ReadLeadingInt(['-'] + rest) == Negated(ReadLeadingNat(rest))
  {
    assert (['-'] + rest)[1..] == rest;
  }

  lemma NatReadsBack(m: nat, tail: string)
    requires tail == [] || !IsDigit(tail[0])
    ensures ReadLeadingNat(NatToDecimal(m) + tail) == Some(m)
  {
    NatToDecimalRoundTrip(m);
    LeadingDigitsOfConcat(NatToDecimal(m), tail);
  }
}
