/** The JavaScript values the pages handle, with the coercions they rely on:
    truthiness (`||`), nullishness (`??`, `?.`), property reads that throw on
    null/undefined, `String(v)`, `Number(v)` and `parseFloat(v)`.
    Numbers are exact rationals: no floating-point rounding, NaN only as the
    result of a failed numeric conversion. */
module Js {
  import opened Wrappers
  import Text

  datatype JsValue =
    | Undefined
    | Null
    | Bool(b: bool)
    | Num(x: real)
    | Str(s: string)
    | Arr(items: seq<JsValue>)
    | Obj(props: map<string, JsValue>)

  /** The result of a numeric conversion. */
  datatype JsNumber = Finite(x: real) | NaN

  predicate Nullish(v: JsValue) {
    v.Undefined? || v.Null?
  }

  /** JavaScript truthiness: undefined, null, false, 0 and '' are falsy. */
  predicate Truthy(v: JsValue) {
    match v
    case Undefined => false
    case Null => false
    case Bool(b) => b
    case Num(x) => x != 0.0
    case Str(s) => s != ""
    case Arr(_) => true
    case Obj(_) => true
  }

  /** `a || d` */
  function Or(a: JsValue, d: JsValue): (r: JsValue)
    ensures Truthy(a) ==> r == a
    ensures !Truthy(a) ==> r == d
  {
    if Truthy(a) then a else d
  }

  /** `a ?? d` */
  function Coalesce(a: JsValue, d: JsValue): (r: JsValue)
    ensures Nullish(a) ==> r == d
    ensures !Nullish(a) ==> r == a
  {
    if Nullish(a) then d else a
  }

  /** `v.k` on a value that is neither null nor undefined: an own property
      of an object, `length` of an array or string, otherwise undefined.
      (Index keys and prototype members are not modelled.) */
  function Read(v: JsValue, k: string): JsValue
    requires !Nullish(v)
  {
    match v
    case Obj(m) => if k in m then m[k] else Undefined
    case Arr(items) => if k == "length" then Num(|items| as real) else Undefined
    case Str(s) => if k == "length" then Num(|s| as real) else Undefined
    case _ => Undefined
  }

  /** `v.k`: a TypeError (None) when `v` is null or undefined. */
  function Prop(v: JsValue, k: string): (r: Option<JsValue>)
    ensures r.None? <==> Nullish(v)
  {
    if Nullish(v) then None else Some(Read(v, k))
  }

  predicate IsDigit(c: char) {
    '0' <= c <= '9'
  }

  predicate AllDigits(s: string) {
    forall i :: 0 <= i < |s| ==> IsDigit(s[i])
  }

  function DigitChar(d: nat): (c: char)
    requires d < 10
    ensures IsDigit(c)
  {
    ('0' as int + d) as char
  }

  function DigitValue(c: char): (d: nat)
    requires IsDigit(c)
    ensures d < 10
  {
    c as int - '0' as int
  }

  /** Decimal digits of a natural number, without leading zeros. */
  function NatToString(n: nat): (r: string)
    ensures |r| >= 1 && AllDigits(r)
  {
    if n < 10 then [DigitChar(n)] else NatToString(n / 10) + [DigitChar(n % 10)]
  }

  /** Up to `k` decimal digits of a fraction in [0, 1), without trailing
      zeros once the expansion ends. */
  function FractionDigits(f: real, k: nat): (r: string)
    requires 0.0 <= f < 1.0
    ensures |r| <= k && AllDigits(r)
    decreases k
  {
    if k == 0 || f == 0.0 then ""
    else
      var d := (f * 10.0).Floor;
      [DigitChar(d)] + FractionDigits(f * 10.0 - d as real, k - 1)
  }

  /** `String(x)` of a number: sign, integer digits and, for a non-integer,
      a point and up to 20 fraction digits. */
  function NumberToString(x: real): string {
    if x < 0.0 then "-" + MagnitudeToString(-x) else MagnitudeToString(x)
  }

  function MagnitudeToString(x: real): string
    requires x >= 0.0
  {
    var n := x.Floor;
    var f := x - n as real;
    NatToString(n) + (if f == 0.0 then "" else "." + FractionDigits(f, 20))
  }

  /** `String(v)` (arrays join their elements with ',', null and undefined
      elements as ''). */
  function ToString(v: JsValue): string
    decreases v
  {
    match v
    case Undefined => "undefined"
    case Null => "null"
    case Bool(b) => if b then "true" else "false"
    case Num(x) => NumberToString(x)
    case Str(s) => s
    case Arr(items) =>
      Text.Join(seq(|items|, i requires 0 <= i < |items| =>
                      if Nullish(items[i]) then "" else ToString(items[i])), ",")
    case Obj(_) => "[object Object]"
  }

  predicate IsSpace(c: char) {
    c == ' ' || c == '\t' || c == '\n' || c == '\r' || c == '\U{000B}' || c == '\U{000C}'
  }

  function TrimStart(s: string): (r: string)
    ensures |r| <= |s|
    ensures r == [] || !IsSpace(r[0])
  {
    if s != [] && IsSpace(s[0]) then TrimStart(s[1..]) else s
  }

  function TrimEnd(s: string): (r: string)
    ensures |r| <= |s|
  {
    if s != [] && IsSpace(s[|s| - 1]) then TrimEnd(s[..|s| - 1]) else s
  }

  /** Number of leading decimal digits. */
  function DigitRun(s: string): (n: nat)
    ensures n <= |s| && AllDigits(s[..n])
    ensures n < |s| ==> !IsDigit(s[n])
  {
    if s != [] && IsDigit(s[0]) then
      var n := 1 + DigitRun(s[1..]);
      assert s[..n] == [s[0]] + s[1..][..n - 1];
      n
    else 0
  }

  /** The value of a string of decimal digits. */
  function DigitsValue(d: string): nat
    requires AllDigits(d)
  {
    if d == [] then 0 else DigitsValue(d[..|d| - 1]) * 10 + DigitValue(d[|d| - 1])
  }

  function Pow10(k: nat): (p: nat)
    ensures p >= 1
  {
    if k == 0 then 1 else 10 * Pow10(k - 1)
  }

  /** The longest prefix of the form `[+-]? digits* ('.' digits*)?`: its value,
      its length and whether it holds at least one digit. */
  datatype Scan = Scan(value: real, length: nat, digits: bool)

  function ScanDecimal(s: string): (r: Scan)
    ensures r.length <= |s|
  {
    var signLen := if s != [] && (s[0] == '+' || s[0] == '-') then 1 else 0;
    var body := s[signLen..];
    var intLen := DigitRun(body);
    var rest := body[intLen..];
    var hasDot := rest != [] && rest[0] == '.';
    var fracLen := if hasDot then DigitRun(rest[1..]) else 0;
    var frac := if hasDot then DigitsValue(rest[1..][..fracLen]) as real / Pow10(fracLen) as real else 0.0;
    var magnitude := DigitsValue(body[..intLen]) as real + frac;
    Scan(if signLen == 1 && s[0] == '-' then -magnitude else magnitude,
         signLen + intLen + (if hasDot then 1 + fracLen else 0),
         intLen + fracLen > 0)
  }

  /** `Number(s)` for a string: blank reads as 0, a whole decimal literal as
      its value, anything else as NaN. */
  function StringToNumber(s: string): JsNumber {
    var t := TrimEnd(TrimStart(s));
    if t == "" then Finite(0.0)
    else
      var sc := ScanDecimal(t);
      if sc.digits && sc.length == |t| then Finite(sc.value) else NaN
  }

  /** `Number(v)`. */
  function ToNumber(v: JsValue): JsNumber {
    match v
    case Undefined => NaN
    case Null => Finite(0.0)
    case Bool(b) => Finite(if b then 1.0 else 0.0)
    case Num(x) => Finite(x)
    case Str(s) => StringToNumber(s)
    case Arr(_) => StringToNumber(ToString(v))
    case Obj(_) => NaN
  }

  /** `parseFloat(v)`: a number reads back as itself; anything else is
      converted to a string whose longest decimal prefix is read. */
  function ParseFloat(v: JsValue): JsNumber {
    if v.Num? then Finite(v.x) else ReadDecimalPrefix(ToString(v))
  }

  /** The longest decimal prefix of a text after leading white space, or NaN
      when it holds no digit. */
  function ReadDecimalPrefix(s: string): JsNumber {
    var sc := ScanDecimal(TrimStart(s));
    if sc.digits then Finite(sc.value) else NaN
  }

  /** `a >= b` between a value and a number: NaN compares false. */
  predicate AtLeast(v: JsValue, bound: real) {
    match ToNumber(v)
    case Finite(x) => x >= bound
    case NaN => false
  }

  // ----- properties -----

  /** The digits printed for `n` read back as `n`. */
  lemma {:induction false} NatDigitsValue(n: nat)
    ensures DigitsValue(NatToString(n)) == n
  {
    var r := NatToString(n);
    if n >= 10 {
      NatDigitsValue(n / 10);
      assert r[..|r| - 1] == NatToString(n / 10);
    }
  }

  /** The text of an integer is its sign, if negative, and its digits. */
  lemma IntegerText(n: int)
    ensures var m: nat := if n < 0 then -n else n;
            NumberToString(n as real) == (if n < 0 then "-" else "") + NatToString(m)
  {
    var m: nat := if n < 0 then -n else n;
    WholeMagnitude(m);
    if n < 0 {
      assert -(n as real) == m as real;
    } else {
      assert n as real == m as real;
    }
  }

  /** A whole number prints as its digits alone. */
  lemma WholeMagnitude(m: nat)
    ensures MagnitudeToString(m as real) == NatToString(m)
  {
    assert (m as real).Floor == m;
  }

  /** An optional minus sign followed by digits scans as one whole literal. */
  lemma ScanSignedDigits(negative: bool, digits: string)
    requires digits != [] && AllDigits(digits)
    ensures var text := (if negative then "-" else "") + digits;
            var v := DigitsValue(digits) as real;
            ScanDecimal(text) == Scan(if negative then -v else v, |text|, true)
  {
    var text := (if negative then "-" else "") + digits;
    AllDigitsRun(digits);
    var signLen := if negative then 1 else 0;
    assert text[signLen..] == digits;
    assert digits[|digits|..] == [];
    assert digits[..|digits|] == digits;
  }

  /** The text of an integer is one whole decimal literal with its value,
      with no surrounding blanks. */
  lemma IntegerTextScan(n: int)
    ensures var text := NumberToString(n as real);
            text != [] && !IsSpace(text[0]) && TrimEnd(TrimStart(text)) == text &&
            ScanDecimal(text) == Scan(n as real, |text|, true)
  {
    var m: nat := if n < 0 then -n else n;
    var digits := NatToString(m);
    IntegerText(n);
    NatDigitsValue(m);
    ScanSignedDigits(n < 0, digits);
    var text := NumberToString(n as real);
    assert text[0] == '-' || IsDigit(text[0]);
    assert IsDigit(text[|text| - 1]);
    NoSpaceTrim(text);
  }

  /** Printing an integer and converting the text back with `Number` gives the
      integer back. */
  lemma IntegerStringRoundTrip(n: int)
    ensures StringToNumber(NumberToString(n as real)) == Finite(n as real)
  {
    IntegerTextScan(n);
  }

  /** `parseFloat` reads the text of an integer back as that integer. */
  lemma IntegerParseFloatRoundTrip(n: int)
    ensures ParseFloat(Str(NumberToString(n as real))) == Finite(n as real)
  {
    IntegerTextScan(n);
    WholeLiteralParse(NumberToString(n as real), n as real);
  }

  /** A text that is one whole decimal literal, with no leading blank, is
      read by `parseFloat` as its value. */
  lemma WholeLiteralParse(text: string, x: real)
    requires text != [] && !IsSpace(text[0]) && ScanDecimal(text) == Scan(x, |text|, true)
    ensures ParseFloat(Str(text)) == Finite(x)
  {
    assert TrimStart(text) == text;
  }

  /** A string of digits is one digit run. */
  lemma {:induction false} AllDigitsRun(d: string)
    requires AllDigits(d)
    ensures DigitRun(d) == |d|
  {
    if d != [] {
      AllDigitsRun(d[1..]);
    }
  }

  /** Trimming leaves a number's text alone. */
  lemma NoSpaceTrim(t: string)
    requires t != [] && (t[0] == '-' || IsDigit(t[0])) && IsDigit(t[|t| - 1])
    ensures TrimEnd(TrimStart(t)) == t
  {
  }
}
