/**
 * JavaScript numbers and the coercions the project payload goes through:
 * `parseFloat`, `parseInt`, `Number(...)` (used by `isNaN` and by `<` against a
 * number) and truthiness.
 */
module Numbers {
  import opened Text
  import opened Outcomes

  /** A JavaScript number: NaN or a finite value. */
  datatype JsNumber = NaN | Finite(value: real)

  /** A value of an `any`-typed field: absent, null, a string or a number. */
  datatype Raw = Undefined | Null | Str(s: string) | Num(n: JsNumber)

  predicate IsDigit(c: char) { '0' <= c <= '9' }

  predicate AllDigits(s: string) {
    forall i :: 0 <= i < |s| ==> IsDigit(s[i])
  }

  function Pow10(n: nat): (r: nat)
    ensures r >= 1
  {
    if n == 0 then 1 else 10 * Pow10(n - 1)
  }

  /** The value of a string of decimal digits, most significant digit first. */
  function DigitsValue(s: string): (v: nat)
    requires AllDigits(s)
    ensures v < Pow10(|s|)
  {
    if s == [] then 0
    else
      var d := s[0] as int - '0' as int;
      var rest := DigitsValue(s[1..]);
      var p := Pow10(|s| - 1);
      DigitStep(d, p, rest);
      d * p + rest
  }

  /** A digit followed by a smaller remainder stays below the next power of ten. */
  lemma DigitStep(d: int, p: nat, rest: nat)
    requires 0 <= d <= 9 && rest < p
    ensures 0 <= d * p && d * p + rest < 10 * p
  {
    var q := (9 - d) * p;
    assert q >= 0;
    assert 10 * p == d * p + q + p;
  }

  /** How many decimal digits `s` starts with. */
  function LeadingDigits(s: string): (n: nat)
    ensures n <= |s| && AllDigits(s[..n])
    ensures n == |s| || !IsDigit(s[n])
  {
    if s != [] && IsDigit(s[0]) then
      var n := 1 + LeadingDigits(s[1..]);
      assert s[..n] == [s[0]] + s[1..][..n - 1];
      n
    else 0
  }

  /** Length of an optional leading `+` or `-`. */
  function SignLength(t: string): (n: nat)
    ensures n <= 1 && n <= |t|
  {
    if |t| > 0 && (t[0] == '+' || t[0] == '-') then 1 else 0
  }

  /** `t` begins with a number: digits, or a point followed by a digit, after an optional sign. */
  predicate StartsNumber(t: string) {
    var u := t[SignLength(t)..];
    (|u| > 0 && IsDigit(u[0])) || (|u| > 1 && u[0] == '.' && IsDigit(u[1]))
  }

  /** A number read from the front of a string, and how many characters it took. */
  datatype Scan = Scan(value: real, length: nat)

  /** Reads an optional exponent `e`/`E`, optional sign, digits; returns (exponent, length). */
  function ScanExponent(t: string): (r: (int, nat))
    ensures r.1 <= |t|
    ensures r.1 == 0 ==> r.0 == 0
  {
    if |t| > 0 && (t[0] == 'e' || t[0] == 'E') then
      var s := SignLength(t[1..]);
      var digits := t[1 + s..];
      var k := LeadingDigits(digits);
      if k == 0 then (0, 0)
      else
        var v: int := DigitsValue(digits[..k]);
        (if s == 1 && t[1] == '-' then -v else v, 1 + s + k)
    else (0, 0)
  }

  /**
   * The longest decimal literal at the front of `t`: sign, integer digits,
   * optional point and fraction digits, optional exponent.
   */
  function ScanDecimal(t: string): (r: Option<Scan>)
    ensures r.None? <==> !StartsNumber(t)
    ensures r.Some? ==> 0 < r.value.length <= |t|
  {
    var s := SignLength(t);
    var u := t[s..];
    var i := LeadingDigits(u);
    var hasPoint := i < |u| && u[i] == '.';
    var j := if hasPoint then LeadingDigits(u[i + 1..]) else 0;
    if i == 0 && j == 0 then None
    else
      var mantissaLength := if hasPoint then i + 1 + j else i;
      var exponent := ScanExponent(u[mantissaLength..]);
      var fraction := if hasPoint then u[i + 1..][..j] else "";
      var magnitude := LiteralValue(u[..i], fraction, exponent.0);
      Some(Scan(if s == 1 && t[0] == '-' then -magnitude else magnitude,
                s + mantissaLength + exponent.1))
  }

  /** The value of `whole.fraction` times ten to the `e`. */
  function LiteralValue(whole: string, fraction: string, e: int): real
    requires AllDigits(whole) && AllDigits(fraction)
  {
    var m := DigitsValue(whole) as real + DigitsValue(fraction) as real / Pow10(|fraction|) as real;
    if e >= 0 then m * Pow10(e) as real else m / Pow10(-e) as real
  }

  /** `parseFloat(s)`: the decimal literal at the front of `s` after leading spaces, or NaN. */
  function ParseFloat(s: string): (r: JsNumber)
    ensures r.NaN? <==> !StartsNumber(TrimStart(s))
  {
    match ScanDecimal(TrimStart(s))
    case None => NaN
    case Some(scan) => Finite(scan.value)
  }

  /** `parseInt(s)` in base 10: the integer digits at the front of `s` after spaces and a sign, or NaN. */
  function ParseInt(s: string): (r: JsNumber)
    ensures r.NaN? <==> var t := TrimStart(s); LeadingDigits(t[SignLength(t)..]) == 0
    ensures r.Finite? ==> r.value == r.value.Floor as real
  {
    var t := TrimStart(s);
    var sign := SignLength(t);
    var u := t[sign..];
    var i := LeadingDigits(u);
    if i == 0 then NaN
    else
      var v: int := DigitsValue(u[..i]);
      var x := if sign == 1 && t[0] == '-' then -v else v;
      Finite(x as real)
  }

  /** `Number(s)`: a blank string is 0; otherwise the whole trimmed string must be a decimal literal. */
  function StringToNumber(s: string): (r: JsNumber)
    ensures IsBlank(s) ==> r == Finite(0.0)
    ensures !IsBlank(s) && !StartsNumber(Trim(s)) ==> r.NaN?
  {
    TrimEmptyIffBlank(s);
    var t := Trim(s);
    if t == [] then Finite(0.0)
    else
      match ScanDecimal(t)
      case Some(scan) => if scan.length == |t| then Finite(scan.value) else NaN
      case None => NaN
  }

  /** JavaScript truthiness of a field value. */
  predicate Truthy(v: Raw) {
    match v
    case Undefined => false
    case Null => false
    case Str(s) => s != ""
    case Num(n) => n.Finite? && n.value != 0.0
  }

  /** `Number(v)`, the coercion behind `isNaN(v)` and `v < 0`. */
  function ToNumber(v: Raw): JsNumber {
    match v
    case Undefined => NaN
    case Null => Finite(0.0)
    case Str(s) => StringToNumber(s)
    case Num(n) => n
  }

  /** `v < k` for a number `k`: false whenever `v` coerces to NaN. */
  predicate LessThan(v: Raw, k: real) {
    ToNumber(v).Finite? && ToNumber(v).value < k
  }

  /** `v > k` for a number `k`: false whenever `v` coerces to NaN. */
  predicate GreaterThan(v: Raw, k: real) {
    ToNumber(v).Finite? && ToNumber(v).value > k
  }

  /** Truncation toward zero, as `parseInt(String(x))` gives for an ordinary finite `x`. */
  function Trunc(x: real): (r: int)
    ensures x >= 0.0 ==> 0 <= r && r as real <= x < r as real + 1.0
    ensures x < 0.0 ==> r <= 0 && r as real - 1.0 < x <= r as real
  {
    if x >= 0.0 then x.Floor else -((-x).Floor)
  }

  /** `parseFloat(v)` for a field value (non-strings go through `String(v)` first). */
  function ParseFloatOf(v: Raw): JsNumber {
    match v
    case Str(s) => ParseFloat(s)
    case Num(n) => n
    case _ => NaN
  }

  /** `parseInt(v)` for a field value (non-strings go through `String(v)` first). */
  function ParseIntOf(v: Raw): (r: JsNumber)
    ensures r.Finite? ==> r.value == r.value.Floor as real
  {
    match v
    case Str(s) => ParseInt(s)
    case Num(Finite(x)) => Finite(Trunc(x) as real)
    case _ => NaN
  }

  /** `Math.round(x)`: the nearest integer, halves rounded up; NaN stays NaN. */
  function Round(x: JsNumber): (r: JsNumber)
    ensures r.NaN? <==> x.NaN?
    ensures x.Finite? ==> x.value - 0.5 < r.value <= x.value + 0.5 && r.value == r.value.Floor as real
  {
    match x
    case NaN => NaN
    case Finite(v) => Finite((v + 0.5).Floor as real)
  }

  /** Rounding a number between two whole numbers stays between them. */
  lemma RoundWithin(x: real, lo: int, hi: int)
    requires lo as real <= x <= hi as real
    ensures lo as real <= Round(Finite(x)).value <= hi as real
  {
    var f := (x + 0.5).Floor;
    assert (lo - 1) as real < f as real < (hi + 1) as real;
    assert lo - 1 < f < hi + 1;
  }
}
