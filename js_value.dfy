/**
 * The fragment of JavaScript value semantics that the workflow's rule
 * engine, validators and button gates rely on: truthiness, strict
 * equality, `Number(...)`, `String(...)`, the `<` comparison on numbers,
 * `toLowerCase` and `String.prototype.includes`.
 *
 * Numbers are exact decimals: `Finite(m, e)` stands for m / 10^e.
 * Every number the workflow writes or parses (user input, 0.5, 1.1,
 * 25000, 720 …) is such a decimal; IEEE rounding is not modelled.
 */
module Js {

  import opened Wrappers

  datatype Number = NaN | PosInfinity | NegInfinity | Finite(mantissa: int, exponent: nat)

  /** A JavaScript value as it can appear in the form data. */
  datatype Value =
    | Undefined
    | Null
    | Bool(b: bool)
    | Num(n: Number)
    | Str(s: string)
    | Arr(items: seq<Value>)
    | Obj(fields: map<string, Value>)

  const Zero: Number := Finite(0, 0)
  const One: Number := Finite(1, 0)

  function Pow10(e: nat): (r: nat)
    ensures r >= 1
  {
    if e == 0 then 1 else 10 * Pow10(e - 1)
  }

  /** Property read `o[k]`: an absent key reads as `undefined`. */
  function Get(m: map<string, Value>, k: string): (v: Value)
    ensures k !in m ==> v == Undefined
    ensures k in m ==> v == m[k]
  {
    if k in m then m[k] else Undefined
  }

  // ---------------------------------------------------------------- numbers

  predicate IsZero(n: Number) {
    n.Finite? && n.mantissa == 0
  }

  /** `x === y` on numbers: NaN equals nothing, not even itself. */
  predicate NumEquals(x: Number, y: Number) {
    match (x, y)
    case (Finite(m1, e1), Finite(m2, e2)) => m1 * Pow10(e2) == m2 * Pow10(e1)
    case (PosInfinity, PosInfinity) => true
    case (NegInfinity, NegInfinity) => true
    case _ => false
  }

  /** `x < y` on numbers: every comparison with NaN is false. */
  predicate NumLess(x: Number, y: Number) {
    match (x, y)
    case (Finite(m1, e1), Finite(m2, e2)) => m1 * Pow10(e2) < m2 * Pow10(e1)
    case (NegInfinity, Finite(_, _)) => true
    case (NegInfinity, PosInfinity) => true
    case (Finite(_, _), PosInfinity) => true
    case _ => false
  }

  lemma NaNIsIncomparable(x: Number)
    ensures !NumLess(NaN, x) && !NumLess(x, NaN)
    ensures !NumEquals(NaN, x) && !NumEquals(x, NaN)
  {
  }

  /** `<` is a strict order: `x < y` and `y < x` never both hold, and neither holds for equal numbers. */
  lemma NumLessIsStrict(x: Number, y: Number)
    ensures !(NumLess(x, y) && NumLess(y, x))
    ensures NumEquals(x, y) ==> !NumLess(x, y) && !NumLess(y, x)
  {
  }

  function Negate(n: Number): (r: Number)
    ensures n.NaN? <==> r.NaN?
  {
    match n
    case NaN => NaN
    case PosInfinity => NegInfinity
    case NegInfinity => PosInfinity
    case Finite(m, e) => Finite(-m, e)
  }

  /** Sign of a non-NaN number: -1, 0 or 1. */
  function Sign(n: Number): int
    requires !n.NaN?
  {
    match n
    case PosInfinity => 1
    case NegInfinity => -1
    case Finite(m, _) => if m > 0 then 1 else if m < 0 then -1 else 0
  }

  /** `x * y`, exact on decimals; infinity times zero is NaN. */
  function Mul(x: Number, y: Number): (r: Number)
    ensures x.NaN? || y.NaN? ==> r.NaN?
    ensures x.Finite? && y.Finite? ==> r.Finite?
  {
    if x.NaN? || y.NaN? then NaN
    else if x.Finite? && y.Finite? then Finite(x.mantissa * y.mantissa, x.exponent + y.exponent)
    else if Sign(x) * Sign(y) == 0 then NaN
    else if Sign(x) * Sign(y) > 0 then PosInfinity
    else NegInfinity
  }

  // ------------------------------------------------------------ truthiness

  /** JavaScript truthiness: `false`, 0, NaN, "", null and undefined are falsy. */
  predicate Truthy(v: Value) {
    match v
    case Undefined => false
    case Null => false
    case Bool(b) => b
    case Num(n) => !n.NaN? && !IsZero(n)
    case Str(s) => s != ""
    case Arr(_) => true
    case Obj(_) => true
  }

  /** `a || b` */
  function Or(a: Value, b: Value): (r: Value)
    ensures Truthy(a) ==> r == a
    ensures !Truthy(a) ==> r == b
  {
    if Truthy(a) then a else b
  }

  // ------------------------------------------------------- strict equality

  /**
   * `a === b`. Arrays and objects are compared by reference in JavaScript;
   * the form data never shares a reference with a rule's literal, so two
   * arrays or objects are never strictly equal here.
   */
  predicate StrictEquals(a: Value, b: Value) {
    match (a, b)
    case (Undefined, Undefined) => true
    case (Null, Null) => true
    case (Bool(x), Bool(y)) => x == y
    case (Num(x), Num(y)) => NumEquals(x, y)
    case (Str(x), Str(y)) => x == y
    case _ => false
  }

  /** Strict equality with a string literal is plain structural equality. */
  lemma StrictEqualsString(a: Value, s: string)
    ensures StrictEquals(a, Str(s)) <==> a == Str(s)
  {
  }

  // ----------------------------------------------------- String(...)

  function DigitChar(d: nat): (c: char)
    requires d < 10
    ensures IsDigit(c)
  {
    ('0' as int + d) as char
  }

  function NatToString(n: nat): (s: string)
    ensures |s| >= 1
  {
    if n < 10 then [DigitChar(n)] else NatToString(n / 10) + [DigitChar(n % 10)]
  }

  function PadZeros(s: string, width: nat): (r: string)
    ensures |r| >= width
    decreases width - |s|
  {
    if |s| >= width then s else PadZeros("0" + s, width)
  }

  /** Removes trailing zeros of the fraction: (1500, 2) becomes (15, 0). */
  function Normalise(m: int, e: nat): (r: (int, nat))
    ensures r.1 <= e
    decreases e
  {
    if e > 0 && m % 10 == 0 then Normalise(m / 10, e - 1) else (m, e)
  }

  function Abs(m: int): nat {
    if m < 0 then -m else m
  }

  /** Digits of a/10^e in positional notation, with exactly e fraction digits when e > 0. */
  function FormatDecimal(a: nat, e: nat): string {
    if e == 0 then NatToString(a)
    else
      var digits := PadZeros(NatToString(a), e + 1);
      digits[..|digits| - e] + "." + digits[|digits| - e..]
  }

  function FiniteToString(m: int, e: nat): string {
    var r := Normalise(m, e);
    (if r.0 < 0 then "-" else "") + FormatDecimal(Abs(r.0), r.1)
  }

  /** `String(n)` in plain positional notation (the exponent form for very large or small magnitudes is not modelled). */
  function NumberToString(n: Number): string {
    match n
    case NaN => "NaN"
    case PosInfinity => "Infinity"
    case NegInfinity => "-Infinity"
    case Finite(m, e) => FiniteToString(m, e)
  }

  function JoinWithCommas(parts: seq<string>): string {
    if parts == [] then ""
    else if |parts| == 1 then parts[0]
    else parts[0] + "," + JoinWithCommas(parts[1..])
  }

  /** `String(v)`: arrays join their elements with commas, null and undefined elements as "". */
  function ToString(v: Value): string {
    match v
    case Undefined => "undefined"
    case Null => "null"
    case Bool(b) => if b then "true" else "false"
    case Num(n) => NumberToString(n)
    case Str(s) => s
    case Arr(items) =>
      JoinWithCommas(seq(|items|, i requires 0 <= i < |items| =>
        if items[i].Undefined? || items[i].Null? then "" else ToString(items[i])))
    case Obj(_) => "[object Object]"
  }

  // ----------------------------------------------------- Number(...)

  /** The characters `String.prototype.trim` removes (WhiteSpace and LineTerminator). */
  predicate IsWhiteSpace(c: char) {
    c == '\t' || c == '\n' || c == '\U{000B}' || c == '\U{000C}' || c == '\r' || c == ' '
    || c == '\U{00A0}' || c == '\U{1680}' || ('\U{2000}' <= c <= '\U{200A}')
    || c == '\U{2028}' || c == '\U{2029}' || c == '\U{202F}' || c == '\U{205F}'
    || c == '\U{3000}' || c == '\U{FEFF}'
  }

  function TrimStart(s: string): (r: string)
    ensures |r| <= |s|
    ensures r != [] ==> !IsWhiteSpace(r[0])
  {
    if |s| > 0 && IsWhiteSpace(s[0]) then TrimStart(s[1..]) else s
  }

  function TrimEnd(s: string): (r: string)
    ensures |r| <= |s|
    ensures r != [] ==> !IsWhiteSpace(r[|r| - 1])
    ensures s != [] && !IsWhiteSpace(s[0]) ==> r != [] && r[0] == s[0]
  {
    if |s| > 0 && IsWhiteSpace(s[|s| - 1]) then TrimEnd(s[..|s| - 1]) else s
  }

  function Trim(s: string): string {
    TrimEnd(TrimStart(s))
  }

  predicate IsDigit(c: char) {
    '0' <= c <= '9'
  }

  /** Number of leading decimal digits of `s`. */
  function LeadingDigits(s: string): (n: nat)
    ensures n <= |s|
    ensures forall i :: 0 <= i < n ==> IsDigit(s[i])
    ensures n < |s| ==> !IsDigit(s[n])
  {
    if |s| > 0 && IsDigit(s[0]) then 1 + LeadingDigits(s[1..]) else 0
  }

  function DigitValue(c: char): (d: nat)
    requires IsDigit(c)
    ensures d < 10
  {
    var k := c as int - '0' as int;
    assert 0 <= k;
    k
  }

  /** The value of a string of decimal digits, most significant first. */
  function DecimalValue(digits: string): nat
    requires forall i :: 0 <= i < |digits| ==> IsDigit(digits[i])
  {
    if digits == [] then 0
    else 10 * DecimalValue(digits[..|digits| - 1]) + DigitValue(digits[|digits| - 1])
  }

  /** Value of one digit in radix 2, 8 or 16, if `c` is such a digit. */
  function RadixDigit(c: char, radix: nat): Option<nat> {
    var d :=
      if '0' <= c <= '9' then c as int - '0' as int
      else if 'a' <= c <= 'f' then c as int - 'a' as int + 10
      else if 'A' <= c <= 'F' then c as int - 'A' as int + 10
      else 16;
    if d < radix then Some(d) else None
  }

  /** The value of a non-empty run of radix digits (the part after `0x`, `0o` or `0b`). */
  function RadixValue(digits: string, radix: nat): Option<nat>
  {
    if digits == [] then None
    else
      var last := RadixDigit(digits[|digits| - 1], radix);
      if last.None? then None
      else if |digits| == 1 then last
      else
        var front := RadixValue(digits[..|digits| - 1], radix);
        if front.None? then None else Some(front.value * radix + last.value)
  }

  /** The exponent after `e`/`E`: an optional sign and at least one digit. */
  function ParseExponent(s: string): (r: Option<int>) {
    var negative := |s| > 0 && s[0] == '-';
    var body := if |s| > 0 && (s[0] == '-' || s[0] == '+') then s[1..] else s;
    if body != [] && LeadingDigits(body) == |body| then
      var k: int := DecimalValue(body);
      Some(if negative then -k else k)
    else None
  }

  /** m / 10^e scaled by 10^k. */
  function ScaleBy(m: nat, e: nat, k: int): Number {
    if k >= e then Finite(m * Pow10(k - e), 0) else Finite(m, e - k)
  }

  /** An unsigned decimal literal: digits, an optional `.` fraction, an optional exponent. */
  function ParseUnsignedDecimal(t: string): Number {
    var i := LeadingDigits(t);
    var intDigits := t[..i];
    var rest := t[i..];
    var hasPoint := |rest| > 0 && rest[0] == '.';
    var afterPoint := if hasPoint then rest[1..] else rest;
    var j := if hasPoint then LeadingDigits(afterPoint) else 0;
    var fracDigits := afterPoint[..j];
    var tail := afterPoint[j..];
    if intDigits == [] && fracDigits == [] then NaN
    else
      var mantissa := DecimalValue(intDigits + fracDigits);
      if tail == [] then Finite(mantissa, |fracDigits|)
      else if tail[0] == 'e' || tail[0] == 'E' then
        match ParseExponent(tail[1..])
        case None => NaN
        case Some(k) => ScaleBy(mantissa, |fracDigits|, k)
      else NaN
  }

  function FromRadix(digits: string, radix: nat): Number {
    match RadixValue(digits, radix)
    case None => NaN
    case Some(n) => Finite(n, 0)
  }

  /** `Number(s)` for a string: whitespace is trimmed and the empty string is 0. */
  function StringToNumber(s: string): Number {
    var t := Trim(s);
    if t == "" then Zero
    else if t == "Infinity" || t == "+Infinity" then PosInfinity
    else if t == "-Infinity" then NegInfinity
    else if |t| >= 2 && t[0] == '0' && (t[1] == 'x' || t[1] == 'X') then FromRadix(t[2..], 16)
    else if |t| >= 2 && t[0] == '0' && (t[1] == 'o' || t[1] == 'O') then FromRadix(t[2..], 8)
    else if |t| >= 2 && t[0] == '0' && (t[1] == 'b' || t[1] == 'B') then FromRadix(t[2..], 2)
    else if t[0] == '-' then Negate(ParseUnsignedDecimal(t[1..]))
    else if t[0] == '+' then ParseUnsignedDecimal(t[1..])
    else ParseUnsignedDecimal(t)
  }

  /** `Number(v)`: arrays and objects convert through their string form. */
  function ToNumber(v: Value): Number {
    match v
    case Undefined => NaN
    case Null => Zero
    case Bool(b) => if b then One else Zero
    case Num(n) => n
    case Str(s) => StringToNumber(s)
    case Arr(_) => StringToNumber(ToString(v))
    case Obj(_) => StringToNumber(ToString(v))
  }

  // ------------------------------------------------------------ strings

  function LowerChar(c: char): char {
    if 'A' <= c <= 'Z' then (c as int + 32) as char else c
  }

  /** `toLowerCase`, for the ASCII letters. */
  function ToLower(s: string): (r: string)
    ensures |r| == |s|
    ensures forall i :: 0 <= i < |s| ==> r[i] == LowerChar(s[i])
  {
    seq(|s|, i requires 0 <= i < |s| => LowerChar(s[i]))
  }

  predicate OccursAt(haystack: string, needle: string, i: int) {
    0 <= i && i + |needle| <= |haystack| && haystack[i..i + |needle|] == needle
  }

  /** `haystack.includes(needle)`, by scanning from the left. */
  predicate Includes(haystack: string, needle: string)
    decreases |haystack|
  {
    |needle| <= |haystack|
    && (haystack[..|needle|] == needle || (|haystack| > 0 && Includes(haystack[1..], needle)))
  }

  /** The scan finds the needle exactly when it occurs at some position. */
  lemma {:induction false} IncludesIffOccurs(haystack: string, needle: string)
    ensures Includes(haystack, needle) <==> exists i :: OccursAt(haystack, needle, i)
    decreases |haystack|
  {
    if Includes(haystack, needle) {
      if haystack[..|needle|] == needle {
        assert OccursAt(haystack, needle, 0);
      } else {
        IncludesIffOccurs(haystack[1..], needle);
        var i :| OccursAt(haystack[1..], needle, i);
        assert haystack[1..][i..i + |needle|] == haystack[i + 1..i + 1 + |needle|];
        assert OccursAt(haystack, needle, i + 1);
      }
    } else if exists i :: OccursAt(haystack, needle, i) {
      var i :| OccursAt(haystack, needle, i);
      if i > 0 {
        assert haystack[1..][i - 1..i - 1 + |needle|] == haystack[i..i + |needle|];
        assert OccursAt(haystack[1..], needle, i - 1);
        IncludesIffOccurs(haystack[1..], needle);
      }
      assert false;
    }
  }

  /** Every string includes the empty string and itself. */
  lemma IncludesTrivially(s: string)
    ensures Includes(s, "")
    ensures Includes(s, s)
  {
  }
}
