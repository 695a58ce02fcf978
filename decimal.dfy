/**
 * Integer text conversions as JavaScript performs them: `Number.prototype.toString()`
 * on integers, `String.prototype.padStart`, and `parseInt` without a radix.
 */
module Decimal {
  import opened Wrappers
  import Strings

  predicate IsDigit(c: char) {
    '0' <= c <= '9'
  }

  predicate AllDigits(s: string) {
    forall i :: 0 <= i < |s| ==> IsDigit(s[i])
  }

  /** The value of a digit or letter when read in a radix up to 36 (36 for anything else). */
  function DigitValue(c: char): nat {
    if '0' <= c <= '9' then c as int - '0' as int
    else if 'a' <= c <= 'z' then c as int - 'a' as int + 10
    else if 'A' <= c <= 'Z' then c as int - 'A' as int + 10
    else 36
  }

  function DigitChar(d: nat): (c: char)
    requires d < 10
    ensures IsDigit(c) && DigitValue(c) == d
  {
    ('0' as int + d) as char
  }

  function Pow10(k: nat): (p: nat)
    ensures p >= 1
  {
    if k == 0 then 1 else 10 * Pow10(k - 1)
  }

  /** The text of a non-negative integer, most significant digit first, no leading zeros. */
  function ToDecimal(n: nat): (s: string)
    ensures |s| >= 1 && AllDigits(s)
  {
    if n < 10 then [DigitChar(n)] else ToDecimal(n / 10) + [DigitChar(n % 10)]
  }

  /** `String(i)` for an integer `i`. */
  function IntToString(i: int): string {
    if i < 0 then "-" + ToDecimal(-i) else ToDecimal(i)
  }

  /** The value of a digit string read in the given radix. */
  function Value(s: string, radix: nat): nat {
    if s == [] then 0 else radix * Value(s[..|s| - 1], radix) + DigitValue(s[|s| - 1])
  }

  /** `s.padStart(width, fill)`. */
  function PadStart(s: string, width: nat, fill: char): (r: string)
    ensures |r| == if |s| >= width then |s| else width
    ensures forall i :: 0 <= i < |s| ==> r[|r| - |s| + i] == s[i]
    ensures forall i :: 0 <= i < |r| - |s| ==> r[i] == fill
  {
    if |s| >= width then s else seq(width - |s|, _ => fill) + s
  }

  /** The last `w` decimal digits of `n`, zero-filled. */
  function Fixed(n: nat, w: nat): (s: string)
    ensures |s| == w && AllDigits(s)
  {
    if w == 0 then [] else Fixed(n / 10, w - 1) + [DigitChar(n % 10)]
  }

  lemma {:induction false} ValueOfToDecimal(n: nat)
    ensures Value(ToDecimal(n), 10) == n
  {
    if n >= 10 {
      var s := ToDecimal(n);
      assert s[..|s| - 1] == ToDecimal(n / 10);
      ValueOfToDecimal(n / 10);
    }
  }

  lemma {:induction false} ToDecimalLength(n: nat, k: nat)
    requires k >= 1 && n < Pow10(k)
    ensures |ToDecimal(n)| <= k
  {
    if n >= 10 {
      ToDecimalLength(n / 10, k - 1);
    }
  }

  lemma {:induction false} FixedZero(k: nat)
    ensures Fixed(0, k) == seq(k, _ => '0')
  {
    if k > 0 {
      FixedZero(k - 1);
    }
  }

  /** Padding the decimal text of a number that has at most `w` digits is the same as taking its last `w` digits. */
  lemma {:induction false} PadIsFixed(n: nat, w: nat)
    requires w >= 1 && n < Pow10(w)
    ensures PadStart(ToDecimal(n), w, '0') == Fixed(n, w)
  {
    var q, d := n / 10, n % 10;
    assert n == 10 * q + d;
    if n < 10 {
      assert q == 0 && d == n;
      FixedZero(w - 1);
      assert Fixed(n, w) == Fixed(0, w - 1) + [DigitChar(n)];
      PadSnoc([], DigitChar(n), w);
    } else {
      assert q < Pow10(w - 1);
      var t := ToDecimal(q);
      ToDecimalLength(q, w - 1);
      PadIsFixed(q, w - 1);
      PadSnoc(t, DigitChar(d), w);
    }
  }

  lemma PadSnoc(t: string, d: char, w: nat)
    requires 1 <= w && |t| <= w - 1
    ensures PadStart(t + [d], w, '0') == PadStart(t, w - 1, '0') + [d]
  {
    var z := seq(w - 1 - |t|, _ => '0');
    assert PadStart(t, w - 1, '0') == z + t;
    assert PadStart(t + [d], w, '0') == z + (t + [d]);
  }

  lemma {:induction false} ValueOfFixed(n: nat, w: nat)
    requires n < Pow10(w)
    ensures Value(Fixed(n, w), 10) == n
  {
    if w > 0 {
      var s := Fixed(n, w);
      assert s[..|s| - 1] == Fixed(n / 10, w - 1);
      ValueOfFixed(n / 10, w - 1);
    }
  }

  /** A digit string is the fixed-width text of its own value. */
  lemma {:induction false} FixedOfValue(s: string)
    requires AllDigits(s)
    ensures Value(s, 10) < Pow10(|s|)
    ensures Fixed(Value(s, 10), |s|) == s
  {
    if s != [] {
      var p := s[..|s| - 1];
      FixedOfValue(p);
      var v := Value(s, 10);
      ShiftDigit(Value(p, 10), DigitValue(s[|s| - 1]), Pow10(|p|));
      assert DigitChar(v % 10) == s[|s| - 1];
      assert s == p + [s[|s| - 1]];
    }
  }

  /** Appending a decimal digit `d` to a value `a` below `bound`. */
  lemma ShiftDigit(a: nat, d: nat, bound: nat)
    requires d < 10 && a < bound
    ensures (10 * a + d) / 10 == a && (10 * a + d) % 10 == d
    ensures 10 * a + d < 10 * bound
  {
  }

  /** For numbers of at most `w` digits, numeric order is the lexicographic order of their fixed-width texts. */
  lemma {:induction false} FixedLess(a: nat, b: nat, w: nat)
    requires a < b < Pow10(w)
    ensures Strings.Less(Fixed(a, w), Fixed(b, w))
  {
    if a / 10 < b / 10 {
      FixedLess(a / 10, b / 10, w - 1);
      Strings.LessSnoc(Fixed(a / 10, w - 1), Fixed(b / 10, w - 1), DigitChar(a % 10), DigitChar(b % 10));
    } else {
      var p := Fixed(a / 10, w - 1);
      assert Strings.Less([DigitChar(a % 10)], [DigitChar(b % 10)]);
      Strings.LessCommonPrefix(p, [DigitChar(a % 10)], [DigitChar(b % 10)]);
    }
  }

  /** A JavaScript number as far as this model needs it: an integer or NaN. */
  datatype JsNumber = Num(n: int) | NaN

  /** `String(x)` for a JsNumber. */
  function NumberToString(x: JsNumber): string {
    match x
    case NaN => "NaN"
    case Num(i) => IntToString(i)
  }

  /** The longest prefix of `s` made of digits of the radix. */
  function DigitRun(s: string, radix: nat): (r: string)
    ensures StartsWithRun(s, r, radix)
  {
    if s == [] || DigitValue(s[0]) >= radix then [] else [s[0]] + DigitRun(s[1..], radix)
  }

  ghost predicate StartsWithRun(s: string, r: string, radix: nat) {
    |r| <= |s| && r == s[..|r|] && forall i :: 0 <= i < |r| ==> DigitValue(r[i]) < radix
  }

  /**
   * `parseInt(s)` without a radix: skip leading whitespace, read an optional
   * sign, switch to radix 16 after `0x`/`0X`, then read the longest run of
   * digits; no digits is NaN.
   */
  function ParseInt(s: string): JsNumber {
    ParseSigned(Strings.TrimStart(s))
  }

  /** The sign step of `parseInt`, after leading whitespace. */
  function ParseSigned(t: string): JsNumber {
    if |t| > 0 && t[0] == '-' then Negate(ParseMagnitude(t[1..]))
    else if |t| > 0 && t[0] == '+' then ParseMagnitude(t[1..])
    else ParseMagnitude(t)
  }

  function Negate(x: JsNumber): JsNumber {
    match x
    case NaN => NaN
    case Num(v) => Num(-v)
  }

  /** The digits step of `parseInt`: the radix prefix, then the longest digit run. */
  function ParseMagnitude(u: string): JsNumber {
    var hex := |u| >= 2 && u[0] == '0' && (u[1] == 'x' || u[1] == 'X');
    var radix := if hex then 16 else 10;
    var digits := DigitRun(if hex then u[2..] else u, radix);
    if digits == [] then NaN else Num(Value(digits, radix))
  }

  lemma {:induction false} DigitRunOfDigits(s: string)
    requires AllDigits(s)
    ensures DigitRun(s, 10) == s
  {
    if s != [] {
      DigitRunOfDigits(s[1..]);
      assert s == [s[0]] + s[1..];
    }
  }

  /** `parseInt` reads a non-empty digit string back as its decimal value. */
  lemma ParseIntOfDigits(s: string)
    requires |s| > 0 && AllDigits(s)
    ensures ParseInt(s) == Num(Value(s, 10))
  {
    assert IsDigit(s[0]);
    assert !Strings.IsJsWhitespace(s[0]);
    assert Strings.Leading(s) == 0;
    assert Strings.TrimStart(s) == s;
    assert s[0] != '-' && s[0] != '+';
    assert |s| >= 2 ==> s[1] != 'x' && s[1] != 'X';
    DigitRunOfDigits(s);
    assert ParseMagnitude(s) == Num(Value(s, 10));
  }

  /** Every character of `s` is a digit of the radix. */
  predicate AllRadix(s: string, radix: nat) {
    forall i :: 0 <= i < |s| ==> DigitValue(s[i]) < radix
  }

  /** `0x…`, `0o…` or `0b…` with at least one digit: the non-decimal integer literals `Number` accepts. */
  predicate IsNonDecimalLiteral(t: string) {
    |t| >= 3 && t[0] == '0'
    && ((t[1] in "xX" && AllRadix(t[2..], 16))
        || (t[1] in "oO" && AllRadix(t[2..], 8))
        || (t[1] in "bB" && AllRadix(t[2..], 2)))
  }

  /** The index of the first `e` or `E` in `u`, or `|u|` when there is none. */
  function ExponentStart(u: string): (k: nat)
    ensures k <= |u|
    ensures forall i :: 0 <= i < k ==> u[i] != 'e' && u[i] != 'E'
    ensures k < |u| ==> u[k] == 'e' || u[k] == 'E'
  {
    if u == [] || u[0] == 'e' || u[0] == 'E' then 0 else 1 + ExponentStart(u[1..])
  }

  /** `DecimalDigits`, `DecimalDigits .`, `DecimalDigits . DecimalDigits` or `. DecimalDigits`. */
  predicate IsMantissa(m: string) {
    var whole := DigitRun(m, 10);
    var rest := m[|whole|..];
    (rest == [] && whole != [])
    || (rest != [] && rest[0] == '.' && AllDigits(rest[1..]) && (whole != [] || |rest| > 1))
  }

  /** `e` or `E`, an optional sign, then at least one digit. */
  predicate IsExponentPart(x: string) {
    |x| >= 2 && (x[0] == 'e' || x[0] == 'E')
    && var digits := if x[1] == '+' || x[1] == '-' then x[2..] else x[1..];
       digits != [] && AllDigits(digits)
  }

  /** `StrUnsignedDecimalLiteral` of ECMA-262 section 7.1.4.1.1. */
  predicate IsUnsignedDecimalLiteral(u: string) {
    u == "Infinity"
    || (var k := ExponentStart(u); IsMantissa(u[..k]) && (k == |u| || IsExponentPart(u[k..])))
  }

  /**
   * Whether `Number(s)` is a number rather than NaN: after trimming, `s` is empty,
   * a non-decimal integer literal, or a decimal literal with an optional sign.
   */
  predicate IsNumericText(s: string) {
    var t := Strings.Trim(s);
    t == []
    || IsNonDecimalLiteral(t)
    || IsUnsignedDecimalLiteral(if t[0] == '+' || t[0] == '-' then t[1..] else t)
  }
}
