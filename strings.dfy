/**
 * String helpers with JavaScript's meaning: lexicographic comparison by
 * character code, `startsWith`, substring containment, whitespace `trim`
 * and removal of one character (`replace(/-/g, '')`).
 */
module Strings {

  /** `a < b` on strings: lexicographic by character code, a proper prefix first. */
  predicate Less(a: string, b: string)
    decreases |a|
  {
    |b| > 0 && (|a| == 0 || a[0] < b[0] || (a[0] == b[0] && Less(a[1..], b[1..])))
  }

  lemma {:induction false} LessIrreflexive(a: string)
    ensures !Less(a, a)
    decreases |a|
  {
    if |a| > 0 {
      LessIrreflexive(a[1..]);
    }
  }

  lemma {:induction false} LessTransitive(a: string, b: string, c: string)
    requires Less(a, b) && Less(b, c)
    ensures Less(a, c)
    decreases |a|
  {
    if |a| > 0 && a[0] == b[0] && b[0] == c[0] {
      LessTransitive(a[1..], b[1..], c[1..]);
    }
  }

  lemma LessAsymmetric(a: string, b: string)
    requires Less(a, b)
    ensures !Less(b, a)
  {
    if Less(b, a) {
      LessTransitive(a, b, a);
      LessIrreflexive(a);
    }
  }

  /** Any two different strings are ordered one way or the other. */
  lemma {:induction false} LessTotal(a: string, b: string)
    requires a != b
    ensures Less(a, b) || Less(b, a)
    decreases |a|
  {
    if |a| > 0 && |b| > 0 && a[0] == b[0] {
      assert a == [a[0]] + a[1..] && b == [b[0]] + b[1..];
      LessTotal(a[1..], b[1..]);
    }
  }

  /** A common prefix does not change the order. */
  lemma {:induction false} LessCommonPrefix(p: string, x: string, y: string)
    ensures Less(p + x, p + y) <==> Less(x, y)
    decreases |p|
  {
    if |p| > 0 {
      assert (p + x)[1..] == p[1..] + x;
      assert (p + y)[1..] == p[1..] + y;
      LessCommonPrefix(p[1..], x, y);
    } else {
      assert p + x == x && p + y == y;
    }
  }

  /** Appending one character each to two strings of equal length keeps their order. */
  lemma {:induction false} LessSnoc(x: string, y: string, c: char, d: char)
    requires |x| == |y| && Less(x, y)
    ensures Less(x + [c], y + [d])
    decreases |x|
  {
    if x[0] == y[0] {
      assert (x + [c])[1..] == x[1..] + [c];
      assert (y + [d])[1..] == y[1..] + [d];
      LessSnoc(x[1..], y[1..], c, d);
    }
  }

  /** `s.startsWith(p)`. */
  predicate StartsWith(s: string, p: string) {
    |p| <= |s| && s[..|p|] == p
  }

  /** `s.includes(sub)`, the substring match. */
  predicate Contains(s: string, sub: string) {
    exists i {:trigger s[i..]} :: 0 <= i <= |s| - |sub| && s[i..][..|sub|] == sub
  }

  /** The characters `String.prototype.trim` removes: WhiteSpace and LineTerminator of ECMA-262. */
  predicate IsJsWhitespace(c: char) {
    c == '\t' || c == '\n' || c == '\U{B}' || c == '\U{C}' || c == '\r' || c == ' '
    || c == '\U{A0}' || c == '\U{1680}' || ('\U{2000}' <= c <= '\U{200A}')
    || c == '\U{2028}' || c == '\U{2029}' || c == '\U{202F}' || c == '\U{205F}'
    || c == '\U{3000}' || c == '\U{FEFF}'
  }

  predicate AllWhitespace(s: string) {
    forall i :: 0 <= i < |s| ==> IsJsWhitespace(s[i])
  }

  /** The number of whitespace characters at the start of `s`. */
  function Leading(s: string): (n: nat)
    ensures n <= |s| && AllWhitespace(s[..n])
    ensures n == |s| || !IsJsWhitespace(s[n])
  {
    if s == [] || !IsJsWhitespace(s[0]) then 0
    else
      var n := Leading(s[1..]);
      assert s[..n + 1] == [s[0]] + s[1..][..n];
      n + 1
  }

  /** The number of whitespace characters at the end of `s`. */
  function Trailing(s: string): (n: nat)
    ensures n <= |s| && AllWhitespace(s[|s| - n..])
    ensures n == |s| || !IsJsWhitespace(s[|s| - n - 1])
  {
    if s == [] || !IsJsWhitespace(s[|s| - 1]) then 0
    else
      var n := Trailing(s[..|s| - 1]);
      assert s[|s| - (n + 1)..] == s[..|s| - 1][|s| - 1 - n..] + [s[|s| - 1]];
      n + 1
  }

  /** `s.trimStart()`. */
  function TrimStart(s: string): string {
    s[Leading(s)..]
  }

  /** `s.trimEnd()`. */
  function TrimEnd(s: string): string {
    s[..|s| - Trailing(s)]
  }

  /** `s.trim()`. */
  function Trim(s: string): string {
    TrimEnd(TrimStart(s))
  }

  lemma {:induction false} LeadingSkips(w: string, c: string)
    requires AllWhitespace(w)
    requires c == [] || !IsJsWhitespace(c[0])
    ensures Leading(w + c) == |w|
    decreases |w|
  {
    if w != [] {
      assert (w + c)[1..] == w[1..] + c;
      LeadingSkips(w[1..], c);
    } else {
      assert w + c == c;
    }
  }

  lemma {:induction false} TrailingSkips(c: string, w: string)
    requires AllWhitespace(w)
    requires c == [] || !IsJsWhitespace(c[|c| - 1])
    ensures Trailing(c + w) == |w|
    decreases |w|
  {
    if w != [] {
      assert (c + w)[..|c + w| - 1] == c + w[..|w| - 1];
      TrailingSkips(c, w[..|w| - 1]);
    } else {
      assert c + w == c;
    }
  }

  /** Trimming a text padded with whitespace on both sides gives the text back when its ends are not blank. */
  lemma TrimPadded(w1: string, c: string, w2: string)
    requires AllWhitespace(w1) && AllWhitespace(w2)
    requires |c| > 0 && !IsJsWhitespace(c[0]) && !IsJsWhitespace(c[|c| - 1])
    ensures Trim(w1 + c + w2) == c
  {
    assert w1 + c + w2 == w1 + (c + w2);
    LeadingSkips(w1, c + w2);
    assert TrimStart(w1 + c + w2) == c + w2;
    TrailingSkips(c, w2);
  }

  /**
   * A template literal written over several lines, opening with a line break and
   * closing with a line break and the four spaces of indentation, trims to its body.
   */
  lemma TrimTemplate(c: string)
    requires |c| > 0 && !IsJsWhitespace(c[0]) && !IsJsWhitespace(c[|c| - 1])
    ensures Trim("\n" + c + "\n    ") == c
  {
    TrimPadded("\n", c, "\n    ");
  }

  /** The first and last characters of a concatenation. */
  lemma EndsOfPadded(a: string, m: string, c: string)
    requires |a| > 0 && |c| > 0
    ensures var s := a + m + c; |s| > 0 && s[0] == a[0] && s[|s| - 1] == c[|c| - 1]
  {
  }

  /** Two texts that differ only in a middle piece, whose first characters differ, are different. */
  lemma DifferAt(a: string, x: string, y: string, b: string)
    requires |x| > 0 && |y| > 0 && x[0] != y[0]
    ensures a + x + b != a + y + b
  {
    assert (a + x + b)[|a|] == x[0];
    assert (a + y + b)[|a|] == y[0];
  }

  /** A text contains every piece it is built from. */
  lemma ContainsMiddle(a: string, x: string, b: string)
    ensures Contains(a + x + b, x)
  {
    var s := a + x + b;
    assert s[|a|..][..|x|] == x;
  }

  /** `s.replace(/x/g, '')` for a single character `x`. */
  function RemoveChar(s: string, x: char): string {
    if s == [] then []
    else (if s[0] == x then [] else [s[0]]) + RemoveChar(s[1..], x)
  }

  lemma {:induction false} RemoveCharAppend(a: string, b: string, x: char)
    ensures RemoveChar(a + b, x) == RemoveChar(a, x) + RemoveChar(b, x)
    decreases |a|
  {
    if a != [] {
      assert (a + b)[1..] == a[1..] + b;
      RemoveCharAppend(a[1..], b, x);
    } else {
      assert a + b == b;
    }
  }
}
