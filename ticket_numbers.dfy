/**
 * Ticket numbers `REP-YYYYMMDD-NNNN` (tickets.service.ts, generateTicketNumber):
 * the UTC date of the clock as `toISOString` writes it, with the hyphens
 * removed, then one more than the trailing number of the lexicographically
 * greatest number already issued with that date prefix, zero-padded to four.
 */
module TicketNumbers {
  import Strings
  import opened Decimal

  /** The UTC calendar fields of a `Date`. */
  datatype UtcDateTime = UtcDateTime(year: int, month: int, day: int, hour: int, minute: int, second: int, millisecond: int)

  /** Dates whose year `toISOString` writes with four digits. */
  predicate ValidDateTime(t: UtcDateTime) {
    && 0 <= t.year <= 9999 && 1 <= t.month <= 12 && 1 <= t.day <= 31
    && 0 <= t.hour < 24 && 0 <= t.minute < 60 && 0 <= t.second < 60 && 0 <= t.millisecond < 1000
  }

  function Pad(n: nat, width: nat): string {
    PadStart(ToDecimal(n), width, '0')
  }

  /** The date part of `toISOString()`: `YYYY-MM-DD`. */
  function IsoDate(t: UtcDateTime): string
    requires ValidDateTime(t)
  {
    Pad(t.year, 4) + "-" + Pad(t.month, 2) + "-" + Pad(t.day, 2)
  }

  /** The time part of `toISOString()`: `THH:mm:ss.sssZ`. */
  function IsoTime(t: UtcDateTime): string
    requires ValidDateTime(t)
  {
    "T" + Pad(t.hour, 2) + ":" + Pad(t.minute, 2) + ":" + Pad(t.second, 2) + "." + Pad(t.millisecond, 3) + "Z"
  }

  /** `toISOString()`: `YYYY-MM-DDTHH:mm:ss.sssZ`. */
  function ToIsoString(t: UtcDateTime): string
    requires ValidDateTime(t)
  {
    IsoDate(t) + IsoTime(t)
  }

  /** `dateStr`: `toISOString().slice(0, 10).replace(/-/g, '')`. */
  function DateKey(t: UtcDateTime): string
    requires ValidDateTime(t)
  {
    Strings.RemoveChar(ToIsoString(t)[..10], '-')
  }

  /** `REP-${dateStr}`, the prefix searched with `startsWith`. */
  function DayPrefix(t: UtcDateTime): string
    requires ValidDateTime(t)
  {
    "REP-" + DateKey(t)
  }

  lemma IsoDateFixed(t: UtcDateTime)
    requires ValidDateTime(t)
    ensures IsoDate(t) == Fixed(t.year, 4) + "-" + Fixed(t.month, 2) + "-" + Fixed(t.day, 2)
    ensures ToIsoString(t)[..10] == IsoDate(t)
  {
    assert Pow10(2) == 100 && Pow10(4) == 10000;
    PadIsFixed(t.year, 4);
    PadIsFixed(t.month, 2);
    PadIsFixed(t.day, 2);
  }

  lemma RemoveHyphens(y: string, m: string, d: string)
    requires AllDigits(y) && AllDigits(m) && AllDigits(d)
    ensures Strings.RemoveChar(y + "-" + m + "-" + d, '-') == y + m + d
  {
    NoHyphenInDigits(y);
    NoHyphenInDigits(m);
    NoHyphenInDigits(d);
    var h := "-";
    assert Strings.RemoveChar(h, '-') == [];
    var a := y + h;
    Strings.RemoveCharAppend(y, h, '-');
    assert Strings.RemoveChar(a, '-') == y;
    var b := a + m;
    Strings.RemoveCharAppend(a, m, '-');
    assert Strings.RemoveChar(b, '-') == y + m;
    var c := b + h;
    Strings.RemoveCharAppend(b, h, '-');
    assert Strings.RemoveChar(c, '-') == y + m;
    Strings.RemoveCharAppend(c, d, '-');
  }

  /** The date key is the four-digit year, the two-digit month and the two-digit day. */
  lemma DateKeyDigits(t: UtcDateTime)
    requires ValidDateTime(t)
    ensures DateKey(t) == Fixed(t.year, 4) + Fixed(t.month, 2) + Fixed(t.day, 2)
    ensures DayPrefix(t) == "REP-" + (Fixed(t.year, 4) + Fixed(t.month, 2) + Fixed(t.day, 2))
    ensures |DayPrefix(t)| == 12
  {
    IsoDateFixed(t);
    RemoveHyphens(Fixed(t.year, 4), Fixed(t.month, 2), Fixed(t.day, 2));
  }

  lemma {:induction false} NoHyphenInDigits(s: string)
    requires AllDigits(s)
    ensures Strings.RemoveChar(s, '-') == s
  {
    if s != [] {
      NoHyphenInDigits(s[1..]);
      assert s == [s[0]] + s[1..];
    }
  }

  /** The numbers that `startsWith` the prefix, in table order. */
  function WithPrefix(numbers: seq<string>, p: string): seq<string> {
    if numbers == [] then []
    else (if Strings.StartsWith(numbers[0], p) then [numbers[0]] else []) + WithPrefix(numbers[1..], p)
  }

  /** The filter keeps exactly the numbers that start with the prefix. */
  lemma {:induction false} WithPrefixMembers(numbers: seq<string>, p: string)
    ensures forall x :: x in WithPrefix(numbers, p) <==> x in numbers && Strings.StartsWith(x, p)
  {
    if numbers != [] {
      WithPrefixMembers(numbers[1..], p);
      assert numbers == [numbers[0]] + numbers[1..];
    }
  }

  /** The first row of `orderBy: { ticketNumber: 'desc' }`. */
  function Greatest(xs: seq<string>): (g: string)
    requires |xs| > 0
    ensures g in xs
  {
    if |xs| == 1 then xs[0]
    else
      var rest := Greatest(xs[1..]);
      if Strings.Less(rest, xs[0]) then xs[0] else rest
  }

  lemma {:induction false} GreatestIsMaximal(xs: seq<string>)
    requires |xs| > 0
    ensures forall x :: x in xs ==> x == Greatest(xs) || Strings.Less(x, Greatest(xs))
  {
    if |xs| > 1 {
      GreatestIsMaximal(xs[1..]);
      var rest := Greatest(xs[1..]);
      if Strings.Less(rest, xs[0]) {
        forall x | x in xs[1..] ensures x == xs[0] || Strings.Less(x, xs[0]) {
          if x != rest {
            Strings.LessTransitive(x, rest, xs[0]);
          }
        }
      } else if xs[0] != rest {
        Strings.LessTotal(xs[0], rest);
      }
      assert xs == [xs[0]] + xs[1..];
    }
  }

  /** `s.slice(-4)`. */
  function Last4(s: string): string {
    s[if |s| >= 4 then |s| - 4 else 0..]
  }

  /** `sequence` for the day prefix `p`: 1 for the first ticket of the day, else `parseInt` of the greatest number's last four characters plus one. */
  function SequenceAfter(numbers: seq<string>, p: string): JsNumber {
    var day := WithPrefix(numbers, p);
    if day == [] then Num(1) else Successor(ParseInt(Last4(Greatest(day))))
  }

  /** `x + 1` on a JavaScript number; NaN stays NaN. */
  function Successor(x: JsNumber): JsNumber {
    match x
    case NaN => NaN
    case Num(v) => Num(v + 1)
  }

  /** `${prefix}-${sequence.toString().padStart(4, '0')}`. */
  function Format(prefix: string, sequence: JsNumber): string {
    prefix + "-" + PadStart(NumberToString(sequence), 4, '0')
  }

  /** The number issued next for the day prefix `p`. */
  function NextNumber(numbers: seq<string>, p: string): string {
    Format(p, SequenceAfter(numbers, p))
  }

  /** `generateTicketNumber` on the ticket numbers already in the table. */
  function GenerateTicketNumber(numbers: seq<string>, t: UtcDateTime): string
    requires ValidDateTime(t)
  {
    NextNumber(numbers, DayPrefix(t))
  }

  /** `parseInt` reads four fixed digits back as their value. */
  lemma ParseFixed(k: nat)
    requires k < 10000
    ensures ParseInt(Fixed(k, 4)) == Num(k)
  {
    assert Pow10(4) == 10000;
    ParseIntOfDigits(Fixed(k, 4));
    ValueOfFixed(k, 4);
  }

  /** For a sequence 1..9999 the number ends in its four digits, and those parse back to the sequence. */
  lemma FormatRoundTrip(prefix: string, k: nat)
    requires 1 <= k <= 9999
    ensures Format(prefix, Num(k)) == prefix + "-" + Fixed(k, 4)
    ensures ParseInt(Last4(Format(prefix, Num(k)))) == Num(k)
  {
    assert Pow10(4) == 10000;
    PadIsFixed(k, 4);
    var s := Format(prefix, Num(k));
    assert Last4(s) == Fixed(k, 4);
    ParseFixed(k);
  }

  lemma ConcatLayout(y: string, m: string, d: string, f: string)
    ensures "REP-" + (y + m + d) + "-" + f == "REP-" + y + m + d + "-" + f
  {
  }

  /** A generated number with a sequence 1..9999 is `REP-YYYYMMDD-NNNN`, and its last four characters parse back to the sequence. */
  lemma SequenceRoundTrip(numbers: seq<string>, t: UtcDateTime, k: nat)
    requires ValidDateTime(t)
    requires SequenceAfter(numbers, DayPrefix(t)) == Num(k) && 1 <= k <= 9999
    ensures GenerateTicketNumber(numbers, t) == DayPrefix(t) + "-" + Fixed(k, 4)
    ensures GenerateTicketNumber(numbers, t) == "REP-" + Fixed(t.year, 4) + Fixed(t.month, 2) + Fixed(t.day, 2) + "-" + Fixed(k, 4)
    ensures ParseInt(Last4(GenerateTicketNumber(numbers, t))) == Num(k)
  {
    FormatRoundTrip(DayPrefix(t), k);
    DateKeyDigits(t);
    ConcatLayout(Fixed(t.year, 4), Fixed(t.month, 2), Fixed(t.day, 2), Fixed(k, 4));
  }

  lemma {:induction false} WithPrefixNone(numbers: seq<string>, p: string)
    requires forall x :: x in numbers ==> !Strings.StartsWith(x, p)
    ensures WithPrefix(numbers, p) == []
  {
    if numbers != [] {
      assert numbers[0] in numbers;
      WithPrefixNone(numbers[1..], p);
    }
  }

  lemma FixedOne()
    ensures Fixed(1, 4) == "0001"
  {
  }

  /** The first ticket of a day is number 0001. */
  lemma FirstOfDay(numbers: seq<string>, t: UtcDateTime)
    requires ValidDateTime(t)
    requires forall x :: x in numbers ==> !Strings.StartsWith(x, DayPrefix(t))
    ensures GenerateTicketNumber(numbers, t) == DayPrefix(t) + "-" + "0001"
  {
    WithPrefixNone(numbers, DayPrefix(t));
    SequenceRoundTrip(numbers, t, 1);
    FixedOne();
  }

  /** A number of the day `p` with a four-digit sequence below 9999 (so that one more still has four digits). */
  predicate IsDayNumber(x: string, p: string) {
    |x| == |p| + 5 && x[|p|] == '-' && AllDigits(x[|p| + 1..]) && Value(x[|p| + 1..], 10) < 9999
  }

  /** Every number already issued with the prefix `p` has the generated layout. */
  predicate WellFormedDay(numbers: seq<string>, p: string) {
    forall x :: x in numbers && Strings.StartsWith(x, p) ==> IsDayNumber(x, p)
  }

  /** The four-digit sequence of a day number. */
  function SequenceOf(x: string, p: string): nat
    requires |x| >= |p| + 1
  {
    Value(x[|p| + 1..], 10)
  }

  lemma DayNumberShape(x: string, p: string)
    requires Strings.StartsWith(x, p) && IsDayNumber(x, p)
    ensures x == p + "-" + Fixed(SequenceOf(x, p), 4)
  {
    FixedOfValue(x[|p| + 1..]);
    assert x == x[..|p|] + [x[|p|]] + x[|p| + 1..];
  }

  lemma Last4OfSuffix(a: string, f: string)
    requires |f| == 4
    ensures Last4(a + f) == f
  {
  }

  /** The greatest number of the day is itself a well-formed number of the day. */
  lemma GreatestOfDay(numbers: seq<string>, p: string)
    requires WellFormedDay(numbers, p) && WithPrefix(numbers, p) != []
    ensures Strings.StartsWith(Greatest(WithPrefix(numbers, p)), p) && IsDayNumber(Greatest(WithPrefix(numbers, p)), p)
  {
    var g := Greatest(WithPrefix(numbers, p));
    WithPrefixMembers(numbers, p);
    assert g in numbers && Strings.StartsWith(g, p);
  }

  lemma AfterGreatest(numbers: seq<string>, p: string, k: nat)
    requires WithPrefix(numbers, p) != [] && ParseInt(Last4(Greatest(WithPrefix(numbers, p)))) == Num(k)
    ensures SequenceAfter(numbers, p) == Num(k + 1)
  {
    var j := ParseInt(Last4(Greatest(WithPrefix(numbers, p))));
    SequenceAfterUnfold(numbers, p);
    assert Successor(j) == Num(k + 1);
  }

  lemma SequenceAfterUnfold(numbers: seq<string>, p: string)
    requires WithPrefix(numbers, p) != []
    ensures SequenceAfter(numbers, p) == Successor(ParseInt(Last4(Greatest(WithPrefix(numbers, p)))))
  {
  }

  /** `parseInt` of the last four characters of a day number is its sequence. */
  lemma ParseDayNumber(x: string, p: string)
    requires Strings.StartsWith(x, p) && IsDayNumber(x, p)
    ensures ParseInt(Last4(x)) == Num(SequenceOf(x, p))
  {
    var top := SequenceOf(x, p);
    DayNumberShape(x, p);
    Last4OfSuffix(p + "-", Fixed(top, 4));
    ParseFixed(top);
  }

  /** Between two numbers of the same day, lexicographic order follows the order of their sequences. */
  lemma DayOrder(x: string, y: string, p: string)
    requires Strings.StartsWith(x, p) && IsDayNumber(x, p)
    requires Strings.StartsWith(y, p) && IsDayNumber(y, p)
    requires SequenceOf(x, p) < SequenceOf(y, p)
    ensures Strings.Less(x, y)
  {
    DayNumberShape(x, p);
    DayNumberShape(y, p);
    assert Pow10(4) == 10000;
    FixedLess(SequenceOf(x, p), SequenceOf(y, p), 4);
    Strings.LessCommonPrefix(p + "-", Fixed(SequenceOf(x, p), 4), Fixed(SequenceOf(y, p), 4));
  }

  /** No number of the day has a sequence above that of a lexicographically greatest one. */
  lemma SequenceBelowTop(x: string, g: string, p: string)
    requires Strings.StartsWith(x, p) && IsDayNumber(x, p)
    requires Strings.StartsWith(g, p) && IsDayNumber(g, p)
    requires x == g || Strings.Less(x, g)
    ensures SequenceOf(x, p) <= SequenceOf(g, p)
  {
    if SequenceOf(g, p) < SequenceOf(x, p) {
      DayOrder(g, x, p);
      if x == g {
        Strings.LessIrreflexive(x);
      } else {
        Strings.LessAsymmetric(x, g);
      }
    }
  }

  /** A number of the day whose sequence is at most `top` is below the number with sequence `top + 1`. */
  lemma BelowNext(x: string, p: string, top: nat)
    requires Strings.StartsWith(x, p) && IsDayNumber(x, p)
    requires SequenceOf(x, p) <= top < 9999
    ensures Strings.Less(x, p + "-" + Fixed(top + 1, 4))
  {
    DayNumberShape(x, p);
    assert Pow10(4) == 10000;
    FixedLess(SequenceOf(x, p), top + 1, 4);
    Strings.LessCommonPrefix(p + "-", Fixed(SequenceOf(x, p), 4), Fixed(top + 1, 4));
  }

  /** The greatest sequence issued with the prefix `p`, 0 when there is none. */
  function TopOf(numbers: seq<string>, p: string): nat {
    var day := WithPrefix(numbers, p);
    if day != [] && |Greatest(day)| > |p| then SequenceOf(Greatest(day), p) else 0
  }

  /** On a well-formed day the greatest sequence is below 9999. */
  lemma TopBound(numbers: seq<string>, p: string)
    requires WellFormedDay(numbers, p)
    ensures TopOf(numbers, p) < 9999
  {
    if WithPrefix(numbers, p) != [] {
      GreatestOfDay(numbers, p);
    }
  }

  /** Every sequence of the day is at most `TopOf`. */
  lemma TopIsMaximal(numbers: seq<string>, p: string)
    requires WellFormedDay(numbers, p)
    ensures forall x :: x in numbers && Strings.StartsWith(x, p) ==> SequenceOf(x, p) <= TopOf(numbers, p)
  {
    var day := WithPrefix(numbers, p);
    if day != [] {
      var g := Greatest(day);
      WithPrefixMembers(numbers, p);
      GreatestIsMaximal(day);
      forall x | x in numbers && Strings.StartsWith(x, p) ensures SequenceOf(x, p) <= SequenceOf(g, p) {
        assert x in day;
        SequenceBelowTop(x, g, p);
      }
    } else {
      WithPrefixMembers(numbers, p);
    }
  }

  /** The next number carries the sequence `TopOf + 1`. */
  lemma NextNumberShape(numbers: seq<string>, p: string)
    requires WellFormedDay(numbers, p)
    ensures NextNumber(numbers, p) == p + "-" + Fixed(TopOf(numbers, p) + 1, 4)
  {
    var k := TopOf(numbers, p) + 1;
    TopBound(numbers, p);
    SequenceAfterTop(numbers, p);
    assert NextNumber(numbers, p) == Format(p, Num(k));
    FormatRoundTrip(p, k);
  }

  /** The sequence issued next is `TopOf + 1`. */
  lemma SequenceAfterTop(numbers: seq<string>, p: string)
    requires WellFormedDay(numbers, p)
    ensures SequenceAfter(numbers, p) == Num(TopOf(numbers, p) + 1)
  {
    var day := WithPrefix(numbers, p);
    if day != [] {
      var g := Greatest(day);
      GreatestOfDay(numbers, p);
      ParseDayNumber(g, p);
      assert TopOf(numbers, p) == SequenceOf(g, p);
      AfterGreatest(numbers, p, SequenceOf(g, p));
    } else {
      assert TopOf(numbers, p) == 0;
      assert SequenceAfter(numbers, p) == Num(1);
    }
  }

  /**
   * When the numbers of the day have the generated layout with sequences
   * below 9999, the next number is lexicographically greater than every
   * number of that day, and so it is not in the table.
   */
  lemma NextNumberIsFresh(numbers: seq<string>, p: string)
    requires WellFormedDay(numbers, p)
    ensures forall x :: x in numbers && Strings.StartsWith(x, p) ==> Strings.Less(x, NextNumber(numbers, p))
    ensures NextNumber(numbers, p) !in numbers
  {
    var n := NextNumber(numbers, p);
    var top := TopOf(numbers, p);
    TopBound(numbers, p);
    NextNumberShape(numbers, p);
    TopIsMaximal(numbers, p);
    forall x | x in numbers && Strings.StartsWith(x, p) ensures Strings.Less(x, n) {
      BelowNext(x, p, top);
    }
    assert Strings.StartsWith(n, p) by {
      assert n[..|p|] == p;
    }
    if n in numbers {
      Strings.LessIrreflexive(n);
    }
  }

  /** `NextNumberIsFresh` for the day of the clock. */
  lemma GeneratedNumberIsFresh(numbers: seq<string>, t: UtcDateTime)
    requires ValidDateTime(t) && WellFormedDay(numbers, DayPrefix(t))
    ensures forall x :: x in numbers && Strings.StartsWith(x, DayPrefix(t)) ==> Strings.Less(x, GenerateTicketNumber(numbers, t))
    ensures GenerateTicketNumber(numbers, t) !in numbers
  {
    NextNumberIsFresh(numbers, DayPrefix(t));
  }

  /**
   * Issuing the next number keeps the day well formed while its sequence stays
   * below 9999, and leaves every other day of the same prefix length as it was:
   * from an empty table, the first 9999 numbers of a day are all fresh.
   */
  lemma NextKeepsWellFormedDay(numbers: seq<string>, p: string, k: nat)
    requires WellFormedDay(numbers, p)
    requires SequenceAfter(numbers, p) == Num(k) && k < 9999
    ensures WellFormedDay(numbers + [NextNumber(numbers, p)], p)
    ensures forall q :: |q| == |p| && q != p && WellFormedDay(numbers, q) ==>
      WellFormedDay(numbers + [NextNumber(numbers, p)], q)
  {
    var n := NextNumber(numbers, p);
    SequenceAfterTop(numbers, p);
    NextNumberShape(numbers, p);
    assert n == p + "-" + Fixed(k, 4);
    assert Pow10(4) == 10000;
    ValueOfFixed(k, 4);
    assert n[|p| + 1..] == Fixed(k, 4);
    assert n[..|p|] == p;
    forall x | x in numbers + [n] && Strings.StartsWith(x, p) ensures IsDayNumber(x, p) {
      if x != n {
        assert x in numbers;
      }
    }
    forall q | |q| == |p| && q != p && WellFormedDay(numbers, q)
      ensures WellFormedDay(numbers + [n], q)
    {
      forall x | x in numbers + [n] && Strings.StartsWith(x, q) ensures IsDayNumber(x, q) {
        assert x != n;
        assert x in numbers;
      }
    }
  }

  /**
   * Past 9999 the lexicographic maximum is no longer the numeric one:
   * with `p-9999` and `p-10000` issued, the next number is `p-10000` again.
   */
  lemma SequenceOverflowRepeats(p: string)
    ensures var numbers := [p + "-9999", p + "-10000"];
            NextNumber(numbers, p) == p + "-10000" && NextNumber(numbers, p) in numbers
  {
    var a, b := p + "-9999", p + "-10000";
    var numbers := [a, b];
    assert Strings.StartsWith(a, p) && Strings.StartsWith(b, p) by {
      assert a[..|p|] == p && b[..|p|] == p;
    }
    assert WithPrefix(numbers, p) == numbers by {
      assert numbers[1..] == [b];
      assert WithPrefix([b], p) == [b];
    }
    assert Strings.Less(b, a) by {
      assert Strings.Less("10000", "9999");
      Strings.LessCommonPrefix(p + "-", "10000", "9999");
      assert a == (p + "-") + "9999" && b == (p + "-") + "10000";
    }
    Strings.LessAsymmetric(b, a);
    assert Greatest(numbers) == a by {
      assert numbers[1..] == [b];
    }
    Last4OfSuffix(p + "-", "9999");
    assert a == (p + "-") + "9999";
    FixedNines();
    ParseFixed(9999);
    SequenceAfterUnfold(numbers, p);
    assert SequenceAfter(numbers, p) == Num(10000);
    TenThousandText();
    assert NextNumber(numbers, p) == p + "-" + "10000";
    assert p + "-" + "10000" == b;
  }

  lemma FixedNines()
    ensures Fixed(9999, 4) == "9999"
  {
  }

  lemma TenThousandText()
    ensures PadStart(NumberToString(Num(10000)), 4, '0') == "10000"
  {
    assert ToDecimal(10000) == "10000";
  }

  /** Every instant of 1 May 2024 (UTC) has the prefix `REP-20240501`. */
  lemma DayPrefixExample(t: UtcDateTime)
    requires ValidDateTime(t) && t.year == 2024 && t.month == 5 && t.day == 1
    ensures DayPrefix(t) == "REP-20240501"
  {
    DateKeyDigits(t);
    FixedYear();
    assert Fixed(5, 2) == "05" && Fixed(1, 2) == "01";
  }

  lemma FixedYear()
    ensures Fixed(2024, 4) == "2024"
  {
  }
}
