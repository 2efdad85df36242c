/**
 * Ticket numbering: the human-readable pass-number range of a ticket and its
 * identifier `DINALI-26-<zero-padded cumulative count>-<suffix>`.
 *
 * Numbers are printed as JavaScript's `toString` prints a non-negative
 * integer in the range where it is exact and not written with an exponent
 * (`Decimal`); `DigitsValue` reads a digit string back, and
 * `RangeFirst`/`RangeLast` read back the two ends of a range string. The
 * reading functions are the reference against which the printed forms are
 * proved.
 */
module Numbering {

  const EventCode := "DINALI"
  const EventYear := "26"
  const SequenceWidth := 3

  predicate IsDigit(c: char) {
    '0' <= c <= '9'
  }

  predicate AllDigits(s: string) {
    forall i :: 0 <= i < |s| ==> IsDigit(s[i])
  }

  function DigitValue(c: char): nat
    requires IsDigit(c)
  {
    c as int - '0' as int
  }

  function DigitChar(d: nat): (c: char)
    requires d < 10
    ensures IsDigit(c) && DigitValue(c) == d
  {
    ('0' as int + d) as char
  }

  /** `n.toString()`: the decimal digits of `n`, with no leading zero. */
  function Decimal(n: nat): (s: string)
    ensures 1 <= |s| && AllDigits(s)
    ensures s[0] == '0' ==> n == 0
    decreases n
  {
    if n < 10 then [DigitChar(n)] else Decimal(n / 10) + [DigitChar(n % 10)]
  }

  /** The number a digit string denotes (leading zeros allowed). */
  function DigitsValue(s: string): nat
    requires AllDigits(s)
    decreases |s|
  {
    if s == [] then 0 else 10 * DigitsValue(s[..|s| - 1]) + DigitValue(s[|s| - 1])
  }

  /** Reading back the printed form of a number gives the number. */
  lemma {:induction false} DecimalRoundTrip(n: nat)
    ensures DigitsValue(Decimal(n)) == n
  {
    if n >= 10 {
      var s := Decimal(n);
      assert s[..|s| - 1] == Decimal(n / 10);
      DecimalRoundTrip(n / 10);
    }
  }

  /** The printed form has at most three digits exactly when the number is below 1000. */
  lemma {:induction false} DecimalWidth(n: nat)
    ensures n < 10 <==> |Decimal(n)| == 1
    ensures n < 100 <==> |Decimal(n)| <= 2
    ensures n < 1000 <==> |Decimal(n)| <= 3
  {
    if n >= 10 {
      DecimalWidth(n / 10);
    }
  }

  function Repeat(c: char, k: nat): (s: string)
    ensures |s| == k
    ensures forall i :: 0 <= i < k ==> s[i] == c
  {
    seq(k, _ => c)
  }

  /** `s.padStart(width, fill)` for a one-character fill. */
  function PadStart(s: string, width: nat, fill: char): (r: string)
    ensures |r| == if |s| >= width then |s| else width
    ensures r[|r| - |s|..] == s
    ensures forall i :: 0 <= i < |r| - |s| ==> r[i] == fill
  {
    if |s| >= width then s else Repeat(fill, width - |s|) + s
  }

  /** Leading zeros do not change the value of a digit string. */
  lemma {:induction false} LeadingZeros(k: nat, s: string)
    requires AllDigits(s)
    ensures AllDigits(Repeat('0', k) + s)
    ensures DigitsValue(Repeat('0', k) + s) == DigitsValue(s)
  {
    var z := Repeat('0', k);
    if s == [] {
      assert z + s == z;
      ZerosValue(k);
    } else {
      assert (z + s)[..|z + s| - 1] == z + s[..|s| - 1];
      LeadingZeros(k, s[..|s| - 1]);
    }
  }

  lemma {:induction false} ZerosValue(k: nat)
    ensures AllDigits(Repeat('0', k))
    ensures DigitsValue(Repeat('0', k)) == 0
  {
    if k > 0 {
      assert Repeat('0', k)[..k - 1] == Repeat('0', k - 1);
      ZerosValue(k - 1);
    }
  }

  /** The cumulative count as the identifier shows it: `n.toString().padStart(3, '0')`. */
  function SequenceNumber(n: nat): string {
    PadStart(Decimal(n), SequenceWidth, '0')
  }

  /**
   * The padded count is all digits, denotes `n`, has at least three
   * characters, and exactly three when `n` is below 1000.
   */
  lemma SequenceNumberMeaning(n: nat)
    ensures AllDigits(SequenceNumber(n))
    ensures DigitsValue(SequenceNumber(n)) == n
    ensures |SequenceNumber(n)| >= 3
    ensures |SequenceNumber(n)| == 3 <==> n < 1000
  {
    var d := Decimal(n);
    DecimalRoundTrip(n);
    DecimalWidth(n);
    if |d| < SequenceWidth {
      LeadingZeros(SequenceWidth - |d|, d);
    }
  }

  /** The characters `Math.random().toString(36).substr(2, 5).toUpperCase()` can produce. */
  predicate IsSuffix(s: string) {
    |s| <= 5 && forall i :: 0 <= i < |s| ==> IsDigit(s[i]) || 'A' <= s[i] <= 'Z'
  }

  /** `"DINALI-26-" + SequenceNumber(n) + "-" + suffix`. */
  function TicketId(n: nat, suffix: string): string {
    EventCode + "-" + EventYear + "-" + SequenceNumber(n) + "-" + suffix
  }

  /** `s.split(sep)` for a one-character separator. */
  function Split(s: string, sep: char): (parts: seq<string>)
    ensures |parts| >= 1
    decreases |s|
  {
    if s == [] then [""]
    else
      var rest := Split(s[1..], sep);
      if s[0] == sep then [""] + rest else [[s[0]] + rest[0]] + rest[1..]
  }

  lemma {:induction false} SplitWhole(a: string, sep: char)
    requires sep !in a
    ensures Split(a, sep) == [a]
  {
    if a != [] {
      SplitWhole(a[1..], sep);
      assert [a[0]] + a[1..] == a;
    }
  }

  lemma {:induction false} SplitAt(a: string, b: string, sep: char)
    requires sep !in a
    ensures Split(a + [sep] + b, sep) == [a] + Split(b, sep)
  {
    var s := a + [sep] + b;
    if a == [] {
      assert s[1..] == b;
    } else {
      assert s[1..] == a[1..] + [sep] + b;
      SplitAt(a[1..], b, sep);
      assert [a[0]] + a[1..] == a;
    }
  }

  lemma NoDash(s: string)
    requires AllDigits(s) || IsSuffix(s)
    ensures '-' !in s
  {
    forall i | 0 <= i < |s| ensures s[i] != '-' {
    }
  }

  /**
   * The identifier splits on '-' into exactly four fields, the third of
   * which is the padded count (the field the operator's table shows).
   */
  lemma IdFields(n: nat, suffix: string)
    requires IsSuffix(suffix)
    ensures Split(TicketId(n, suffix), '-') == [EventCode, EventYear, SequenceNumber(n), suffix]
    ensures AllDigits(Split(TicketId(n, suffix), '-')[2])
    ensures DigitsValue(Split(TicketId(n, suffix), '-')[2]) == n
  {
    var p := SequenceNumber(n);
    SequenceNumberMeaning(n);
    NoDash(p);
    NoDash(suffix);
    assert TicketId(n, suffix) == EventCode + ['-'] + (EventYear + ['-'] + (p + ['-'] + suffix));
    SplitAt(EventCode, EventYear + ['-'] + (p + ['-'] + suffix), '-');
    SplitAt(EventYear, p + ['-'] + suffix, '-');
    SplitAt(p, suffix, '-');
    SplitWhole(suffix, '-');
  }

  /**
   * Two identifiers are equal exactly when they carry the same cumulative
   * count and the same suffix: tickets minted at different counts never
   * collide, whatever their random suffixes.
   */
  lemma TicketIdInjective(n1: nat, s1: string, n2: nat, s2: string)
    requires IsSuffix(s1) && IsSuffix(s2)
    ensures TicketId(n1, s1) == TicketId(n2, s2) <==> n1 == n2 && s1 == s2
  {
    IdFields(n1, s1);
    IdFields(n2, s2);
  }

  /** The pass numbers `"<s+1>"` or `"<s+1> - <s+q>"` of a ticket for `qty` passes after `sold`. */
  function NumberRange(sold: nat, qty: int): string {
    Decimal(sold + 1) + (if qty > 1 then " - " + Decimal(sold + qty) else "")
  }

  /** The digits at the start of `s`. */
  function LeadingDigits(s: string): (d: string)
    ensures AllDigits(d)
  {
    if s == [] || !IsDigit(s[0]) then [] else [s[0]] + LeadingDigits(s[1..])
  }

  /** The digits at the end of `s`. */
  function TrailingDigits(s: string): (d: string)
    ensures AllDigits(d)
    decreases |s|
  {
    if s == [] || !IsDigit(s[|s| - 1]) then [] else TrailingDigits(s[..|s| - 1]) + [s[|s| - 1]]
  }

  /** The first pass number a range string names. */
  function RangeFirst(s: string): nat {
    DigitsValue(LeadingDigits(s))
  }

  /** The last pass number a range string names. */
  function RangeLast(s: string): nat {
    DigitsValue(TrailingDigits(s))
  }

  lemma {:induction false} LeadingOf(d: string, rest: string)
    requires AllDigits(d)
    requires rest == [] || !IsDigit(rest[0])
    ensures LeadingDigits(d + rest) == d
  {
    if d != [] {
      assert (d + rest)[1..] == d[1..] + rest;
      LeadingOf(d[1..], rest);
      assert [d[0]] + d[1..] == d;
    } else {
      assert d + rest == rest;
    }
  }

  lemma {:induction false} TrailingOf(rest: string, d: string)
    requires AllDigits(d)
    requires rest == [] || !IsDigit(rest[|rest| - 1])
    ensures TrailingDigits(rest + d) == d
    decreases |d|
  {
    if d != [] {
      var init, c := d[..|d| - 1], d[|d| - 1];
      assert d == init + [c];
      var s := rest + d;
      assert s[|s| - 1] == c;
      assert s[..|s| - 1] == rest + init;
      TrailingOf(rest, init);
    } else {
      assert rest + d == rest;
    }
  }

  /**
   * A range string names exactly the passes `sold + 1` through
   * `sold + qty`: a single number for one pass, both ends otherwise.
   */
  lemma RangeBounds(sold: nat, qty: int)
    requires qty >= 1
    ensures RangeFirst(NumberRange(sold, qty)) == sold + 1
    ensures RangeLast(NumberRange(sold, qty)) == sold + qty
    ensures qty == 1 <==> NumberRange(sold, qty) == Decimal(sold + 1)
  {
    if qty > 1 {
      MultiRangeBounds(sold, qty);
    } else {
      SingleRangeBounds(sold);
    }
  }

  lemma SingleRangeBounds(sold: nat)
    ensures NumberRange(sold, 1) == Decimal(sold + 1)
    ensures RangeFirst(Decimal(sold + 1)) == sold + 1
    ensures RangeLast(Decimal(sold + 1)) == sold + 1
  {
    var first := Decimal(sold + 1);
    DecimalRoundTrip(sold + 1);
    assert first + [] == first;
    assert [] + first == first;
    LeadingOf(first, []);
    TrailingOf([], first);
  }

  lemma MultiRangeBounds(sold: nat, qty: int)
    requires qty > 1
    ensures RangeFirst(NumberRange(sold, qty)) == sold + 1
    ensures RangeLast(NumberRange(sold, qty)) == sold + qty
    ensures NumberRange(sold, qty) != Decimal(sold + 1)
  {
    var first, last := Decimal(sold + 1), Decimal(sold + qty);
    var r := NumberRange(sold, qty);
    assert r == first + (" - " + last);
    assert r == (first + " - ") + last;
    DecimalRoundTrip(sold + 1);
    DecimalRoundTrip(sold + qty);
    LeadingOf(first, " - " + last);
    TrailingOf(first + " - ", last);
    assert |r| > |first|;
  }

  /** Example: after 145 sold, three passes are numbered "146 - 148". */
  lemma RangeExample()
    ensures NumberRange(145, 3) == "146 - 148"
    ensures SequenceNumber(148) == "148" && SequenceNumber(7) == "007"
  {
    var d1 := Decimal(1);
    assert d1 == "1";
    var d14 := Decimal(14);
    assert d14 == d1 + ['4'];
    assert Decimal(146) == d14 + ['6'] == "146";
    assert Decimal(148) == d14 + ['8'] == "148";
    assert Decimal(7) == "7";
    assert Repeat('0', 2) == "00";
  }
}
