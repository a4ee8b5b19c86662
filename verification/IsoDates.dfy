/**
 Calendar dates as ISO 8601 writes them, extended ("2025-01-31") and basic ("20250131"), and how
 they compare as text. Week dates are not part of this model.
 */
module IsoDates {
  import opened Wrappers
  import opened Sorting

  predicate IsDigit(c: char) { '0' <= c <= '9' }

  predicate Digits(s: string) { forall i :: 0 <= i < |s| ==> IsDigit(s[i]) }

  function Number(s: string): (n: nat)
    requires Digits(s)
  {
    if s == [] then 0 else 10 * Number(s[..|s| - 1]) + (s[|s| - 1] as int - '0' as int)
  }

  predicate IsExtended(s: string) {
    |s| == 10 && Digits(s[..4]) && s[4] == '-' && Digits(s[5..7]) && s[7] == '-' && Digits(s[8..])
  }

  predicate IsBasic(s: string) { |s| == 8 && Digits(s) }

  function Year(s: string): nat
    requires IsExtended(s) || IsBasic(s)
  {
    Number(s[..4])
  }

  function Month(s: string): nat
    requires IsExtended(s) || IsBasic(s)
  {
    if IsExtended(s) then Number(s[5..7]) else Number(s[4..6])
  }

  function Day(s: string): nat
    requires IsExtended(s) || IsBasic(s)
  {
    if IsExtended(s) then Number(s[8..]) else Number(s[6..])
  }

  predicate IsLeap(year: int) { year % 4 == 0 && (year % 100 != 0 || year % 400 == 0) }

  function DaysIn(year: int, month: int): int {
    if month == 2 then (if IsLeap(year) then 29 else 28)
    else if month == 4 || month == 6 || month == 9 || month == 11 then 30
    else 31
  }

  /** A number that orders dates as they follow one another. */
  function Stamp(s: string): nat
    requires IsExtended(s) || IsBasic(s)
  {
    10000 * Year(s) + 100 * Month(s) + Day(s)
  }

  /** The date a text of one of the two formats names, if there is such a day. */
  function ReadCalendarDate(s: string): Option<int>
    requires IsExtended(s) || IsBasic(s)
  {
    if Year(s) >= 1 && 1 <= Month(s) <= 12 && 1 <= Day(s) <= DaysIn(Year(s), Month(s)) then Some(Stamp(s)) else None
  }

  // ---- Text and number ----

  /** Texts with heads of one length compare by their heads, and by what follows equal ones. */
  lemma {:induction false} HeadsDecide(p: string, q: string, x: string, y: string)
    requires |p| == |q|
    ensures StringLe(p + x, q + y) == if p == q then StringLe(x, y) else StringLe(p, q)
  {
    if p == [] {
      assert p + x == x && q + y == y;
    } else {
      HeadsDecide(p[1..], q[1..], x, y);
      assert (p + x)[1..] == p[1..] + x && (q + y)[1..] == q[1..] + y;
      assert p == [p[0]] + p[1..] && q == [q[0]] + q[1..];
    }
  }

  /** Digits of one length compare as their numbers. */
  lemma {:induction false} DigitsCompare(s: string, t: string)
    requires |s| == |t| && Digits(s) && Digits(t)
    ensures StringLe(s, t) <==> Number(s) <= Number(t)
    ensures Number(s) == Number(t) <==> s == t
  {
    if s != [] {
      var n := |s| - 1;
      DigitsCompare(s[..n], t[..n]);
      HeadsDecide(s[..n], t[..n], [s[n]], [t[n]]);
      assert s == s[..n] + [s[n]] && t == t[..n] + [t[n]];
      OneChar(s[n], t[n]);
    }
  }

  lemma OneChar(a: char, b: char)
    ensures StringLe([a], [b]) <==> a <= b
  {
    assert [a][1..] == [] && [b][1..] == [];
  }

  lemma {:induction false} NumberFits(s: string)
    requires Digits(s) && |s| == 2
    ensures Number(s) < 100
  {
    assert s[..1][..0] == [];
    assert Number(s[..1]) == 10 * Number(s[..1][..0]) + (s[0] as int - '0' as int);
  }

  /** Three numbers of fixed width, one after the other, compare as one number. */
  lemma PartsCompare(y: string, m: string, d: string, y': string, m': string, d': string)
    requires |y| == |y'| && |m| == |m'| == |d| == |d'| == 2
    requires Digits(y) && Digits(m) && Digits(d) && Digits(y') && Digits(m') && Digits(d')
    ensures 10000 * Number(y) + 100 * Number(m) + Number(d) <= 10000 * Number(y') + 100 * Number(m') + Number(d') <==>
      if y != y' then StringLe(y, y') else if m != m' then StringLe(m, m') else StringLe(d, d')
  {
    DigitsCompare(y, y');
    DigitsCompare(m, m');
    DigitsCompare(d, d');
    NumberFits(m);
    NumberFits(d);
    NumberFits(m');
    NumberFits(d');
    hide Number, StringLe;
  }

  /** Extended dates compare as text as they follow one another. */
  lemma ExtendedCompare(a: string, b: string)
    requires IsExtended(a) && IsExtended(b)
    ensures StringLe(a, b) <==> Stamp(a) <= Stamp(b)
  {
    PartsCompare(a[..4], a[5..7], a[8..], b[..4], b[5..7], b[8..]);
    hide Number, StringLe, Digits;
    HeadsDecide(a[..4], b[..4], a[4..], b[4..]);
    HeadsDecide(a[4..5], b[4..5], a[5..], b[5..]);
    HeadsDecide(a[5..7], b[5..7], a[7..], b[7..]);
    HeadsDecide(a[7..8], b[7..8], a[8..], b[8..]);
    ExtendedSplits(a);
    ExtendedSplits(b);
  }

  lemma ExtendedSplits(a: string)
    requires |a| == 10 && a[4] == '-' && a[7] == '-'
    ensures a == a[..4] + a[4..] && a[4..] == a[4..5] + a[5..] && a[5..] == a[5..7] + a[7..] && a[7..] == a[7..8] + a[8..]
    ensures a[4..5] == "-" && a[7..8] == "-"
  {
  }

  /** So do basic dates. */
  lemma BasicCompare(a: string, b: string)
    requires IsBasic(a) && IsBasic(b)
    ensures StringLe(a, b) <==> Stamp(a) <= Stamp(b)
  {
    PartsCompare(a[..4], a[4..6], a[6..], b[..4], b[4..6], b[6..]);
    hide Number, StringLe, Digits;
    HeadsDecide(a[..4], b[..4], a[4..], b[4..]);
    HeadsDecide(a[4..6], b[4..6], a[6..], b[6..]);
    BasicSplits(a);
    BasicSplits(b);
  }

  lemma BasicSplits(a: string)
    requires |a| == 8
    ensures a == a[..4] + a[4..] && a[4..] == a[4..6] + a[6..]
  {
  }

  /** Of the two formats the extended one comes first as text within a year. */
  lemma MixedCompare(a: string, b: string)
    requires IsExtended(a) && IsBasic(b)
    ensures StringLe(a, b) <==> Year(a) <= Year(b)
    ensures StringLe(b, a) <==> Year(b) < Year(a)
  {
    DigitsCompare(a[..4], b[..4]);
    DigitsCompare(b[..4], a[..4]);
    HeadsDecide(a[..4], b[..4], a[4..], b[4..]);
    HeadsDecide(b[..4], a[..4], b[4..], a[4..]);
    assert a == a[..4] + a[4..] && b == b[..4] + b[4..];
    assert a[4..][0] == '-' && IsDigit(b[4]) && b[4..][0] == b[4];
    hide Number;
  }

  /** Another year decides before month and day. */
  lemma YearDecides(a: string, b: string)
    requires (IsExtended(a) || IsBasic(a)) && (IsExtended(b) || IsBasic(b)) && Year(a) < Year(b)
    ensures Stamp(a) < Stamp(b)
  {
    MonthAndDayFit(a);
    MonthAndDayFit(b);
    hide Number;
  }

  lemma MonthAndDayFit(a: string)
    requires IsExtended(a) || IsBasic(a)
    ensures Month(a) < 100 && Day(a) < 100
  {
    if IsExtended(a) {
      NumberFits(a[5..7]);
      NumberFits(a[8..]);
    } else {
      NumberFits(a[4..6]);
      NumberFits(a[6..]);
    }
  }
}
