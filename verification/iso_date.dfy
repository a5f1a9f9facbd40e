/**
 * Calendar dates written `YYYY-MM-DD`, as the backend stores them and as
 * `new Date(s)` and date-fns `parseISO(s)` read them. A date becomes a day
 * number (days since 0000-01-01, proleptic Gregorian calendar); a string that is
 * not a valid date has no day number, which stands for JavaScript's invalid
 * date (a NaN time value: every comparison with it is false).
 */
module IsoDate {
  import opened Text
  import opened Numbers
  import opened Outcomes

  datatype Date = Date(year: nat, month: nat, day: nat)

  predicate IsLeapYear(y: int) {
    y % 4 == 0 && (y % 100 != 0 || y % 400 == 0)
  }

  function DaysInMonth(y: int, m: int): (n: nat)
    requires 1 <= m <= 12
    ensures 28 <= n <= 31
  {
    if m == 2 then (if IsLeapYear(y) then 29 else 28)
    else if m == 4 || m == 6 || m == 9 || m == 11 then 30
    else 31
  }

  function YearLength(y: int): nat {
    if IsLeapYear(y) then 366 else 365
  }

  /** Days in the months of year `y` before month `m` (`m == 13` gives the whole year). */
  function DaysBeforeMonth(y: int, m: int): nat
    requires 1 <= m <= 13
  {
    var table := [0, 31, 59, 90, 120, 151, 181, 212, 243, 273, 304, 334, 365];
    table[m - 1] + (if m > 2 && IsLeapYear(y) then 1 else 0)
  }

  lemma DaysBeforeNextMonth(y: int, m: int)
    requires 1 <= m <= 12
    ensures DaysBeforeMonth(y, m + 1) == DaysBeforeMonth(y, m) + DaysInMonth(y, m)
  {
    if m == 1 {} else if m == 2 {} else if m == 3 {} else if m == 4 {}
    else if m == 5 {} else if m == 6 {} else if m == 7 {} else if m == 8 {}
    else if m == 9 {} else if m == 10 {} else if m == 11 {} else {}
  }

  /** A month ends no later than any later month begins. */
  lemma {:induction false} DaysBeforeMonthMonotone(y: int, m1: int, m2: int)
    requires 1 <= m1 < m2 <= 13
    ensures DaysBeforeMonth(y, m1) + DaysInMonth(y, m1) <= DaysBeforeMonth(y, m2)
    decreases m2
  {
    DaysBeforeNextMonth(y, m1);
    if m2 > m1 + 1 {
      DaysBeforeMonthMonotone(y, m1, m2 - 1);
      DaysBeforeNextMonth(y, m2 - 1);
    }
  }

  /** Days in the years before year `y`. */
  function DaysBeforeYear(y: nat): nat {
    if y == 0 then 0 else DaysBeforeYear(y - 1) + YearLength(y - 1)
  }

  /** A year ends no later than any later year begins. */
  lemma {:induction false} DaysBeforeYearMonotone(y1: nat, y2: nat)
    requires y1 < y2
    ensures DaysBeforeYear(y1) + YearLength(y1) <= DaysBeforeYear(y2)
    decreases y2
  {
    if y2 > y1 + 1 {
      DaysBeforeYearMonotone(y1, y2 - 1);
    }
  }

  /** A calendar date that exists, with a four-digit year. */
  predicate Valid(d: Date) {
    d.year <= 9999 && 1 <= d.month <= 12 && 1 <= d.day <= DaysInMonth(d.year, d.month)
  }

  /** Days from 0000-01-01 to `d`. */
  function DayNumber(d: Date): int
    requires Valid(d)
  {
    DaysBeforeYear(d.year) + DaysBeforeMonth(d.year, d.month) + d.day - 1
  }

  /** Calendar order: year, then month, then day. */
  predicate Before(a: Date, b: Date) {
    || a.year < b.year
    || (a.year == b.year && a.month < b.month)
    || (a.year == b.year && a.month == b.month && a.day < b.day)
  }

  /** A date's day number lies within its year. */
  lemma DayNumberWithinYear(d: Date)
    requires Valid(d)
    ensures DaysBeforeYear(d.year) <= DayNumber(d) < DaysBeforeYear(d.year) + YearLength(d.year)
  {
    DaysBeforeMonthMonotone(d.year, d.month, 13);
    assert DaysBeforeMonth(d.year, 13) == YearLength(d.year);
  }

  lemma BeforeHasSmallerDayNumber(a: Date, b: Date)
    requires Valid(a) && Valid(b) && Before(a, b)
    ensures DayNumber(a) < DayNumber(b)
  {
    if a.year < b.year {
      DayNumberWithinYear(a);
      DayNumberWithinYear(b);
      DaysBeforeYearMonotone(a.year, b.year);
    } else if a.month < b.month {
      DaysBeforeMonthMonotone(a.year, a.month, b.month);
    }
  }

  /** The calendar day after `d`: the next day of the month, else the first of the next month or year. */
  function NextDay(d: Date): Date
    requires Valid(d)
  {
    if d.day < DaysInMonth(d.year, d.month) then Date(d.year, d.month, d.day + 1)
    else if d.month < 12 then Date(d.year, d.month + 1, 1)
    else Date(d.year + 1, 1, 1)
  }

  /** Day numbers count calendar days: the day after a date has the next day number. */
  lemma NextDayNumber(d: Date)
    requires Valid(d) && d.year < 9999
    ensures Valid(NextDay(d)) && DayNumber(NextDay(d)) == DayNumber(d) + 1
  {
    if d.day == DaysInMonth(d.year, d.month) {
      if d.month < 12 {
        DaysBeforeNextMonth(d.year, d.month);
      } else {
        DaysBeforeNextMonth(d.year, 12);
        assert DaysBeforeMonth(d.year, 13) == YearLength(d.year);
      }
    }
  }

  /** Day numbers order dates exactly as the calendar does, and tell dates apart. */
  lemma DayNumberOrder(a: Date, b: Date)
    requires Valid(a) && Valid(b)
    ensures Before(a, b) <==> DayNumber(a) < DayNumber(b)
    ensures a == b <==> DayNumber(a) == DayNumber(b)
  {
    if Before(a, b) {
      BeforeHasSmallerDayNumber(a, b);
    } else if Before(b, a) {
      BeforeHasSmallerDayNumber(b, a);
    }
  }

  /** `YYYY-MM-DD` with digits and dashes in place. */
  predicate WellFormed(s: string) {
    && |s| == 10
    && AllDigits(s[..4]) && s[4] == '-'
    && AllDigits(s[5..7]) && s[7] == '-'
    && AllDigits(s[8..])
  }

  /** `parseISO(s)` for the date-only form: the date, or None for an invalid date. */
  function Parse(s: string): (r: Option<Date>)
    ensures r.Some? <==> WellFormed(s) && Valid(Date(DigitsValue(s[..4]), DigitsValue(s[5..7]), DigitsValue(s[8..])))
  {
    if WellFormed(s) then
      var d := Date(DigitsValue(s[..4]), DigitsValue(s[5..7]), DigitsValue(s[8..]));
      if Valid(d) then Some(d) else None
    else None
  }

  /** The day number of a date string, or None when it is not a valid date. */
  function Day(s: string): (r: Option<int>)
    ensures r.Some? <==> Parse(s).Some?
  {
    match Parse(s)
    case Some(d) => Some(DayNumber(d))
    case None => None
  }

  /** `differenceInDays(parseISO(later), parseISO(earlier))` for whole dates; None stands for NaN. */
  function DifferenceInDays(later: string, earlier: string): (r: Option<int>)
    ensures r.Some? <==> Day(later).Some? && Day(earlier).Some?
    ensures r.Some? ==> r.value == Day(later).value - Day(earlier).value
    ensures r.Some? ==> (r.value == 0 <==> later == earlier)
    ensures r.Some? ==> (r.value < 0 <==> LexLess(later, earlier))
  {
    match (Day(later), Day(earlier))
    case (Some(l), Some(e)) =>
      StringOrderIsDayOrder(later, earlier);
      Some(l - e)
    case _ => None
  }

  /** `new Date(a) < new Date(b)`: false when either string is not a valid date. */
  predicate DateLess(a: string, b: string) {
    Day(a).Some? && Day(b).Some? && Day(a).value < Day(b).value
  }

  /**
   * Two equal-length digit strings compare as strings exactly as their values
   * compare as numbers.
   */
  lemma {:induction false} DigitStringOrder(a: string, c: string)
    requires |a| == |c| && AllDigits(a) && AllDigits(c)
    ensures LexLess(a, c) <==> DigitsValue(a) < DigitsValue(c)
    ensures a == c <==> DigitsValue(a) == DigitsValue(c)
    decreases |a|
  {
    if |a| > 0 {
      var p := Pow10(|a| - 1);
      var da := a[0] as int - '0' as int;
      var dc := c[0] as int - '0' as int;
      assert DigitsValue(a) == da * p + DigitsValue(a[1..]);
      assert DigitsValue(c) == dc * p + DigitsValue(c[1..]);
      if da == dc {
        DigitStringOrder(a[1..], c[1..]);
        assert a == [a[0]] + a[1..] && c == [c[0]] + c[1..];
      } else if da < dc {
        LeadingDigitDecides(da, dc, p, DigitsValue(a[1..]), DigitsValue(c[1..]));
      } else {
        LeadingDigitDecides(dc, da, p, DigitsValue(c[1..]), DigitsValue(a[1..]));
      }
    }
  }

  /** A smaller leading digit makes a smaller number, whatever follows it. */
  lemma LeadingDigitDecides(d1: nat, d2: nat, p: nat, r1: nat, r2: nat)
    requires d1 < d2 && r1 < p
    ensures d1 * p + r1 < d2 * p + r2
  {
    var k := d2 - d1;
    assert d2 * p == d1 * p + k * p;
    AtLeastOnce(k, p);
  }

  lemma {:induction false} AtLeastOnce(k: nat, p: nat)
    requires k >= 1
    ensures k * p >= p
    decreases k
  {
    if k > 1 {
      AtLeastOnce(k - 1, p);
      assert k * p == (k - 1) * p + p;
    }
  }

  /** Comparing `a-b` with `c-d` where `a` and `c` have the same length. */
  lemma DashedLess(a: string, b: string, c: string, d: string)
    requires |a| == |c|
    ensures LexLess(a + ("-" + b), c + ("-" + d)) <==> LexLess(a, c) || (a == c && LexLess(b, d))
  {
    LexLessConcat(a, "-" + b, c, "-" + d);
    LexLessConcat("-", b, "-", d);
    LexLessIrreflexive("-");
  }

  /** A well-formed date string is its year, month and day joined by dashes. */
  lemma Fields(s: string)
    requires WellFormed(s)
    ensures s == s[..4] + ("-" + (s[5..7] + ("-" + s[8..])))
  {
  }

  /** For `YYYY-MM-DD` strings the string order is the calendar order. */
  lemma StringOrderIsDateOrder(s: string, t: string)
    requires WellFormed(s) && WellFormed(t)
    ensures LexLess(s, t) <==>
      Before(Date(DigitsValue(s[..4]), DigitsValue(s[5..7]), DigitsValue(s[8..])),
             Date(DigitsValue(t[..4]), DigitsValue(t[5..7]), DigitsValue(t[8..])))
    ensures s == t <==>
      Date(DigitsValue(s[..4]), DigitsValue(s[5..7]), DigitsValue(s[8..])) ==
      Date(DigitsValue(t[..4]), DigitsValue(t[5..7]), DigitsValue(t[8..]))
  {
    DigitStringOrder(s[..4], t[..4]);
    DigitStringOrder(s[5..7], t[5..7]);
    DigitStringOrder(s[8..], t[8..]);
    Fields(s);
    Fields(t);
    DashedLess(s[..4], s[5..7] + ("-" + s[8..]), t[..4], t[5..7] + ("-" + t[8..]));
    DashedLess(s[5..7], s[8..], t[5..7], t[8..]);
  }

  /** For valid date strings, `s < t` as strings exactly when `s` is the earlier day. */
  lemma StringOrderIsDayOrder(s: string, t: string)
    requires Day(s).Some? && Day(t).Some?
    ensures LexLess(s, t) <==> Day(s).value < Day(t).value
    ensures s == t <==> Day(s).value == Day(t).value
  {
    StringOrderIsDateOrder(s, t);
    DayNumberOrder(Parse(s).value, Parse(t).value);
  }
}
