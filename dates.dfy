/**
 * Calendar dates as Python's `datetime.date` has them: the proleptic
 * Gregorian calendar, years 1 to 9999, `toordinal()` numbering with
 * 0001-01-01 as day 1, subtraction of a `timedelta` of whole days, and the
 * ISO 8601 extended calendar date text YYYY-MM-DD of `isoformat()` /
 * `fromisoformat()` (ISO 8601:2004 section 4.1.2.2).
 */
module Dates {
  import opened Common
  import opened Numbers

  datatype Date = Date(year: int, month: int, day: int)

  predicate IsLeap(y: int) {
    y % 4 == 0 && (y % 100 != 0 || y % 400 == 0)
  }

  function DaysInMonth(y: int, m: int): (n: int)
    ensures 1 <= m <= 12 ==> 28 <= n <= 31
  {
    if m == 2 then (if IsLeap(y) then 29 else 28)
    else if m == 4 || m == 6 || m == 9 || m == 11 then 30
    else 31
  }

  /** What `date(year, month, day)` accepts without raising `ValueError`. */
  predicate Valid(d: Date) {
    1 <= d.year <= 9999 && 1 <= d.month <= 12 && 1 <= d.day <= DaysInMonth(d.year, d.month)
  }

  /** Days in the years before `y`. */
  function DaysBeforeYear(y: int): int
    requires y >= 1
  {
    var p := y - 1;
    365 * p + p / 4 - p / 100 + p / 400
  }

  /** Days in the months of year `y` before month `m` (month 13 gives the whole year). */
  function DaysBeforeMonth(y: int, m: int): (n: int)
    requires 1 <= m <= 13
    ensures n >= 0
    ensures m >= 2 ==> n >= 31
  {
    var common :=
      if m <= 1 then 0 else if m == 2 then 31 else if m == 3 then 59 else if m == 4 then 90
      else if m == 5 then 120 else if m == 6 then 151 else if m == 7 then 181
      else if m == 8 then 212 else if m == 9 then 243 else if m == 10 then 273
      else if m == 11 then 304 else if m == 12 then 334 else 365;
    common + (if m > 2 && IsLeap(y) then 1 else 0)
  }

  /** `date.toordinal()`: 0001-01-01 is day 1. */
  function Ordinal(d: Date): int
    requires Valid(d)
  {
    DaysBeforeYear(d.year) + DaysBeforeMonth(d.year, d.month) + d.day
  }

  /** The day before `d` (`d - timedelta(days=1)` when that exists). */
  function PrevDay(d: Date): (r: Date)
    requires Valid(d) && d != Date(1, 1, 1)
    ensures Valid(r)
  {
    if d.day > 1 then Date(d.year, d.month, d.day - 1)
    else if d.month > 1 then Date(d.year, d.month - 1, DaysInMonth(d.year, d.month - 1))
    else Date(d.year - 1, 12, 31)
  }

  lemma DaysInYear(y: int)
    ensures DaysBeforeMonth(y, 13) == if IsLeap(y) then 366 else 365
  {
  }

  lemma YearStep(y: int)
    requires y >= 2
    ensures DaysBeforeYear(y) == DaysBeforeYear(y - 1) + (if IsLeap(y - 1) then 366 else 365)
  {
    var p := y - 1;
    DivStep(p, 4);
    DivStep(p, 100);
    DivStep(p, 400);
    MultipleChain(p);
    assert DaysBeforeYear(y) - DaysBeforeYear(y - 1)
           == 365 + (p / 4 - (p - 1) / 4) - (p / 100 - (p - 1) / 100) + (p / 400 - (p - 1) / 400);
  }

  /** A multiple of 400 is a multiple of 100, and a multiple of 100 one of 4. */
  lemma MultipleChain(p: int)
    ensures p % 400 == 0 ==> p % 100 == 0
    ensures p % 100 == 0 ==> p % 4 == 0
  {
    var q, r := p / 400, p / 100;
    assert p == 400 * q + p % 400 && 0 <= p % 400 < 400;
    assert p == 100 * r + p % 100 && 0 <= p % 100 < 100;
    if p % 400 == 0 {
      assert 100 * (4 * q - r) == p % 100;
    }
    var t := p / 4;
    assert p == 4 * t + p % 4 && 0 <= p % 4 < 4;
    if p % 100 == 0 {
      assert 4 * (25 * r - t) == p % 4;
    }
  }

  lemma DivStep(a: int, k: int)
    requires a >= 1 && (k == 4 || k == 100 || k == 400)
    ensures a / k - (a - 1) / k == if a % k == 0 then 1 else 0
  {
    if k == 4 {
      assert a / 4 - (a - 1) / 4 == if a % 4 == 0 then 1 else 0;
    } else if k == 100 {
      assert a / 100 - (a - 1) / 100 == if a % 100 == 0 then 1 else 0;
    } else {
      assert a / 400 - (a - 1) / 400 == if a % 400 == 0 then 1 else 0;
    }
  }

  /** Stepping back one day lowers the ordinal by exactly one. */
  lemma PrevDayOrdinal(d: Date)
    requires Valid(d) && d != Date(1, 1, 1)
    ensures Ordinal(PrevDay(d)) == Ordinal(d) - 1
  {
    if d.day == 1 && d.month == 1 {
      YearStep(d.year);
      DaysInYear(d.year - 1);
    }
  }

  lemma FirstOrdinal()
    ensures Valid(Date(1, 1, 1)) && Ordinal(Date(1, 1, 1)) == 1
  {
  }

  /** Every valid date has an ordinal of at least 1, and only 0001-01-01 has 1. */
  lemma OrdinalPositive(d: Date)
    requires Valid(d)
    ensures Ordinal(d) >= 1
    ensures Ordinal(d) == 1 <==> d == Date(1, 1, 1)
  {
    if d.year >= 2 {
      assert DaysBeforeYear(d.year) >= 365;
    }
  }

  /**
   * `d - timedelta(days=n)`; `None` is the `OverflowError` raised when the
   * result would fall before 0001-01-01 (this also covers a `timedelta`
   * larger than 999999999 days, which can only reach below year 1).
   */
  function MinusDays(d: Date, n: nat): (r: Option<Date>)
    requires Valid(d)
    ensures r.Some? ==> Valid(r.value)
    decreases n
  {
    if n == 0 then Some(d)
    else if d == Date(1, 1, 1) then None
    else MinusDays(PrevDay(d), n - 1)
  }

  /** `d - timedelta(days=n)` is the date whose ordinal is `n` less, and it raises exactly when that ordinal would be below 1. */
  lemma {:induction false} MinusDaysOrdinal(d: Date, n: nat)
    requires Valid(d)
    ensures MinusDays(d, n).Some? ==> Ordinal(MinusDays(d, n).value) == Ordinal(d) - n
    ensures MinusDays(d, n).None? <==> n >= Ordinal(d)
    decreases n
  {
    if n == 0 {
      OrdinalPositive(d);
    } else if d == Date(1, 1, 1) {
      assert MinusDays(d, n).None?;
      FirstOrdinal();
    } else {
      var p := PrevDay(d);
      PrevDayOrdinal(d);
      MinusDaysOrdinal(p, n - 1);
      assert MinusDays(d, n) == MinusDays(p, n - 1);
    }
  }

  /** `date.isoformat()`: YYYY-MM-DD with zero padding. */
  function IsoFormat(d: Date): (s: string)
    requires Valid(d)
    ensures |s| == 10
  {
    YearDigits(d.year);
    MonthDayDigits(d.month);
    MonthDayDigits(d.day);
    Padded(d.year, 4) + "-" + Padded(d.month, 2) + "-" + Padded(d.day, 2)
  }

  lemma YearDigits(y: int)
    requires 1 <= y <= 9999
    ensures |NatToString(y)| <= 4
  {
    assert Pow10(4) == 10000;
    NatToStringLength(y, 4);
  }

  lemma MonthDayDigits(n: int)
    requires 1 <= n <= 31
    ensures |NatToString(n)| <= 2
  {
    assert Pow10(2) == 100;
    NatToStringLength(n, 2);
  }

  /**
   * `date.fromisoformat(s)` as CPython's C implementation reads a date before
   * Python 3.11: exactly ten characters YYYY-MM-DD with ASCII digits, and a
   * valid calendar date; anything else raises `ValueError` (`None` here).
   */
  function ParseIso(s: string): (r: Option<Date>)
    ensures r.Some? ==> Valid(r.value)
    ensures r.Some? ==> |s| == 10 && s[4] == '-' && s[7] == '-'
                        && forall i :: 0 <= i < 10 && i != 4 && i != 7 ==> IsDigit(s[i])
  {
    if |s| == 10 && AllDigits(s[0..4]) && s[4] == '-' && AllDigits(s[5..7]) && s[7] == '-'
       && AllDigits(s[8..10])
    then
      var d := Date(DigitsValue(s[0..4]), DigitsValue(s[5..7]), DigitsValue(s[8..10]));
      if Valid(d) then Some(d) else None
    else None
  }

  /** `date.fromisoformat(d.isoformat()) == d` for every date. */
  lemma IsoRoundTrip(d: Date)
    requires Valid(d)
    ensures ParseIso(IsoFormat(d)) == Some(d)
  {
    var s := IsoFormat(d);
    YearDigits(d.year);
    MonthDayDigits(d.month);
    MonthDayDigits(d.day);
    assert s[0..4] == Padded(d.year, 4);
    assert s[5..7] == Padded(d.month, 2);
    assert s[8..10] == Padded(d.day, 2);
    PaddedRoundTrip(d.year, 4);
    PaddedRoundTrip(d.month, 2);
    PaddedRoundTrip(d.day, 2);
  }

  /** Different dates have different ISO texts, so the settings store's string comparison of dates is date equality. */
  lemma IsoFormatInjective(d: Date, e: Date)
    requires Valid(d) && Valid(e)
    ensures IsoFormat(d) == IsoFormat(e) <==> d == e
  {
    if IsoFormat(d) == IsoFormat(e) {
      IsoRoundTrip(d);
      IsoRoundTrip(e);
    }
  }
}
