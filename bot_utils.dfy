/**
 * The command-argument parsers shared by the bot's cogs: `parse_date`, which
 * reads a day from relative keywords and several numeric notations, and
 * `parse_time_str`, which reads an `H:MM` / `HH:MM` clock time. The current
 * JST day, `get_jst_today()`, is a parameter.
 */
module BotUtils {
  import opened Common
  import opened Numbers
  import opened Dates

  // ---------------------------------------------------------------------
  // Text helpers: str.strip(), str.lower() and the regular-expression pieces
  // ---------------------------------------------------------------------

  /** `str.isspace()` for one character. */
  predicate IsSpace(c: char) {
    c == ' ' || '\t' <= c <= '\r' || '\U{1C}' <= c <= '\U{1F}' || c == '\U{85}' || c == '\U{A0}'
    || c == '\U{1680}' || '\U{2000}' <= c <= '\U{200A}' || c == '\U{2028}' || c == '\U{2029}'
    || c == '\U{202F}' || c == '\U{205F}' || c == '\U{3000}'
  }

  /** The length of the whitespace run `str.strip()` removes at the start. */
  function LeadingSpaces(s: string): (k: nat)
    ensures k <= |s| && forall i :: 0 <= i < k ==> IsSpace(s[i])
    ensures k < |s| ==> !IsSpace(s[k])
  {
    if s != [] && IsSpace(s[0]) then 1 + LeadingSpaces(s[1..]) else 0
  }

  /** The length of the whitespace run `str.strip()` removes at the end. */
  function TrailingSpaces(s: string): (k: nat)
    ensures k <= |s| && forall i :: |s| - k <= i < |s| ==> IsSpace(s[i])
    ensures k < |s| ==> !IsSpace(s[|s| - k - 1])
  {
    if s != [] && IsSpace(s[|s| - 1]) then 1 + TrailingSpaces(s[..|s| - 1]) else 0
  }

  /**
   * `str.strip()`: the text without leading and trailing whitespace. With
   * `a` the length of the leading whitespace run, the result is the infix
   * of `s` at `a`, everything before and after it is whitespace, and its
   * own ends are not, which leaves only one candidate.
   */
  function Strip(s: string): (r: string)
    ensures r != [] ==> !IsSpace(r[0]) && !IsSpace(r[|r| - 1])
    ensures var a := LeadingSpaces(s);
      && a + |r| <= |s| && r == s[a..a + |r|]
      && (forall i :: 0 <= i < a ==> IsSpace(s[i]))
      && (forall i :: a + |r| <= i < |s| ==> IsSpace(s[i]))
  {
    var a := LeadingSpaces(s);
    if a == |s| then []
    else
      var b := TrailingSpaces(s);
      assert b < |s| - a by {
        assert !IsSpace(s[a]);
      }
      s[a..|s| - b]
  }

  /** ASCII lower-casing of one character: capitals become lower case, nothing else changes. */
  function LowerChar(c: char): (r: char)
    ensures !('A' <= r <= 'Z')
    ensures !('A' <= c <= 'Z') ==> r == c
    ensures 'A' <= c <= 'Z' ==> 'a' <= r <= 'z' && r as int - 'a' as int == c as int - 'A' as int
  {
    if 'A' <= c <= 'Z' then (c as int + 32) as char else c
  }

  /** `str.lower()` on the ASCII letters. */
  function Lower(s: string): (r: string)
    ensures |r| == |s|
    ensures forall i :: 0 <= i < |s| ==> r[i] == LowerChar(s[i])
    ensures forall i :: 0 <= i < |r| ==> !('A' <= r[i] <= 'Z')
  {
    seq(|s|, i requires 0 <= i < |s| => LowerChar(s[i]))
  }

  /** Greedy `\d{1,2}` at `i`: how many digits it takes, 0 when there is none. */
  function DigitsAt(s: string, i: nat): (k: nat)
    requires i <= |s|
    ensures k <= 2 && i + k <= |s| && AllDigits(s[i..i + k])
    ensures k == 0 <==> !(i < |s| && IsDigit(s[i]))
    ensures i + 1 < |s| && IsDigit(s[i]) && IsDigit(s[i + 1]) ==> k == 2
  {
    if i + 1 < |s| && IsDigit(s[i]) && IsDigit(s[i + 1]) then 2
    else if i < |s| && IsDigit(s[i]) then 1
    else 0
  }

  /**
   * `\d{1,2}` at `i` followed by one of `stops`, with the backtracking of the
   * regular-expression engine: how many digits it takes, 0 when no choice matches.
   */
  function DigitsBefore(s: string, i: nat, stops: set<char>): (k: nat)
    ensures k <= 2
    ensures k > 0 ==> i + k < |s| && AllDigits(s[i..i + k]) && s[i + k] in stops
    ensures i + 2 < |s| && IsDigit(s[i]) && IsDigit(s[i + 1]) && s[i + 2] in stops ==> k == 2
    ensures k == 0 ==> !(i + 1 < |s| && IsDigit(s[i]) && s[i + 1] in stops)
  {
    if i + 2 < |s| && IsDigit(s[i]) && IsDigit(s[i + 1]) && s[i + 2] in stops then 2
    else if i + 1 < |s| && IsDigit(s[i]) && s[i + 1] in stops then 1
    else 0
  }

  /** The run of digits `\d+` takes at the start of `s`. */
  function DigitRun(s: string): (k: nat)
    ensures k <= |s| && AllDigits(s[..k])
    ensures k < |s| ==> !IsDigit(s[k])
  {
    if s != [] && IsDigit(s[0]) then
      var k := 1 + DigitRun(s[1..]);
      assert s[..k] == [s[0]] + s[1..][..k - 1];
      k
    else 0
  }

  const DateSeparators: set<char> := {'-', '/'}

  /** `re.match(r"(\d+)日前", s)`: the number of days. */
  function MatchDaysAgo(s: string): Option<nat> {
    var k := DigitRun(s);
    if k >= 1 && k + 2 <= |s| && s[k] == '日' && s[k + 1] == '前' then Some(DigitsValue(s[..k])) else None
  }

  /** `re.match(r"^-(\d+)$", s)`: the number of days. */
  function MatchMinusDays(s: string): Option<nat> {
    if |s| >= 2 && s[0] == '-' && AllDigits(s[1..]) then Some(DigitsValue(s[1..])) else None
  }

  /** `re.match(r"(\d{1,2})月(\d{1,2})日?", s)`: month and day. */
  function MatchKanjiMonthDay(s: string): Option<(nat, nat)> {
    var a := DigitsBefore(s, 0, {'月'});
    if a == 0 then None
    else
      var b := DigitsAt(s, a + 1);
      if b == 0 then None else Some((DigitsValue(s[..a]), DigitsValue(s[a + 1..a + 1 + b])))
  }

  /** `re.match(r"(\d{4})[-/](\d{1,2})[-/](\d{1,2})", s)`: year, month and day. */
  function MatchYearMonthDay(s: string): Option<(nat, nat, nat)> {
    if |s| >= 5 && AllDigits(s[..4]) && s[4] in DateSeparators then
      var a := DigitsBefore(s, 5, DateSeparators);
      if a == 0 then None
      else
        var b := DigitsAt(s, 6 + a);
        if b == 0 then None
        else Some((DigitsValue(s[..4]), DigitsValue(s[5..5 + a]), DigitsValue(s[6 + a..6 + a + b])))
    else None
  }

  /** `re.match(r"^(\d{1,2})[-/](\d{1,2})$", s)`: month and day. */
  function MatchShortMonthDay(s: string): Option<(nat, nat)> {
    var a := DigitsBefore(s, 0, DateSeparators);
    if a > 0 && 1 <= |s| - (a + 1) <= 2 && AllDigits(s[a + 1..]) then
      Some((DigitsValue(s[..a]), DigitsValue(s[a + 1..])))
    else None
  }

  /** `re.match(r"^(\d{2})(\d{2})$", s)`: month and day. */
  function MatchFourDigits(s: string): Option<(nat, nat)> {
    if |s| == 4 && AllDigits(s) then Some((DigitsValue(s[..2]), DigitsValue(s[2..]))) else None
  }

  // ---------------------------------------------------------------------
  // parse_date
  // ---------------------------------------------------------------------

  /** The exceptions `parse_date` lets out, each a distinct message or type. */
  datatype DateError =
    | MonthOutOfRange(month: int)   // ValueError of _validate_month_day
    | DayOutOfRange(day: int)       // ValueError of _validate_month_day
    | NoSuchDate                    // ValueError of date(year, month, day)
    | BeforeFirstDate               // OverflowError of date - timedelta
    | NotIsoFormat                  // ValueError of date.fromisoformat

  /** `_validate_month_day`: the error it raises, the month checked first. */
  function ValidateMonthDay(month: int, day: int): (e: Option<DateError>)
    ensures e.None? <==> 1 <= month <= 12 && 1 <= day <= 31
    ensures !(1 <= month <= 12) ==> e == Some(MonthOutOfRange(month))
    ensures 1 <= month <= 12 && !(1 <= day <= 31) ==> e == Some(DayOutOfRange(day))
  {
    if !(1 <= month <= 12) then Some(MonthOutOfRange(month))
    else if !(1 <= day <= 31) then Some(DayOutOfRange(day))
    else None
  }

  /** `date(year, month, day)`. */
  function MakeDate(year: int, month: int, day: int): (r: Result<Date, DateError>)
    ensures r.Ok? <==> Valid(Date(year, month, day))
    ensures r.Ok? ==> r.value == Date(year, month, day)
    ensures r.Err? ==> r.error == NoSuchDate
  {
    if Valid(Date(year, month, day)) then Ok(Date(year, month, day)) else Err(NoSuchDate)
  }

  /** A month and day of the current year: validated, then constructed. */
  function InYear(today: Date, month: int, day: int): (r: Result<Date, DateError>)
    ensures r.Ok? ==> r.value == Date(today.year, month, day) && Valid(r.value)
    ensures ValidateMonthDay(month, day).Some? ==> r == Err(ValidateMonthDay(month, day).value)
    ensures r.Ok? <==> ValidateMonthDay(month, day).None? && Valid(Date(today.year, month, day))
    ensures ValidateMonthDay(month, day).None? && !Valid(Date(today.year, month, day)) ==> r == Err(NoSuchDate)
  {
    match ValidateMonthDay(month, day)
    case Some(e) => Err(e)
    case None => MakeDate(today.year, month, day)
  }

  /** `today - timedelta(days=n)`. */
  function DaysBefore(today: Date, n: nat): (r: Result<Date, DateError>)
    requires Valid(today)
    ensures r.Ok? ==> Valid(r.value) && Ordinal(r.value) == Ordinal(today) - n
    ensures r.Err? <==> n >= Ordinal(today)
  {
    MinusDaysOrdinal(today, n);
    match MinusDays(today, n)
    case Some(d) => Ok(d)
    case None => Err(BeforeFirstDate)
  }

  predicate IsTodayKeyword(s: string) {
    s == "今日" || s == "きょう" || s == "today"
  }

  predicate IsYesterdayKeyword(s: string) {
    s == "昨日" || s == "きのう" || s == "yesterday"
  }

  predicate IsDayBeforeYesterdayKeyword(s: string) {
    s == "一昨日" || s == "おととい"
  }

  /** The notation a normalised argument is written in: the first of `parse_date`'s patterns that matches. */
  datatype Notation =
    | TodayWord
    | YesterdayWord
    | DayBeforeYesterdayWord
    | DaysAgo(days: nat)                          // N日前
    | DashDays(days: nat)                         // -N
    | KanjiDate(month: nat, day: nat)             // N月D日
    | FullDate(year: nat, month: nat, day: nat)   // YYYY-MM-DD, YYYY/MM/DD
    | ShortDate(month: nat, day: nat)             // M/D, MM-DD
    | FourDigitDate(month: nat, day: nat)         // MMDD
    | Unrecognised

  /** The patterns of `parse_date` tried in source order on the stripped, lower-cased text. */
  function Classify(s: string): (r: Notation)
    ensures (!IsTodayKeyword(s) && !IsYesterdayKeyword(s) && !IsDayBeforeYesterdayKeyword(s)
             && (s == [] || (!IsDigit(s[0]) && s[0] != '-')))
            ==> r == Unrecognised
  {
    if IsTodayKeyword(s) then TodayWord
    else if IsYesterdayKeyword(s) then YesterdayWord
    else if IsDayBeforeYesterdayKeyword(s) then DayBeforeYesterdayWord
    else if MatchDaysAgo(s).Some? then DaysAgo(MatchDaysAgo(s).value)
    else if MatchMinusDays(s).Some? then DashDays(MatchMinusDays(s).value)
    else if MatchKanjiMonthDay(s).Some? then KanjiDate(MatchKanjiMonthDay(s).value.0, MatchKanjiMonthDay(s).value.1)
    else if MatchYearMonthDay(s).Some? then
      var (year, month, day) := MatchYearMonthDay(s).value;
      FullDate(year, month, day)
    else if MatchShortMonthDay(s).Some? then ShortDate(MatchShortMonthDay(s).value.0, MatchShortMonthDay(s).value.1)
    else if MatchFourDigits(s).Some? then FourDigitDate(MatchFourDigits(s).value.0, MatchFourDigits(s).value.1)
    else Unrecognised
  }

  /** The date a notation stands for; an unrecognised one goes to `date.fromisoformat` on the original text. */
  function Resolve(notation: Notation, original: string, today: Date): (r: Result<Date, DateError>)
    requires Valid(today)
    ensures r.Ok? ==> Valid(r.value)
  {
    match notation
    case TodayWord => Ok(today)
    case YesterdayWord => DaysBefore(today, 1)
    case DayBeforeYesterdayWord => DaysBefore(today, 2)
    case DaysAgo(n) => DaysBefore(today, n)
    case DashDays(n) => DaysBefore(today, n)
    case KanjiDate(month, day) => InYear(today, month, day)
    case FullDate(year, month, day) => MakeDate(year, month, day)
    case ShortDate(month, day) => InYear(today, month, day)
    case FourDigitDate(month, day) => InYear(today, month, day)
    case Unrecognised =>
      match ParseIso(original)
      case Some(d) => Ok(d)
      case None => Err(NotIsoFormat)
  }

  /**
   * `parse_date(date_str, default_date)`: an empty argument gives the
   * default; otherwise the notation of the stripped, lower-cased text decides.
   */
  function ParseDate(input: Option<string>, default: Option<Date>, today: Date): (r: Result<Date, DateError>)
    requires Valid(today) && (default.Some? ==> Valid(default.value))
    ensures r.Ok? ==> Valid(r.value)
  {
    if input.None? || input.value == "" then Ok(if default.Some? then default.value else today)
    else Resolve(Classify(Lower(Strip(input.value))), input.value, today)
  }

  // ---------------------------------------------------------------------
  // parse_time_str
  // ---------------------------------------------------------------------

  /** The two `ValueError`s of `parse_time_str`: wrong shape, or a value out of range. */
  datatype TimeError = NotHourMinute | TimeOutOfRange

  /** One or two digits, a colon, two digits: the text the clock pattern accepts. */
  predicate ClockShape(s: string) {
    4 <= |s| <= 5 && AllDigits(s[..|s| - 3]) && s[|s| - 3] == ':' && AllDigits(s[|s| - 2..])
  }

  /** The hour and minute a text of clock shape spells: the digits before and after the colon. */
  function ClockValue(s: string): (nat, nat)
    requires ClockShape(s)
  {
    (DigitsValue(s[..|s| - 3]), DigitsValue(s[|s| - 2..]))
  }

  /** `re.match(r"^(\d{1,2}):(\d{2})$", s)`: hour and minute. */
  function MatchClock(s: string): (r: Option<(nat, nat)>)
    ensures r.Some? <==> ClockShape(s)
    ensures r.Some? ==> r.value == ClockValue(s)
  {
    ClockShapeDigits(s);
    var a := DigitsBefore(s, 0, {':'});
    if a > 0 && |s| == a + 3 && AllDigits(s[a + 1..]) then Some((DigitsValue(s[..a]), DigitsValue(s[a + 1..])))
    else None
  }

  /** On a text of clock shape the hour group takes every digit before the colon. */
  lemma ClockShapeDigits(s: string)
    ensures ClockShape(s) ==> DigitsBefore(s, 0, {':'}) == |s| - 3
  {
    if ClockShape(s) {
      assert IsDigit(s[..|s| - 3][0]);
      if |s| == 5 {
        assert IsDigit(s[..|s| - 3][1]);
      }
    }
  }

  /** `parse_time_str(time_str)`: the clock pattern on the stripped text, then the range check. */
  function ParseTime(text: string): (r: Result<(nat, nat), TimeError>)
    ensures r.Ok? ==> r.value.0 <= 23 && r.value.1 <= 59
    ensures r == Err(NotHourMinute) <==> !ClockShape(Strip(text))
    ensures ClockShape(Strip(text)) ==>
      var (hour, minute) := ClockValue(Strip(text));
      r == if hour <= 23 && minute <= 59 then Ok((hour, minute)) else Err(TimeOutOfRange)
  {
    var clock := MatchClock(Strip(text));
    if clock.None? then Err(NotHourMinute)
    else if clock.value.0 <= 23 && clock.value.1 <= 59 then Ok(clock.value)
    else Err(TimeOutOfRange)
  }

  // ---------------------------------------------------------------------
  // Properties
  // ---------------------------------------------------------------------

  /** Text with no whitespace at its ends is what `strip()` leaves it. */
  lemma StripNothing(s: string)
    requires s != [] && !IsSpace(s[0]) && !IsSpace(s[|s| - 1])
    ensures Strip(s) == s
  {
    assert LeadingSpaces(s) == 0;
  }

  /** Non-empty text with no whitespace at its ends and no capital ASCII letter. */
  predicate Plain(s: string) {
    s != [] && !IsSpace(s[0]) && !IsSpace(s[|s| - 1]) && forall i :: 0 <= i < |s| ==> !('A' <= s[i] <= 'Z')
  }

  /** Plain text is what `strip().lower()` leaves it, so its notation alone decides. */
  lemma ParsePlain(s: string, default: Option<Date>, today: Date)
    requires Plain(s) && Valid(today) && (default.Some? ==> Valid(default.value))
    ensures Lower(Strip(s)) == s
    ensures ParseDate(Some(s), default, today) == Resolve(Classify(s), s, today)
  {
    StripNothing(s);
    assert forall i :: 0 <= i < |s| ==> Lower(s)[i] == s[i];
  }

  /** Plain text written in a notation resolves through that notation alone. */
  lemma ParseVia(s: string, notation: Notation, default: Option<Date>, today: Date)
    requires Plain(s) && Classify(s) == notation
    requires Valid(today) && (default.Some? ==> Valid(default.value))
    ensures ParseDate(Some(s), default, today) == Resolve(notation, s, today)
  {
    ParsePlain(s, default, today);
  }

  /** Plain text in one of the month-day notations is that day of the current year, validated first. */
  lemma ParseInYear(s: string, notation: Notation, default: Option<Date>, today: Date)
    requires Plain(s) && Classify(s) == notation
    requires notation.KanjiDate? || notation.ShortDate? || notation.FourDigitDate?
    requires Valid(today) && (default.Some? ==> Valid(default.value))
    ensures ParseDate(Some(s), default, today) == InYear(today, notation.month, notation.day)
  {
    ParseVia(s, notation, default, today);
    ResolveInYear(notation, s, today);
  }

  lemma ResolveInYear(notation: Notation, original: string, today: Date)
    requires notation.KanjiDate? || notation.ShortDate? || notation.FourDigitDate?
    requires Valid(today)
    ensures Resolve(notation, original, today) == InYear(today, notation.month, notation.day)
  {
  }

  /** Plain text in the explicit-year notation is that date, or the error of `date(...)`. */
  lemma ParseExplicitYear(s: string, year: nat, month: nat, day: nat, default: Option<Date>, today: Date)
    requires Plain(s) && Classify(s) == FullDate(year, month, day)
    requires Valid(today) && (default.Some? ==> Valid(default.value))
    ensures ParseDate(Some(s), default, today) == MakeDate(year, month, day)
  {
    ParseVia(s, FullDate(year, month, day), default, today);
  }

  /** `\d+` takes exactly a leading run of digits followed by a non-digit or the end. */
  lemma {:induction false} DigitRunPrefix(d: string, rest: string)
    requires AllDigits(d)
    requires rest == [] || !IsDigit(rest[0])
    ensures DigitRun(d + rest) == |d|
    decreases |d|
  {
    if d != [] {
      assert (d + rest)[1..] == d[1..] + rest;
      DigitRunPrefix(d[1..], rest);
    }
  }

  lemma TwoDigits(n: nat)
    requires n < 100
    ensures 1 <= |NatToString(n)| <= 2
  {
    assert Pow10(2) == 100;
    NatToStringLength(n, 2);
  }

  /** A text that starts with a digit or a minus sign is none of the keywords. */
  lemma NotKeyword(s: string)
    requires s != [] && (IsDigit(s[0]) || s[0] == '-')
    ensures !IsTodayKeyword(s) && !IsYesterdayKeyword(s) && !IsDayBeforeYesterdayKeyword(s)
  {
  }

  lemma ClassifyDaysAgo(n: nat)
    ensures Classify(NatToString(n) + "日前") == DaysAgo(n)
    ensures Classify("-" + NatToString(n)) == DashDays(n)
  {
    var digits := NatToString(n);
    NatToStringRoundTrip(n);
    var ago := digits + "日前";
    NotKeyword(ago);
    DigitRunPrefix(digits, "日前");
    assert ago[..|digits|] == digits;
    assert MatchDaysAgo(ago) == Some(n);
    var minus := "-" + digits;
    NotKeyword(minus);
    assert minus[1..] == digits;
    assert MatchDaysAgo(minus).None?;
  }

  lemma ClassifyIso(d: Date)
    requires Valid(d)
    ensures Plain(IsoFormat(d))
    ensures Classify(IsoFormat(d)) == FullDate(d.year, d.month, d.day)
  {
    YearDigits(d.year);
    MonthDayDigits(d.month);
    MonthDayDigits(d.day);
    PaddedRoundTrip(d.year, 4);
    PaddedRoundTrip(d.month, 2);
    PaddedRoundTrip(d.day, 2);
    ClassifyFullDate(Padded(d.year, 4), Padded(d.month, 2), Padded(d.day, 2), '-', '-');
  }

  lemma PlainDays(n: nat)
    ensures Plain(NatToString(n) + "日前") && Plain("-" + NatToString(n))
  {
  }

  /** Digits, date separators and the kanji of the Japanese notations are neither whitespace nor capitals. */
  predicate DateChar(c: char) {
    IsDigit(c) || c in DateSeparators || c == '月' || c == '日'
  }

  lemma PlainDateText(s: string)
    requires s != [] && forall i :: 0 <= i < |s| ==> DateChar(s[i])
    ensures Plain(s)
  {
  }

  /** `M月D日` with one- or two-digit fields matches only the month-day pattern before it. */
  lemma KanjiDateMatches(m: string, d: string)
    requires AllDigits(m) && AllDigits(d) && 1 <= |m| <= 2 && 1 <= |d| <= 2
    ensures var s := m + "月" + d + "日";
      && MatchDaysAgo(s).None? && MatchMinusDays(s).None?
      && MatchKanjiMonthDay(s) == Some((DigitsValue(m), DigitsValue(d)))
  {
    var s := m + "月" + d + "日";
    assert |s| == |m| + |d| + 2 && s[..|m|] == m && s[|m|] == '月';
    assert s[|m| + 1..|m| + 1 + |d|] == d && s[|m| + 1 + |d|] == '日';
    KanjiDateAt(s, m, d);
  }

  lemma KanjiDateAt(s: string, m: string, d: string)
    requires AllDigits(m) && AllDigits(d) && 1 <= |m| <= 2 && 1 <= |d| <= 2
    requires |s| == |m| + |d| + 2 && s[..|m|] == m && s[|m|] == '月'
    requires s[|m| + 1..|m| + 1 + |d|] == d && s[|m| + 1 + |d|] == '日'
    ensures MatchDaysAgo(s).None? && MatchMinusDays(s).None?
    ensures MatchKanjiMonthDay(s) == Some((DigitsValue(m), DigitsValue(d)))
  {
    assert s[..|m|] + s[|m|..] == s;
    DigitRunPrefix(m, s[|m|..]);
    assert IsDigit(s[0]) by { assert s[0] == m[0]; }
    assert |m| == 2 ==> IsDigit(s[1]) by { if |m| == 2 { assert s[1] == m[1]; } }
    var a := DigitsBefore(s, 0, {'月'});
    assert a == |m|;
    assert IsDigit(s[a + 1]) by { assert s[a + 1] == d[0]; }
    assert |d| == 2 ==> IsDigit(s[a + 2]) by { if |d| == 2 { assert s[a + 2] == d[1]; } }
    var b := DigitsAt(s, a + 1);
    assert b == |d|;
  }

  /** `M月D日` with one- or two-digit parts, zero-padded or not, is read as that month and day. */
  lemma ClassifyKanjiDate(m: string, d: string)
    requires AllDigits(m) && AllDigits(d) && 1 <= |m| <= 2 && 1 <= |d| <= 2
    ensures Plain(m + "月" + d + "日")
    ensures Classify(m + "月" + d + "日") == KanjiDate(DigitsValue(m), DigitsValue(d))
  {
    var s := m + "月" + d + "日";
    assert forall i :: 0 <= i < |s| ==> DateChar(s[i]) by {
      forall i | 0 <= i < |s|
        ensures DateChar(s[i])
      {
        if i < |m| {
          assert s[i] == m[i];
        } else if |m| < i < |m| + 1 + |d| {
          assert s[i] == d[i - |m| - 1];
        }
      }
    }
    PlainDateText(s);
    NotKeyword(s);
    KanjiDateMatches(m, d);
  }

  /** `M/D` or `M-D` with one- or two-digit fields matches only the short-date pattern before it. */
  lemma ShortDateMatches(m: string, d: string, sep: char)
    requires AllDigits(m) && AllDigits(d) && 1 <= |m| <= 2 && 1 <= |d| <= 2 && sep in DateSeparators
    ensures var s := m + [sep] + d;
      && MatchDaysAgo(s).None? && MatchMinusDays(s).None? && MatchKanjiMonthDay(s).None?
      && MatchYearMonthDay(s).None?
      && MatchShortMonthDay(s) == Some((DigitsValue(m), DigitsValue(d)))
  {
    var s := m + [sep] + d;
    var rest := [sep] + d;
    assert m + rest == s;
    NoDaysAgoBeforeSeparator(m, rest);
    NoKanjiBeforeSeparator(m, rest);
    NoYearBeforeSeparator(m, rest);
    ShortDateFields(m, d, sep);
  }

  lemma ShortDateFields(m: string, d: string, sep: char)
    requires AllDigits(m) && AllDigits(d) && 1 <= |m| <= 2 && 1 <= |d| <= 2 && sep in DateSeparators
    ensures MatchShortMonthDay(m + [sep] + d) == Some((DigitsValue(m), DigitsValue(d)))
  {
    var s := m + [sep] + d;
    assert DigitsBefore(s, 0, DateSeparators) == |m|;
    assert s[..|m|] == m && s[|m| + 1..] == d;
  }

  /** Digits followed by something other than a digit or `日` are no `N日前`. */
  lemma NoDaysAgoBeforeSeparator(m: string, rest: string)
    requires AllDigits(m) && rest != [] && !IsDigit(rest[0]) && rest[0] != '日'
    ensures MatchDaysAgo(m + rest).None?
  {
    DigitRunPrefix(m, rest);
    assert (m + rest)[|m|] == rest[0];
  }

  /** At most two digits followed by something other than a digit or `月` are no `M月D日`. */
  lemma NoKanjiBeforeSeparator(m: string, rest: string)
    requires AllDigits(m) && 1 <= |m| <= 2 && rest != [] && !IsDigit(rest[0]) && rest[0] != '月'
    ensures MatchKanjiMonthDay(m + rest).None?
  {
    var s := m + rest;
    assert s[|m|] == rest[0];
    assert forall k :: 0 <= k < |m| ==> s[k] == m[k];
  }

  /** A year needs four digits before its separator; at most two digits before a non-digit is no full date. */
  lemma NoYearBeforeSeparator(m: string, rest: string)
    requires AllDigits(m) && |m| <= 2 && rest != [] && !IsDigit(rest[0])
    ensures MatchYearMonthDay(m + rest).None?
  {
    var s := m + rest;
    if |s| >= 5 {
      assert s[|m|] == rest[0];
      assert !AllDigits(s[..4]) by { assert s[..4][|m|] == s[|m|]; }
    }
  }

  /** `M/D` and `M-D` with one- or two-digit parts, zero-padded or not, are read as that month and day. */
  lemma ClassifyShortDate(m: string, d: string, sep: char)
    requires AllDigits(m) && AllDigits(d) && 1 <= |m| <= 2 && 1 <= |d| <= 2 && sep in DateSeparators
    ensures Plain(m + [sep] + d)
    ensures Classify(m + [sep] + d) == ShortDate(DigitsValue(m), DigitsValue(d))
  {
    var s := m + [sep] + d;
    assert forall i :: 0 <= i < |s| ==> DateChar(s[i]) by {
      forall i | 0 <= i < |s|
        ensures DateChar(s[i])
      {
        if i < |m| {
          assert s[i] == m[i];
        } else if |m| < i {
          assert s[i] == d[i - |m| - 1];
        }
      }
    }
    PlainDateText(s);
    NotKeyword(s);
    ShortDateMatches(m, d, sep);
  }

  /**
   * `YYYY-M-D`, `YYYY/M/D` and the mixed separators, with one- or two-digit
   * month and day, are read through the explicit-year notation.
   */
  lemma ClassifyFullDate(y: string, m: string, d: string, sep1: char, sep2: char)
    requires AllDigits(y) && AllDigits(m) && AllDigits(d) && |y| == 4 && 1 <= |m| <= 2 && 1 <= |d| <= 2
    requires sep1 in DateSeparators && sep2 in DateSeparators
    ensures Plain(y + [sep1] + m + [sep2] + d)
    ensures Classify(y + [sep1] + m + [sep2] + d) == FullDate(DigitsValue(y), DigitsValue(m), DigitsValue(d))
  {
    var s := y + [sep1] + m + [sep2] + d;
    PlainFullDate(y, m, d, sep1, sep2);
    FullDateSlices(y, m, d, sep1, sep2);
    FullDateFields(y, m, d, sep1, sep2);
    ClassifyAsFullDate(s);
  }

  /** Text that starts with four digits and a date separator, and matches the explicit-year pattern, is read through it. */
  lemma ClassifyAsFullDate(s: string)
    requires |s| >= 5 && AllDigits(s[..4]) && s[4] in DateSeparators && MatchYearMonthDay(s).Some?
    ensures Classify(s) == FullDate(MatchYearMonthDay(s).value.0, MatchYearMonthDay(s).value.1,
                                    MatchYearMonthDay(s).value.2)
  {
    assert IsDigit(s[..4][0]) && IsDigit(s[..4][1]) && IsDigit(s[..4][2]);
    NotKeyword(s);
    assert MatchDaysAgo(s).None? by {
      DigitRunPrefix(s[..4], s[4..]);
      assert s[..4] + s[4..] == s;
    }
    assert MatchKanjiMonthDay(s).None?;
  }


  lemma PlainFullDate(y: string, m: string, d: string, sep1: char, sep2: char)
    requires AllDigits(y) && AllDigits(m) && AllDigits(d) && |y| == 4
    requires sep1 in DateSeparators && sep2 in DateSeparators
    ensures Plain(y + [sep1] + m + [sep2] + d)
  {
    var s := y + [sep1] + m + [sep2] + d;
    forall i | 0 <= i < |s|
      ensures DateChar(s[i])
    {
      if i < 4 {
        assert s[i] == y[i];
      } else if 4 < i < 5 + |m| {
        assert s[i] == m[i - 5];
      } else if 5 + |m| < i {
        assert s[i] == d[i - 6 - |m|];
      }
    }
    PlainDateText(s);
  }

  lemma FullDateFields(y: string, m: string, d: string, sep1: char, sep2: char)
    requires AllDigits(y) && AllDigits(m) && AllDigits(d) && |y| == 4 && 1 <= |m| <= 2 && 1 <= |d| <= 2
    requires sep1 in DateSeparators && sep2 in DateSeparators
    ensures MatchYearMonthDay(y + [sep1] + m + [sep2] + d) == Some((DigitsValue(y), DigitsValue(m), DigitsValue(d)))
  {
    var s := y + [sep1] + m + [sep2] + d;
    FullDateSlices(y, m, d, sep1, sep2);
    FullDateFieldsAt(s, m, d);
  }

  lemma FullDateSlices(y: string, m: string, d: string, sep1: char, sep2: char)
    requires |y| == 4
    ensures var s := y + [sep1] + m + [sep2] + d;
      && |s| == 6 + |m| + |d| && s[..4] == y && s[4] == sep1
      && s[5..5 + |m|] == m && s[5 + |m|] == sep2 && s[6 + |m|..] == d
  {
  }

  lemma FullDateFieldsAt(s: string, m: string, d: string)
    requires AllDigits(m) && AllDigits(d) && 1 <= |m| <= 2 && 1 <= |d| <= 2
    requires |s| == 6 + |m| + |d| && AllDigits(s[..4]) && s[4] in DateSeparators
    requires s[5..5 + |m|] == m && s[5 + |m|] in DateSeparators && s[6 + |m|..] == d
    ensures MatchYearMonthDay(s) == Some((DigitsValue(s[..4]), DigitsValue(m), DigitsValue(d)))
  {
    assert IsDigit(s[5]) by { assert s[5] == m[0]; }
    assert |m| == 2 ==> IsDigit(s[6]) by { if |m| == 2 { assert s[6] == m[1]; } }
    var a := DigitsBefore(s, 5, DateSeparators);
    assert a == |m|;
    assert IsDigit(s[6 + a]) by { assert s[6 + a] == d[0]; }
    assert |d| == 2 ==> IsDigit(s[7 + a]) by { if |d| == 2 { assert s[7 + a] == d[1]; } }
    var b := DigitsAt(s, 6 + a);
    assert b == |d|;
    assert s[6 + a..6 + a + b] == d;
    YearMonthDayGroups(s);
  }

  /** Where the explicit-year pattern matches, its groups are the four digits, then the two runs after each separator. */
  lemma YearMonthDayGroups(s: string)
    requires |s| >= 5 && AllDigits(s[..4]) && s[4] in DateSeparators
    requires DigitsBefore(s, 5, DateSeparators) > 0
    ensures var a := DigitsBefore(s, 5, DateSeparators);
      DigitsAt(s, 6 + a) > 0 ==>
        MatchYearMonthDay(s)
        == Some((DigitsValue(s[..4]), DigitsValue(s[5..5 + a]), DigitsValue(s[6 + a..6 + a + DigitsAt(s, 6 + a)])))
  {
  }

  lemma ClassifyFourDigits(s: string)
    requires |s| == 4 && AllDigits(s)
    ensures Classify(s) == FourDigitDate(DigitsValue(s[..2]), DigitsValue(s[2..]))
  {
    NotKeyword(s);
    assert MatchDaysAgo(s).None? by {
      DigitRunPrefix(s, "");
      assert s + "" == s;
    }
    assert MatchKanjiMonthDay(s).None?;
    assert MatchShortMonthDay(s).None?;
  }

  /** An empty or missing argument gives the default date, or today when there is none. */
  lemma ParseDateEmpty(input: Option<string>, default: Option<Date>, today: Date)
    requires Valid(today) && (default.Some? ==> Valid(default.value))
    requires input.None? || input == Some("")
    ensures ParseDate(input, default, today) == Ok(default.GetOr(today))
  {
  }

  /** `今日`, `きょう` and `today` give today. */
  lemma ParseDateToday(default: Option<Date>, today: Date)
    requires Valid(today) && (default.Some? ==> Valid(default.value))
    ensures ParseDate(Some("今日"), default, today) == Ok(today)
    ensures ParseDate(Some("きょう"), default, today) == Ok(today)
    ensures ParseDate(Some("today"), default, today) == Ok(today)
  {
    assert Plain("今日") && Classify("今日") == TodayWord;
    assert Plain("きょう") && Classify("きょう") == TodayWord;
    assert Plain("today") && Classify("today") == TodayWord;
    ParseVia("今日", TodayWord, default, today);
    ParseVia("きょう", TodayWord, default, today);
    ParseVia("today", TodayWord, default, today);
  }

  /** `昨日`, `きのう` and `yesterday` give the day before today. */
  lemma ParseDateYesterday(default: Option<Date>, today: Date)
    requires Valid(today) && (default.Some? ==> Valid(default.value))
    ensures ParseDate(Some("昨日"), default, today) == DaysBefore(today, 1)
    ensures ParseDate(Some("きのう"), default, today) == DaysBefore(today, 1)
    ensures ParseDate(Some("yesterday"), default, today) == DaysBefore(today, 1)
  {
    assert Plain("昨日") && Classify("昨日") == YesterdayWord;
    assert Plain("きのう") && Classify("きのう") == YesterdayWord;
    assert Plain("yesterday") && Classify("yesterday") == YesterdayWord;
    ParseVia("昨日", YesterdayWord, default, today);
    ParseVia("きのう", YesterdayWord, default, today);
    ParseVia("yesterday", YesterdayWord, default, today);
  }

  /** `一昨日` and `おととい` give two days before today. */
  lemma ParseDateDayBeforeYesterday(default: Option<Date>, today: Date)
    requires Valid(today) && (default.Some? ==> Valid(default.value))
    ensures ParseDate(Some("一昨日"), default, today) == DaysBefore(today, 2)
    ensures ParseDate(Some("おととい"), default, today) == DaysBefore(today, 2)
  {
    assert Plain("一昨日") && Classify("一昨日") == DayBeforeYesterdayWord;
    assert Plain("おととい") && Classify("おととい") == DayBeforeYesterdayWord;
    ParseVia("一昨日", DayBeforeYesterdayWord, default, today);
    ParseVia("おととい", DayBeforeYesterdayWord, default, today);
  }

  /** `N日前` goes back `N` days from today, for every `N`. */
  lemma ParseDateDaysAgo(n: nat, default: Option<Date>, today: Date)
    requires Valid(today) && (default.Some? ==> Valid(default.value))
    ensures ParseDate(Some(NatToString(n) + "日前"), default, today) == DaysBefore(today, n)
  {
    var text := NatToString(n) + "日前";
    PlainDays(n);
    ClassifyDaysAgo(n);
    ParseVia(text, DaysAgo(n), default, today);
    assert Resolve(DaysAgo(n), text, today) == DaysBefore(today, n);
  }

  /** `-N` goes back `N` days from today, for every `N`. */
  lemma ParseDateDash(n: nat, default: Option<Date>, today: Date)
    requires Valid(today) && (default.Some? ==> Valid(default.value))
    ensures ParseDate(Some("-" + NatToString(n)), default, today) == DaysBefore(today, n)
  {
    var text := "-" + NatToString(n);
    PlainDays(n);
    ClassifyDaysAgo(n);
    ParseVia(text, DashDays(n), default, today);
    assert Resolve(DashDays(n), text, today) == DaysBefore(today, n);
  }

  /** The text of `date.isoformat()` reads back as that date, through the explicit-year notation. */
  lemma ParseDateIso(d: Date, default: Option<Date>, today: Date)
    requires Valid(d) && Valid(today) && (default.Some? ==> Valid(default.value))
    ensures ParseDate(Some(IsoFormat(d)), default, today) == Ok(d)
  {
    var text := IsoFormat(d);
    ClassifyIso(d);
    ParseExplicitYear(text, d.year, d.month, d.day, default, today);
  }

  /**
   * Every month and day of one or two digits, zero-padded or not, written
   * `M月D日` is validated (month first) and then dated in the current year.
   */
  lemma ParseDateKanji(m: string, d: string, default: Option<Date>, today: Date)
    requires AllDigits(m) && AllDigits(d) && 1 <= |m| <= 2 && 1 <= |d| <= 2
    requires Valid(today) && (default.Some? ==> Valid(default.value))
    ensures ParseDate(Some(m + "月" + d + "日"), default, today) == InYear(today, DigitsValue(m), DigitsValue(d))
  {
    ClassifyKanjiDate(m, d);
    ParseInYear(m + "月" + d + "日", KanjiDate(DigitsValue(m), DigitsValue(d)), default, today);
  }

  /** The same for `M/D` and `M-D`, `02-17` included. */
  lemma ParseDateShort(m: string, d: string, sep: char, default: Option<Date>, today: Date)
    requires AllDigits(m) && AllDigits(d) && 1 <= |m| <= 2 && 1 <= |d| <= 2 && sep in DateSeparators
    requires Valid(today) && (default.Some? ==> Valid(default.value))
    ensures ParseDate(Some(m + [sep] + d), default, today) == InYear(today, DigitsValue(m), DigitsValue(d))
  {
    ClassifyShortDate(m, d, sep);
    ParseInYear(m + [sep] + d, ShortDate(DigitsValue(m), DigitsValue(d)), default, today);
  }

  /**
   * An explicit `YYYY-M-D` or `YYYY/M/D` is that date when it exists, with
   * no month or day validation first, and `NoSuchDate` (the `ValueError` of
   * `date(...)`) when it does not.
   */
  lemma ParseDateFull(y: string, m: string, d: string, sep1: char, sep2: char, default: Option<Date>, today: Date)
    requires AllDigits(y) && AllDigits(m) && AllDigits(d) && |y| == 4 && 1 <= |m| <= 2 && 1 <= |d| <= 2
    requires sep1 in DateSeparators && sep2 in DateSeparators
    requires Valid(today) && (default.Some? ==> Valid(default.value))
    ensures var date := Date(DigitsValue(y), DigitsValue(m), DigitsValue(d));
      ParseDate(Some(y + [sep1] + m + [sep2] + d), default, today)
        == if Valid(date) then Ok(date) else Err(NoSuchDate)
  {
    ClassifyFullDate(y, m, d, sep1, sep2);
    ParseExplicitYear(y + [sep1] + m + [sep2] + d, DigitsValue(y), DigitsValue(m), DigitsValue(d), default, today);
  }

  /** Four digits are always month and day of the current year, never a year. */
  lemma ParseDateFourDigits(s: string, default: Option<Date>, today: Date)
    requires |s| == 4 && AllDigits(s)
    requires Valid(today) && (default.Some? ==> Valid(default.value))
    ensures ParseDate(Some(s), default, today) == InYear(today, DigitsValue(s[..2]), DigitsValue(s[2..]))
    ensures ParseDate(Some(s), default, today).Ok? ==> ParseDate(Some(s), default, today).value.year == today.year
  {
    ClassifyFourDigits(s);
    ParseInYear(s, FourDigitDate(DigitsValue(s[..2]), DigitsValue(s[2..])), default, today);
  }

  lemma MatchClockDigits(hour: nat, minute: nat)
    requires hour < 100 && minute < 100
    ensures MatchClock(NatToString(hour) + ":" + Padded(minute, 2)) == Some((hour, minute))
    ensures MatchClock(Padded(hour, 2) + ":" + Padded(minute, 2)) == Some((hour, minute))
  {
    TwoDigits(hour);
    TwoDigits(minute);
    NatToStringRoundTrip(hour);
    PaddedRoundTrip(hour, 2);
    PaddedRoundTrip(minute, 2);
    var h := NatToString(hour);
    var mm := Padded(minute, 2);
    var s := h + ":" + mm;
    assert DigitsBefore(s, 0, {':'}) == |h|;
    assert s[..|h|] == h && s[|h| + 1..] == mm;
    var t := Padded(hour, 2) + ":" + mm;
    assert DigitsBefore(t, 0, {':'}) == 2;
    assert t[..2] == Padded(hour, 2) && t[3..] == mm;
  }

  /**
   * `h:mm` and `hh:mm` with a one- or two-digit hour and a two-digit minute
   * read back as that hour and minute when they are a clock time, and raise
   * the range error, not the format error, when they are not.
   */
  lemma ParseTimeDigits(hour: nat, minute: nat)
    requires hour < 100 && minute < 100
    ensures ParseTime(NatToString(hour) + ":" + Padded(minute, 2))
            == if hour <= 23 && minute <= 59 then Ok((hour, minute)) else Err(TimeOutOfRange)
    ensures ParseTime(Padded(hour, 2) + ":" + Padded(minute, 2))
            == if hour <= 23 && minute <= 59 then Ok((hour, minute)) else Err(TimeOutOfRange)
  {
    TwoDigits(hour);
    TwoDigits(minute);
    StripNothing(NatToString(hour) + ":" + Padded(minute, 2));
    StripNothing(Padded(hour, 2) + ":" + Padded(minute, 2));
    MatchClockDigits(hour, minute);
  }

  /** A one-digit minute is the wrong shape, not a value out of range. */
  lemma ParseTimeShortMinute(hour: nat, minute: nat)
    requires hour < 100 && minute < 10
    ensures ParseTime(NatToString(hour) + ":" + NatToString(minute)) == Err(NotHourMinute)
  {
    var s := NatToString(hour) + ":" + NatToString(minute);
    assert |NatToString(minute)| == 1 by {
      assert Pow10(1) == 10;
      NatToStringLength(minute, 1);
    }
    StripNothing(s);
    assert !ClockShape(s) by {
      assert s[|s| - 2] == ':';
      assert !IsDigit(s[|s| - 2..][0]);
    }
  }

  /** A three-digit hour is the wrong shape too. */
  lemma ParseTimeLongHour(hour: nat, minute: nat)
    requires 100 <= hour < 1000 && minute < 100
    ensures ParseTime(NatToString(hour) + ":" + Padded(minute, 2)) == Err(NotHourMinute)
  {
    TwoDigits(minute);
    assert |NatToString(hour)| == 3 by {
      assert Pow10(3) == 1000;
      NatToStringLength(hour, 3);
      if |NatToString(hour)| <= 2 {
        NatToStringRoundTrip(hour);
        DigitsBelow(NatToString(hour));
      }
    }
    var s := NatToString(hour) + ":" + Padded(minute, 2);
    StripNothing(s);
    assert DigitsBefore(s, 0, {':'}) == 0;
  }

  /** A digit string of at most two digits has a value below 100. */
  lemma DigitsBelow(s: string)
    requires AllDigits(s) && |s| <= 2
    ensures DigitsValue(s) < 100
  {
    if |s| == 2 {
      assert DigitsValue(s[..1]) < 10 by {
        assert s[..1][..0] == [];
      }
    } else if |s| == 1 {
      assert s[..0] == [];
    }
  }
}
