/**
 * The Oura API v2 client of src/oura_client.py with HTTP abstracted: the
 * bounded retry loop of `_request` over a transport oracle, the first-item
 * getters, indexing of records by day, the per-day choice of sleep periods
 * (main sleep preferred), and the period aggregation behind the weekly and
 * monthly summaries.
 *
 * Days are `date.toordinal()` numbers; the API's `start_date` / `end_date`
 * query parameters and the `date` keys of the summaries are the ISO 8601
 * calendar-date texts of those days.
 */
module OuraClient {
  import opened Common
  import opened Records

  // ---------------------------------------------------------------------
  // _request (src/oura_client.py:32-51)
  // ---------------------------------------------------------------------

  /** What one `requests.get` attempt gives: a response, or a `RequestException`. */
  datatype Outcome<T> = Response(status: int, body: T) | TransportError

  /**
   * How `_request` ends: the decoded body; the `RequestException` re-raised on
   * the last attempt (`HTTPError` from `raise_for_status` or the transport's
   * own); or the implicit `None` when `max_retries <= 0` makes no attempt.
   */
  datatype Fetch<T> = Fetched(body: T) | Raised(last: Outcome<T>) | NoAttempt

  const RetryStatusCodes: set<int> := {429, 500, 502, 503, 504}

  /** The statuses `raise_for_status` raises `HTTPError` for. */
  predicate IsHttpError(status: int) {
    400 <= status < 600
  }

  /** An attempt that `_request` returns the body of. */
  predicate Succeeds<T>(o: Outcome<T>) {
    o.Response? && !IsHttpError(o.status)
  }

  /**
   * `_request`: attempt `k` (from 1) gets `transport(k - 1)`. A retryable
   * status before the last attempt retries; otherwise `raise_for_status` runs
   * inside the `try`, so an HTTP error is a `RequestException` too and is
   * retried before the last attempt and re-raised on it.
   */
  method Request<T>(maxRetries: int, transport: nat -> Outcome<T>) returns (r: Fetch<T>, calls: nat)
    ensures maxRetries <= 0 ==> r == NoAttempt && calls == 0
    ensures maxRetries > 0 ==> 1 <= calls <= maxRetries && !r.NoAttempt?
    ensures forall i :: 0 <= i < calls - 1 ==> !Succeeds(transport(i))
    ensures r.Fetched? <==> calls > 0 && Succeeds(transport(calls - 1))
    ensures r.Fetched? ==> r.body == transport(calls - 1).body
    ensures r.Raised? ==> calls == maxRetries && r.last == transport(calls - 1)
  {
    var attempt := 1;
    calls := 0;
    while attempt <= maxRetries
      invariant 1 <= attempt && calls == attempt - 1
      invariant maxRetries >= 1 ==> attempt <= maxRetries
      invariant maxRetries < 1 ==> attempt == 1
      invariant forall i :: 0 <= i < calls ==> !Succeeds(transport(i))
      decreases maxRetries - attempt
    {
      var o := transport(attempt - 1);
      calls := calls + 1;
      if o.TransportError? {
        if attempt < maxRetries {
          attempt := attempt + 1;
          continue;
        }
        return Raised(o), calls;
      }
      if o.status in RetryStatusCodes && attempt < maxRetries {
        attempt := attempt + 1;
        continue;
      }
      if IsHttpError(o.status) {
        if attempt < maxRetries {
          attempt := attempt + 1;
          continue;
        }
        return Raised(o), calls;
      }
      return Fetched(o.body), calls;
    }
    r := NoAttempt;
  }

  /** Every retryable status is also an HTTP error, so it is never returned as a success. */
  lemma RetryableStatusesAreErrors(status: int)
    requires status in RetryStatusCodes
    ensures IsHttpError(status)
  {
  }

  // ---------------------------------------------------------------------
  // First-item getters and indexing (src/oura_client.py:58-108,161-189)
  // ---------------------------------------------------------------------

  /**
   * `get_sleep` / `get_readiness` / `get_activity`: the first record of the
   * `data` array, `None` when it is empty.
   */
  function FirstRecord(items: seq<DailyRecord>): (r: Option<DailyRecord>)
    ensures r.None? <==> items == []
    ensures r.Some? ==> r.value == items[0]
  {
    if items == [] then None else Some(items[0])
  }

  /**
   * `{item["day"]: item for item in items if "day" in item}`: items without
   * a day are skipped and a later item replaces an earlier one of the same day.
   */
  function IndexByDay(items: seq<DailyRecord>): (m: map<Day, DailyRecord>)
    ensures forall d :: d in m ==> m[d].day == Some(d)
    decreases |items|
  {
    if items == [] then map[]
    else
      var m := IndexByDay(items[..|items| - 1]);
      var last := items[|items| - 1];
      if last.day.Some? then m[last.day.value := last] else m
  }

  /**
   * The index holds exactly the days some item has, and each day maps to the
   * last item of that day.
   */
  lemma {:induction false} IndexByDayLastWins(items: seq<DailyRecord>, d: Day)
    ensures d in IndexByDay(items) <==> exists i :: 0 <= i < |items| && items[i].day == Some(d)
    ensures d in IndexByDay(items) ==>
      exists i :: 0 <= i < |items| && items[i].day == Some(d) && IndexByDay(items)[d] == items[i]
                  && forall j :: i < j < |items| ==> items[j].day != Some(d)
    decreases |items|
  {
    if items != [] {
      var n := |items| - 1;
      var init := items[..n];
      IndexByDayLastWins(init, d);
      assert forall i :: 0 <= i < n ==> init[i] == items[i];
      if items[n].day == Some(d) {
        assert IndexByDay(items)[d] == items[n];
      } else if d in IndexByDay(items) {
        var i :| 0 <= i < n && init[i].day == Some(d) && IndexByDay(init)[d] == init[i]
                 && forall j :: i < j < n ==> init[j].day != Some(d);
        assert items[i].day == Some(d) && IndexByDay(items)[d] == items[i];
      }
    }
  }

  // ---------------------------------------------------------------------
  // get_sleep_details_range (src/oura_client.py:72-93)
  // ---------------------------------------------------------------------

  /** The dictionary the loop of `get_sleep_details_range` has built after `items`. */
  function PeriodsByDay(items: seq<SleepPeriod>): (m: map<Day, SleepPeriod>)
    ensures forall d :: d in m ==> m[d].day == Some(d)
    decreases |items|
  {
    if items == [] then map[]
    else
      var m := PeriodsByDay(items[..|items| - 1]);
      var item := items[|items| - 1];
      if item.day.None? then m
      else if item.day.value !in m || IsLongSleep(item) then m[item.day.value := item]
      else m
  }

  /** The loop of `get_sleep_details_range` over the fetched sleep periods. */
  method SleepDetailsRange(items: seq<SleepPeriod>) returns (result: map<Day, SleepPeriod>)
    ensures result == PeriodsByDay(items)
  {
    result := map[];
    for k := 0 to |items|
      invariant result == PeriodsByDay(items[..k])
    {
      assert items[..k + 1][..k] == items[..k];
      var item := items[k];
      if item.day.None? {
        continue;
      }
      var day := item.day.value;
      if day !in result || IsLongSleep(item) {
        result := result[day := item];
      }
    }
    assert items[..|items|] == items;
  }

  /** Some period of day `d` is a main sleep. */
  ghost predicate HasLongSleepOn(items: seq<SleepPeriod>, d: Day) {
    exists i :: 0 <= i < |items| && items[i].day == Some(d) && IsLongSleep(items[i])
  }

  /**
   * Per day: the last main sleep of that day when there is one, otherwise
   * the first period of that day; days without periods are absent.
   */
  /** The days of the dictionary are exactly the days some period has. */
  lemma {:induction false} PeriodsByDayDays(items: seq<SleepPeriod>, d: Day)
    ensures d in PeriodsByDay(items) <==> exists i :: 0 <= i < |items| && items[i].day == Some(d)
    decreases |items|
  {
    if items != [] {
      var n := |items| - 1;
      PeriodsByDayDays(items[..n], d);
      assert forall i :: 0 <= i < n ==> items[..n][i] == items[i];
    }
  }

  lemma {:induction false} PeriodsByDayChoice(items: seq<SleepPeriod>, d: Day)
    ensures d in PeriodsByDay(items) <==> exists i :: 0 <= i < |items| && items[i].day == Some(d)
    ensures d in PeriodsByDay(items) && HasLongSleepOn(items, d) ==>
      exists i :: 0 <= i < |items| && items[i].day == Some(d) && IsLongSleep(items[i])
                  && PeriodsByDay(items)[d] == items[i]
                  && forall j :: i < j < |items| ==> !(items[j].day == Some(d) && IsLongSleep(items[j]))
    ensures d in PeriodsByDay(items) && !HasLongSleepOn(items, d) ==>
      exists i :: 0 <= i < |items| && items[i].day == Some(d) && PeriodsByDay(items)[d] == items[i]
                  && forall j :: 0 <= j < i ==> items[j].day != Some(d)
    decreases |items|
  {
    if items != [] {
      var n := |items| - 1;
      var init := items[..n];
      var item := items[n];
      PeriodsByDayDays(items, d);
      PeriodsByDayDays(init, d);
      PeriodsByDayChoice(init, d);
      assert forall i :: 0 <= i < n ==> init[i] == items[i];
      var m := PeriodsByDay(init);
      if item.day == Some(d) && (d !in m || IsLongSleep(item)) {
        assert PeriodsByDay(items)[d] == item;
        if !IsLongSleep(item) {
          assert forall j :: 0 <= j < n ==> items[j].day != Some(d);
          if HasLongSleepOn(items, d) {
            var i :| 0 <= i < |items| && items[i].day == Some(d) && IsLongSleep(items[i]);
            assert false;
          }
        }
      } else {
        assert (d in PeriodsByDay(items) <==> d in m) && (d in m ==> PeriodsByDay(items)[d] == m[d]);
        if d in m {
          if HasLongSleepOn(items, d) {
            if !HasLongSleepOn(init, d) {
              var i :| 0 <= i < |items| && items[i].day == Some(d) && IsLongSleep(items[i]);
              assert false;
            }
          } else {
            assert !HasLongSleepOn(init, d);
          }
        }
      }
    }
  }

  // ---------------------------------------------------------------------
  // get_sleep_details (src/oura_client.py:110-159)
  // ---------------------------------------------------------------------

  /**
   * `extract_sleep_date`: the period's `day`; else the date of `bedtime_end`,
   * else that of `end_datetime`, skipping a timestamp that is empty or does
   * not parse.
   */
  function DerivedDate(p: SleepPeriod): (r: Option<Day>)
    ensures p.day.Some? ==> r == p.day
  {
    if p.day.Some? then p.day
    else if TruthyTime(p.bedtimeEnd) && p.bedtimeEnd.value.date.Some? then p.bedtimeEnd.value.date
    else if TruthyTime(p.endDatetime) && p.endDatetime.value.date.Some? then p.endDatetime.value.date
    else None
  }

  /** The index of the first item satisfying `p`. */
  function FirstWhere(items: seq<SleepPeriod>, p: SleepPeriod -> bool): (r: Option<nat>)
    ensures r.Some? ==> r.value < |items| && p(items[r.value]) && forall j :: 0 <= j < r.value ==> !p(items[j])
    ensures r.None? ==> forall j :: 0 <= j < |items| ==> !p(items[j])
    decreases |items|
  {
    if items == [] then None
    else if p(items[0]) then Some(0)
    else
      match FirstWhere(items[1..], p)
      case None => None
      case Some(k) => Some(k + 1)
  }

  function At(items: seq<SleepPeriod>, k: Option<nat>): Option<SleepPeriod> {
    if k.Some? && k.value < |items| then Some(items[k.value]) else None
  }

  /**
   * The selection of `get_sleep_details` among the periods fetched for
   * `target`: the first main sleep dated `target`; else the first main sleep;
   * else the first period dated `target`; else the first period.
   */
  function SleepDetailFor(items: seq<SleepPeriod>, target: Day): (r: Option<SleepPeriod>)
    ensures r.None? <==> items == []
    ensures r.Some? ==> r.value in items
  {
    if items == [] then None
    else
      var longOnDay := FirstWhere(items, p => IsLongSleep(p) && DerivedDate(p) == Some(target));
      var long := FirstWhere(items, p => IsLongSleep(p));
      var onDay := FirstWhere(items, p => DerivedDate(p) == Some(target));
      if longOnDay.Some? then At(items, longOnDay)
      else if long.Some? then At(items, long)
      else if onDay.Some? then At(items, onDay)
      else Some(items[0])
  }

  /** The four-step preference of `get_sleep_details`, and `None` exactly for an empty list. */
  lemma SleepDetailSelection(items: seq<SleepPeriod>, target: Day)
    ensures SleepDetailFor(items, target).None? <==> items == []
    ensures SleepDetailFor(items, target).Some? ==> SleepDetailFor(items, target).value in items
    ensures (exists i :: 0 <= i < |items| && IsLongSleep(items[i]) && DerivedDate(items[i]) == Some(target))
      ==> exists i :: 0 <= i < |items| && SleepDetailFor(items, target) == Some(items[i])
                      && IsLongSleep(items[i]) && DerivedDate(items[i]) == Some(target)
                      && forall j :: 0 <= j < i ==> !(IsLongSleep(items[j]) && DerivedDate(items[j]) == Some(target))
    ensures (forall i :: 0 <= i < |items| ==> !(IsLongSleep(items[i]) && DerivedDate(items[i]) == Some(target)))
            && (exists i :: 0 <= i < |items| && IsLongSleep(items[i]))
      ==> exists i :: 0 <= i < |items| && SleepDetailFor(items, target) == Some(items[i])
                      && IsLongSleep(items[i]) && forall j :: 0 <= j < i ==> !IsLongSleep(items[j])
    ensures (forall i :: 0 <= i < |items| ==> !IsLongSleep(items[i]))
            && (exists i :: 0 <= i < |items| && DerivedDate(items[i]) == Some(target))
      ==> exists i :: 0 <= i < |items| && SleepDetailFor(items, target) == Some(items[i])
                      && DerivedDate(items[i]) == Some(target)
                      && forall j :: 0 <= j < i ==> DerivedDate(items[j]) != Some(target)
    ensures items != [] && (forall i :: 0 <= i < |items| ==> !IsLongSleep(items[i]) && DerivedDate(items[i]) != Some(target))
      ==> SleepDetailFor(items, target) == Some(items[0])
  {
    if items != [] {
      var longOnDay := FirstWhere(items, p => IsLongSleep(p) && DerivedDate(p) == Some(target));
      var long := FirstWhere(items, p => IsLongSleep(p));
      var onDay := FirstWhere(items, p => DerivedDate(p) == Some(target));
      if longOnDay.Some? {
        assert items[longOnDay.value] in items;
      } else if long.Some? {
        assert items[long.value] in items;
      } else if onDay.Some? {
        assert items[onDay.value] in items;
      }
    }
  }

  // ---------------------------------------------------------------------
  // _build_period_data (src/oura_client.py:242-297)
  // ---------------------------------------------------------------------

  /** One entry of `daily_data`. */
  datatype DayRow = DayRow(date: Day, sleepScore: Option<int>, readinessScore: Option<int>,
                           activityScore: Option<int>, steps: Option<int>)

  datatype PeriodData = PeriodData(start: Day, end: Day, daily: seq<DayRow>,
                                   sleepScores: seq<int>, readinessScores: seq<int>,
                                   activityScores: seq<int>, stepsList: seq<int>)

  /** `record.get(key) if record else None` for the record of `day` in an index. */
  function ScoreOn(index: map<Day, DailyRecord>, day: Day): Option<int> {
    if day in index then index[day].score else None
  }

  function StepsOn(index: map<Day, DailyRecord>, day: Day): Option<int> {
    if day in index then index[day].steps else None
  }

  /** The row of `day`: a `None` wherever the day has no record. */
  function RowFor(day: Day, sleep: map<Day, DailyRecord>, readiness: map<Day, DailyRecord>,
                  activity: map<Day, DailyRecord>): DayRow
  {
    DayRow(day, ScoreOn(sleep, day), ScoreOn(readiness, day), ScoreOn(activity, day), StepsOn(activity, day))
  }

  /** Which value of a day's record a list collects. */
  datatype Field = Score | Steps

  function ValueOn(index: map<Day, DailyRecord>, field: Field, day: Day): Option<int> {
    match field
    case Score => ScoreOn(index, day)
    case Steps => StepsOn(index, day)
  }

  /** The truthy values of `field` over the `n` days from `start`, in date order. */
  function TruthyOver(index: map<Day, DailyRecord>, field: Field, start: Day, n: nat): seq<int>
    decreases n
  {
    if n == 0 then []
    else
      var v := ValueOn(index, field, start + n - 1);
      TruthyOver(index, field, start, n - 1) + (if TruthyInt(v) then [v.value] else [])
  }

  /** A value is in the list exactly when some day of the window has it, truthy. */
  lemma {:induction false} TruthyOverMembers(index: map<Day, DailyRecord>, field: Field, start: Day, n: nat, x: int)
    ensures x in TruthyOver(index, field, start, n) <==>
      exists day :: start <= day < start + n && TruthyInt(ValueOn(index, field, day))
                    && ValueOn(index, field, day).value == x
    ensures |TruthyOver(index, field, start, n)| <= n
    ensures forall y :: y in TruthyOver(index, field, start, n) ==> y != 0
    decreases n
  {
    if n > 0 {
      TruthyOverMembers(index, field, start, n - 1, x);
      var prev := TruthyOver(index, field, start, n - 1);
      forall y | y in TruthyOver(index, field, start, n) ensures y != 0 {
        TruthyOverMembers(index, field, start, n - 1, y);
      }
      var last := start + n - 1;
      var v := ValueOn(index, field, last);
      if TruthyInt(v) && v.value == x {
        assert x in TruthyOver(index, field, start, n);
      }
      if x in TruthyOver(index, field, start, n) && x !in prev {
        assert TruthyInt(v) && v.value == x;
      }
    }
  }

  /**
   * `_build_period_data` on the three fetched item lists: one row per day
   * from `start` through `end`, and the truthy scores and step counts of the
   * window in date order.
   */
  method BuildPeriodData(sleepItems: seq<DailyRecord>, readinessItems: seq<DailyRecord>,
                         activityItems: seq<DailyRecord>, start: Day, end: Day)
    returns (p: PeriodData)
    ensures p.start == start && p.end == end
    ensures |p.daily| == if end >= start then end - start + 1 else 0
    ensures forall i :: 0 <= i < |p.daily| ==>
      p.daily[i] == RowFor(start + i, IndexByDay(sleepItems), IndexByDay(readinessItems), IndexByDay(activityItems))
    ensures p.sleepScores == TruthyOver(IndexByDay(sleepItems), Score, start, |p.daily|)
    ensures p.readinessScores == TruthyOver(IndexByDay(readinessItems), Score, start, |p.daily|)
    ensures p.activityScores == TruthyOver(IndexByDay(activityItems), Score, start, |p.daily|)
    ensures p.stepsList == TruthyOver(IndexByDay(activityItems), Steps, start, |p.daily|)
  {
    var sleepByDay := IndexByDay(sleepItems);
    var readinessByDay := IndexByDay(readinessItems);
    var activityByDay := IndexByDay(activityItems);
    var sleepScores, readinessScores, activityScores, stepsList := [], [], [], [];
    var daily := [];
    var current := start;
    while current <= end
      invariant current >= start && (end >= start ==> current <= end + 1)
      invariant end < start ==> current == start
      invariant |daily| == current - start
      invariant forall i :: 0 <= i < |daily| ==> daily[i] == RowFor(start + i, sleepByDay, readinessByDay, activityByDay)
      invariant sleepScores == TruthyOver(sleepByDay, Score, start, |daily|)
      invariant readinessScores == TruthyOver(readinessByDay, Score, start, |daily|)
      invariant activityScores == TruthyOver(activityByDay, Score, start, |daily|)
      invariant stepsList == TruthyOver(activityByDay, Steps, start, |daily|)
      decreases end - current
    {
      ghost var n := |daily|;
      assert start + (n + 1) - 1 == current;
      var sleep := if current in sleepByDay then Some(sleepByDay[current]) else None;
      var readiness := if current in readinessByDay then Some(readinessByDay[current]) else None;
      var activity := if current in activityByDay then Some(activityByDay[current]) else None;
      daily := daily + [DayRow(current,
                               if sleep.Some? then sleep.value.score else None,
                               if readiness.Some? then readiness.value.score else None,
                               if activity.Some? then activity.value.score else None,
                               if activity.Some? then activity.value.steps else None)];
      assert daily[n] == RowFor(current, sleepByDay, readinessByDay, activityByDay);
      if sleep.Some? && TruthyInt(sleep.value.score) {
        sleepScores := sleepScores + [sleep.value.score.value];
      }
      assert sleepScores == TruthyOver(sleepByDay, Score, start, n + 1);
      if readiness.Some? && TruthyInt(readiness.value.score) {
        readinessScores := readinessScores + [readiness.value.score.value];
      }
      assert readinessScores == TruthyOver(readinessByDay, Score, start, n + 1);
      if activity.Some? {
        if TruthyInt(activity.value.score) {
          activityScores := activityScores + [activity.value.score.value];
        }
        if TruthyInt(activity.value.steps) {
          stepsList := stepsList + [activity.value.steps.value];
        }
      }
      assert activityScores == TruthyOver(activityByDay, Score, start, n + 1);
      assert stepsList == TruthyOver(activityByDay, Steps, start, n + 1);
      current := current + 1;
    }
    p := PeriodData(start, end, daily, sleepScores, readinessScores, activityScores, stepsList);
  }

  // ---------------------------------------------------------------------
  // get_weekly_data / get_monthly_data (src/oura_client.py:299-380)
  // ---------------------------------------------------------------------

  function Sum(s: seq<int>): int
    decreases |s|
  {
    if s == [] then 0 else Sum(s[..|s| - 1]) + s[|s| - 1]
  }

  /** An average kept as its exact fraction `(sum, count)`; `None` for an empty list. */
  function Average(s: seq<int>): (r: Option<(int, nat)>)
    ensures r.None? <==> s == []
    ensures r.Some? ==> r.value.1 == |s| > 0 && r.value.0 == Sum(s)
  {
    if s == [] then None else Some((Sum(s), |s|))
  }

  datatype Averages = Averages(sleep: Option<(int, nat)>, readiness: Option<(int, nat)>,
                               activity: Option<(int, nat)>, steps: Option<(int, nat)>)

  datatype WeeklyData = WeeklyData(start: Day, end: Day, daily: seq<DayRow>, averages: Averages,
                                   totalSteps: int)

  /** `get_weekly_data(end_date)`: the seven days ending on `end`. */
  method WeeklyDataFor(sleepItems: seq<DailyRecord>, readinessItems: seq<DailyRecord>,
                       activityItems: seq<DailyRecord>, end: Day)
    returns (w: WeeklyData)
    ensures w.start == end - 6 && w.end == end && |w.daily| == 7
    ensures forall i :: 0 <= i < 7 ==>
      w.daily[i] == RowFor(end - 6 + i, IndexByDay(sleepItems), IndexByDay(readinessItems), IndexByDay(activityItems))
    ensures w.averages.sleep == Average(TruthyOver(IndexByDay(sleepItems), Score, end - 6, 7))
    ensures w.averages.readiness == Average(TruthyOver(IndexByDay(readinessItems), Score, end - 6, 7))
    ensures w.averages.activity == Average(TruthyOver(IndexByDay(activityItems), Score, end - 6, 7))
    ensures w.averages.steps == Average(TruthyOver(IndexByDay(activityItems), Steps, end - 6, 7))
    ensures w.totalSteps == Sum(TruthyOver(IndexByDay(activityItems), Steps, end - 6, 7))
  {
    var p := BuildPeriodData(sleepItems, readinessItems, activityItems, end - 6, end);
    w := WeeklyData(p.start, p.end, p.daily,
                    Averages(Average(p.sleepScores), Average(p.readinessScores),
                             Average(p.activityScores), Average(p.stepsList)),
                    if p.stepsList != [] then Sum(p.stepsList) else 0);
  }

  /** The smallest element. */
  function Min(s: seq<int>): (m: int)
    requires s != []
    ensures m in s && forall x :: x in s ==> m <= x
    decreases |s|
  {
    if |s| == 1 then s[0]
    else
      var rest := Min(s[1..]);
      assert forall x :: x in s ==> x == s[0] || x in s[1..];
      if s[0] <= rest then s[0] else rest
  }

  /** The largest element. */
  function Max(s: seq<int>): (m: int)
    requires s != []
    ensures m in s && forall x :: x in s ==> x <= m
    decreases |s|
  {
    if |s| == 1 then s[0]
    else
      var rest := Max(s[1..]);
      assert forall x :: x in s ==> x == s[0] || x in s[1..];
      if s[0] >= rest then s[0] else rest
  }

  datatype Stats = Stats(avg: Option<(int, nat)>, min: Option<int>, max: Option<int>, count: nat)

  /** `calc_stats`. */
  function CalcStats(scores: seq<int>): (st: Stats)
    ensures scores == [] ==> st == Stats(None, None, None, 0)
    ensures scores != [] ==>
      && st.count == |scores| && st.avg == Some((Sum(scores), |scores|))
      && st.min.Some? && st.min.value in scores && (forall x :: x in scores ==> st.min.value <= x)
      && st.max.Some? && st.max.value in scores && (forall x :: x in scores ==> x <= st.max.value)
  {
    if scores == [] then Stats(None, None, None, 0)
    else Stats(Some((Sum(scores), |scores|)), Some(Min(scores)), Some(Max(scores)), |scores|)
  }

  /** Every element lies between the bounds, so the sum lies between `count` times each. */
  lemma {:induction false} SumBounds(s: seq<int>, lo: int, hi: int)
    requires forall x :: x in s ==> lo <= x <= hi
    ensures lo * |s| <= Sum(s) <= hi * |s|
    decreases |s|
  {
    if s != [] {
      var init := s[..|s| - 1];
      assert forall x :: x in init ==> x in s;
      assert s[|s| - 1] in s;
      SumBounds(init, lo, hi);
      var k := |init|;
      assert lo * |s| == lo * k + lo && hi * |s| == hi * k + hi by {
        assert |s| == k + 1;
      }
    }
  }

  /** min <= avg <= max, stated on the exact fraction: min * count <= sum <= max * count. */
  lemma CalcStatsOrdered(scores: seq<int>)
    requires scores != []
    ensures var st := CalcStats(scores);
      st.min.value * st.count <= st.avg.value.0 <= st.max.value * st.count
      && st.min.value <= st.max.value
  {
    SumBounds(scores, Min(scores), Max(scores));
  }

  datatype AllStats = AllStats(sleep: Stats, readiness: Stats, activity: Stats, steps: Stats)

  datatype MonthlyData = MonthlyData(start: Day, end: Day, days: int, daily: seq<DayRow>,
                                     stats: AllStats, totalSteps: int)

  /** `get_monthly_data(end_date, days)`: the `days` days ending on `end` (none when `days <= 0`). */
  method MonthlyDataFor(sleepItems: seq<DailyRecord>, readinessItems: seq<DailyRecord>,
                        activityItems: seq<DailyRecord>, end: Day, days: int)
    returns (m: MonthlyData)
    ensures m.start == end - (days - 1) && m.end == end && m.days == days
    ensures |m.daily| == if days > 0 then days else 0
    ensures forall i :: 0 <= i < |m.daily| ==>
      m.daily[i] == RowFor(m.start + i, IndexByDay(sleepItems), IndexByDay(readinessItems), IndexByDay(activityItems))
    ensures m.totalSteps == Sum(TruthyOver(IndexByDay(activityItems), Steps, m.start, |m.daily|))
    ensures m.stats.sleep == CalcStats(TruthyOver(IndexByDay(sleepItems), Score, m.start, |m.daily|))
    ensures m.stats.readiness == CalcStats(TruthyOver(IndexByDay(readinessItems), Score, m.start, |m.daily|))
    ensures m.stats.activity == CalcStats(TruthyOver(IndexByDay(activityItems), Score, m.start, |m.daily|))
    ensures m.stats.steps == CalcStats(TruthyOver(IndexByDay(activityItems), Steps, m.start, |m.daily|))
  {
    var start := end - (days - 1);
    var p := BuildPeriodData(sleepItems, readinessItems, activityItems, start, end);
    m := MonthlyData(p.start, p.end, days, p.daily,
                     AllStats(CalcStats(p.sleepScores), CalcStats(p.readinessScores),
                              CalcStats(p.activityScores), CalcStats(p.stepsList)),
                     if p.stepsList != [] then Sum(p.stepsList) else 0);
  }
}
