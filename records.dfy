/**
 * The Oura API v2 records the bot reads, keeping the keys its code looks at.
 * A key missing from a record is `None`; a key present with JSON null is not
 * represented (`dict.get` would return `None` for it, not the default, and
 * the formatter raises on it). A present record is never an empty
 * dictionary (every record the API returns carries its `day`), so a record
 * that is there is truthy. Days are `date.toordinal()` numbers: the API's
 * day strings are ISO 8601 calendar dates (YYYY-MM-DD), one per ordinal.
 */
module Records {
  import opened Common

  /** A day as its `date.toordinal()` number. */
  type Day = int

  /** The `contributors` object of a readiness record. */
  datatype Contributors = Contributors(recoveryIndex: Option<int>, restingHeartRate: Option<int>,
                                       hrvBalance: Option<int>)

  /**
   * A daily summary record of `daily_sleep`, `daily_readiness` or
   * `daily_activity`; each endpoint fills the keys it has.
   */
  datatype DailyRecord = DailyRecord(day: Option<Day>, score: Option<int>, steps: Option<int>,
                                     activeCalories: Option<int>, contributors: Contributors)

  /**
   * An ISO 8601 timestamp string of a sleep period, with what the standard
   * library makes of it: the `HH:MM` text `format_time_from_iso` shows (its
   * "不明" when parsing fails) and the calendar day `datetime.fromisoformat`
   * gives (`None` when parsing fails).
   */
  datatype Timestamp = Timestamp(text: string, clock: string, date: Option<Day>)

  /** A record of the `sleep` endpoint (one sleep period). */
  datatype SleepPeriod = SleepPeriod(
    day: Option<Day>,
    kind: Option<string>,                 // the `type` key: "long_sleep", "late_nap", ...
    bedtimeStart: Option<Timestamp>,
    bedtimeEnd: Option<Timestamp>,
    endDatetime: Option<Timestamp>,
    totalSleepDuration: Option<int>,
    deepSleepDuration: Option<int>,
    remSleepDuration: Option<int>,
    lowestHeartRate: Option<int>,
    averageHrv: Option<int>)

  /** Python truthiness of an optional timestamp string. */
  predicate TruthyTime(t: Option<Timestamp>) {
    t.Some? && t.value.text != ""
  }

  /** A sleep period of the main night's sleep. */
  predicate IsLongSleep(p: SleepPeriod) {
    p.kind == Some("long_sleep")
  }
}
