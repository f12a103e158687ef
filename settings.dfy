/**
 * The JSON settings store of src/settings.py: one flat document, loaded
 * afresh by every call (a missing or unparsable file reads as the defaults),
 * changed key by key and written back whole, with `updated_at` stamped on
 * every write.
 *
 * The file is the `file` field; `writable` says whether writing it succeeds
 * (a failing write is the `OSError` that `_save` lets escape, reported here
 * as `ok == false` with the file left as it was). The clock reading of the
 * stamp is the `now` argument.
 */
module Settings {
  import opened Common

  type Document = map<string, Value>

  /** The settings file: absent, present but not valid JSON, or a stored document. */
  datatype FileState = Missing | Unreadable | Stored(doc: Document)

  /** `DEFAULT_SETTINGS`. */
  const DefaultSettings: Document := map[
    "steps_goal" := Int(8000),
    "notification_enabled" := Bool(true),
    "updated_at" := Null,
    "bedtime_reminder_enabled" := Bool(false),
    "bedtime_reminder_time" := Str("22:30"),
    "bedtime_reminder_channel_id" := Null,
    "goal_notification_enabled" := Bool(false),
    "goal_notification_channel_id" := Null,
    "goal_achieved_today" := Bool(false),
    "last_goal_check_date" := Null
  ]

  /** `_load`: the stored document, or a copy of the defaults when the file is missing or unreadable. */
  function LoadDocument(f: FileState): (d: Document)
    ensures !f.Stored? ==> d == DefaultSettings
    ensures f.Stored? ==> d == f.doc
  {
    if f.Stored? then f.doc else DefaultSettings
  }

  /** What `_save` writes: the document with `updated_at` set to the stamp. */
  function Stamped(d: Document, now: string): (r: Document)
    ensures r.Keys == d.Keys + {"updated_at"}
    ensures r["updated_at"] == Str(now) && r["updated_at"] != Null
    ensures forall k :: k in d && k != "updated_at" ==> r[k] == d[k]
  {
    d["updated_at" := Str(now)]
  }

  /** The document after `set_bedtime_reminder(enabled, time, channel_id)`, before stamping. */
  function BedtimeUpdate(d: Document, enabled: bool, time: Option<string>, channelId: Option<int>): Document {
    var d1 := d["bedtime_reminder_enabled" := Bool(enabled)];
    var d2 := if TruthyStr(time) then d1["bedtime_reminder_time" := Str(time.value)] else d1;
    if TruthyInt(channelId) then d2["bedtime_reminder_channel_id" := Int(channelId.value)] else d2
  }

  /** The document after `set_goal_notification(enabled, channel_id)`, before stamping. */
  function GoalNotificationUpdate(d: Document, enabled: bool, channelId: Option<int>): Document {
    var d1 := d["goal_notification_enabled" := Bool(enabled)];
    if TruthyInt(channelId) then d1["goal_notification_channel_id" := Int(channelId.value)] else d1
  }

  /** The document after `mark_goal_achieved(achieved, check_date)`, before stamping. */
  function GoalAchievedUpdate(d: Document, achieved: bool, checkDate: Option<string>): Document {
    var d1 := d["goal_achieved_today" := Bool(achieved)];
    if TruthyStr(checkDate) then d1["last_goal_check_date" := Str(checkDate.value)] else d1
  }

  /** `reset_daily_flags` writes only when the stored check date is not `currentDate`. */
  predicate NeedsDailyReset(d: Document, currentDate: string)
    ensures NeedsDailyReset(d, currentDate) <==>
              !("last_goal_check_date" in d && d["last_goal_check_date"] == Str(currentDate))
  {
    Lookup(d, "last_goal_check_date", Null) != Str(currentDate)
  }

  /** The document after a daily reset, before stamping. */
  function DailyReset(d: Document, currentDate: string): (r: Document)
    ensures GoalNotificationOf(r).achievedToday == Bool(false)
    ensures GoalNotificationOf(r).lastCheckDate == Str(currentDate)
    ensures forall k :: k !in {"goal_achieved_today", "last_goal_check_date"} ==>
              Lookup(r, k, Null) == Lookup(d, k, Null) && (k in r <==> k in d)
  {
    d["goal_achieved_today" := Bool(false)]["last_goal_check_date" := Str(currentDate)]
  }

  /** The grouped view of `get_bedtime_reminder`. */
  datatype BedtimeReminder = BedtimeReminder(enabled: Value, time: Value, channelId: Value)

  /** The grouped view of `get_goal_notification`. */
  datatype GoalNotification = GoalNotification(enabled: Value, channelId: Value, achievedToday: Value,
                                               lastCheckDate: Value)

  function BedtimeReminderOf(d: Document): (r: BedtimeReminder)
    ensures "bedtime_reminder_enabled" !in d ==> r.enabled == Bool(false)
    ensures "bedtime_reminder_time" !in d ==> r.time == Str("22:30")
    ensures "bedtime_reminder_channel_id" !in d ==> r.channelId == Null
    ensures "bedtime_reminder_enabled" in d ==> r.enabled == d["bedtime_reminder_enabled"]
    ensures "bedtime_reminder_time" in d ==> r.time == d["bedtime_reminder_time"]
    ensures "bedtime_reminder_channel_id" in d ==> r.channelId == d["bedtime_reminder_channel_id"]
  {
    BedtimeReminder(Lookup(d, "bedtime_reminder_enabled", Bool(false)),
                    Lookup(d, "bedtime_reminder_time", Str("22:30")),
                    Lookup(d, "bedtime_reminder_channel_id", Null))
  }

  function GoalNotificationOf(d: Document): (r: GoalNotification)
    ensures "goal_notification_enabled" !in d ==> r.enabled == Bool(false)
    ensures "goal_achieved_today" !in d ==> r.achievedToday == Bool(false)
    ensures "goal_notification_channel_id" !in d ==> r.channelId == Null
    ensures "last_goal_check_date" !in d ==> r.lastCheckDate == Null
    ensures "goal_notification_enabled" in d ==> r.enabled == d["goal_notification_enabled"]
    ensures "goal_achieved_today" in d ==> r.achievedToday == d["goal_achieved_today"]
    ensures "goal_notification_channel_id" in d ==> r.channelId == d["goal_notification_channel_id"]
    ensures "last_goal_check_date" in d ==> r.lastCheckDate == d["last_goal_check_date"]
  {
    GoalNotification(Lookup(d, "goal_notification_enabled", Bool(false)),
                     Lookup(d, "goal_notification_channel_id", Null),
                     Lookup(d, "goal_achieved_today", Bool(false)),
                     Lookup(d, "last_goal_check_date", Null))
  }

  class SettingsManager {
    var file: FileState
    /** Whether writing the settings file succeeds. */
    const writable: bool

    /** `_load`. */
    function Load(): Document
      reads this
    {
      LoadDocument(file)
    }

    /** `SettingsManager(file_path)`: a missing file is created holding the defaults. */
    constructor(initial: FileState, writable: bool, now: string)
      requires initial.Missing? ==> writable
      ensures this.writable == writable
      ensures initial.Missing? ==> file == Stored(Stamped(DefaultSettings, now))
      ensures !initial.Missing? ==> file == initial
      ensures Load() == if initial.Stored? then initial.doc
                        else if initial.Missing? then Stamped(DefaultSettings, now)
                        else DefaultSettings
    {
      this.writable := writable;
      if initial.Missing? {
        file := Stored(Stamped(DefaultSettings, now));
      } else {
        file := initial;
      }
    }

    /** `_save(d)`: writes `d` stamped with `now`, when the file can be written. */
    method Save(d: Document, now: string) returns (ok: bool)
      modifies this
      ensures ok == writable
      ensures ok ==> file == Stored(Stamped(d, now))
      ensures !ok ==> file == old(file)
    {
      ok := writable;
      if ok {
        file := Stored(Stamped(d, now));
      }
    }

    /** `get(key, default)`. */
    function Get(key: string, default: Value): (v: Value)
      reads this
      ensures key in Load() ==> v == Load()[key]
      ensures key !in Load() ==> v == default
    {
      Lookup(Load(), key, default)
    }

    /** `set(key, value)`: only `key` and `updated_at` change. */
    method Set(key: string, value: Value, now: string) returns (ok: bool)
      modifies this
      ensures ok == writable
      ensures ok ==> file == Stored(Stamped(old(Load())[key := value], now))
      ensures ok ==> Get(key, Null) == (if key == "updated_at" then Str(now) else value)
      ensures ok ==> forall k :: k != key && k != "updated_at" ==>
                       (k in Load() <==> k in old(Load())) && (k in Load() ==> Load()[k] == old(Load())[k])
      ensures !ok ==> file == old(file)
    {
      var data := Load();
      data := data[key := value];
      ok := Save(data, now);
    }

    /** `get_steps_goal`: the stored goal, 8000 when absent. */
    function GetStepsGoal(): (v: Value)
      reads this
      ensures "steps_goal" !in Load() ==> v == Int(8000)
      ensures !file.Stored? ==> v == Int(8000)
    {
      Get("steps_goal", DefaultSettings["steps_goal"])
    }

    /** `set_steps_goal(value)`: read back by `get_steps_goal`. */
    method SetStepsGoal(value: int, now: string) returns (ok: bool)
      modifies this
      ensures ok == writable
      ensures ok ==> GetStepsGoal() == Int(value)
      ensures ok ==> file == Stored(Stamped(old(Load())["steps_goal" := Int(value)], now))
      ensures !ok ==> file == old(file)
    {
      ok := Set("steps_goal", Int(value), now);
    }

    /** `get_all`. */
    function GetAll(): Document
      reads this
    {
      Load()
    }

    /** `reset`: the defaults, freshly stamped. */
    method Reset(now: string) returns (ok: bool)
      modifies this
      ensures ok == writable
      ensures ok ==> file == Stored(Stamped(DefaultSettings, now))
      ensures ok ==> GetStepsGoal() == Int(8000)
      ensures !ok ==> file == old(file)
    {
      ok := Save(DefaultSettings, now);
    }

    /** `get_bedtime_reminder`. */
    function GetBedtimeReminder(): BedtimeReminder
      reads this
    {
      BedtimeReminderOf(Load())
    }

    /** `set_bedtime_reminder(enabled, time, channel_id)`. */
    method SetBedtimeReminder(enabled: bool, time: Option<string>, channelId: Option<int>, now: string)
      returns (ok: bool)
      modifies this
      ensures ok == writable
      ensures ok ==> file == Stored(Stamped(BedtimeUpdate(old(Load()), enabled, time, channelId), now))
      ensures ok ==> GetBedtimeReminder().enabled == Bool(enabled)
      ensures !ok ==> file == old(file)
    {
      var data := Load();
      data := data["bedtime_reminder_enabled" := Bool(enabled)];
      if TruthyStr(time) {
        data := data["bedtime_reminder_time" := Str(time.value)];
      }
      if TruthyInt(channelId) {
        data := data["bedtime_reminder_channel_id" := Int(channelId.value)];
      }
      ok := Save(data, now);
    }

    /** `get_goal_notification`. */
    function GetGoalNotification(): GoalNotification
      reads this
    {
      GoalNotificationOf(Load())
    }

    /** `set_goal_notification(enabled, channel_id)`. */
    method SetGoalNotification(enabled: bool, channelId: Option<int>, now: string) returns (ok: bool)
      modifies this
      ensures ok == writable
      ensures ok ==> file == Stored(Stamped(GoalNotificationUpdate(old(Load()), enabled, channelId), now))
      ensures ok ==> GetGoalNotification().enabled == Bool(enabled)
      ensures !ok ==> file == old(file)
    {
      var data := Load();
      data := data["goal_notification_enabled" := Bool(enabled)];
      if TruthyInt(channelId) {
        data := data["goal_notification_channel_id" := Int(channelId.value)];
      }
      ok := Save(data, now);
    }

    /** `mark_goal_achieved(achieved, check_date)`. */
    method MarkGoalAchieved(achieved: bool, checkDate: Option<string>, now: string) returns (ok: bool)
      modifies this
      ensures ok == writable
      ensures ok ==> file == Stored(Stamped(GoalAchievedUpdate(old(Load()), achieved, checkDate), now))
      ensures ok ==> GetGoalNotification().achievedToday == Bool(achieved)
      ensures !ok ==> file == old(file)
    {
      var data := Load();
      data := data["goal_achieved_today" := Bool(achieved)];
      if TruthyStr(checkDate) {
        data := data["last_goal_check_date" := Str(checkDate.value)];
      }
      ok := Save(data, now);
    }

    /**
     * `reset_daily_flags(current_date)`: on a new date the achievement flag
     * is cleared and the date recorded; on the same date nothing is written.
     */
    method ResetDailyFlags(currentDate: string, now: string) returns (ok: bool)
      modifies this
      ensures NeedsDailyReset(old(Load()), currentDate) ==> ok == writable
      ensures NeedsDailyReset(old(Load()), currentDate) && ok ==>
        file == Stored(Stamped(DailyReset(old(Load()), currentDate), now))
      ensures !NeedsDailyReset(old(Load()), currentDate) ==> ok
      ensures !(NeedsDailyReset(old(Load()), currentDate) && ok) ==> file == old(file)
      ensures ok ==> !NeedsDailyReset(Load(), currentDate)
    {
      var data := Load();
      ok := true;
      if Lookup(data, "last_goal_check_date", Null) != Str(currentDate) {
        data := data["goal_achieved_today" := Bool(false)];
        data := data["last_goal_check_date" := Str(currentDate)];
        ok := Save(data, now);
      }
    }
  }

  // ---------------------------------------------------------------------
  // Properties of the document updates
  // ---------------------------------------------------------------------

  /** A fresh store (missing or unreadable file) reports the default goal of 8000 and disabled features. */
  lemma DefaultsOnFreshStore(f: FileState)
    requires !f.Stored?
    ensures Lookup(LoadDocument(f), "steps_goal", Null) == Int(8000)
    ensures BedtimeReminderOf(LoadDocument(f)) == BedtimeReminder(Bool(false), Str("22:30"), Null)
    ensures GoalNotificationOf(LoadDocument(f)) == GoalNotification(Bool(false), Null, Bool(false), Null)
  {
  }

  /**
   * `set_bedtime_reminder` always writes `enabled`, writes `time` and
   * `channel_id` only when they are truthy, and leaves every other key alone.
   */
  lemma BedtimeUpdateKeys(d: Document, enabled: bool, time: Option<string>, channelId: Option<int>)
    ensures var r := BedtimeUpdate(d, enabled, time, channelId);
      && r["bedtime_reminder_enabled"] == Bool(enabled)
      && (TruthyStr(time) ==> r["bedtime_reminder_time"] == Str(time.value))
      && (!TruthyStr(time) ==> Lookup(r, "bedtime_reminder_time", Null) == Lookup(d, "bedtime_reminder_time", Null))
      && (TruthyInt(channelId) ==> r["bedtime_reminder_channel_id"] == Int(channelId.value))
      && (!TruthyInt(channelId) ==>
            Lookup(r, "bedtime_reminder_channel_id", Null) == Lookup(d, "bedtime_reminder_channel_id", Null))
      && forall k :: k !in {"bedtime_reminder_enabled", "bedtime_reminder_time", "bedtime_reminder_channel_id"}
                     ==> Lookup(r, k, Null) == Lookup(d, k, Null) && (k in r <==> k in d)
  {
  }

  /** `set_goal_notification` writes `enabled`, and `channel_id` only when truthy; nothing else. */
  lemma GoalNotificationUpdateKeys(d: Document, enabled: bool, channelId: Option<int>)
    ensures var r := GoalNotificationUpdate(d, enabled, channelId);
      && r["goal_notification_enabled"] == Bool(enabled)
      && (TruthyInt(channelId) ==> r["goal_notification_channel_id"] == Int(channelId.value))
      && (!TruthyInt(channelId) ==>
            Lookup(r, "goal_notification_channel_id", Null) == Lookup(d, "goal_notification_channel_id", Null))
      && forall k :: k !in {"goal_notification_enabled", "goal_notification_channel_id"}
                     ==> Lookup(r, k, Null) == Lookup(d, k, Null) && (k in r <==> k in d)
  {
  }

  /** `mark_goal_achieved` writes the flag, and the date of the last check only when one is given; nothing else. */
  lemma GoalAchievedUpdateKeys(d: Document, achieved: bool, checkDate: Option<string>)
    ensures var r := GoalAchievedUpdate(d, achieved, checkDate);
      && r["goal_achieved_today"] == Bool(achieved)
      && (TruthyStr(checkDate) ==> r["last_goal_check_date"] == Str(checkDate.value))
      && (!TruthyStr(checkDate) ==>
            Lookup(r, "last_goal_check_date", Null) == Lookup(d, "last_goal_check_date", Null))
      && forall k :: k !in {"goal_achieved_today", "last_goal_check_date"}
                     ==> Lookup(r, k, Null) == Lookup(d, k, Null) && (k in r <==> k in d)
  {
  }

  /**
   * Reading back after `set_bedtime_reminder`: `enabled` is what was set,
   * `time` and `channel_id` are the new values when truthy and the stored
   * ones (or the defaults) otherwise.
   */
  lemma BedtimeSetThenGet(d: Document, enabled: bool, time: Option<string>, channelId: Option<int>)
    ensures var r := BedtimeReminderOf(BedtimeUpdate(d, enabled, time, channelId));
      && r.enabled == Bool(enabled)
      && r.time == (if TruthyStr(time) then Str(time.value) else BedtimeReminderOf(d).time)
      && r.channelId == (if TruthyInt(channelId) then Int(channelId.value) else BedtimeReminderOf(d).channelId)
  {
    BedtimeUpdateKeys(d, enabled, time, channelId);
  }

  /**
   * Reading back after `set_goal_notification`: `enabled` is what was set,
   * `channel_id` the new value when truthy, and the daily flag and check
   * date are untouched.
   */
  lemma GoalNotificationSetThenGet(d: Document, enabled: bool, channelId: Option<int>)
    ensures var r := GoalNotificationOf(GoalNotificationUpdate(d, enabled, channelId));
      && r.enabled == Bool(enabled)
      && r.channelId == (if TruthyInt(channelId) then Int(channelId.value) else GoalNotificationOf(d).channelId)
      && r.achievedToday == GoalNotificationOf(d).achievedToday
      && r.lastCheckDate == GoalNotificationOf(d).lastCheckDate
  {
    GoalNotificationUpdateKeys(d, enabled, channelId);
  }

  /**
   * A daily reset clears the flag and records the date, after which no
   * reset is needed for that date: resetting twice is resetting once, even
   * with the stamp of the first write in between.
   */
  lemma DailyResetIdempotent(d: Document, date: string, now: string)
    ensures var r := DailyReset(d, date);
      && r["goal_achieved_today"] == Bool(false)
      && r["last_goal_check_date"] == Str(date)
      && !NeedsDailyReset(r, date)
      && !NeedsDailyReset(Stamped(r, now), date)
      && DailyReset(r, date) == r
  {
  }
}
