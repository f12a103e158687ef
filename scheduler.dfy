/**
 * One run of the once-a-minute loop of src/cogs/scheduler.py: clear the
 * daily goal flag when the date has changed, send the bedtime reminder at
 * its minute, and announce the steps goal once a day.
 *
 * The surroundings the bot provides are parameters: the JST clock reading,
 * what `get_activity(today)` gives, whether `bot.get_channel(id)` finds a
 * channel, Python's `int()` on text, and the clock readings the two
 * settings writes stamp. A message handed to `channel.send` is an element
 * of the result, whether or not the send then raises (a failed send is only
 * logged). Each of the three sub-checks sits in its own `try`, so an
 * exception in one (an unwritable settings file, a reminder time that is
 * not text, a channel id `int()` rejects, a failed API call) ends that
 * sub-check only.
 */
module Scheduler {
  import opened Common
  import Numbers
  import Dates
  import Records
  import BotUtils
  import opened Settings

  /** The JST wall clock at the start of a tick. */
  datatype Clock = Clock(date: Dates.Date, hour: int, minute: int)

  /** What `get_oura_client().get_activity(today)` gives: an exception, or the record if there is one. */
  datatype ActivityFetch = FetchFailed | Fetched(record: Option<Records.DailyRecord>)

  /** A message handed to `channel.send` of the channel with this id. */
  datatype Message = Message(channel: int, text: string)

  const BedtimeText: string := ":crescent_moon: そろそろ就寝時間です。\n画面から目を離して、ゆっくり休みましょう。"

  /** The reminder time used when the stored one is text `parse_time_str` rejects. */
  const FallbackTime: (nat, nat) := (22, 30)

  /** The goal announcement, with both numbers grouped by thousands. */
  function GoalText(steps: int, goal: int): string {
    ":tada: 今日の歩数目標を達成しました！\n**" + Numbers.Grouped(steps) + " / " + Numbers.Grouped(goal)
    + " 歩** おつかれさまです！"
  }

  /** `int(v)` of a setting, `None` when it raises (`int(None)`, or text `parseInt` rejects). */
  function IntOf(v: Value, parseInt: string -> Option<int>): Option<int> {
    match v
    case Null => None
    case Bool(b) => Some(if b then 1 else 0)
    case Int(i) => Some(i)
    case Str(s) => parseInt(s)
  }

  /** The steps goal as a number `steps >= goal` compares with, `None` when the comparison raises. */
  function GoalNumber(v: Value): Option<int> {
    match v
    case Bool(b) => Some(if b then 1 else 0)
    case Int(i) => Some(i)
    case _ => None
  }

  /** The time the reminder fires at, for a stored time that is text. */
  function ReminderTime(text: string): (nat, nat) {
    match BotUtils.ParseTime(text)
    case Ok(t) => t
    case Err(_) => FallbackTime
  }

  // ---------------------------------------------------------------------
  // The three sub-checks, as functions of the settings document
  // ---------------------------------------------------------------------

  /** The file after the reset sub-check on date `today`: written only on a new date, and only if writable. */
  function AfterReset(f: FileState, writable: bool, today: string, stamp: string): FileState {
    var d := LoadDocument(f);
    if NeedsDailyReset(d, today) && writable then Stored(Stamped(DailyReset(d, today), stamp)) else f
  }

  /** The messages of the bedtime sub-check on document `d`. */
  function BedtimeMessages(d: Document, clock: Clock, resolves: int -> bool, parseInt: string -> Option<int>)
    : seq<Message>
  {
    var br := BedtimeReminderOf(d);
    if !Truthy(br.enabled) || !br.time.Str? then []
    else
      var t := ReminderTime(br.time.s);
      if clock.hour != t.0 || clock.minute != t.1 || !Truthy(br.channelId) then []
      else
        match IntOf(br.channelId, parseInt)
        case None => []
        case Some(id) => if resolves(id) then [Message(id, BedtimeText)] else []
  }

  /** The goal sub-check reads the activity only when the notification is on and not yet given today. */
  predicate GoalCheckRuns(d: Document) {
    var g := GoalNotificationOf(d);
    Truthy(g.enabled) && !Truthy(g.achievedToday)
  }

  /** The outcome of the goal sub-check: the messages it sends and whether it calls `mark_goal_achieved`. */
  datatype GoalOutcome = GoalOutcome(messages: seq<Message>, mark: bool)

  /** The goal sub-check on document `d`. */
  function GoalCheck(d: Document, activity: ActivityFetch, resolves: int -> bool, parseInt: string -> Option<int>)
    : GoalOutcome
  {
    if !GoalCheckRuns(d) || !activity.Fetched? || activity.record.None? then GoalOutcome([], false)
    else
      var steps := activity.record.value.steps.GetOr(0);
      var goal := Lookup(d, "steps_goal", Int(8000));
      if !Truthy(goal) || GoalNumber(goal).None? || steps < GoalNumber(goal).value then GoalOutcome([], false)
      else
        var channelId := GoalNotificationOf(d).channelId;
        if !Truthy(channelId) then GoalOutcome([], true)
        else
          match IntOf(channelId, parseInt)
          case None => GoalOutcome([], false)
          case Some(id) =>
            GoalOutcome(if resolves(id) then [Message(id, GoalText(steps, GoalNumber(goal).value))] else [], true)
  }

  /** The file after `mark_goal_achieved(True, today)`: written only if writable. */
  function AfterMark(f: FileState, writable: bool, today: string, stamp: string): FileState {
    if writable then Stored(Stamped(GoalAchievedUpdate(LoadDocument(f), true, Some(today)), stamp)) else f
  }

  /** A whole tick: the messages sent and the settings file afterwards. */
  function TickOutcome(f: FileState, writable: bool, clock: Clock, activity: ActivityFetch,
                       resolves: int -> bool, parseInt: string -> Option<int>,
                       resetStamp: string, markStamp: string): (seq<Message>, FileState)
    requires Dates.Valid(clock.date)
  {
    var today := Dates.IsoFormat(clock.date);
    var f1 := AfterReset(f, writable, today, resetStamp);
    var goal := GoalCheck(LoadDocument(f1), activity, resolves, parseInt);
    (BedtimeMessages(LoadDocument(f1), clock, resolves, parseInt) + goal.messages,
     if goal.mark then AfterMark(f1, writable, today, markStamp) else f1)
  }

  /** The bedtime reminder `try` block, on the settings as they are. */
  method BedtimeCheck(settings: SettingsManager, clock: Clock, resolves: int -> bool,
                      parseInt: string -> Option<int>)
    returns (sent: seq<Message>)
    ensures sent == BedtimeMessages(settings.Load(), clock, resolves, parseInt)
  {
    sent := [];
    ghost var d := settings.Load();
    // A stored time that is not text makes `strip` raise, which ends the block.
    var br := settings.GetBedtimeReminder();
    assert br == BedtimeReminderOf(d);
    if Truthy(br.enabled) && br.time.Str? {
      var target := ReminderTime(br.time.s);
      if clock.hour == target.0 && clock.minute == target.1 && Truthy(br.channelId) {
        var id := IntOf(br.channelId, parseInt);
        if id.Some? && resolves(id.value) {
          sent := [Message(id.value, BedtimeText)];
        }
        assert BedtimeMessages(d, clock, resolves, parseInt)
               == if id.Some? && resolves(id.value) then [Message(id.value, BedtimeText)] else [];
      } else {
        assert BedtimeMessages(d, clock, resolves, parseInt) == [];
      }
    } else {
      assert BedtimeMessages(d, clock, resolves, parseInt) == [];
    }
  }

  /** The goal notification `try` block: an `int()` that raises ends it before the flag is marked. */
  method GoalStep(settings: SettingsManager, today: string, activity: ActivityFetch,
                  resolves: int -> bool, parseInt: string -> Option<int>, stamp: string)
    returns (sent: seq<Message>)
    modifies settings
    ensures var goal := GoalCheck(old(settings.Load()), activity, resolves, parseInt);
      && sent == goal.messages
      && settings.file == if goal.mark then AfterMark(old(settings.file), settings.writable, today, stamp)
                          else old(settings.file)
  {
    sent := [];
    var goalInfo := settings.GetGoalNotification();
    if Truthy(goalInfo.enabled) && !Truthy(goalInfo.achievedToday) && activity.Fetched?
       && activity.record.Some?
    {
      var steps := activity.record.value.steps.GetOr(0);
      var goal := settings.GetStepsGoal();
      if Truthy(goal) && GoalNumber(goal).Some? && steps >= GoalNumber(goal).value {
        var raised := false;
        if Truthy(goalInfo.channelId) {
          var id := IntOf(goalInfo.channelId, parseInt);
          if id.None? {
            raised := true;
          } else if resolves(id.value) {
            sent := [Message(id.value, GoalText(steps, GoalNumber(goal).value))];
          }
        }
        if !raised {
          var _ := settings.MarkGoalAchieved(true, Some(today), stamp);
        }
      }
    }
  }

  /**
   * `SchedulerCog.scheduler_loop`: one tick over the shared settings store.
   * A write that fails is logged by the source and the tick goes on, so the
   * `ok` results of the settings calls are not consulted.
   */
  method Tick(settings: SettingsManager, clock: Clock, activity: ActivityFetch,
              resolves: int -> bool, parseInt: string -> Option<int>,
              resetStamp: string, markStamp: string)
    returns (sent: seq<Message>)
    requires Dates.Valid(clock.date)
    modifies settings
    ensures (sent, settings.file)
            == TickOutcome(old(settings.file), settings.writable, clock, activity, resolves, parseInt,
                           resetStamp, markStamp)
  {
    var today := Dates.IsoFormat(clock.date);
    var _ := settings.ResetDailyFlags(today, resetStamp);
    assert settings.file == AfterReset(old(settings.file), settings.writable, today, resetStamp);
    var reminder := BedtimeCheck(settings, clock, resolves, parseInt);
    var announced := GoalStep(settings, today, activity, resolves, parseInt, markStamp);
    sent := reminder + announced;
  }

  // ---------------------------------------------------------------------
  // Properties of a tick
  // ---------------------------------------------------------------------

  /**
   * On a new date the reset clears a stale achievement flag before the goal
   * check reads it: that goal check then runs exactly when the notification is on.
   */
  lemma ResetBeforeGoalCheck(f: FileState, today: string, stamp: string)
    requires NeedsDailyReset(LoadDocument(f), today)
    ensures var d := LoadDocument(AfterReset(f, true, today, stamp));
      && GoalNotificationOf(d).achievedToday == Bool(false)
      && GoalNotificationOf(d).lastCheckDate == Str(today)
      && (GoalCheckRuns(d) <==> Truthy(GoalNotificationOf(LoadDocument(f)).enabled))
  {
  }

  /**
   * The bedtime message goes out exactly when the reminder is on, the clock
   * shows its minute (22:30 when the stored text is not a valid time), the
   * channel id is truthy and converts, and the channel resolves; it is then
   * the one fixed reminder text to that channel.
   */
  lemma BedtimeSentExactly(d: Document, clock: Clock, resolves: int -> bool, parseInt: string -> Option<int>)
    ensures var br := BedtimeReminderOf(d);
      var id := IntOf(br.channelId, parseInt);
      BedtimeMessages(d, clock, resolves, parseInt) != []
      <==> Truthy(br.enabled) && br.time.Str?
           && (clock.hour, clock.minute) == ReminderTime(br.time.s)
           && Truthy(br.channelId) && id.Some? && resolves(id.value)
    ensures var br := BedtimeReminderOf(d);
      BedtimeMessages(d, clock, resolves, parseInt) != [] ==>
        BedtimeMessages(d, clock, resolves, parseInt) == [Message(IntOf(br.channelId, parseInt).value, BedtimeText)]
  {
  }

  /** A reminder stored as `HH:MM` or `H:MM` text fires at that minute when it is a time of day, else at 22:30. */
  lemma BedtimeAtStoredTime(hour: nat, minute: nat)
    requires hour < 100 && minute < 100
    ensures ReminderTime(Numbers.Padded(hour, 2) + ":" + Numbers.Padded(minute, 2))
            == if hour <= 23 && minute <= 59 then (hour, minute) else FallbackTime
    ensures ReminderTime(Numbers.NatToString(hour) + ":" + Numbers.Padded(minute, 2))
            == if hour <= 23 && minute <= 59 then (hour, minute) else FallbackTime
  {
    BotUtils.ParseTimeDigits(hour, minute);
  }

  /** With the notification off or already given today, the goal check sends nothing and marks nothing. */
  lemma GoalCheckGate(d: Document, activity: ActivityFetch, resolves: int -> bool, parseInt: string -> Option<int>)
    requires !GoalCheckRuns(d)
    ensures GoalCheck(d, activity, resolves, parseInt) == GoalOutcome([], false)
  {
  }

  /**
   * With a numeric goal reached, the flag is marked whether or not there is
   * a channel; the message goes out only to a channel that resolves.
   */
  lemma GoalReached(d: Document, rec: Records.DailyRecord, resolves: int -> bool, parseInt: string -> Option<int>,
                    goal: int)
    requires GoalCheckRuns(d)
    requires Lookup(d, "steps_goal", Int(8000)) == Int(goal) && goal != 0
    requires rec.steps.GetOr(0) >= goal
    ensures var channelId := GoalNotificationOf(d).channelId;
      var r := GoalCheck(d, Fetched(Some(rec)), resolves, parseInt);
      && (!Truthy(channelId) ==> r == GoalOutcome([], true))
      && (Truthy(channelId) && IntOf(channelId, parseInt).Some? ==>
            r.mark && (r.messages != [] <==> resolves(IntOf(channelId, parseInt).value))
            && (r.messages != [] ==>
                 r.messages == [Message(IntOf(channelId, parseInt).value, GoalText(rec.steps.GetOr(0), goal))]))
  {
  }

  /** Below a numeric goal, nothing is sent and nothing is marked. */
  lemma GoalNotReached(d: Document, rec: Records.DailyRecord, resolves: int -> bool, parseInt: string -> Option<int>,
                       goal: int)
    requires Lookup(d, "steps_goal", Int(8000)) == Int(goal)
    requires rec.steps.GetOr(0) < goal
    ensures GoalCheck(d, Fetched(Some(rec)), resolves, parseInt) == GoalOutcome([], false)
  {
  }

  /**
   * Fault isolation: when no settings write succeeds, the file is left as
   * it was and both the reminder and the goal check still run, on the
   * document as it was.
   */
  lemma TickWithFailingWrites(f: FileState, clock: Clock, activity: ActivityFetch,
                              resolves: int -> bool, parseInt: string -> Option<int>,
                              resetStamp: string, markStamp: string)
    requires Dates.Valid(clock.date)
    ensures TickOutcome(f, false, clock, activity, resolves, parseInt, resetStamp, markStamp)
            == (BedtimeMessages(LoadDocument(f), clock, resolves, parseInt)
                + GoalCheck(LoadDocument(f), activity, resolves, parseInt).messages, f)
  {
  }

  /**
   * Fault isolation between the reminder and the goal check: a reminder
   * time that is not text, or a channel id that `int()` rejects, ends the
   * reminder check, and the goal check's messages and write are those it
   * makes on its own.
   */
  lemma TickWithBrokenReminder(f: FileState, writable: bool, clock: Clock, activity: ActivityFetch,
                               resolves: int -> bool, parseInt: string -> Option<int>,
                               resetStamp: string, markStamp: string)
    requires Dates.Valid(clock.date)
    requires var br := BedtimeReminderOf(LoadDocument(AfterReset(f, writable, Dates.IsoFormat(clock.date), resetStamp)));
      !br.time.Str? || IntOf(br.channelId, parseInt).None?
    ensures var f1 := AfterReset(f, writable, Dates.IsoFormat(clock.date), resetStamp);
      var goal := GoalCheck(LoadDocument(f1), activity, resolves, parseInt);
      TickOutcome(f, writable, clock, activity, resolves, parseInt, resetStamp, markStamp)
      == (goal.messages, if goal.mark then AfterMark(f1, writable, Dates.IsoFormat(clock.date), markStamp) else f1)
  {
    var f1 := AfterReset(f, writable, Dates.IsoFormat(clock.date), resetStamp);
    assert BedtimeMessages(LoadDocument(f1), clock, resolves, parseInt) == [];
    assert [] + GoalCheck(LoadDocument(f1), activity, resolves, parseInt).messages
           == GoalCheck(LoadDocument(f1), activity, resolves, parseInt).messages;
  }

  /**
   * Once a day: after a tick whose goal check marked the goal on a writable
   * store, a later tick on the same date sends no goal message and writes
   * nothing, whatever the activity then says.
   */
  lemma GoalAnnouncedOncePerDay(f: FileState, clock: Clock, activity: ActivityFetch,
                                resolves: int -> bool, parseInt: string -> Option<int>,
                                resetStamp: string, markStamp: string,
                                later: Clock, laterActivity: ActivityFetch, laterStamp: string, laterMark: string)
    requires Dates.Valid(clock.date) && later.date == clock.date
    requires var f1 := AfterReset(f, true, Dates.IsoFormat(clock.date), resetStamp);
      GoalCheck(LoadDocument(f1), activity, resolves, parseInt).mark
    ensures var f2 := TickOutcome(f, true, clock, activity, resolves, parseInt, resetStamp, markStamp).1;
      TickOutcome(f2, true, later, laterActivity, resolves, parseInt, laterStamp, laterMark)
      == (BedtimeMessages(LoadDocument(f2), later, resolves, parseInt), f2)
  {
    var today := Dates.IsoFormat(clock.date);
    var f1 := AfterReset(f, true, today, resetStamp);
    var f2 := AfterMark(f1, true, today, markStamp);
    assert TickOutcome(f, true, clock, activity, resolves, parseInt, resetStamp, markStamp).1 == f2;
    MarkedStaysQuiet(f1, today, markStamp, laterStamp);
    GoalCheckGate(LoadDocument(f2), laterActivity, resolves, parseInt);
    var quiet := BedtimeMessages(LoadDocument(f2), later, resolves, parseInt);
    assert quiet + [] == quiet;
  }

  /** A store marked for `today` needs no reset on that date and does not run the goal check again. */
  lemma MarkedStaysQuiet(f: FileState, today: string, markStamp: string, laterStamp: string)
    requires today != ""
    ensures var f2 := AfterMark(f, true, today, markStamp);
      AfterReset(f2, true, today, laterStamp) == f2 && !GoalCheckRuns(LoadDocument(f2))
  {
    GoalAchievedUpdateKeys(LoadDocument(f), true, Some(today));
  }
}
