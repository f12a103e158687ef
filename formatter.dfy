/**
 * The report formatter of src/formatter.py: score bands, emoji, labels and
 * colours, the sleep / readiness / policy sections of the morning report,
 * the conditional noon activity reminder with its linear pacing model over an
 * 08:00-23:00 active day, the night report and the low-score alert text.
 *
 * A section is the dictionary the Discord client turns into an embed;
 * `fields == None` is a section without a "fields" key.
 */
module Formatter {
  import opened Common
  import opened Numbers
  import opened Records

  datatype Field = Field(name: string, value: string, inline: bool)

  datatype Section = Section(title: string, description: string, color: int,
                             fields: Option<seq<Field>>)

  /** The report colours. */
  const Green := 0x00FF00
  const Yellow := 0xFFFF00
  const Red := 0xFF0000
  const Gray := 0x808080
  const Orange := 0xFF9900
  const Blue := 0x3498DB
  const Salmon := 0xFF6B6B
  const Purple := 0x9B59B6

  const NoData := "データがありません"
  const SleepTitle := ":zzz: 睡眠"
  const ReadinessTitle := ":zap: Readiness（準備度）"
  const PolicyTitlePrefix := ":dart: 今日の方針: "
  const ResultsTitle := ":bar_chart: 今日の結果"
  const ReminderTitle := ":bed: 減速開始（就寝90分前）"

  // ---------------------------------------------------------------------
  // Bands (src/formatter.py:7-59)
  // ---------------------------------------------------------------------

  /** `get_score_emoji`: three bands split at 85 and 70. */
  function ScoreEmoji(score: int): (r: string)
    ensures r == ":green_circle:" <==> score >= 85
    ensures r == ":yellow_circle:" <==> 70 <= score < 85
    ensures r == ":red_circle:" <==> score < 70
  {
    if score >= 85 then ":green_circle:" else if score >= 70 then ":yellow_circle:" else ":red_circle:"
  }

  /** `get_score_label`: four bands split at 85, 70 and 60. */
  function ScoreLabel(score: int): (r: string)
    ensures r == "優秀" <==> score >= 85
    ensures r == "良好" <==> 70 <= score < 85
    ensures r == "まずまず" <==> 60 <= score < 70
    ensures r == "要注意" <==> score < 60
  {
    if score >= 85 then "優秀" else if score >= 70 then "良好" else if score >= 60 then "まずまず" else "要注意"
  }

  /** The green / yellow / red colour of a scored section, on the emoji's bands. */
  function ScoreColor(score: int): (r: int)
    ensures r == Green <==> score >= 85
    ensures r == Yellow <==> 70 <= score < 85
    ensures r == Red <==> score < 70
  {
    if score >= 85 then Green else if score >= 70 then Yellow else Red
  }

  /** Scores with the same label always have the same emoji (and colour). */
  lemma LabelRefinesEmoji(a: int, b: int)
    ensures ScoreLabel(a) == ScoreLabel(b) ==> ScoreEmoji(a) == ScoreEmoji(b) && ScoreColor(a) == ScoreColor(b)
    ensures ScoreEmoji(a) == ScoreEmoji(b) <==> ScoreColor(a) == ScoreColor(b)
  {
  }

  /** `seconds // 3600` and `(seconds % 3600) // 60`: whole hours and the minutes left over. */
  function DurationParts(seconds: int): (hm: (int, int))
    ensures 0 <= hm.1 < 60
    ensures hm.0 * 3600 + hm.1 * 60 <= seconds < hm.0 * 3600 + hm.1 * 60 + 60
    ensures hm.0 > 0 <==> seconds >= 3600
  {
    (seconds / 3600, (seconds % 3600) / 60)
  }

  /** `format_duration`: "X時間Y分", or "Y分" when there are no whole hours. */
  function FormatDuration(seconds: int): (r: string)
    ensures '時' in r <==> seconds >= 3600
  {
    var (h, m) := DurationParts(seconds);
    var hs, ms := IntToString(h), IntToString(m);
    assert '時' !in hs && '時' !in ms by {
      assert forall k :: 0 <= k < |hs| ==> hs[k] != '時';
      assert forall k :: 0 <= k < |ms| ==> ms[k] != '時';
    }
    if h > 0 then
      assert (hs + "時間" + ms + "分")[|hs|] == '時';
      hs + "時間" + ms + "分"
    else
      ms + "分"
  }

  datatype Policy = Policy(name: string, message: string, color: int)

  /** `get_today_policy`: attack at 85 and above, maintain from 70, recover below. */
  function TodayPolicy(readiness: int): (p: Policy)
    ensures p.name == ":fire: 攻める" <==> readiness >= 85
    ensures p.name == ":arrows_counterclockwise: 維持" <==> 70 <= readiness < 85
    ensures p.name == ":battery: 回復" <==> readiness < 70
    ensures p.color == ScoreColor(readiness)
  {
    if readiness >= 85 then Policy(":fire: 攻める", "コンディション良好！今日は積極的に動こう", Green)
    else if readiness >= 70 then Policy(":arrows_counterclockwise: 維持", "いつも通りのペースで過ごそう", Yellow)
    else Policy(":battery: 回復", "無理せず休息を優先しよう", Red)
  }

  // ---------------------------------------------------------------------
  // Sections of the morning report (src/formatter.py:75-238)
  // ---------------------------------------------------------------------

  /** The gray section shown when a record is missing. */
  function NoDataSection(title: string): Section {
    Section(title, NoData, Gray, None)
  }

  function ScoreDescription(score: int): string {
    "**スコア: " + IntToString(score) + "** " + ScoreEmoji(score) + " (" + ScoreLabel(score) + ")"
  }

  /** The `HH:MM` text of a timestamp (read only where the timestamp is present). */
  function ClockOf(t: Option<Timestamp>): string {
    if t.Some? then t.value.clock else ""
  }

  /**
   * A run of conditional `fields.append` calls: the inline field
   * `order[k]: values[k]` is appended when `shown[k]` holds. A value is only
   * shown when its condition holds, so where it reads an optional number,
   * `GetOr(0)` stands for the number that is then present.
   */
  function Slots(order: seq<string>, shown: seq<bool>, values: seq<string>): seq<Field>
    requires |shown| == |order| && |values| == |order|
    decreases |order|
  {
    if order == [] then []
    else
      var n := |order| - 1;
      Slots(order[..n], shown[..n], values[..n]) + (if shown[n] then [Field(order[n], values[n], true)] else [])
  }

  const BedWakeName := ":clock10: 就寝 → 起床"
  const TotalSleepName := ":bed: 総睡眠時間"
  const DeepSleepName := ":new_moon: 深い睡眠"
  const RemSleepName := ":crescent_moon: レム睡眠"
  const LowestHeartRateName := ":heart: 最低心拍数"
  const AverageHrvName := ":chart_with_upwards_trend: 平均HRV"

  const SleepFieldOrder := [BedWakeName, TotalSleepName, DeepSleepName, RemSleepName,
                            LowestHeartRateName, AverageHrvName]

  /** The detail fields of the sleep section, in the order they are appended. */
  function SleepFields(d: SleepPeriod): seq<Field> {
    Slots(SleepFieldOrder,
          [TruthyTime(d.bedtimeStart) && TruthyTime(d.bedtimeEnd), TruthyInt(d.totalSleepDuration),
           TruthyInt(d.deepSleepDuration), TruthyInt(d.remSleepDuration), TruthyInt(d.lowestHeartRate),
           TruthyInt(d.averageHrv)],
          [ClockOf(d.bedtimeStart) + " → " + ClockOf(d.bedtimeEnd),
           FormatDuration(d.totalSleepDuration.GetOr(0)),
           FormatDuration(d.deepSleepDuration.GetOr(0)),
           FormatDuration(d.remSleepDuration.GetOr(0)),
           IntToString(d.lowestHeartRate.GetOr(0)) + " bpm",
           IntToString(d.averageHrv.GetOr(0)) + " ms"])
  }

  /** `format_sleep_section`. */
  function SleepSection(sleep: Option<DailyRecord>, details: Option<SleepPeriod>): (r: Section)
    ensures r.title == SleepTitle
    ensures sleep.None? ==> r == NoDataSection(SleepTitle)
    ensures sleep.Some? ==> r.color == ScoreColor(sleep.value.score.GetOr(0)) && r.fields.Some?
  {
    match sleep
    case None => NoDataSection(SleepTitle)
    case Some(rec) =>
      var score := rec.score.GetOr(0);
      Section(SleepTitle, ScoreDescription(score), ScoreColor(score),
              Some(if details.Some? then SleepFields(details.value) else []))
  }

  const RecoveryName := ":heartpulse: 回復度"
  const RestingHeartRateName := ":heart: 安静時心拍"
  const HrvBalanceName := ":chart_with_upwards_trend: HRVバランス"

  const ContributorOrder := [RecoveryName, RestingHeartRateName, HrvBalanceName]

  /** The contributor fields of the readiness section, in the order they are appended. */
  function ContributorFields(c: Contributors): seq<Field> {
    Slots(ContributorOrder,
          [TruthyInt(c.recoveryIndex), TruthyInt(c.restingHeartRate), TruthyInt(c.hrvBalance)],
          ["スコア: " + IntToString(c.recoveryIndex.GetOr(0)),
           "スコア: " + IntToString(c.restingHeartRate.GetOr(0)),
           "スコア: " + IntToString(c.hrvBalance.GetOr(0))])
  }

  /** `format_readiness_section`. */
  function ReadinessSection(readiness: Option<DailyRecord>): (r: Section)
    ensures r.title == ReadinessTitle
    ensures readiness.None? ==> r == NoDataSection(ReadinessTitle)
    ensures readiness.Some? ==> r.color == ScoreColor(readiness.value.score.GetOr(0)) && r.fields.Some?
  {
    match readiness
    case None => NoDataSection(ReadinessTitle)
    case Some(rec) =>
      var score := rec.score.GetOr(0);
      Section(ReadinessTitle, ScoreDescription(score), ScoreColor(score),
              Some(ContributorFields(rec.contributors)))
  }

  /** `format_policy_section`: titled with the policy's name and coloured by the readiness band. */
  function PolicySection(readiness: int): (r: Section)
    ensures PolicyTitlePrefix <= r.title && r.title[|PolicyTitlePrefix|..] == TodayPolicy(readiness).name
    ensures r.color == ScoreColor(readiness) && r.fields.None?
  {
    var p := TodayPolicy(readiness);
    Section(PolicyTitlePrefix + p.name, p.message, p.color, None)
  }

  /** The names of a field list, in order. */
  function Names(fs: seq<Field>): seq<string> {
    if fs == [] then [] else [fs[0].name] + Names(fs[1..])
  }

  lemma {:induction false} NamesAppend(a: seq<Field>, b: seq<Field>)
    ensures Names(a + b) == Names(a) + Names(b)
    decreases |a|
  {
    if a == [] {
      assert a + b == b;
    } else {
      assert (a + b)[0] == a[0];
      assert (a + b)[1..] == a[1..] + b;
      NamesAppend(a[1..], b);
    }
  }

  /** The position of `name` in `order`. */
  function IndexOf(order: seq<string>, name: string): (k: nat)
    requires name in order
    ensures k < |order| && order[k] == name
  {
    if order[0] == name then 0 else 1 + IndexOf(order[1..], name)
  }

  /** Every field is named in `order`, the names keep its order, and all come before position `bound`. */
  ghost predicate InOrderBelow(fs: seq<Field>, order: seq<string>, bound: int) {
    && (forall i :: 0 <= i < |fs| ==> fs[i].name in order && IndexOf(order, fs[i].name) < bound)
    && (forall i, j :: 0 <= i < j < |fs| ==> IndexOf(order, fs[i].name) < IndexOf(order, fs[j].name))
  }

  /** The fields keep the order of `order`. */
  ghost predicate InOrder(fs: seq<Field>, order: seq<string>) {
    InOrderBelow(fs, order, |order|)
  }

  /** Appending nothing, or one field named at position `k` of `order`, keeps the order. */
  lemma InOrderStep(fs: seq<Field>, p: seq<Field>, order: seq<string>, k: nat)
    requires InOrderBelow(fs, order, k)
    requires |p| <= 1 && (p != [] ==> p[0].name in order && IndexOf(order, p[0].name) == k)
    ensures InOrderBelow(fs + p, order, k + 1)
  {
  }

  // ---------------------------------------------------------------------
  // Reports (src/formatter.py:224-422)
  // ---------------------------------------------------------------------

  /** The `data` dictionary of the morning report and the alert. */
  datatype DailyData = DailyData(date: Option<string>, sleep: Option<DailyRecord>,
                                 readiness: Option<DailyRecord>, activity: Option<DailyRecord>,
                                 sleepDetails: Option<SleepPeriod>)

  /** `format_morning_report`: sleep, readiness and the day's policy. */
  function MorningReport(data: DailyData): (r: (string, seq<Section>))
    ensures |r.1| == 3
    ensures r.1[0].title == SleepTitle && r.1[1].title == ReadinessTitle
  {
    var readinessScore := if data.readiness.Some? then data.readiness.value.score.GetOr(70) else 70;
    (":sunrise: **おはようございます！** (" + data.date.GetOr("不明") + ")",
     [SleepSection(data.sleep, data.sleepDetails), ReadinessSection(data.readiness),
      PolicySection(readinessScore)])
  }

  /** `int(x)` for the rational `a / b`, `b > 0`: truncation toward zero. */
  function TruncDiv(a: int, b: int): (q: int)
    requires b > 0
    ensures a >= 0 ==> 0 <= q && b * q <= a < b * q + b
    ensures a < 0 ==> q <= 0 && b * q - b < a <= b * q
  {
    if a >= 0 then
      var q := a / b;
      assert a == b * q + a % b && 0 <= a % b < b;
      q
    else
      var p := (-a) / b;
      assert -a == b * p + (-a) % b && 0 <= (-a) % b < b;
      -p
  }

  /** The hours of the active day (from 08:00) that have passed at `hour`, never negative. */
  function HoursSinceStart(hour: int): nat {
    if hour - 8 < 0 then 0 else hour - 8
  }

  /** `expected_steps = int(steps_goal * hours_since_start / 15)`. */
  function ExpectedSteps(goal: int, hour: int): (r: int)
    ensures hour <= 8 ==> r == 0
    ensures goal >= 0 && hour <= 23 ==> 0 <= r <= goal
    ensures hour == 23 ==> r == goal
  {
    var h := HoursSinceStart(hour);
    if goal >= 0 && h <= 15 then
      MulMono(goal, h, 15);
      TruncDiv(goal * h, 15)
    else
      TruncDiv(goal * h, 15)
  }

  /** `"x" * n`, empty for `n <= 0`. */
  function Repeat(c: char, n: int): (s: string)
    ensures |s| == if n <= 0 then 0 else n
    ensures forall k :: 0 <= k < |s| ==> s[k] == c
    decreases n
  {
    if n <= 0 then [] else [c] + Repeat(c, n - 1)
  }

  /** The nearest integer to `n / d`, `d > 0`, ties to even: what `f"{x:.0f}"` prints. */
  function RoundHalfEven(n: int, d: int): int
    requires d > 0
  {
    var q, r := n / d, n % d;
    if 2 * r > d then q + 1 else if 2 * r < d then q else if q % 2 == 0 then q else q + 1
  }

  const NoonTitle := ":walking: **活動リマインダー**"
  const PaceName := ":chart_with_downwards_trend: 目標ペース"
  const DifferenceName := ":warning: 差分"

  /** `format_noon_report`: `(title, sections, should_send)`. */
  function NoonReport(activity: Option<DailyRecord>, goal: int, hour: int): (r: (string, seq<Section>, bool))
    ensures !r.2 ==> r == ("", [], false)
    ensures r.2 ==> |r.1| == 1 && r.1[0].fields.Some? && |r.1[0].fields.value| == 3
  {
    if activity.None? then ("", [], false)
    else
      var steps := activity.value.steps.GetOr(0);
      var expected := ExpectedSteps(goal, hour);
      if !(10 * steps < 7 * expected) then ("", [], false)
      else
        var percent := if goal > 0 then RoundHalfEven(100 * steps, goal) else 0;
        var filled := if goal > 0 then TruncDiv(10 * steps, goal) else 0;
        var bar := Repeat('█', filled) + Repeat('░', 10 - filled);
        (NoonTitle,
         [Section(":footprints: 歩数の進捗",
                  "**" + Grouped(steps) + " / " + Grouped(goal) + " 歩** (" + IntToString(percent)
                  + "%)\n`" + bar + "`",
                  Orange,
                  Some([Field(PaceName, Grouped(expected) + " 歩", true),
                        Field(DifferenceName, "-" + Grouped(expected - steps) + " 歩", true),
                        Field(":bulb: 今すぐできること", "10分歩く（約1,000歩）", false)]))],
         true)
  }

  const EarlyBedtime := ":warning: **今日は早めに就寝を推奨**\n"
  const NightTitle := ":night_with_stars: **おつかれさまでした！**"
  const BedNowSteps := "\n\n:moon: **今すぐやること**\n1. スマホ・PCをオフ\n2. 照明を暗くする\n3. 目標就寝: **24:00**"
  const StepsName := ":footprints: 歩数"
  const ActiveCaloriesName := ":fire: アクティブカロリー"
  const ReadinessName := ":zap: Readiness"
  const WindDown := ":sparkles: コンディション良好です\n\n:moon: **減速開始のルーティン**\n1. スマホ・PCをオフ\n2. 照明を暗くする\n3. リラックスタイム"

  /** `format_night_report`: the day's results (when there is activity) and the wind-down reminder. */
  function NightReport(readiness: Option<DailyRecord>, sleep: Option<DailyRecord>,
                       activity: Option<DailyRecord>): (r: (string, seq<Section>))
    ensures |r.1| == (if activity.Some? then 2 else 1)
  {
    var readinessScore := if readiness.Some? then readiness.value.score.GetOr(70) else 70;
    var sleepScore := if sleep.Some? then sleep.value.score.GetOr(70) else 70;
    var results :=
      if activity.None? then []
      else
        var a := activity.value;
        var activityScore := a.score.GetOr(0);
        [Section(ResultsTitle,
                 "**活動スコア: " + IntToString(activityScore) + "** " + ScoreEmoji(activityScore),
                 Blue,
                 Some([Field(StepsName, Grouped(a.steps.GetOr(0)) + " 歩", true),
                       Field(ActiveCaloriesName, Grouped(a.activeCalories.GetOr(0)) + " kcal", true),
                       Field(ReadinessName, IntToString(readinessScore), true)]))];
    var reminder :=
      if readinessScore < 70 || sleepScore < 70 then
        Section(ReminderTitle,
                EarlyBedtime + "└ Readiness: " + IntToString(readinessScore) + " / 昨夜の睡眠: "
                + IntToString(sleepScore) + BedNowSteps,
                Salmon, None)
      else
        Section(ReminderTitle, WindDown, Purple, None);
    (NightTitle, results + [reminder])
  }

  function SleepAlertText(score: int): string {
    ":warning: 睡眠スコアが低めです（" + IntToString(score) + "）。今日は早めに休みましょう。"
  }

  function ReadinessAlertText(score: int): string {
    ":warning: Readinessが低めです（" + IntToString(score) + "）。無理せず過ごしましょう。"
  }

  /** `"\n".join(lines)`. */
  function JoinLines(lines: seq<string>): string {
    if lines == [] then "" else if |lines| == 1 then lines[0] else lines[0] + "\n" + JoinLines(lines[1..])
  }

  /** A record's score is under `limit`, a missing score counting as `missing`. */
  predicate ScoreBelow(rec: Option<DailyRecord>, missing: int, limit: int) {
    rec.Some? && rec.value.score.GetOr(missing) < limit
  }

  /** `format_alert_message`. */
  function AlertMessage(data: DailyData): (r: Option<string>)
    ensures r.None? <==> !ScoreBelow(data.sleep, 100, 70) && !ScoreBelow(data.readiness, 100, 65)
  {
    var alerts :=
      (if ScoreBelow(data.sleep, 100, 70) then [SleepAlertText(data.sleep.value.score.value)] else [])
      + (if ScoreBelow(data.readiness, 100, 65) then [ReadinessAlertText(data.readiness.value.score.value)] else []);
    if alerts != [] then Some(JoinLines(alerts)) else None
  }

  // ---------------------------------------------------------------------
  // Properties
  // ---------------------------------------------------------------------

  predicate Distinct(order: seq<string>) {
    forall i, j :: 0 <= i < j < |order| ==> order[i] != order[j]
  }

  lemma {:induction false} IndexOfDistinct(order: seq<string>, k: nat)
    requires Distinct(order) && k < |order|
    ensures IndexOf(order, order[k]) == k
    decreases k
  {
    if k > 0 {
      assert order[0] != order[k];
      assert order[1..][k - 1] == order[k];
      IndexOfDistinct(order[1..], k - 1);
    }
  }

  /**
   * The first `n` slots give inline fields, in the order of `order`, and the
   * field of slot `k` is there exactly when `k < n` and it is shown.
   */
  lemma {:induction false} SlotsPrefix(order: seq<string>, shown: seq<bool>, values: seq<string>, n: nat)
    requires |shown| == |order| && |values| == |order| && Distinct(order) && n <= |order|
    ensures var fs := Slots(order[..n], shown[..n], values[..n]);
      && InOrderBelow(fs, order, n)
      && (forall f :: f in fs ==> f.inline)
      && (forall f :: f in fs ==> f.name in order && f.value == values[IndexOf(order, f.name)])
      && (forall k :: 0 <= k < |order| ==> (order[k] in Names(fs) <==> k < n && shown[k]))
    decreases n
  {
    var fs := Slots(order[..n], shown[..n], values[..n]);
    if n == 0 {
      assert fs == [];
    } else {
      var m := n - 1;
      assert order[..n][..m] == order[..m] && shown[..n][..m] == shown[..m] && values[..n][..m] == values[..m];
      SlotsPrefix(order, shown, values, m);
      var init := Slots(order[..m], shown[..m], values[..m]);
      var last := if shown[m] then [Field(order[m], values[m], true)] else [];
      assert fs == init + last;
      IndexOfDistinct(order, m);
      InOrderStep(init, last, order, m);
      NamesAppend(init, last);
      forall f | f in fs
        ensures f.name in order && f.value == values[IndexOf(order, f.name)]
      {
        if f !in init {
          assert f in last;
        }
      }
      forall k | 0 <= k < |order|
        ensures order[k] in Names(fs) <==> k < n && shown[k]
      {
        if k != m {
          assert order[k] != order[m] by {
            if k < m { assert order[k] != order[m]; } else { assert order[m] != order[k]; }
          }
        }
      }
    }
  }

  /** Conditional appends give inline fields in the fixed order, each present exactly when shown. */
  lemma SlotsShape(order: seq<string>, shown: seq<bool>, values: seq<string>)
    requires |shown| == |order| && |values| == |order| && Distinct(order)
    ensures var fs := Slots(order, shown, values);
      && InOrder(fs, order)
      && (forall f :: f in fs ==> f.inline)
      && (forall f :: f in fs ==> f.name in order && f.value == values[IndexOf(order, f.name)])
      && (forall k :: 0 <= k < |order| ==> (order[k] in Names(fs) <==> shown[k]))
  {
    SlotsPrefix(order, shown, values, |order|);
    assert order[..|order|] == order && shown[..|shown|] == shown && values[..|values|] == values;
  }

  lemma SleepFieldOrderDistinct()
    ensures Distinct(SleepFieldOrder)
  {
  }

  /** The sleep detail fields: inline, in the fixed order, each present exactly when its value is truthy. */
  lemma SleepFieldsShape(d: SleepPeriod)
    ensures InOrder(SleepFields(d), SleepFieldOrder)
    ensures forall f :: f in SleepFields(d) ==> f.inline
    ensures var names := Names(SleepFields(d));
      && (BedWakeName in names <==> TruthyTime(d.bedtimeStart) && TruthyTime(d.bedtimeEnd))
      && (TotalSleepName in names <==> TruthyInt(d.totalSleepDuration))
      && (DeepSleepName in names <==> TruthyInt(d.deepSleepDuration))
      && (RemSleepName in names <==> TruthyInt(d.remSleepDuration))
      && (LowestHeartRateName in names <==> TruthyInt(d.lowestHeartRate))
      && (AverageHrvName in names <==> TruthyInt(d.averageHrv))
  {
    var o := SleepFieldOrder;
    var shown := [TruthyTime(d.bedtimeStart) && TruthyTime(d.bedtimeEnd), TruthyInt(d.totalSleepDuration),
       TruthyInt(d.deepSleepDuration), TruthyInt(d.remSleepDuration), TruthyInt(d.lowestHeartRate),
       TruthyInt(d.averageHrv)];
    var values := [ClockOf(d.bedtimeStart) + " → " + ClockOf(d.bedtimeEnd),
       FormatDuration(d.totalSleepDuration.GetOr(0)),
       FormatDuration(d.deepSleepDuration.GetOr(0)),
       FormatDuration(d.remSleepDuration.GetOr(0)),
       IntToString(d.lowestHeartRate.GetOr(0)) + " bpm",
       IntToString(d.averageHrv.GetOr(0)) + " ms"];
    SleepFieldOrderDistinct();
    SlotsShape(o, shown, values);
    assert SleepFields(d) == Slots(o, shown, values);
    assert o[0] == BedWakeName && o[1] == TotalSleepName && o[2] == DeepSleepName
        && o[3] == RemSleepName && o[4] == LowestHeartRateName && o[5] == AverageHrvName;
  }

  /**
   * The sleep section: gray "no data" without a sleep record; otherwise the
   * colour of the score's band and the detail fields, none without details.
   */
  lemma SleepSectionShape(sleep: Option<DailyRecord>, details: Option<SleepPeriod>)
    ensures var s := SleepSection(sleep, details);
      && (sleep.None? ==> s == NoDataSection(SleepTitle))
      && (sleep.Some? ==>
            && s.color == ScoreColor(sleep.value.score.GetOr(0))
            && s.description != NoData
            && s.fields == Some(if details.Some? then SleepFields(details.value) else []))
  {
    if sleep.Some? {
      assert ScoreDescription(sleep.value.score.GetOr(0))[..2] == "**";
    }
  }

  /**
   * The readiness section: gray "no data" without a record; otherwise the
   * colour of the score's band (the same as the day's policy colour) and the
   * contributor fields inline in the fixed order, each present exactly when
   * its value is truthy.
   */
  lemma ReadinessSectionShape(readiness: Option<DailyRecord>)
    ensures var s := ReadinessSection(readiness);
      && (readiness.None? ==> s == NoDataSection(ReadinessTitle))
      && (readiness.Some? ==>
            var score, c := readiness.value.score.GetOr(0), readiness.value.contributors;
            && s.color == ScoreColor(score) == TodayPolicy(score).color
            && s.description != NoData
            && s.fields.Some?
            && InOrder(s.fields.value, ContributorOrder)
            && (forall f :: f in s.fields.value ==> f.inline)
            && (RecoveryName in Names(s.fields.value) <==> TruthyInt(c.recoveryIndex))
            && (RestingHeartRateName in Names(s.fields.value) <==> TruthyInt(c.restingHeartRate))
            && (HrvBalanceName in Names(s.fields.value) <==> TruthyInt(c.hrvBalance)))
  {
    if readiness.Some? {
      var score, c := readiness.value.score.GetOr(0), readiness.value.contributors;
      assert ScoreDescription(score)[..2] == "**";
      var o := ContributorOrder;
      assert Distinct(o);
      SlotsShape(o, [TruthyInt(c.recoveryIndex), TruthyInt(c.restingHeartRate), TruthyInt(c.hrvBalance)],
                 ["スコア: " + IntToString(c.recoveryIndex.GetOr(0)),
                  "スコア: " + IntToString(c.restingHeartRate.GetOr(0)),
                  "スコア: " + IntToString(c.hrvBalance.GetOr(0))]);
      assert o[0] == RecoveryName && o[1] == RestingHeartRateName && o[2] == HrvBalanceName;
    }
  }

  /**
   * The morning report: sleep, readiness and policy sections in that order;
   * without a readiness record the policy is the one for 70 (maintain).
   */
  lemma MorningReportShape(data: DailyData)
    ensures var (title, sections) := MorningReport(data);
      && title == ":sunrise: **おはようございます！** (" + data.date.GetOr("不明") + ")"
      && sections[0] == SleepSection(data.sleep, data.sleepDetails)
      && sections[1] == ReadinessSection(data.readiness)
      && sections[2].title[..|PolicyTitlePrefix|] == PolicyTitlePrefix
      && (data.readiness.Some? ==>
            sections[2] == PolicySection(data.readiness.value.score.GetOr(70)))
      && (data.readiness.None? ==>
            sections[2].title == PolicyTitlePrefix + ":arrows_counterclockwise: 維持"
            && sections[2].color == Yellow)
  {
  }

  lemma MulMono(a: int, x: int, y: int)
    requires a >= 0 && x <= y
    ensures a * x <= a * y
  {
  }

  /** The pacing model: with a non-negative goal the expected steps never decrease as the hour grows. */
  lemma ExpectedStepsPacing(goal: int, h1: int, h2: int)
    requires goal >= 0 && h1 <= h2
    ensures ExpectedSteps(goal, h1) <= ExpectedSteps(goal, h2)
  {
    MulMono(goal, HoursSinceStart(h1), HoursSinceStart(h2));
  }

  /**
   * The noon reminder: nothing without activity data; otherwise it is sent
   * exactly when the steps are under 70 % of the expected steps.
   */
  lemma NoonReportDecision(activity: Option<DailyRecord>, goal: int, hour: int)
    ensures activity.None? ==> NoonReport(activity, goal, hour) == ("", [], false)
    ensures activity.Some? ==>
      (NoonReport(activity, goal, hour).2 <==> 10 * activity.value.steps.GetOr(0) < 7 * ExpectedSteps(goal, hour))
  {
  }

  /** Up to 08:00 nothing is expected yet, so no reminder goes out for a non-negative step count. */
  lemma NoReminderBeforeEight(activity: Option<DailyRecord>, goal: int, hour: int)
    requires hour <= 8 && (activity.Some? ==> activity.value.steps.GetOr(0) >= 0)
    ensures !NoonReport(activity, goal, hour).2
  {
  }

  /** When the reminder goes out with a non-negative goal, the shortfall it shows is positive. */
  lemma NoonShortfallPositive(activity: Option<DailyRecord>, goal: int, hour: int)
    requires goal >= 0 && NoonReport(activity, goal, hour).2
    ensures var steps, expected := activity.value.steps.GetOr(0), ExpectedSteps(goal, hour);
      && expected - steps > 0
      && NoonReport(activity, goal, hour).1[0].fields.value[1]
         == Field(DifferenceName, "-" + Grouped(expected - steps) + " 歩", true)
      && NoonReport(activity, goal, hour).1[0].fields.value[0]
         == Field(PaceName, Grouped(expected) + " 歩", true)
  {
  }

  /** Scenario: 1000 steps of 8000 at 13:00 sends (2666 expected); 5000 does not. */
  lemma NoonScenarios(rec: DailyRecord)
    ensures ExpectedSteps(8000, 13) == 2666
    ensures NoonReport(Some(rec.(steps := Some(1000))), 8000, 13).2
    ensures !NoonReport(Some(rec.(steps := Some(5000))), 8000, 13).2
  {
  }

  /**
   * The night report: the wind-down reminder is always last, the results
   * section comes before it exactly when there is activity data, and the
   * early-bedtime reminder is chosen exactly when readiness or sleep is under
   * 70, a missing record or score counting as 70.
   */
  lemma NightReportShape(readiness: Option<DailyRecord>, sleep: Option<DailyRecord>,
                         activity: Option<DailyRecord>)
    ensures var (title, sections) := NightReport(readiness, sleep, activity);
      var last := sections[|sections| - 1];
      var rs := if readiness.Some? then readiness.value.score.GetOr(70) else 70;
      var ss := if sleep.Some? then sleep.value.score.GetOr(70) else 70;
      && last.title == ReminderTitle
      && (activity.Some? <==> |sections| == 2)
      && (activity.Some? ==> sections[0].title == ResultsTitle && sections[0].color == Blue)
      && (last.color == Salmon <==> rs < 70 || ss < 70)
      && (last.color == Purple <==> !(rs < 70 || ss < 70))
      && ((rs < 70 || ss < 70) ==> EarlyBedtime <= last.description)
  {
  }

  /**
   * The alert: a sleep line exactly when the sleep score is under 70, a
   * readiness line exactly when readiness is under 65 (a missing score never
   * alerts), joined by a newline; no message when neither applies.
   */
  lemma AlertMessageCases(data: DailyData)
    ensures var sleepLow, readinessLow := ScoreBelow(data.sleep, 100, 70), ScoreBelow(data.readiness, 100, 65);
      && (AlertMessage(data).None? <==> !sleepLow && !readinessLow)
      && (sleepLow && !readinessLow ==>
            AlertMessage(data) == Some(SleepAlertText(data.sleep.value.score.value)))
      && (!sleepLow && readinessLow ==>
            AlertMessage(data) == Some(ReadinessAlertText(data.readiness.value.score.value)))
      && (sleepLow && readinessLow ==>
            AlertMessage(data) == Some(SleepAlertText(data.sleep.value.score.value) + "\n"
                                       + ReadinessAlertText(data.readiness.value.score.value)))
      && (sleepLow ==> data.sleep.value.score.Some?)
      && (readinessLow ==> data.readiness.value.score.Some?)
  {
    if ScoreBelow(data.sleep, 100, 70) && ScoreBelow(data.readiness, 100, 65) {
      var lines := [SleepAlertText(data.sleep.value.score.value),
                    ReadinessAlertText(data.readiness.value.score.value)];
      assert lines[1..] == [lines[1]];
      assert JoinLines(lines) == lines[0] + "\n" + lines[1];
      assert AlertMessage(data) == Some(JoinLines(lines));
    }
  }
}
