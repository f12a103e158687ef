# oura-discord-notifier in Dafny

A model of the core of oura-discord-notifier. The bot reads the Oura Ring API v2 (sleep, readiness and
activity records) and posts morning, noon and night health reports and reminders to Discord.
It keeps its configuration in a JSON settings file. The model covers these parts:

- **Advice** (`advice.dfy`, module `Advice`): the four independent advice rules, the default
  block and the quick tip.
- **Formatter** (`formatter.dfy`, module `Formatter`): score bands, durations, the day's policy,
  the sleep, readiness and policy sections, and the morning, noon and night reports. It also
  covers the low-score alert.
- **Oura client** (`oura_client.dfy`, module `OuraClient`, records in `records.dfy`):
  - the retry loop of `_request`;
  - the first-item getters;
  - indexing records by day;
  - the per-day choice of sleep periods;
  - the period aggregation behind the weekly and monthly summaries.
- **Settings** (`settings.dfy`, module `Settings`): the JSON store as a class. Its file state is
  reloaded and rewritten by every call. Writes may fail.
- **Bot utilities** (`bot_utils.dfy`, module `BotUtils`): `parse_date` with all its notations,
  `_validate_month_day` and `parse_time_str`.
- **Discord client** (`discord_client.dfy`, module `DiscordClient`): the `_post` retry loop,
  plain and embed messages, and the chunked health report.
- **Scheduler** (`scheduler.dfy`, module `Scheduler`): one tick of the once-a-minute background
  loop. It clears the daily flag, sends the bedtime reminder and announces the goal once a day.

Shared vocabulary lives in `common.dfy` (`Option`, `Result`, JSON scalars and truthiness),
`numbers.dfy` (decimal text: `str(n)`, zero padding, `{n:,}` grouping, `int()` of digits) and
`dates.dfy` (Python's `datetime.date`: validity, `toordinal()`, subtracting days, and the ISO 8601
calendar date text of `isoformat()` / `fromisoformat()`).

Everything outside the program is a parameter. That covers:

- HTTP: a function from the attempt number to what that attempt got back;
- the clock and today's date;
- Discord channel lookup;
- Python's `int()` on text;
- the clock reading written as `updated_at`.

## Model

| member | source | states |
|---|---|---|
| Advice.GenerateAdvice | src/advice.py:6-116 | The advice text starts with the first block, and with no data at all it is the default block alone |
| Advice.JoinBlocks | src/advice.py:116 | The joined text starts with the first block's text and is exactly that text for a single block |
| Advice.JoinBlocksSplit | src/advice.py:116 | Cut anywhere, the joined text is the join of the front, `"\n\n"`, then the join of the rest |
| Advice.JoinBlocksHasEveryBlock | src/advice.py:116 | Every block's text occurs in the joined advice |
| Advice.AdviceBlocks | src/advice.py:6-116 | One to four blocks, at most one per rule; with a readiness score the readiness block comes first |
| Advice.ReadinessBlockCount | src/advice.py:29-53 | Exactly one readiness block when a readiness score is given, none otherwise |
| Advice.ReadinessBlockBand | src/advice.py:29-53 | The readiness block is the one of the score's band, thresholds 85, 70 and 60 |
| Advice.SleepBlocks | src/advice.py:56-68 | Below 60 gives the "不足" block, 60-69 the "低め" block, 70 and up neither; the two never appear together |
| Advice.StepsBlockCount | src/advice.py:71-92 | At most one steps block; none without steps or a positive goal; none between 30 % and 70 % of the goal |
| Advice.StepsBlockBand | src/advice.py:71-92 | Reached at 100 %, "あと少し" with the remaining count from 70 %, "少なめ" under 30 % (integer cross-multiplication) |
| Advice.ActivityBlocks | src/advice.py:95-106 | "十分" at 85 and up; "少なめ" under 50 exactly when steps are absent or under half a positive goal, never with steps and a non-positive goal |
| Advice.DefaultBlockExactlyWhenNothingElse | src/advice.py:109-114 | The default block appears if and only if no rule fired, so the advice is never empty |
| Advice.BlocksInRuleOrder | src/advice.py:29-116 | Blocks come out in the order readiness, sleep, steps, activity |
| Advice.JoinCount | src/advice.py:29-116 | A rule's blocks in the joined advice are exactly those of its own part, independent of the other rules |
| Advice.CombinedAdvice | src/advice.py:29-116 | Readiness 90, sleep 55 and 10000 of 8000 steps give the readiness, sleep and steps blocks together |
| Advice.LowActivityScenarios | src/advice.py:101-106 | Activity 40 with 2000 of 8000 steps is low; with 7000 steps it is not |
| Advice.QuickTipFollowsReadinessBands | src/advice.py:119-131 | Two scores get the same quick tip exactly when they get the same readiness block; no score gets the no-data tip |
| Advice.QuickTip | src/advice.py:119-131 | The greeting exactly when readiness is missing; otherwise each of the four tips exactly on its band, split at 85, 70 and 60 |
| Formatter.ScoreEmoji | src/formatter.py:7-14 | Green exactly from 85, yellow exactly from 70 to 84, red exactly below 70 |
| Formatter.ScoreLabel | src/formatter.py:17-26 | 優秀 exactly from 85, 良好 from 70 to 84, まずまず from 60 to 69, 要注意 below 60 |
| Formatter.ScoreColor | src/formatter.py:145-150 | The section colour is green, yellow or red on the same bands as the emoji |
| Formatter.LabelRefinesEmoji | src/formatter.py:7-26 | Equal labels imply equal emoji and colour; equal emoji exactly when equal colour |
| Formatter.DurationParts | src/formatter.py:29-32 | Hours and minutes with minutes below 60, the value in the minute they name, hours positive exactly from 3600 s |
| Formatter.FormatDuration | src/formatter.py:29-37 | The hours part is present exactly when there is at least one whole hour |
| Formatter.TodayPolicy | src/formatter.py:40-59 | 攻める exactly from 85, 維持 from 70 to 84, 回復 below 70; its colour is the score colour |
| Formatter.SleepFieldsShape | src/formatter.py:86-142 | Sleep detail fields are inline, in the fixed order, each present exactly when its value is truthy |
| Formatter.SlotsShape | src/formatter.py:86-142 | Conditional appends give the shown fields, inline, in order, each name present exactly when shown and carrying the value of its slot |
| Formatter.SleepSectionShape | src/formatter.py:75-157 | No record gives the gray no-data section; otherwise the colour follows the 85/70 bands of the score |
| Formatter.SleepSection | src/formatter.py:75-157 | Titled as the sleep section; the gray no-data section without a record, otherwise the score's colour and a field list |
| Formatter.ReadinessSectionShape | src/formatter.py:160-210 | No record gives the gray no-data section; otherwise the contributor fields and the banded colour |
| Formatter.ReadinessSection | src/formatter.py:160-210 | Titled as the readiness section; the gray no-data section without a record, otherwise the score's colour and a field list |
| Formatter.PolicySection | src/formatter.py:213-221 | The title is the policy prefix followed by the day's policy name; the colour is that of the readiness band; no fields |
| Formatter.MorningReport | src/formatter.py:224-238 | Exactly three sections, sleep then readiness then policy |
| Formatter.MorningReportShape | src/formatter.py:224-238 | The policy follows readiness, and is 維持 (score 70) when readiness is missing |
| Formatter.TruncDiv | src/formatter.py:270 | `int()` of a quotient: the largest multiple not above a non-negative numerator, the smallest not below a negative one (truncation toward zero) |
| Formatter.Repeat | src/formatter.py:288 | `"x" * n` is n copies of the character, empty for n at most 0 |
| Formatter.NoonReport | src/formatter.py:245-315 | No send gives ("", [], False); a send gives one section with three fields |
| Formatter.ExpectedStepsPacing | src/formatter.py:264-270 | With a non-negative goal the expected steps never decrease as the hour grows |
| Formatter.ExpectedSteps | src/formatter.py:264-270 | 0 up to 08:00, between 0 and a non-negative goal up to 23:00, the whole goal at 23:00 |
| Formatter.NoonReportDecision | src/formatter.py:256-277 | No activity gives nothing; otherwise it sends exactly when 10·steps < 7·expected |
| Formatter.NoReminderBeforeEight | src/formatter.py:265-274 | Up to 08:00 nothing is expected, so nothing is sent for a non-negative step count |
| Formatter.NoonShortfallPositive | src/formatter.py:276-303 | When the reminder goes out, the difference field's `expected - steps` is positive |
| Formatter.NoonScenarios | src/formatter.py:259-274 | 8000 goal at 13:00 expects 2666; 1000 steps sends, 5000 does not |
| Formatter.NightReport | src/formatter.py:322-396 | Two sections with activity data, one without |
| Formatter.NightReportShape | src/formatter.py:333-394 | The reminder is last; a results section precedes it iff activity is present; "早め" iff readiness < 70 or sleep < 70, missing counting as 70 |
| Formatter.AlertMessageCases | src/formatter.py:408-422 | An alert exactly when sleep < 70 or readiness < 65 (missing scores count as 100), sleep line first |
| Formatter.AlertMessage | src/formatter.py:408-422 | No message exactly when neither the sleep score is under 70 nor readiness under 65 |
| OuraClient.Request | src/oura_client.py:32-51 | At most `max_retries` attempts; a body only from a successful final attempt; every earlier attempt failed; the last error raised when all fail; no attempt for max_retries ≤ 0 |
| OuraClient.RetryableStatusesAreErrors | src/oura_client.py:42-45 | Every retryable status also fails `raise_for_status`, so a retried status is never returned as data |
| OuraClient.FirstRecord | src/oura_client.py:106-108 | `None` exactly for an empty data list, otherwise the first item |
| OuraClient.IndexByDayLastWins | src/oura_client.py:67-70 | A day is indexed iff some record has it, and maps to the last such record |
| OuraClient.IndexByDay | src/oura_client.py:67-70 | Every indexed record carries the day it is filed under |
| OuraClient.SleepDetailsRange | src/oura_client.py:86-93 | The loop builds the per-day dictionary of `PeriodsByDay` |
| OuraClient.PeriodsByDayChoice | src/oura_client.py:86-93 | A day is present iff some period has it; the last main sleep of the day is chosen when there is one, otherwise the first period of the day |
| OuraClient.PeriodsByDayDays | src/oura_client.py:86-93 | The days of the dictionary are exactly the days the periods carry |
| OuraClient.PeriodsByDay | src/oura_client.py:86-93 | Every chosen period carries the day it is filed under |
| OuraClient.DerivedDate | src/oura_client.py:126-143 | A period's own day wins over the dates derived from its timestamps |
| OuraClient.FirstWhere | src/oura_client.py:147-156 | The first index satisfying the predicate, or none when no item does |
| OuraClient.SleepDetailSelection | src/oura_client.py:110-159 | The four-step preference: main sleep of the day, else first main sleep, else any period of the day, else the first; `None` only for no data |
| OuraClient.SleepDetailFor | src/oura_client.py:110-159 | `None` exactly for no periods; otherwise one of the fetched periods |
| OuraClient.TruthyOverMembers | src/oura_client.py:277-285 | The collected values are exactly the truthy ones of the window's days, at most one per day |
| OuraClient.BuildPeriodData | src/oura_client.py:242-297 | One row per day from start to end in order, each from that day's records; the four lists hold the truthy values in date order |
| OuraClient.Average | src/oura_client.py:316-319 | The exact average fraction (sum, count), absent exactly for an empty list |
| OuraClient.WeeklyDataFor | src/oura_client.py:299-324 | Seven consecutive days ending on the end date, each row that day's records; each of the four averages is the exact average of its truthy values over the week; total steps their sum |
| OuraClient.Min | src/oura_client.py:361 | `min()`: an element no greater than any other |
| OuraClient.Max | src/oura_client.py:362 | `max()`: an element no smaller than any other |
| OuraClient.CalcStats | src/oura_client.py:356-364 | All absent with count 0 for no scores; otherwise count, exact average, and a min and max that are the least and the greatest score |
| OuraClient.SumBounds | src/oura_client.py:360 | Elements between bounds give a sum between count times each bound |
| OuraClient.CalcStatsOrdered | src/oura_client.py:356-364 | min ≤ average ≤ max, on the exact fraction |
| OuraClient.MonthlyDataFor | src/oura_client.py:344-380 | `days` consecutive days ending on the end date (none for days ≤ 0), each row that day's records; the stats of each of the four lists and the steps total |
| Settings.LoadDocument | src/settings.py:42-48 | A missing or unparsable file reads as the defaults, a stored one as its document |
| Settings.Stamped | src/settings.py:50-54 | Saving sets `updated_at` to the stamp and keeps every other key |
| Settings.BedtimeReminderOf | src/settings.py:84-91 | Each field is the stored value; absent keys read as disabled, "22:30" and no channel |
| Settings.GoalNotificationOf | src/settings.py:104-112 | Each field is the stored value; absent keys read as disabled, no channel, not achieved and no check date |
| Settings.SettingsManager.constructor | src/settings.py:31-40 | A missing file is created holding the stamped defaults; an existing one is kept |
| Settings.SettingsManager.Save | src/settings.py:50-54 | A writable file gets the stamped document; otherwise nothing changes |
| Settings.SettingsManager.Get | src/settings.py:56-59 | The stored value, or the default when the key is absent |
| Settings.SettingsManager.Set | src/settings.py:61-65 | Only the key and `updated_at` change, and the key reads back as the value |
| Settings.SettingsManager.GetStepsGoal | src/settings.py:67-69 | 8000 when no goal is stored |
| Settings.SettingsManager.SetStepsGoal | src/settings.py:71-73 | The goal reads back as the value set |
| Settings.SettingsManager.Reset | src/settings.py:79-81 | The file holds the stamped defaults, so the goal reads 8000 |
| Settings.SettingsManager.SetBedtimeReminder | src/settings.py:93-101 | `enabled` is always written, time and channel only when truthy |
| Settings.SettingsManager.SetGoalNotification | src/settings.py:114-120 | `enabled` is always written, the channel only when truthy |
| Settings.SettingsManager.MarkGoalAchieved | src/settings.py:122-128 | The flag is written, the date of the last check only when given |
| Settings.SettingsManager.ResetDailyFlags | src/settings.py:130-136 | On a new date the flag is cleared and the date recorded; on the same date nothing is written; afterwards no reset is due |
| Settings.DefaultsOnFreshStore | src/settings.py:12-25 | A fresh store reports goal 8000 and both features disabled |
| Settings.BedtimeUpdateKeys | src/settings.py:93-101 | The bedtime update writes exactly its keys, the optional ones only when truthy, and leaves every other key alone |
| Settings.GoalNotificationUpdateKeys | src/settings.py:114-120 | The goal-notification update writes exactly its keys and nothing else |
| Settings.GoalAchievedUpdateKeys | src/settings.py:122-128 | Marking writes the flag and the optional date and nothing else |
| Settings.DailyResetIdempotent | src/settings.py:130-136 | After a reset no reset is due for that date, even after stamping; resetting again changes nothing |
| Settings.NeedsDailyReset | src/settings.py:130-136 | A reset is due exactly when the stored check date is not the current date |
| Settings.DailyReset | src/settings.py:130-136 | The flag reads false and the check date reads the current date; every other key is unchanged |
| Settings.BedtimeSetThenGet | src/settings.py:84-101 | Reading back after an update: `enabled` as set, time and channel the new values when truthy, the old ones otherwise |
| Settings.GoalNotificationSetThenGet | src/settings.py:104-120 | Reading back after an update: `enabled` as set, the channel new when truthy; the flag and check date untouched |
| BotUtils.Strip | src/bot_utils.py:90 | `strip()` is the infix left after the whole leading and trailing whitespace runs, with no whitespace at either end |
| BotUtils.LeadingSpaces | src/bot_utils.py:90 | The length of the whole leading whitespace run |
| BotUtils.TrailingSpaces | src/bot_utils.py:90 | The length of the whole trailing whitespace run |
| BotUtils.Lower | src/bot_utils.py:90 | `lower()` maps every character by `LowerChar` and leaves no capital letter |
| BotUtils.LowerChar | src/bot_utils.py:90 | A capital letter becomes its small letter, every other character is kept |
| BotUtils.DigitsAt | src/bot_utils.py:112 | Greedy `\d{1,2}`: two digits when two are there, one when only one, none exactly when no digit is there |
| BotUtils.DigitsBefore | src/bot_utils.py:119-124 | One or two digits followed by a stop character, two preferred; none only when neither a two- nor a one-digit match exists |
| BotUtils.DigitRun | src/bot_utils.py:102 | `\d+` takes the whole leading run of digits |
| BotUtils.ValidateMonthDay | src/bot_utils.py:141-146 | No error exactly for month 1-12 and day 1-31; the month is checked first |
| BotUtils.MakeDate | src/bot_utils.py:116 | `date(y, m, d)` succeeds exactly for a real calendar date |
| BotUtils.InYear | src/bot_utils.py:113-116 | The validation error first; otherwise that day of this year exactly when it is a real date, else the no-such-date error |
| BotUtils.DaysBefore | src/bot_utils.py:97-109 | Going back n days lowers the ordinal by n, and raises exactly when it would pass 0001-01-01 |
| BotUtils.Resolve | src/bot_utils.py:94-138 | Every date a notation resolves to is a real calendar date |
| BotUtils.Classify | src/bot_utils.py:90-138 | A text that is no keyword and starts with neither a digit nor `-` is not a recognised notation, so it goes to `fromisoformat` |
| BotUtils.ParseDate | src/bot_utils.py:70-138 | Every date returned is a real calendar date |
| BotUtils.ParseTime | src/bot_utils.py:179-190 | The shape error exactly when the stripped text is not `H:MM`/`HH:MM`; otherwise its hour and minute when within 23 and 59, else the range error |
| BotUtils.MatchClock | src/bot_utils.py:181-183 | A match exactly for `H:MM`/`HH:MM` text, with the values of its two digit groups |
| BotUtils.ParsePlain | src/bot_utils.py:90 | Text with no outer whitespace or capitals is decided by its notation alone |
| BotUtils.DigitRunPrefix | src/bot_utils.py:102 | `\d+` on digits followed by a non-digit takes exactly the digits |
| BotUtils.ClassifyDaysAgo | src/bot_utils.py:102-109 | `N日前` and `-N` are read as N days back, for every N |
| BotUtils.ClassifyIso | src/bot_utils.py:119-121 | An ISO date text is plain and read through the explicit-year notation |
| BotUtils.ClassifyFullDate | src/bot_utils.py:119-121 | `YYYY[-/]M[-/]D` with four-digit year and one- or two-digit parts, zero padding allowed, is read as that year, month and day |
| BotUtils.ClassifyKanjiDate | src/bot_utils.py:112-116 | `M月D日` with one- or two-digit parts, zero padding allowed, is read as that month and day |
| BotUtils.ClassifyShortDate | src/bot_utils.py:124-128 | `M/D` and `M-D` with one- or two-digit parts, zero padding allowed (`02-17`), are read as month and day |
| BotUtils.ClassifyFourDigits | src/bot_utils.py:131-135 | Four digits are read as MMDD |
| BotUtils.ParseDateEmpty | src/bot_utils.py:87-88 | An empty or missing argument gives the default, or today |
| BotUtils.ParseDateToday | src/bot_utils.py:94-95 | 今日, きょう and today give today |
| BotUtils.ParseDateYesterday | src/bot_utils.py:96-97 | 昨日, きのう and yesterday give one day back |
| BotUtils.ParseDateDayBeforeYesterday | src/bot_utils.py:98-99 | 一昨日 and おととい give two days back |
| BotUtils.ParseDateDaysAgo | src/bot_utils.py:102-104 | `N日前` gives N days back for every N |
| BotUtils.ParseDateDash | src/bot_utils.py:107-109 | `-N` gives N days back for every N |
| BotUtils.ParseDateIso | src/bot_utils.py:119-121 | The ISO text of any date parses back to that date |
| BotUtils.ParseDateKanji | src/bot_utils.py:112-116 | `M月D日` and `MM月DD日` give that day of the current year, with the validation and no-such-date errors |
| BotUtils.ParseDateShort | src/bot_utils.py:124-128 | `M/D`, `M-D` and zero-padded `MM-DD` give that day of the current year, with the validation and no-such-date errors |
| BotUtils.ParseDateFull | src/bot_utils.py:119-121 | `YYYY-MM-DD`, `YYYY/MM/DD` and mixed separators give that date, or the no-such-date error when it is not a real date |
| BotUtils.ParseDateFourDigits | src/bot_utils.py:131-135 | MMDD gives a day of the current year, never another year |
| BotUtils.MatchClockDigits | src/bot_utils.py:181 | `H:MM` and `HH:MM` match with their hour and minute |
| BotUtils.ParseTimeDigits | src/bot_utils.py:179-190 | `H:MM` and `HH:MM` give that time when it is a time of day, else the range error |
| BotUtils.ParseTimeShortMinute | src/bot_utils.py:181-183 | A one-digit minute is a shape error, not a range error |
| BotUtils.ParseTimeLongHour | src/bot_utils.py:181-183 | A three-digit hour is a shape error |
| DiscordClient.AttemptsFrom | src/discord_client.py:29-68 | The attempts stop at the first final reply, and never exceed `max_retries` |
| DiscordClient.Post | src/discord_client.py:27-68 | The loop makes the attempts of `Attempts` and returns the final status, `None` when the final attempt raised |
| DiscordClient.PostAttempts | src/discord_client.py:29-68 | At most `max_retries` attempts, every one before the last retried, the last final |
| DiscordClient.PostFirstReplyFinal | src/discord_client.py:37-60 | A first reply that is not retryable is returned after one attempt |
| DiscordClient.PostAllRaise | src/discord_client.py:61-68 | When every attempt raises, all `max_retries` are made and the result is `None` |
| DiscordClient.PostRetryableOnlyLast | src/discord_client.py:37-60 | A retryable status is only ever returned after all `max_retries` attempts |
| DiscordClient.PostNoFinalReply | src/discord_client.py:37-68 | When every reply is retryable or raises, all attempts are made and the last one decides: its status, or `None` when it raised |
| DiscordClient.MessagePayload | src/discord_client.py:70-84 | Content and username; the avatar only when truthy |
| DiscordClient.EmbedPayload | src/discord_client.py:88-114 | One embed; fields only when non-empty, footer only when truthy |
| DiscordClient.SendMessage | src/discord_client.py:70-86 | Posts the message payload; true exactly when the post got 204 |
| DiscordClient.SendEmbed | src/discord_client.py:88-116 | Posts the embed payload; true exactly when the post got 204 |
| DiscordClient.BuildEmbed | src/discord_client.py:133-143 | Missing title and description are "", missing colour the report colour, fields only when non-empty |
| DiscordClient.Chunk | src/discord_client.py:146-147 | A chunk holds one to ten sections |
| DiscordClient.Embeds | src/discord_client.py:148 | One embed per section of the chunk, in order |
| DiscordClient.ReportPlan | src/discord_client.py:125-156 | One post for no sections, otherwise one per chunk of ten |
| DiscordClient.PostAll | src/discord_client.py:145-161 | Posts in order, stopping at the first failure; success means every post was made |
| DiscordClient.PostInOrder | src/discord_client.py:145-161 | The loop posts a prefix of the plan up to the first failure and reports success as `PostAll` |
| DiscordClient.SendHealthReport | src/discord_client.py:118-161 | The payloads posted are a prefix of the report plan ending at the first failure; true exactly when all got 204 |
| DiscordClient.PostAllStep | src/discord_client.py:145-161 | One post either fails and stops the report, or the rest follows from the next attempt |
| DiscordClient.ReportPlanShape | src/discord_client.py:125-156 | No sections gives the title-only post; otherwise chunk k carries its sections' embeds and the title only on the first |
| DiscordClient.ChunkCountCeiling | src/discord_client.py:146 | The number of chunks is the ceiling of n / 10 |
| DiscordClient.ChunksCover | src/discord_client.py:146-147 | The first k chunks concatenated are the first 10·k sections |
| DiscordClient.ChunksAreSections | src/discord_client.py:146-147 | All chunks concatenated are exactly the sections, in order |
| DiscordClient.PostAllDelivered | src/discord_client.py:145-161 | When every post gets 204, all are made and the report succeeds |
| DiscordClient.PostAllStopsAtFailure | src/discord_client.py:157-159 | A first post that fails stops the report after it |
| DiscordClient.HealthReportDelivered | src/discord_client.py:118-161 | When every post gets 204, every payload of the plan is posted and the report succeeds |
| Scheduler.BedtimeCheck | src/cogs/scheduler.py:46-68 | The reminder block sends the messages of `BedtimeMessages` on the current settings |
| Scheduler.GoalStep | src/cogs/scheduler.py:71-96 | The goal block sends the messages of `GoalCheck` and marks the goal when it says so |
| Scheduler.Tick | src/cogs/scheduler.py:36-96 | Reset first, then the reminder and the goal check on the reset settings; messages and the new file as `TickOutcome` |
| Scheduler.ResetBeforeGoalCheck | src/cogs/scheduler.py:36-73 | On a new date a stale achievement flag is cleared first, so the goal check runs exactly when it is enabled |
| Scheduler.BedtimeSentExactly | src/cogs/scheduler.py:47-66 | The reminder is sent iff enabled, the clock shows its minute (22:30 for invalid text), the channel id is truthy and converts and the channel resolves |
| Scheduler.BedtimeAtStoredTime | src/cogs/scheduler.py:49-53 | A stored `HH:MM` or `H:MM` fires at that minute when valid, else at 22:30 |
| Scheduler.GoalCheckGate | src/cogs/scheduler.py:73 | Disabled or already achieved: nothing sent, nothing marked |
| Scheduler.GoalReached | src/cogs/scheduler.py:79-94 | A reached goal is marked even without a channel; the message goes only to a channel that resolves |
| Scheduler.GoalNotReached | src/cogs/scheduler.py:79 | Below the goal nothing is sent or marked |
| Scheduler.TickWithFailingWrites | src/cogs/scheduler.py:40-94 | Failed writes leave the file alone and both checks still run |
| Scheduler.TickWithBrokenReminder | src/cogs/scheduler.py:46-96 | A stored reminder time that is not text, or a channel id `int()` rejects, ends the reminder check and the goal check runs as on its own |
| Scheduler.GoalAnnouncedOncePerDay | src/cogs/scheduler.py:36-94 | After the goal is marked, a later tick the same day sends no goal message and writes nothing |
| Scheduler.MarkedStaysQuiet | src/cogs/scheduler.py:92 | A store marked for today needs no reset that day and skips the goal check |
| Numbers.NatToStringRoundTrip | src/bot_utils.py:114 | `int(str(n)) == n` |
| Numbers.PaddedRoundTrip | src/cogs/scheduler.py:37 | Zero padding does not change the value read back |
| Numbers.GroupedNatRoundTrip | src/cogs/scheduler.py:86 | `{n:,}` with the commas removed reads back as n |
| Dates.MinusDaysOrdinal | src/bot_utils.py:97 | Subtracting n days lowers the ordinal by n, and raises exactly below 0001-01-01 |
| Dates.IsoRoundTrip | src/bot_utils.py:138 | `fromisoformat(isoformat(d)) == d` |
| Dates.ParseIso | src/bot_utils.py:138 | Only ten-character `YYYY-MM-DD` text with ASCII digits parses, and only to a real date |
| Dates.IsoFormatInjective | src/settings.py:133 | Different dates have different ISO texts, so comparing the stored strings compares dates |

## Left out

- HTTP is left out: headers, timeouts, JSON decoding of bodies, and `retry_after` / backoff sleeps
  (`time.sleep`, float seconds). Each attempt's reply is a parameter. A sleep of a finite,
  non-negative duration has no effect on what is returned.
- DiscordClient.Post: does not model a sleep that raises. A 429 body whose `retry_after` is negative
  or `NaN`, or a negative `retry_backoff`, makes `time.sleep` raise `ValueError`. The handler catches
  only `requests.RequestException`, so `_post` raises there, and so do `send_message`, `send_embed`
  and `send_health_report`. The model retries instead.
- OuraClient.Request: does not model a negative `retry_backoff`. That makes `time.sleep` raise
  `ValueError` out of `_request`, where the model retries.
- The `DISCORD_WEBHOOK_DEBUG` printing in `_post` is left out: it is output only.
- Floating point is not modelled.
  - Averages are kept as exact `(sum, count)` fractions.
  - The ratio tests of the advice rules and the noon report's `steps < expected * 0.7` are exact
    integer cross-multiplications.
- Formatter.ExpectedSteps: computes `int(goal * h / 15)` exactly. The source computes
  `int(goal * (h / 15))` in floating point, which can come out one lower (goal 75 at 19:00 is 55
  exactly, and can be 54 in floating point).
- BotUtils.Lower: lower-cases ASCII letters only. No keyword or pattern contains a non-ASCII
  letter that `str.lower()` would change.
- Digits are ASCII digits only. Python's `\d` and `int()` also accept other Unicode decimal digits.
- The ISO fallback of `parse_date` is `date.fromisoformat` as it is before Python 3.11: exactly
  `YYYY-MM-DD`. The extra formats of 3.11 and later are not modelled.
- Python's `int()` on text is a parameter of the scheduler. It is used for channel ids stored as text.
- Only the JSON scalars the store holds are modelled: null, bool, int, string. A file that parses
  to something other than an object, and floats, are not modelled.
- Settings.SettingsManager.constructor: requires a writable file when none exists. The source
  raises from the constructor in that case, and an instance that raised is not modelled.
- Settings.Stamped: the `datetime.now().isoformat()` stamp is a parameter.
- `format_daily_report` is an alias of `format_morning_report` and is not modelled separately.
- `format_time_from_iso` and the datetime parsing inside `extract_sleep_date` are library calls. Their
  results are data of a timestamp record.
- `get_personal_info`, `get_all_daily_data`, `get_heart_rate`, `get_workout`,
  `get_workouts_range` and `get_daily_stress` of the Oura client are not part of this model.
- `run_sync`, `create_embed_from_section` and the settings and client singletons of
  `src/bot_utils.py` are not part of this model.
- Present Oura records are never empty dictionaries, so they are truthy. A `steps` key holding JSON
  null reads as absent.
- Formatter.SleepSection, Formatter.ReadinessSection, Formatter.MorningReport, Formatter.NightReport
  and Formatter.AlertMessage: do not represent a `score`, `active_calories` or `contributors` key that
  is present but JSON null. `dict.get` returns `None` for such a key rather than the default. The
  source then raises `TypeError` (comparing `None` with a threshold, or `f"{None:,}"`) or
  `AttributeError` (`None.get`). The model treats the key as absent and uses the default instead.
- OuraClient.BuildPeriodData, OuraClient.WeeklyDataFor and OuraClient.MonthlyDataFor: days are
  unbounded integers. The source raises `OverflowError` for a window that would pass
  `date.min` or `date.max` (`end_date - timedelta(...)`, `current += timedelta(days=1)`). No
  real clock reaches those dates.
- The scheduler's channel `send` is the message in the result whether or not it raises. A failed
  send is only logged.
- The stamps of the two writes of a tick are separate parameters.
- DiscordClient.SendHealthReport: builds the chunk payloads before the loop instead of one per
  iteration. No observable result depends on when they are built.
- Two behaviours of the code that a reader might not expect, both modelled as written:
  - `_request` retries any `RequestException`, and the `HTTPError` of `raise_for_status` is one. So
    4xx replies are retried until the last attempt as well.
  - The noon report does not clamp the elapsed hours above 15, so after 23:00 the expected count
    passes the goal.
