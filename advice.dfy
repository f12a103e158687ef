/**
 * The advice generator of src/advice.py: four independent rules (readiness,
 * sleep score, steps against the goal, activity score), each adding at most
 * one canned block, joined by a blank line, with a default block when no rule
 * fires; and the one-line quick tip keyed on readiness.
 *
 * The ratio tests `steps / steps_goal >= 1.0`, `>= 0.7`, `< 0.3` and `< 0.5`
 * are taken as the exact rational comparisons they stand for, written as
 * integer cross-multiplication (the goal is positive wherever they are made).
 */
module Advice {
  import opened Common
  import opened Numbers

  /** One advice block; the text of each is `BlockText`. */
  datatype Block =
    | ConditionExcellent          // readiness >= 85
    | ConditionGood               // readiness 70..84
    | SomewhatTired               // readiness 60..69
    | PrioritizeRecovery          // readiness < 60
    | SleepInsufficient           // sleep score < 60
    | SleepScoreLow               // sleep score 60..69
    | StepGoalReached(steps: int)
    | StepGoalClose(remaining: int)
    | StepsLow(steps: int, goal: int)
    | ActivityEnough              // activity score >= 85
    | ActivityLow                 // activity score < 50 and few steps
    | NoIssues                    // the default when nothing else applies

  /** Which rule a block comes from; blocks are emitted in this order. */
  datatype Rule = ReadinessRule | SleepRule | StepsRule | ActivityRule | DefaultRule

  function RuleOf(b: Block): Rule {
    match b
    case ConditionExcellent | ConditionGood | SomewhatTired | PrioritizeRecovery => ReadinessRule
    case SleepInsufficient | SleepScoreLow => SleepRule
    case StepGoalReached(_) | StepGoalClose(_) | StepsLow(_, _) => StepsRule
    case ActivityEnough | ActivityLow => ActivityRule
    case NoIssues => DefaultRule
  }

  function RuleRank(r: Rule): nat {
    match r
    case ReadinessRule => 0
    case SleepRule => 1
    case StepsRule => 2
    case ActivityRule => 3
    case DefaultRule => 4
  }

  /** The readiness rule (src/advice.py:29-53). */
  function ReadinessAdvice(readiness: Option<int>): seq<Block> {
    match readiness
    case None => []
    case Some(r) =>
      if r >= 85 then [ConditionExcellent]
      else if r >= 70 then [ConditionGood]
      else if r >= 60 then [SomewhatTired]
      else [PrioritizeRecovery]
  }

  /** The sleep-score rule (src/advice.py:56-68). */
  function SleepAdvice(sleep: Option<int>): seq<Block> {
    match sleep
    case None => []
    case Some(s) =>
      if s < 60 then [SleepInsufficient]
      else if s < 70 then [SleepScoreLow]
      else []
  }

  /** The steps rule (src/advice.py:71-92); the 30-70 % band says nothing. */
  function StepsAdvice(steps: Option<int>, goal: int): seq<Block> {
    if steps.None? || goal <= 0 then []
    else
      var s := steps.value;
      if s >= goal then [StepGoalReached(s)]
      else if 10 * s >= 7 * goal then [StepGoalClose(goal - s)]
      else if 10 * s < 3 * goal then [StepsLow(s, goal)]
      else []
  }

  /** The activity rule (src/advice.py:95-106). */
  function ActivityAdvice(activity: Option<int>, steps: Option<int>, goal: int): seq<Block> {
    match activity
    case None => []
    case Some(a) =>
      if a >= 85 then [ActivityEnough]
      else if a < 50 && (steps.None? || (goal > 0 && 2 * steps.value < goal)) then [ActivityLow]
      else []
  }

  /**
   * The blocks `generate_advice` joins, in order: at most one per rule and at
   * least one in all; a readiness score always leads with its readiness block.
   */
  function AdviceBlocks(readiness: Option<int>, sleep: Option<int>, activity: Option<int>,
                        steps: Option<int>, goal: int): (bs: seq<Block>)
    ensures 1 <= |bs| <= 4
    ensures readiness.Some? ==> bs[0] == ReadinessAdvice(readiness)[0]
  {
    Join(ReadinessAdvice(readiness), SleepAdvice(sleep), StepsAdvice(steps, goal),
         ActivityAdvice(activity, steps, goal))
  }

  /** The four rules' parts in order, or the default block when all are empty. */
  function Join(R: seq<Block>, S: seq<Block>, T: seq<Block>, A: seq<Block>): seq<Block> {
    var parts := R + S + T + A;
    if parts == [] then [NoIssues] else parts
  }

  function BlockText(b: Block): string {
    match b
    case ConditionExcellent =>
      ":fire: **コンディション絶好調！**\n今日は積極的に活動しても大丈夫です。\n運動や重要なタスクに最適な日。"
    case ConditionGood =>
      ":thumbsup: **コンディション良好**\nいつも通りのペースで過ごしましょう。\n適度な活動とバランスの取れた一日を。"
    case SomewhatTired =>
      ":warning: **やや疲れ気味**\n今日は無理せず、適度に休息を取りましょう。\n激しい運動は避けて。"
    case PrioritizeRecovery =>
      ":battery: **回復を優先しましょう**\n今日は休息日にすることをお勧めします。\n早めの就寝と水分補給を心がけて。"
    case SleepInsufficient =>
      ":zzz: **睡眠が不足しています**\n今夜は早めに就寝しましょう（目標: 22:30）\nカフェインは14時以降控えめに。"
    case SleepScoreLow =>
      ":bed: **睡眠スコアが低めです**\n今夜は普段より30分早く寝ることを推奨。\n就寝前のスマホ使用を控えましょう。"
    case StepGoalReached(s) =>
      ":star2: **歩数目標達成！**\n素晴らしい！" + Grouped(s) + " 歩歩きました。\nこの調子を維持しましょう。"
    case StepGoalClose(rem) =>
      ":walking: **歩数目標まであと少し**\nあと " + Grouped(rem) + " 歩で達成！\n夕方の散歩で達成できそうです。"
    case StepsLow(s, g) =>
      ":footprints: **歩数が少なめです**\n現在 " + Grouped(s) + " 歩 / 目標 " + Grouped(g)
      + " 歩\n階段を使う・一駅歩くなど工夫を。"
    case ActivityEnough =>
      ":muscle: **活動量が十分です**\n今日の運動は順調！休息も大切に。"
    case ActivityLow =>
      ":couch_and_lamp: **活動量が少なめ**\nデスクワークが多い日？\n1時間に1回は立ち上がりましょう。"
    case NoIssues =>
      ":sparkles: **特に問題なし**\n今日も健康的に過ごしていますね！\nこの調子で良いバランスを維持しましょう。"
  }

  /** `sep.join(parts)`. */
  function JoinWith(parts: seq<string>, sep: string): (s: string)
    ensures parts != [] ==> parts[0] <= s
    ensures |parts| == 1 ==> s == parts[0]
  {
    if parts == [] then ""
    else if |parts| == 1 then parts[0]
    else parts[0] + sep + JoinWith(parts[1..], sep)
  }

  /** The texts of the blocks, in order. */
  function Texts(blocks: seq<Block>): (ts: seq<string>)
    ensures |ts| == |blocks| && forall i :: 0 <= i < |blocks| ==> ts[i] == BlockText(blocks[i])
  {
    seq(|blocks|, i requires 0 <= i < |blocks| => BlockText(blocks[i]))
  }

  /** `"\n\n".join(...)` of the block texts. */
  function JoinBlocks(blocks: seq<Block>): (s: string)
    ensures blocks != [] ==> BlockText(blocks[0]) <= s
    ensures |blocks| == 1 ==> s == BlockText(blocks[0])
  {
    JoinWith(Texts(blocks), "\n\n")
  }

  /** `generate_advice` (src/advice.py:6-116). */
  function GenerateAdvice(readiness: Option<int>, sleep: Option<int>, activity: Option<int>,
                          steps: Option<int>, goal: int): (text: string)
    ensures BlockText(AdviceBlocks(readiness, sleep, activity, steps, goal)[0]) <= text
    ensures readiness.None? && sleep.None? && activity.None? && steps.None?
            ==> text == BlockText(NoIssues)
  {
    JoinBlocks(AdviceBlocks(readiness, sleep, activity, steps, goal))
  }

  /** `get_quick_tip` (src/advice.py:119-131): the readiness bands 85, 70 and 60, a greeting without a score. */
  function QuickTip(readiness: Option<int>): (tip: string)
    ensures tip == "今日も良い一日を！" <==> readiness.None?
    ensures readiness.Some? ==> (tip == "絶好調！今日は攻めの一日に。" <==> readiness.value >= 85)
    ensures readiness.Some? ==> (tip == "良好です。バランスの取れた一日を。" <==> 70 <= readiness.value < 85)
    ensures readiness.Some? ==> (tip == "少し疲れ気味。無理せずに。" <==> 60 <= readiness.value < 70)
    ensures readiness.Some? ==> (tip == "回復優先。早めに休みましょう。" <==> readiness.value < 60)
  {
    match readiness
    case None => "今日も良い一日を！"
    case Some(r) =>
      if r >= 85 then "絶好調！今日は攻めの一日に。"
      else if r >= 70 then "良好です。バランスの取れた一日を。"
      else if r >= 60 then "少し疲れ気味。無理せずに。"
      else "回復優先。早めに休みましょう。"
  }

  // ---------------------------------------------------------------------
  // Properties
  // ---------------------------------------------------------------------

  /** Number of blocks in `bs` that come from rule `r`. */
  function CountRule(bs: seq<Block>, r: Rule): nat {
    if bs == [] then 0 else (if RuleOf(bs[0]) == r then 1 else 0) + CountRule(bs[1..], r)
  }

  lemma {:induction false} CountRuleAppend(a: seq<Block>, b: seq<Block>, r: Rule)
    ensures CountRule(a + b, r) == CountRule(a, r) + CountRule(b, r)
    decreases |a|
  {
    if a == [] {
      assert a + b == b;
    } else {
      assert (a + b)[0] == a[0];
      assert (a + b)[1..] == a[1..] + b;
      CountRuleAppend(a[1..], b, r);
    }
  }

  /** The blocks are grouped by rule in the order readiness, sleep, steps, activity, default. */
  ghost predicate InRuleOrder(bs: seq<Block>) {
    forall i, j :: 0 <= i < j < |bs| ==> RuleRank(RuleOf(bs[i])) <= RuleRank(RuleOf(bs[j]))
  }

  /** Every block of `part` comes from rule `r`. */
  ghost predicate KeepsTo(part: seq<Block>, r: Rule) {
    forall b :: b in part ==> RuleOf(b) == r
  }

  /** The four parts of a join, each holding only blocks of its own rule. */
  ghost predicate WellSorted(R: seq<Block>, S: seq<Block>, T: seq<Block>, A: seq<Block>) {
    KeepsTo(R, ReadinessRule) && KeepsTo(S, SleepRule) && KeepsTo(T, StepsRule)
    && KeepsTo(A, ActivityRule)
  }

  /** The part of a join that rule `r` contributes. */
  function PartOf(r: Rule, R: seq<Block>, S: seq<Block>, T: seq<Block>, A: seq<Block>): seq<Block> {
    match r
    case ReadinessRule => R
    case SleepRule => S
    case StepsRule => T
    case ActivityRule => A
    case DefaultRule => []
  }

  /** A part that holds no block of rule `r` contributes nothing to its count. */
  lemma {:induction false} CountRuleAbsent(bs: seq<Block>, r: Rule)
    requires forall b :: b in bs ==> RuleOf(b) != r
    ensures CountRule(bs, r) == 0
    decreases |bs|
  {
    if bs != [] {
      assert bs[0] in bs;
      assert forall b :: b in bs[1..] ==> b in bs;
      CountRuleAbsent(bs[1..], r);
    }
  }

  /** Each rule's part holds only blocks of that rule. */
  lemma PartsKeepToTheirRule(readiness: Option<int>, sleep: Option<int>, activity: Option<int>,
                             steps: Option<int>, goal: int)
    ensures WellSorted(ReadinessAdvice(readiness), SleepAdvice(sleep), StepsAdvice(steps, goal),
                       ActivityAdvice(activity, steps, goal))
  {
  }

  /** A rule's block is in a join exactly when that rule's own part holds it. */
  lemma JoinMember(R: seq<Block>, S: seq<Block>, T: seq<Block>, A: seq<Block>, b: Block)
    requires WellSorted(R, S, T, A)
    requires RuleOf(b) != DefaultRule
    ensures b in Join(R, S, T, A) <==> b in PartOf(RuleOf(b), R, S, T, A)
  {
    if R + S + T + A == [] {
      assert |R| + |S| + |T| + |A| == 0;
    } else {
      assert b in R + S + T + A <==> b in R || b in S || b in T || b in A;
    }
  }

  /** The number of blocks of rule `r` in a join is the number in that rule's own part. */
  lemma JoinCount(R: seq<Block>, S: seq<Block>, T: seq<Block>, A: seq<Block>, r: Rule)
    requires WellSorted(R, S, T, A)
    requires r != DefaultRule
    ensures CountRule(Join(R, S, T, A), r) == CountRule(PartOf(r, R, S, T, A), r)
  {
    CountRuleAppend(R, S, r);
    CountRuleAppend(R + S, T, r);
    CountRuleAppend(R + S + T, A, r);
    if r != ReadinessRule { CountRuleAbsent(R, r); }
    if r != SleepRule { CountRuleAbsent(S, r); }
    if r != StepsRule { CountRuleAbsent(T, r); }
    if r != ActivityRule { CountRuleAbsent(A, r); }
    if R + S + T + A == [] {
      assert CountRule([NoIssues], r) == 0;
    }
  }

  /** A join is never empty, and holds the default block exactly when every part is empty. */
  lemma JoinDefault(R: seq<Block>, S: seq<Block>, T: seq<Block>, A: seq<Block>)
    requires WellSorted(R, S, T, A)
    ensures var bs := Join(R, S, T, A);
      && bs != []
      && (NoIssues in bs <==> bs == [NoIssues])
      && (NoIssues in bs <==> R == [] && S == [] && T == [] && A == [])
  {
    var bs := Join(R, S, T, A);
    if R + S + T + A == [] {
      assert |R| + |S| + |T| + |A| == 0;
    } else {
      forall b | b in R + S + T + A
        ensures RuleOf(b) != DefaultRule
      {
        assert b in R || b in S || b in T || b in A;
      }
      assert bs[0] in R + S + T + A;
    }
  }

  /** A join lists its parts' blocks in rule order. */
  lemma JoinInRuleOrder(R: seq<Block>, S: seq<Block>, T: seq<Block>, A: seq<Block>)
    requires WellSorted(R, S, T, A)
    ensures InRuleOrder(Join(R, S, T, A))
  {
    var bs := Join(R, S, T, A);
    if R + S + T + A != [] {
      forall i, j | 0 <= i < j < |bs|
        ensures RuleRank(RuleOf(bs[i])) <= RuleRank(RuleOf(bs[j]))
      {
        RankAtIndex(R, S, T, A, i);
        RankAtIndex(R, S, T, A, j);
      }
    }
  }

  /** The rank of position `k` in `R + S + T + A`, given each part holds one rule. */
  function RankAt(R: seq<Block>, S: seq<Block>, T: seq<Block>, A: seq<Block>, k: int): nat {
    if k < |R| then 0 else if k < |R| + |S| then 1 else if k < |R| + |S| + |T| then 2 else 3
  }

  lemma RankAtIndex(R: seq<Block>, S: seq<Block>, T: seq<Block>, A: seq<Block>, k: int)
    requires WellSorted(R, S, T, A)
    requires 0 <= k < |R + S + T + A|
    ensures RuleRank(RuleOf((R + S + T + A)[k])) == RankAt(R, S, T, A, k)
  {
    var bs := R + S + T + A;
    if k < |R| {
      assert bs[k] == R[k] && R[k] in R;
    } else if k < |R| + |S| {
      assert bs[k] == S[k - |R|] && S[k - |R|] in S;
    } else if k < |R| + |S| + |T| {
      assert bs[k] == T[k - |R| - |S|] && T[k - |R| - |S|] in T;
    } else {
      assert bs[k] == A[k - |R| - |S| - |T|] && A[k - |R| - |S| - |T|] in A;
    }
  }

  /** Exactly one readiness block when a readiness score is given, none otherwise. */
  lemma ReadinessBlockCount(readiness: Option<int>, sleep: Option<int>, activity: Option<int>,
                            steps: Option<int>, goal: int)
    ensures CountRule(AdviceBlocks(readiness, sleep, activity, steps, goal), ReadinessRule)
            == if readiness.Some? then 1 else 0
  {
    var R, S, T, A := ReadinessAdvice(readiness), SleepAdvice(sleep), StepsAdvice(steps, goal),
                      ActivityAdvice(activity, steps, goal);
    PartsKeepToTheirRule(readiness, sleep, activity, steps, goal);
    JoinCount(R, S, T, A, ReadinessRule);
    if readiness.Some? {
      assert CountRule(R, ReadinessRule) == 1 by {
        assert |R| == 1 && RuleOf(R[0]) == ReadinessRule && R[1..] == [];
      }
    }
  }

  /** The readiness block is the one of the score's band: 85, 70 and 60 are the thresholds. */
  lemma ReadinessBlockBand(readiness: Option<int>, sleep: Option<int>, activity: Option<int>,
                           steps: Option<int>, goal: int)
    requires readiness.Some?
    ensures var bs := AdviceBlocks(readiness, sleep, activity, steps, goal);
            var r := readiness.value;
            && (ConditionExcellent in bs <==> r >= 85)
            && (ConditionGood in bs <==> 70 <= r < 85)
            && (SomewhatTired in bs <==> 60 <= r < 70)
            && (PrioritizeRecovery in bs <==> r < 60)
  {
    var R, S, T, A := ReadinessAdvice(readiness), SleepAdvice(sleep), StepsAdvice(steps, goal),
                      ActivityAdvice(activity, steps, goal);
    PartsKeepToTheirRule(readiness, sleep, activity, steps, goal);
    JoinMember(R, S, T, A, ConditionExcellent);
    JoinMember(R, S, T, A, ConditionGood);
    JoinMember(R, S, T, A, SomewhatTired);
    JoinMember(R, S, T, A, PrioritizeRecovery);
  }

  /** The two sleep blocks are exclusive and follow the sleep score's band. */
  lemma SleepBlocks(readiness: Option<int>, sleep: Option<int>, activity: Option<int>,
                    steps: Option<int>, goal: int)
    ensures var bs := AdviceBlocks(readiness, sleep, activity, steps, goal);
      && (SleepInsufficient in bs <==> sleep.Some? && sleep.value < 60)
      && (SleepScoreLow in bs <==> sleep.Some? && 60 <= sleep.value < 70)
      && !(SleepInsufficient in bs && SleepScoreLow in bs)
  {
    var R, S, T, A := ReadinessAdvice(readiness), SleepAdvice(sleep), StepsAdvice(steps, goal),
                      ActivityAdvice(activity, steps, goal);
    PartsKeepToTheirRule(readiness, sleep, activity, steps, goal);
    JoinMember(R, S, T, A, SleepInsufficient);
    JoinMember(R, S, T, A, SleepScoreLow);
  }

  /**
   * At most one steps block; none without a step count or a positive goal,
   * and none between 30 % and 70 % of the goal.
   */
  lemma StepsBlockCount(readiness: Option<int>, sleep: Option<int>, activity: Option<int>,
                        steps: Option<int>, goal: int)
    ensures var n := CountRule(AdviceBlocks(readiness, sleep, activity, steps, goal), StepsRule);
      && n <= 1
      && (steps.None? || goal <= 0 ==> n == 0)
      && (steps.Some? && goal > 0 && 3 * goal <= 10 * steps.value < 7 * goal ==> n == 0)
  {
    var R, S, T, A := ReadinessAdvice(readiness), SleepAdvice(sleep), StepsAdvice(steps, goal),
                      ActivityAdvice(activity, steps, goal);
    PartsKeepToTheirRule(readiness, sleep, activity, steps, goal);
    JoinCount(R, S, T, A, StepsRule);
    if T != [] {
      assert T[1..] == [];
    }
  }

  /**
   * With a step count and a positive goal: "reached" at 100 %, "close" from
   * 70 % with the remaining count, "low" under 30 %.
   */
  lemma StepsBlockBand(readiness: Option<int>, sleep: Option<int>, activity: Option<int>,
                       steps: Option<int>, goal: int)
    requires steps.Some? && goal > 0
    ensures var bs := AdviceBlocks(readiness, sleep, activity, steps, goal);
            var s := steps.value;
            && (StepGoalReached(s) in bs <==> s >= goal)
            && (StepGoalClose(goal - s) in bs <==> s < goal && 10 * s >= 7 * goal)
            && (StepsLow(s, goal) in bs <==> 10 * s < 3 * goal)
  {
    var s := steps.value;
    var R, S, T, A := ReadinessAdvice(readiness), SleepAdvice(sleep), StepsAdvice(steps, goal),
                      ActivityAdvice(activity, steps, goal);
    PartsKeepToTheirRule(readiness, sleep, activity, steps, goal);
    JoinMember(R, S, T, A, StepGoalReached(s));
    JoinMember(R, S, T, A, StepGoalClose(goal - s));
    JoinMember(R, S, T, A, StepsLow(s, goal));
  }

  /**
   * "Enough activity" at 85 and above; "low activity" under 50 only when the
   * step count is unknown or under half of a positive goal, so never when a
   * step count is given and the goal is not positive.
   */
  lemma ActivityBlocks(readiness: Option<int>, sleep: Option<int>, activity: Option<int>,
                       steps: Option<int>, goal: int)
    ensures var bs := AdviceBlocks(readiness, sleep, activity, steps, goal);
      && (ActivityEnough in bs <==> activity.Some? && activity.value >= 85)
      && (ActivityLow in bs <==>
            activity.Some? && activity.value < 50
            && (steps.None? || (goal > 0 && 2 * steps.value < goal)))
      && (steps.Some? && goal <= 0 ==> ActivityLow !in bs)
  {
    var R, S, T, A := ReadinessAdvice(readiness), SleepAdvice(sleep), StepsAdvice(steps, goal),
                      ActivityAdvice(activity, steps, goal);
    PartsKeepToTheirRule(readiness, sleep, activity, steps, goal);
    JoinMember(R, S, T, A, ActivityEnough);
    JoinMember(R, S, T, A, ActivityLow);
  }

  /** The default block appears exactly when no rule fired, so there is always advice. */
  lemma DefaultBlockExactlyWhenNothingElse(readiness: Option<int>, sleep: Option<int>,
                                           activity: Option<int>, steps: Option<int>, goal: int)
    ensures var bs := AdviceBlocks(readiness, sleep, activity, steps, goal);
      && bs != []
      && (NoIssues in bs <==> bs == [NoIssues])
      && (NoIssues in bs <==>
            && ReadinessAdvice(readiness) == [] && SleepAdvice(sleep) == []
            && StepsAdvice(steps, goal) == [] && ActivityAdvice(activity, steps, goal) == [])
  {
    PartsKeepToTheirRule(readiness, sleep, activity, steps, goal);
    JoinDefault(ReadinessAdvice(readiness), SleepAdvice(sleep), StepsAdvice(steps, goal),
                ActivityAdvice(activity, steps, goal));
  }

  /** Blocks always come out in the order readiness, sleep, steps, activity. */
  lemma BlocksInRuleOrder(readiness: Option<int>, sleep: Option<int>, activity: Option<int>,
                          steps: Option<int>, goal: int)
    ensures InRuleOrder(AdviceBlocks(readiness, sleep, activity, steps, goal))
  {
    PartsKeepToTheirRule(readiness, sleep, activity, steps, goal);
    JoinInRuleOrder(ReadinessAdvice(readiness), SleepAdvice(sleep), StepsAdvice(steps, goal),
                    ActivityAdvice(activity, steps, goal));
  }

  /** Joining splits at every boundary into the two joins and the separator. */
  lemma {:induction false} JoinWithSplit(parts: seq<string>, sep: string, i: nat)
    requires 0 < i < |parts|
    ensures JoinWith(parts, sep) == JoinWith(parts[..i], sep) + sep + JoinWith(parts[i..], sep)
    decreases i
  {
    var rest := parts[1..];
    if i > 1 {
      JoinWithSplit(rest, sep, i - 1);
      assert parts[..i][1..] == rest[..i - 1];
      assert rest[i - 1..] == parts[i..];
    }
  }

  /** `t` occurs in `s` at offset `at`. */
  predicate OccursAt(t: string, s: string, at: nat) {
    at + |t| <= |s| && s[at..at + |t|] == t
  }

  /** Every part occurs in the joined text. */
  lemma JoinWithHasEveryPart(parts: seq<string>, sep: string, i: nat)
    requires i < |parts|
    ensures exists at :: OccursAt(parts[i], JoinWith(parts, sep), at)
  {
    var t := parts[i];
    var s := JoinWith(parts, sep);
    if i == 0 {
      assert OccursAt(t, s, 0);
    } else {
      JoinWithSplit(parts, sep, i);
      var head := JoinWith(parts[..i], sep) + sep;
      var tail := JoinWith(parts[i..], sep);
      assert parts[i..][0] == t;
      assert s == head + tail;
      assert s[|head|..|head| + |t|] == tail[..|t|];
      assert OccursAt(t, s, |head|);
    }
  }

  /** The advice text splits at every block boundary, with a blank line between the two halves. */
  lemma JoinBlocksSplit(blocks: seq<Block>, i: nat)
    requires 0 < i < |blocks|
    ensures JoinBlocks(blocks) == JoinBlocks(blocks[..i]) + "\n\n" + JoinBlocks(blocks[i..])
  {
    var ts := Texts(blocks);
    JoinWithSplit(ts, "\n\n", i);
    TextsSlices(blocks, i);
  }

  lemma TextsSlices(blocks: seq<Block>, i: nat)
    requires i <= |blocks|
    ensures Texts(blocks)[..i] == Texts(blocks[..i]) && Texts(blocks)[i..] == Texts(blocks[i..])
  {
    var ts := Texts(blocks);
    forall k | 0 <= k < i ensures ts[..i][k] == Texts(blocks[..i])[k] {
      assert blocks[..i][k] == blocks[k];
    }
    forall k | 0 <= k < |blocks| - i ensures ts[i..][k] == Texts(blocks[i..])[k] {
      assert blocks[i..][k] == blocks[i + k];
    }
  }

  /** The text of every block appears in the advice text. */
  lemma JoinBlocksHasEveryBlock(blocks: seq<Block>, i: nat)
    requires i < |blocks|
    ensures exists at :: OccursAt(BlockText(blocks[i]), JoinBlocks(blocks), at)
  {
    var ts := Texts(blocks);
    JoinWithHasEveryPart(ts, "\n\n", i);
    var at :| OccursAt(ts[i], JoinWith(ts, "\n\n"), at);
    assert JoinBlocks(blocks) == JoinWith(ts, "\n\n");
    assert OccursAt(BlockText(blocks[i]), JoinBlocks(blocks), at);
  }

  /** Scenario of the tests: readiness 90, sleep 55 and 10000 of 8000 steps give all three blocks. */
  lemma CombinedAdvice()
    ensures AdviceBlocks(Some(90), Some(55), None, Some(10000), 8000)
            == [ConditionExcellent, SleepInsufficient, StepGoalReached(10000)]
  {
  }

  /** Scenario: activity 40 with 2000 of 8000 steps is low activity; with 7000 steps it is not. */
  lemma LowActivityScenarios()
    ensures ActivityLow in AdviceBlocks(None, None, Some(40), Some(2000), 8000)
    ensures ActivityLow !in AdviceBlocks(None, None, Some(40), Some(7000), 8000)
  {
  }

  /**
   * The quick tip uses the readiness advice's bands: two scores get the same
   * tip exactly when they get the same readiness block.
   */
  lemma QuickTipFollowsReadinessBands(r: int, s: int)
    ensures QuickTip(Some(r)) == QuickTip(Some(s)) <==> ReadinessAdvice(Some(r)) == ReadinessAdvice(Some(s))
    ensures QuickTip(Some(r)) != QuickTip(None)
  {
  }
}
