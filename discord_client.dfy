/**
 * The Discord webhook client: `_post` with its bounded retry loop, the plain
 * and embed messages, and the health report split into posts of at most ten
 * embeds. The HTTP transport is a function from the global attempt number
 * (0, 1, 2, ... over the client's lifetime) to what that attempt got back:
 * a status code, or a `requests.RequestException`. The client's settings
 * never change after construction, so they are parameters here.
 */
module DiscordClient {
  import opened Common
  import Formatter

  const BotName := "Oura Ring Bot"
  const ReportColor := 0x00D4AA
  const EmbedColor := 0x7289DA
  const RetryStatusCodes: set<int> := {429, 500, 502, 503, 504}
  const NoContent := 204
  const ChunkSize := 10

  /** What one POST attempt gets back. */
  datatype Reply = Status(code: int) | RequestFailed

  /** An embed object; `fields` and `footer` are `None` when the key is absent. */
  datatype Embed = Embed(title: string, description: string, color: int,
                         fields: Option<seq<Formatter.Field>>, footer: Option<string>)

  /**
   * A webhook payload. `username` is always present (its value may be JSON
   * null); the other members are `None` when the key is absent.
   */
  datatype Payload = Payload(username: Option<string>, content: Option<string>,
                             avatarUrl: Option<string>, embeds: Option<seq<Embed>>)

  /** A report section as a dictionary whose keys may be missing. */
  datatype ReportSection = ReportSection(title: Option<string>, description: Option<string>,
                                         color: Option<int>, fields: Option<seq<Formatter.Field>>)

  // ---------------------------------------------------------------------
  // _post (src/discord_client.py:27-68)
  // ---------------------------------------------------------------------

  /** Attempt `attempt` of `maxRetries` ends the loop: it was the last one, or its status is not retried. */
  predicate Final(reply: Reply, attempt: int, maxRetries: int) {
    attempt >= maxRetries || (reply.Status? && reply.code !in RetryStatusCodes)
  }

  /** Attempt `j` (counting from 1) was followed by another. */
  predicate Retried(maxRetries: int, network: nat -> Reply, start: nat, j: nat)
    requires j >= 1
  {
    !Final(network(start + j - 1), j, maxRetries)
  }

  /** The attempts `_post` makes when it reaches attempt `attempt`: up to the first final one. */
  function AttemptsFrom(maxRetries: int, network: nat -> Reply, start: nat, attempt: nat): (n: nat)
    requires attempt >= 1
    ensures attempt <= maxRetries ==> attempt <= n <= maxRetries
    ensures attempt > maxRetries ==> n == attempt - 1
    ensures forall j :: attempt <= j < n ==> Retried(maxRetries, network, start, j)
    ensures n >= attempt ==> Final(network(start + n - 1), n, maxRetries)
    decreases maxRetries - attempt
  {
    if attempt > maxRetries then attempt - 1
    else if Final(network(start + attempt - 1), attempt, maxRetries) then attempt
    else AttemptsFrom(maxRetries, network, start, attempt + 1)
  }

  /** How many attempts `_post` makes when its first attempt has global number `start`. */
  function Attempts(maxRetries: int, network: nat -> Reply, start: nat): nat {
    AttemptsFrom(maxRetries, network, start, 1)
  }

  /** What `_post` returns: the status of its final attempt, `None` when that attempt raised or there was none. */
  function PostResult(maxRetries: int, network: nat -> Reply, start: nat): Option<int> {
    var n := Attempts(maxRetries, network, start);
    if n == 0 then None
    else match network(start + n - 1)
      case Status(code) => Some(code)
      case RequestFailed => None
  }

  /**
   * `_post`: tries up to `maxRetries` times, retrying a retryable status or
   * a request exception while attempts remain; the sleeps between attempts
   * are not modelled.
   */
  method Post(maxRetries: int, network: nat -> Reply, start: nat) returns (response: Option<int>, attempts: nat)
    ensures attempts == Attempts(maxRetries, network, start)
    ensures response == PostResult(maxRetries, network, start)
  {
    var attempt := 1;
    while attempt <= maxRetries
      invariant 1 <= attempt
      invariant maxRetries >= 1 ==> attempt <= maxRetries
      invariant maxRetries < 1 ==> attempt == 1
      invariant AttemptsFrom(maxRetries, network, start, attempt) == Attempts(maxRetries, network, start)
      decreases maxRetries - attempt
    {
      var reply := network(start + attempt - 1);
      if reply.RequestFailed? {
        if attempt < maxRetries {
          attempt := attempt + 1;
          continue;
        }
        return None, attempt;
      }
      var shouldRetry := false;
      if reply.code == 429 && attempt < maxRetries {
        shouldRetry := true;
      } else if reply.code in RetryStatusCodes && attempt < maxRetries {
        shouldRetry := true;
      }
      if shouldRetry {
        attempt := attempt + 1;
        continue;
      }
      return Some(reply.code), attempt;
    }
    return None, 0;
  }

  /** `_post` makes at most `maxRetries` attempts, at least one when `maxRetries >= 1`, and every attempt before the last was retried. */
  lemma PostAttempts(maxRetries: int, network: nat -> Reply, start: nat)
    ensures var n := Attempts(maxRetries, network, start);
      (n == 0 <==> maxRetries < 1) && (maxRetries >= 1 ==> n <= maxRetries)
      && (forall j :: 1 <= j < n ==> Retried(maxRetries, network, start, j))
  {
  }

  /** A status that is not retried ends `_post` at once and is returned, 204 or not. */
  lemma PostFirstReplyFinal(maxRetries: int, network: nat -> Reply, start: nat)
    requires maxRetries >= 1 && network(start).Status? && network(start).code !in RetryStatusCodes
    ensures Attempts(maxRetries, network, start) == 1
    ensures PostResult(maxRetries, network, start) == Some(network(start).code)
  {
  }

  /** When every attempt raises, `_post` makes all `maxRetries` attempts and returns `None`. */
  lemma PostAllRaise(maxRetries: int, network: nat -> Reply, start: nat)
    requires maxRetries >= 1
    requires forall i :: start <= i < start + maxRetries ==> network(i) == RequestFailed
    ensures Attempts(maxRetries, network, start) == maxRetries
    ensures PostResult(maxRetries, network, start) == None
  {
    var n := Attempts(maxRetries, network, start);
    assert network(start + n - 1) == RequestFailed;
  }

  /**
   * When no attempt within `maxRetries` gets a status that ends the loop
   * (each one is retryable or raises), `_post` makes every attempt and
   * returns what the last one got: its status, or `None` when it raised.
   */
  lemma PostNoFinalReply(maxRetries: int, network: nat -> Reply, start: nat)
    requires maxRetries >= 1
    requires forall i :: start <= i < start + maxRetries ==>
               network(i).RequestFailed? || network(i).code in RetryStatusCodes
    ensures Attempts(maxRetries, network, start) == maxRetries
    ensures PostResult(maxRetries, network, start)
            == match network(start + maxRetries - 1)
               case Status(code) => Some(code)
               case RequestFailed => None
  {
    var n := Attempts(maxRetries, network, start);
    assert network(start + n - 1).RequestFailed? || network(start + n - 1).code in RetryStatusCodes;
  }

  /** A retryable status is returned only by the last attempt, and then as it is. */
  lemma PostRetryableOnlyLast(maxRetries: int, network: nat -> Reply, start: nat)
    requires PostResult(maxRetries, network, start).Some?
    requires PostResult(maxRetries, network, start).value in RetryStatusCodes
    ensures Attempts(maxRetries, network, start) == maxRetries
  {
    var n := Attempts(maxRetries, network, start);
    assert n >= 1;
    assert network(start + n - 1) == Status(PostResult(maxRetries, network, start).value);
  }

  // ---------------------------------------------------------------------
  // send_message and send_embed (src/discord_client.py:70-116)
  // ---------------------------------------------------------------------

  /** The payload of `send_message`: `avatar_url` only when it is a non-empty string. */
  function MessagePayload(content: string, username: Option<string>, avatarUrl: Option<string>): (p: Payload)
    ensures p.content == Some(content) && p.username == username && p.embeds.None?
    ensures p.avatarUrl.Some? <==> TruthyStr(avatarUrl)
    ensures p.avatarUrl.Some? ==> p.avatarUrl == avatarUrl
  {
    Payload(username, Some(content), if TruthyStr(avatarUrl) then avatarUrl else None, None)
  }

  /** The payload of `send_embed`: one embed, with `fields` only when non-empty and a `footer` only when non-empty. */
  function EmbedPayload(title: string, description: string, color: int, fields: Option<seq<Formatter.Field>>,
                        username: Option<string>, footer: Option<string>): (p: Payload)
    ensures p.username == username && p.content.None? && p.avatarUrl.None?
    ensures p.embeds.Some? && |p.embeds.value| == 1
    ensures var e := p.embeds.value[0];
      e.title == title && e.description == description && e.color == color
      && (e.fields.Some? <==> fields.Some? && fields.value != []) && (e.fields.Some? ==> e.fields == fields)
      && (e.footer.Some? <==> TruthyStr(footer)) && (e.footer.Some? ==> e.footer == footer)
  {
    var e := Embed(title, description, color,
                   if fields.Some? && fields.value != [] then fields else None,
                   if TruthyStr(footer) then footer else None);
    Payload(username, None, None, Some([e]))
  }

  /** `send_message`: posts the message; true exactly when `_post` returns a 204 response. */
  method SendMessage(content: string, username: Option<string>, avatarUrl: Option<string>,
                     maxRetries: int, network: nat -> Reply, start: nat)
    returns (ok: bool, sent: Payload, attempts: nat)
    ensures sent == MessagePayload(content, username, avatarUrl)
    ensures ok <==> PostResult(maxRetries, network, start) == Some(NoContent)
    ensures attempts == Attempts(maxRetries, network, start)
  {
    sent := MessagePayload(content, username, avatarUrl);
    var response;
    response, attempts := Post(maxRetries, network, start);
    ok := response.Some? && response.value == NoContent;
  }

  /** `send_embed`: posts one embed; true exactly when `_post` returns a 204 response. */
  method SendEmbed(title: string, description: string, color: int, fields: Option<seq<Formatter.Field>>,
                   username: Option<string>, footer: Option<string>,
                   maxRetries: int, network: nat -> Reply, start: nat)
    returns (ok: bool, sent: Payload, attempts: nat)
    ensures sent == EmbedPayload(title, description, color, fields, username, footer)
    ensures ok <==> PostResult(maxRetries, network, start) == Some(NoContent)
    ensures attempts == Attempts(maxRetries, network, start)
  {
    sent := EmbedPayload(title, description, color, fields, username, footer);
    var response;
    response, attempts := Post(maxRetries, network, start);
    ok := response.Some? && response.value == NoContent;
  }

  // ---------------------------------------------------------------------
  // send_health_report (src/discord_client.py:118-161)
  // ---------------------------------------------------------------------

  /** `build_embed`: missing title and description are "", a missing colour is the report colour, `fields` only when non-empty. */
  function BuildEmbed(section: ReportSection, color: int): (e: Embed)
    ensures e.title == section.title.GetOr("") && e.description == section.description.GetOr("")
    ensures e.color == section.color.GetOr(color)
    ensures e.fields.Some? <==> section.fields.Some? && section.fields.value != []
    ensures e.fields.Some? ==> e.fields == section.fields
    ensures e.footer.None?
  {
    Embed(section.title.GetOr(""), section.description.GetOr(""), section.color.GetOr(color),
          if section.fields.Some? && section.fields.value != [] then section.fields else None, None)
  }

  /** A section the formatter built, as the dictionary it is. */
  function OfSection(s: Formatter.Section): ReportSection {
    ReportSection(Some(s.title), Some(s.description), Some(s.color), s.fields)
  }

  /** How many posts `n > 0` sections take: `range(0, n, 10)` has this many indices. */
  function ChunkCount(n: nat): nat {
    (n + ChunkSize - 1) / ChunkSize
  }

  /** The `k`-th chunk, `sections[10k:10k+10]`. */
  function Chunk(sections: seq<ReportSection>, k: nat): (c: seq<ReportSection>)
    requires k < ChunkCount(|sections|)
    ensures 1 <= |c| <= ChunkSize
  {
    var lo := ChunkSize * k;
    var hi := if lo + ChunkSize <= |sections| then lo + ChunkSize else |sections|;
    sections[lo..hi]
  }

  function Embeds(chunk: seq<ReportSection>, color: int): (es: seq<Embed>)
    ensures |es| == |chunk|
    ensures forall i :: 0 <= i < |chunk| ==> es[i] == BuildEmbed(chunk[i], color)
  {
    seq(|chunk|, i requires 0 <= i < |chunk| => BuildEmbed(chunk[i], color))
  }

  /** The payload of chunk `k`: its embeds, and the title as `content` on the first chunk only. */
  function ChunkPayload(title: string, sections: seq<ReportSection>, color: int, k: nat): Payload
    requires k < ChunkCount(|sections|)
  {
    Payload(Some(BotName), if k == 0 then Some(title) else None, None, Some(Embeds(Chunk(sections, k), color)))
  }

  /** The posts of a report when each one succeeds: the title alone for no sections, otherwise one per chunk. */
  function ReportPlan(title: string, sections: seq<ReportSection>, color: int): (plan: seq<Payload>)
    ensures |plan| == if sections == [] then 1 else ChunkCount(|sections|)
  {
    if sections == [] then [Payload(Some(BotName), Some(title), None, None)]
    else seq(ChunkCount(|sections|), k requires 0 <= k < ChunkCount(|sections|) => ChunkPayload(title, sections, color, k))
  }

  /**
   * Posting `plan` in order from global attempt `start`, stopping after the
   * first post that does not get a 204: whether every post got one, how many
   * posts were made and how many attempts they took.
   */
  function PostAll(plan: seq<Payload>, maxRetries: int, network: nat -> Reply, start: nat): (r: (bool, nat, nat))
    ensures r.1 <= |plan| && (plan != [] ==> 1 <= r.1)
    ensures r.0 ==> r.1 == |plan|
    decreases |plan|
  {
    if plan == [] then (true, 0, 0)
    else
      var n := Attempts(maxRetries, network, start);
      if PostResult(maxRetries, network, start) != Some(NoContent) then (false, 1, n)
      else
        var rest := PostAll(plan[1..], maxRetries, network, start + n);
        (rest.0, rest.1 + 1, rest.2 + n)
  }

  /**
   * The loop of `send_health_report`: posts the payloads in order from
   * global attempt `start`, and stops at the first that does not get a 204.
   */
  method PostInOrder(plan: seq<Payload>, maxRetries: int, network: nat -> Reply, start: nat)
    returns (ok: bool, posted: seq<Payload>)
    ensures var r := PostAll(plan, maxRetries, network, start);
      ok == r.0 && posted == plan[..r.1]
  {
    ok := true;
    posted := [];
    var used := start;
    var k := 0;
    assert plan[k..] == plan;
    while k < |plan|
      invariant 0 <= k <= |plan| && posted == plan[..k]
      invariant PostedSoFar(plan, k, maxRetries, network, start, used)
      decreases |plan| - k
    {
      var response, attempts := Post(maxRetries, network, used);
      posted := posted + [plan[k]];
      assert posted == plan[..k + 1];
      if response.None? || response.value != NoContent {
        PostAllStopsAt(plan, k, maxRetries, network, start, used);
        ok := false;
        return;
      }
      PostAllGoesOn(plan, k, maxRetries, network, start, used);
      used := used + attempts;
      k := k + 1;
    }
    PostAllDone(plan, maxRetries, network, start, used);
  }

  /**
   * After `k` successful posts that took the attempts from `start` to
   * `used`: posting the whole plan is posting the rest from `used`.
   */
  ghost predicate PostedSoFar(plan: seq<Payload>, k: nat, maxRetries: int, network: nat -> Reply,
                              start: nat, used: nat)
    requires k <= |plan|
  {
    used >= start &&
    var rest := PostAll(plan[k..], maxRetries, network, used);
    PostAll(plan, maxRetries, network, start) == (rest.0, rest.1 + k, rest.2 + used - start)
  }

  lemma PostAllGoesOn(plan: seq<Payload>, k: nat, maxRetries: int, network: nat -> Reply,
                      start: nat, used: nat)
    requires k < |plan| && PostedSoFar(plan, k, maxRetries, network, start, used)
    requires PostResult(maxRetries, network, used) == Some(NoContent)
    ensures PostedSoFar(plan, k + 1, maxRetries, network, start, used + Attempts(maxRetries, network, used))
  {
    var n := Attempts(maxRetries, network, used);
    PostAllStep(plan, k, maxRetries, network, used);
    ShiftTotals(PostAll(plan, maxRetries, network, start), PostAll(plan[k..], maxRetries, network, used),
                PostAll(plan[k + 1..], maxRetries, network, used + n), k, start, used, n);
  }

  /** The bookkeeping of one more successful post: one more post, `n` more attempts. */
  lemma ShiftTotals(total: (bool, nat, nat), here: (bool, nat, nat), next: (bool, nat, nat),
                    k: nat, start: nat, used: nat, n: nat)
    requires used >= start
    requires total == (here.0, here.1 + k, here.2 + used - start)
    requires here == (next.0, next.1 + 1, next.2 + n)
    ensures total == (next.0, next.1 + (k + 1), next.2 + (used + n) - start)
  {
  }

  lemma PostAllStopsAt(plan: seq<Payload>, k: nat, maxRetries: int, network: nat -> Reply,
                       start: nat, used: nat)
    requires k < |plan| && PostedSoFar(plan, k, maxRetries, network, start, used)
    requires PostResult(maxRetries, network, used) != Some(NoContent)
    ensures var r := PostAll(plan, maxRetries, network, start);
      !r.0 && r.1 == k + 1
  {
    PostAllStep(plan, k, maxRetries, network, used);
  }

  lemma PostAllDone(plan: seq<Payload>, maxRetries: int, network: nat -> Reply, start: nat, used: nat)
    requires PostedSoFar(plan, |plan|, maxRetries, network, start, used)
    ensures var r := PostAll(plan, maxRetries, network, start);
      r.0 && r.1 == |plan|
  {
    assert plan[|plan|..] == [];
  }

  /**
   * `send_health_report`: the payloads posted are the first ones of the
   * report's plan, up to and including the first that failed, and the result
   * is true exactly when every post got a 204. The chunk payloads are built
   * before the loop rather than in it, which changes nothing observable.
   */
  method SendHealthReport(title: string, sections: seq<ReportSection>, color: int,
                          maxRetries: int, network: nat -> Reply)
    returns (ok: bool, posted: seq<Payload>)
    ensures var r := PostAll(ReportPlan(title, sections, color), maxRetries, network, 0);
      ok == r.0 && posted == ReportPlan(title, sections, color)[..r.1]
  {
    if sections == [] {
      var response, _ := Post(maxRetries, network, 0);
      ok := response.Some? && response.value == NoContent;
      posted := [Payload(Some(BotName), Some(title), None, None)];
      return;
    }
    var plan := seq(ChunkCount(|sections|), k requires 0 <= k < ChunkCount(|sections|) => ChunkPayload(title, sections, color, k));
    ok, posted := PostInOrder(plan, maxRetries, network, 0);
  }

  /** One post of the plan: either it fails and the report stops, or the rest follows from the next attempt on. */
  lemma PostAllStep(plan: seq<Payload>, k: nat, maxRetries: int, network: nat -> Reply, start: nat)
    requires k < |plan|
    ensures var n := Attempts(maxRetries, network, start);
      var rest := PostAll(plan[k + 1..], maxRetries, network, start + n);
      PostAll(plan[k..], maxRetries, network, start)
      == if PostResult(maxRetries, network, start) != Some(NoContent) then (false, 1, n)
         else (rest.0, rest.1 + 1, rest.2 + n)
  {
    assert plan[k..][1..] == plan[k + 1..];
  }

  /** The plan posts the title alone for no sections, and otherwise `ceil(n / 10)` chunks with the title on the first only. */
  lemma ReportPlanShape(title: string, sections: seq<ReportSection>, color: int)
    ensures sections == [] ==> ReportPlan(title, sections, color) == [Payload(Some(BotName), Some(title), None, None)]
    ensures sections != [] ==>
      forall k :: 0 <= k < ChunkCount(|sections|) ==>
        var p := ReportPlan(title, sections, color)[k];
        p.username == Some(BotName) && p.avatarUrl.None?
        && (p.content.Some? <==> k == 0) && (k == 0 ==> p.content == Some(title))
        && p.embeds == Some(Embeds(Chunk(sections, k), color))
  {
  }

  /** `ChunkCount(n)` is the ceiling of `n / 10`. */
  lemma ChunkCountCeiling(n: nat)
    requires n > 0
    ensures ChunkSize * (ChunkCount(n) - 1) < n <= ChunkSize * ChunkCount(n)
  {
  }

  /** Chunk `k` is `sections[10k .. min(10k + 10, n)]`, and the chunks together, in order, are the sections. */
  lemma {:induction false} ChunksCover(sections: seq<ReportSection>, k: nat)
    requires k <= ChunkCount(|sections|)
    ensures Concat(sections, k) == sections[..if ChunkSize * k <= |sections| then ChunkSize * k else |sections|]
  {
    if k > 0 {
      ChunksCover(sections, k - 1);
      var lo := ChunkSize * (k - 1);
      assert lo < |sections|;
      var hi := if lo + ChunkSize <= |sections| then lo + ChunkSize else |sections|;
      assert sections[..lo] + sections[lo..hi] == sections[..hi];
    }
  }

  /** The first `k` chunks, concatenated. */
  function Concat(sections: seq<ReportSection>, k: nat): seq<ReportSection>
    requires k <= ChunkCount(|sections|)
  {
    if k == 0 then [] else Concat(sections, k - 1) + Chunk(sections, k - 1)
  }

  /** All the chunks of a report are all its sections, in order. */
  lemma ChunksAreSections(sections: seq<ReportSection>)
    ensures Concat(sections, ChunkCount(|sections|)) == sections
  {
    ChunksCover(sections, ChunkCount(|sections|));
    if sections != [] {
      ChunkCountCeiling(|sections|);
    }
  }

  /** When every attempt gets a 204, each post of the plan is made once, with one attempt, and the report succeeds. */
  lemma {:induction false} PostAllDelivered(plan: seq<Payload>, maxRetries: int, network: nat -> Reply, start: nat)
    requires maxRetries >= 1
    requires forall i :: network(i) == Status(NoContent)
    ensures PostAll(plan, maxRetries, network, start) == (true, |plan|, |plan|)
    decreases |plan|
  {
    if plan != [] {
      PostFirstReplyFinal(maxRetries, network, start);
      PostAllDelivered(plan[1..], maxRetries, network, start + 1);
    }
  }

  /** A first post that fails stops the report after that one post. */
  lemma PostAllStopsAtFailure(plan: seq<Payload>, maxRetries: int, network: nat -> Reply, start: nat)
    requires plan != []
    requires PostResult(maxRetries, network, start) != Some(NoContent)
    ensures PostAll(plan, maxRetries, network, start) == (false, 1, Attempts(maxRetries, network, start))
  {
  }

  /** A report of `n > 0` sections on a healthy webhook: `ceil(n / 10)` posts, and success. */
  lemma HealthReportDelivered(title: string, sections: seq<ReportSection>, color: int,
                              maxRetries: int, network: nat -> Reply)
    requires sections != [] && maxRetries >= 1
    requires forall i :: network(i) == Status(NoContent)
    ensures PostAll(ReportPlan(title, sections, color), maxRetries, network, 0)
            == (true, ChunkCount(|sections|), ChunkCount(|sections|))
  {
    PostAllDelivered(ReportPlan(title, sections, color), maxRetries, network, 0);
  }
}
