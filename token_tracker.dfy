/**
 * Per-query token accounting: the in-memory `TokenTracker` of `src/utils/tokenTracker.ts`,
 * the summaries it keeps in browser storage and the daily statistics read back from them.
 */
module TokenTracking {
  import opened Wrappers
  import opened Text
  import opened Numbers

  /** The three kinds of model call one user query can bill tokens to. */
  datatype QueryKind = Conversation | ImageAnalysis | TextGeneration

  datatype TokenUsage = TokenUsage(prompt: int, completion: int, total: int)

  /** One query being tracked; a category is `None` until tokens were added for it. */
  datatype QueryTokens = QueryTokens(
    sessionId: string,
    startTime: int,
    conversation: Option<TokenUsage>,
    imageAnalysis: Option<TokenUsage>,
    textGeneration: Option<TokenUsage>)

  datatype Breakdown = Breakdown(conversation: int, imageAnalysis: int, textGeneration: int)

  /** One stored line of the analytics log; `timestamp` is the completion time in ms. */
  datatype Summary = Summary(
    timestamp: int,
    sessionId: string,
    totalTokens: int,
    totalPrompt: int,
    totalCompletion: int,
    breakdown: Breakdown)

  datatype Stats = Stats(totalTokensToday: int, averagePerQuery: int, queriesCount: nat)

  /** How many summaries the analytics log keeps. */
  const MaxSummaries := 100

  function UsageOf(q: QueryTokens, kind: QueryKind): Option<TokenUsage>
  {
    match kind
    case Conversation => q.conversation
    case ImageAnalysis => q.imageAnalysis
    case TextGeneration => q.textGeneration
  }

  /** `query[type] = u`: only that category changes. */
  function WithUsage(q: QueryTokens, kind: QueryKind, u: TokenUsage): (r: QueryTokens)
    ensures UsageOf(r, kind) == Some(u)
    ensures forall other | other != kind :: UsageOf(r, other) == UsageOf(q, other)
    ensures r.sessionId == q.sessionId && r.startTime == q.startTime
  {
    match kind
    case Conversation => q.(conversation := Some(u))
    case ImageAnalysis => q.(imageAnalysis := Some(u))
    case TextGeneration => q.(textGeneration := Some(u))
  }

  /** What `addTokens` records: the total is always the sum of its two parts. */
  function Usage(prompt: int, completion: int): (u: TokenUsage)
    ensures u.prompt == prompt && u.completion == completion
    ensures u.total == u.prompt + u.completion
  {
    TokenUsage(prompt, completion, prompt + completion)
  }

  /** Every recorded category's total is the sum of its prompt and completion tokens. */
  predicate Balanced(q: QueryTokens)
  {
    forall kind: QueryKind :: UsageOf(q, kind).Some? ==>
      UsageOf(q, kind).value.total == UsageOf(q, kind).value.prompt + UsageOf(q, kind).value.completion
  }

  function PromptOf(u: TokenUsage): int { u.prompt }
  function CompletionOf(u: TokenUsage): int { u.completion }
  function TotalOf(u: TokenUsage): int { u.total }

  /** The value of one field of a category, with an absent category counting as 0. */
  function Part(u: Option<TokenUsage>, field: TokenUsage -> int): int
  {
    if u.Some? then field(u.value) else 0
  }

  /** The sum of one field over the categories recorded on `q`. */
  function SumOver(q: QueryTokens, field: TokenUsage -> int): int
  {
    Part(q.conversation, field) + Part(q.imageAnalysis, field) + Part(q.textGeneration, field)
  }

  /** The summary `completeQuery` stores for `q` when it completes at `now`. */
  function SummaryOf(q: QueryTokens, now: int): Summary
  {
    Summary(now, q.sessionId,
      SumOver(q, TotalOf), SumOver(q, PromptOf), SumOver(q, CompletionOf),
      Breakdown(Part(q.conversation, TotalOf), Part(q.imageAnalysis, TotalOf),
        Part(q.textGeneration, TotalOf)))
  }

  /**
   * The stored totals are sums over the recorded categories only; the per-category
   * breakdown adds up to the total; and for a query whose usages came from `addTokens`
   * the total is the prompt plus the completion tokens.
   */
  lemma SummarySpec(q: QueryTokens, now: int)
    ensures var s := SummaryOf(q, now);
      && s.sessionId == q.sessionId && s.timestamp == now
      && s.breakdown.conversation + s.breakdown.imageAnalysis + s.breakdown.textGeneration
        == s.totalTokens
      && (Balanced(q) ==> s.totalTokens == s.totalPrompt + s.totalCompletion)
      && ((UsageOf(q, Conversation) == None && UsageOf(q, ImageAnalysis) == None
          && UsageOf(q, TextGeneration) == None) ==>
          s.totalTokens == 0 && s.totalPrompt == 0 && s.totalCompletion == 0)
  {
    if Balanced(q) {
      assert UsageOf(q, Conversation) == q.conversation;
      assert UsageOf(q, ImageAnalysis) == q.imageAnalysis;
      assert UsageOf(q, TextGeneration) == q.textGeneration;
    }
  }

  /** `splice(0, length - 100)` once the log is longer than 100 entries. */
  function Retained(s: seq<Summary>): (r: seq<Summary>)
    ensures |r| == if |s| <= MaxSummaries then |s| else MaxSummaries
    ensures IsSuffix(r, s)
  {
    KeepLast(s, MaxSummaries)
  }

  /** What `logToStorage` leaves in storage: a log it cannot parse is left as it was. */
  function Logged(stored: Slot<Summary>, e: Summary): (r: Slot<Summary>)
  {
    if stored.Malformed? then stored else Parsed(Retained(stored.Items() + [e]))
  }

  /**
   * Logging keeps at most 100 summaries: the new one last, preceded by the newest of the
   * earlier ones, all of them when there is room.
   */
  lemma LoggedSpec(stored: Slot<Summary>, e: Summary)
    requires !stored.Malformed?
    ensures Logged(stored, e) == Parsed(KeepLast(stored.Items(), MaxSummaries - 1) + [e])
    ensures |Logged(stored, e).items| <= MaxSummaries
    ensures |stored.Items()| < MaxSummaries ==> Logged(stored, e).items == stored.Items() + [e]
  {
    KeepLastSnoc(stored.Items(), e, MaxSummaries);
  }

  /** The summed tokens of a list of summaries, left to right as `reduce` does. */
  function SumTokens(s: seq<Summary>): int
  {
    if s == [] then 0 else SumTokens(s[..|s| - 1]) + s[|s| - 1].totalTokens
  }

  /** The summaries `getStats` counts as today's: those whose timestamp falls on today. */
  function TodayEntries(stored: Slot<Summary>, isToday: int -> bool): seq<Summary>
  {
    Filter(stored.Items(), (e: Summary) => isToday(e.timestamp))
  }

  /**
   * `getStats`: the token total, count and rounded average of today's summaries, where
   * `isToday(t)` says whether timestamp `t` falls on the current local date; an
   * unparsable log gives all zeros.
   */
  function GetStats(stored: Slot<Summary>, isToday: int -> bool): (r: Stats)
    ensures stored.Malformed? ==> r == Stats(0, 0, 0)
    ensures !stored.Malformed? ==>
      r.queriesCount == |TodayEntries(stored, isToday)|
      && r.totalTokensToday == SumTokens(TodayEntries(stored, isToday))
    ensures r.queriesCount == 0 ==> r.averagePerQuery == 0
    ensures r.queriesCount > 0 ==>
      2 * r.queriesCount * r.averagePerQuery <= 2 * r.totalTokensToday + r.queriesCount
        < 2 * r.queriesCount * r.averagePerQuery + 2 * r.queriesCount
  {
    if stored.Malformed? then Stats(0, 0, 0)
    else
      var today := TodayEntries(stored, isToday);
      var total := SumTokens(today);
      Stats(total, if |today| > 0 then Round(total, |today|) else 0, |today|)
  }

  lemma {:induction false} SumTokensBounds(s: seq<Summary>, lo: int, hi: int)
    requires forall k | 0 <= k < |s| :: lo <= s[k].totalTokens <= hi
    ensures |s| * lo <= SumTokens(s) <= |s| * hi
  {
    if s != [] {
      SumTokensBounds(s[..|s| - 1], lo, hi);
    }
  }

  /** The average lies between the smallest and the largest of today's totals. */
  lemma StatsAverageBounded(stored: Slot<Summary>, isToday: int -> bool, lo: int, hi: int)
    requires forall e | e in TodayEntries(stored, isToday) :: lo <= e.totalTokens <= hi
    requires GetStats(stored, isToday).queriesCount > 0
    ensures lo <= GetStats(stored, isToday).averagePerQuery <= hi
  {
    var today := TodayEntries(stored, isToday);
    var r := GetStats(stored, isToday);
    var n, avg, total := |today|, r.averagePerQuery, r.totalTokensToday;
    SumTokensBounds(today, lo, hi);
    RoundedBetween(total, n, lo, hi);
  }

  /** When there is room in the log, completing a query today adds it to today's figures. */
  lemma StatsAfterLogging(stored: Slot<Summary>, e: Summary, isToday: int -> bool)
    requires !stored.Malformed? && |stored.Items()| < MaxSummaries && isToday(e.timestamp)
    ensures GetStats(Logged(stored, e), isToday).queriesCount
      == GetStats(stored, isToday).queriesCount + 1
    ensures GetStats(Logged(stored, e), isToday).totalTokensToday
      == GetStats(stored, isToday).totalTokensToday + e.totalTokens
  {
    LoggedSpec(stored, e);
    FilterSnoc(stored.Items(), e, (x: Summary) => isToday(x.timestamp));
    var today := TodayEntries(stored, isToday);
    assert TodayEntries(Logged(stored, e), isToday) == today + [e];
    assert (today + [e])[..|today|] == today;
  }

  /** The query tracking state of the app: one entry per query in flight. */
  class TokenTracker {
    var activeQueries: map<string, QueryTokens>

    /** Every entry is keyed by its own session id and holds usages built by `addTokens`. */
    ghost predicate Valid()
      reads this
    {
      forall id | id in activeQueries :: activeQueries[id].sessionId == id && Balanced(activeQueries[id])
    }

    constructor()
      ensures activeQueries == map[] && Valid()
    {
      activeQueries := map[];
    }

    /** `startQuery`: (re)starts tracking `sessionId` at `now` with nothing recorded. */
    method StartQuery(sessionId: string, now: int)
      requires Valid()
      modifies this
      ensures activeQueries == old(activeQueries)[sessionId := QueryTokens(sessionId, now, None, None, None)]
      ensures Valid()
    {
      activeQueries := activeQueries[sessionId := QueryTokens(sessionId, now, None, None, None)];
    }

    /** `reset`: forgets every query in flight. */
    method Reset()
      modifies this
      ensures activeQueries == map[] && Valid()
    {
      activeQueries := map[];
    }

    /**
     * `addTokens`: records (or overwrites) one category of a tracked query; an unknown
     * session is ignored.
     */
    method AddTokens(sessionId: string, kind: QueryKind, prompt: int, completion: int)
      requires Valid()
      modifies this
      ensures sessionId !in old(activeQueries) ==> activeQueries == old(activeQueries)
      ensures sessionId in old(activeQueries) ==>
        activeQueries == old(activeQueries)[sessionId := WithUsage(old(activeQueries)[sessionId], kind, Usage(prompt, completion))]
      ensures Valid()
    {
      if sessionId !in activeQueries {
        return;
      }
      var query := activeQueries[sessionId];
      activeQueries := activeQueries[sessionId := WithUsage(query, kind, Usage(prompt, completion))];
    }

    /**
     * `completeQuery`: totals the query's categories, appends its summary to the stored
     * log `stored` (returning the log as saved) and stops tracking it; an unknown session
     * changes nothing.
     */
    method CompleteQuery(sessionId: string, now: int, stored: Slot<Summary>) returns (saved: Slot<Summary>)
      requires Valid()
      modifies this
      ensures sessionId !in old(activeQueries) ==> activeQueries == old(activeQueries) && saved == stored
      ensures sessionId in old(activeQueries) ==>
        activeQueries == old(activeQueries) - {sessionId}
        && saved == Logged(stored, SummaryOf(old(activeQueries)[sessionId], now))
      ensures Valid()
    {
      if sessionId !in activeQueries {
        return stored;
      }
      var query := activeQueries[sessionId];
      var totalTokens, totalPrompt, totalCompletion := 0, 0, 0;
      if query.conversation.Some? {
        totalTokens := totalTokens + query.conversation.value.total;
        totalPrompt := totalPrompt + query.conversation.value.prompt;
        totalCompletion := totalCompletion + query.conversation.value.completion;
      }
      if query.imageAnalysis.Some? {
        totalTokens := totalTokens + query.imageAnalysis.value.total;
        totalPrompt := totalPrompt + query.imageAnalysis.value.prompt;
        totalCompletion := totalCompletion + query.imageAnalysis.value.completion;
      }
      if query.textGeneration.Some? {
        totalTokens := totalTokens + query.textGeneration.value.total;
        totalPrompt := totalPrompt + query.textGeneration.value.prompt;
        totalCompletion := totalCompletion + query.textGeneration.value.completion;
      }
      assert totalTokens == SumOver(query, TotalOf);
      assert totalPrompt == SumOver(query, PromptOf);
      assert totalCompletion == SumOver(query, CompletionOf);
      saved := LogToStorage(query, totalTokens, totalPrompt, totalCompletion, now, stored);
      activeQueries := activeQueries - {sessionId};
    }

    /** `logToStorage`: append the summary and cut the log back to its newest 100 entries. */
    static method LogToStorage(query: QueryTokens, totalTokens: int, totalPrompt: int,
        totalCompletion: int, now: int, stored: Slot<Summary>) returns (saved: Slot<Summary>)
      ensures saved == Logged(stored, Summary(now, query.sessionId, totalTokens, totalPrompt,
        totalCompletion, SummaryOf(query, now).breakdown))
    {
      if stored.Malformed? {
        return stored;
      }
      var entry := Summary(now, query.sessionId, totalTokens, totalPrompt, totalCompletion,
        Breakdown(Part(query.conversation, TotalOf), Part(query.imageAnalysis, TotalOf),
          Part(query.textGeneration, TotalOf)));
      var existing := stored.Items() + [entry];
      if |existing| > MaxSummaries {
        existing := existing[|existing| - MaxSummaries..];
      }
      saved := Parsed(existing);
    }
  }
}
