/**
 * The legacy long-term memory store: one row per persona holding its whole
 * message history, and the retrieval helpers built on it (pagination, last N,
 * time range, substring search, the neighbour-expanding semantic selection,
 * keyword extraction and message keys).
 *
 * Timestamps are milliseconds since the epoch. A message's timestamp is either
 * absent (or empty), a string that parses, or a string that does not.
 */
module LongTermDb {
  import opened Wrappers
  import opened Text
  import opened Ordering
  import MemoryDatabase

  // ---------------------------------------------------------------------------
  // Messages
  // ---------------------------------------------------------------------------

  datatype Role = User | Assistant | System

  datatype Stamp = Missing | At(ms: int) | Invalid

  /** A message id: absent, a finite number, or `NaN`/`Infinity`. */
  datatype MessageId = NoId | Finite(n: int) | NonFinite

  datatype LtmMessage = LtmMessage(id: MessageId, role: Role, content: string, timestamp: Stamp)

  /** The sort key `timestamp ? new Date(timestamp).getTime() : 0`. */
  function TimeKey(m: LtmMessage): int
  {
    match m.timestamp
    case At(ms) => ms
    case _ => 0
  }

  /** The key that makes `SortDesc` an oldest-first sort. */
  function NegTimeKey(m: LtmMessage): int { -TimeKey(m) }

  predicate NewestFirst(s: seq<LtmMessage>) { SortedDesc(s, TimeKey) }

  predicate OldestFirst(s: seq<LtmMessage>)
  {
    forall i, j | 0 <= i < j < |s| :: TimeKey(s[i]) <= TimeKey(s[j])
  }

  /** A sorted list stays sorted when some of its elements are dropped. */
  lemma FilterSortedDesc<T>(s: seq<T>, p: T -> bool, key: T -> int)
    requires SortedDesc(s, key)
    ensures SortedDesc(Filter(s, p), key)
  {
    FilterPairwise(s, p, (a: T, b: T) => key(a) >= key(b));
  }

  // ---------------------------------------------------------------------------
  // getMessageKey
  // ---------------------------------------------------------------------------

  /** `getMessageKey`: `id:<id>`, else `ts:<time>:<index>`, else `idx:<index>`. */
  function MessageKey(m: LtmMessage, index: nat): (r: string)
  {
    if m.id.Finite? then "id:" + IntToString(m.id.n)
    else if m.timestamp.At? then "ts:" + IntToString(m.timestamp.ms) + ":" + NatToString(index)
    else "idx:" + NatToString(index)
  }

  /** The three forms are told apart by their prefix, and each is chosen exactly in its case. */
  lemma MessageKeyForms(m: LtmMessage, index: nat)
    ensures StartsWith(MessageKey(m, index), "id:") <==> m.id.Finite?
    ensures StartsWith(MessageKey(m, index), "ts:") <==> !m.id.Finite? && m.timestamp.At?
    ensures StartsWith(MessageKey(m, index), "idx:") <==> !m.id.Finite? && !m.timestamp.At?
  {
    var r := MessageKey(m, index);
    if m.id.Finite? {
      assert r[..3] == "id:" && r[2] == ':';
    } else if m.timestamp.At? {
      assert r[..3] == "ts:" && r[0] == 't';
    } else {
      assert r[..4] == "idx:" && r[2] == 'x';
    }
  }

  /** Two messages with different finite ids get different keys, whatever their positions. */
  lemma MessageKeyDistinguishesIds(a: LtmMessage, i: nat, b: LtmMessage, j: nat)
    requires a.id.Finite? && b.id.Finite? && a.id.n != b.id.n
    ensures MessageKey(a, i) != MessageKey(b, j)
  {
    IntToStringInjective(a.id.n, b.id.n);
    assert MessageKey(a, i)[3..] == IntToString(a.id.n);
    assert MessageKey(b, j)[3..] == IntToString(b.id.n);
  }

  // ---------------------------------------------------------------------------
  // getPersonaMessagesPaginated
  // ---------------------------------------------------------------------------

  datatype QueryOptions = QueryOptions(
    offset: Option<int>, limit: Option<int>,
    startDate: Option<int>, endDate: Option<int>, role: Option<Role>)

  datatype Page = Page(items: seq<LtmMessage>, total: nat, offset: int, limit: int, hasMore: bool)

  predicate HasFilters(o: QueryOptions)
  {
    o.startDate.Some? || o.endDate.Some? || o.role.Some?
  }

  /**
   * The in-memory filter. A message without a timestamp has no date to
   * compare, and one whose timestamp does not parse compares false both ways,
   * so both pass the date bounds.
   */
  predicate Passes(o: QueryOptions, m: LtmMessage)
  {
    (o.role.None? || m.role == o.role.value)
    && (o.startDate.None? || !m.timestamp.At? || m.timestamp.ms >= o.startDate.value)
    && (o.endDate.None? || !m.timestamp.At? || m.timestamp.ms <= o.endDate.value)
  }

  function PassesFor(o: QueryOptions): LtmMessage -> bool
  {
    (m: LtmMessage) => Passes(o, m)
  }

  /** The filtered newest-first listing that pages are cut from. */
  function Listing(messages: seq<LtmMessage>, o: QueryOptions): seq<LtmMessage>
  {
    Filter(SortDesc(messages, TimeKey), PassesFor(o))
  }

  /** The listing holds exactly the messages that pass, newest first. */
  lemma ListingSpec(messages: seq<LtmMessage>, o: QueryOptions)
    ensures var r := Listing(messages, o);
      && NewestFirst(r)
      && multiset(r) == multiset(Filter(messages, PassesFor(o)))
      && |r| == |Filter(messages, PassesFor(o))|
      && (forall k | 0 <= k < |r| :: r[k] in messages && Passes(o, r[k]))
  {
    var sorted := SortDesc(messages, TimeKey);
    SortDescSpec(messages, TimeKey);
    FilterPermutation(sorted, messages, PassesFor(o));
    FilterSortedDesc(sorted, PassesFor(o), TimeKey);
    var r := Listing(messages, o);
    forall k | 0 <= k < |r| ensures r[k] in messages {
      assert r[k] in sorted;
      assert r[k] in multiset(sorted);
    }
  }

  /** With no filter set the listing is every message, newest first. */
  lemma {:induction false} ListingUnfiltered(messages: seq<LtmMessage>, o: QueryOptions)
    requires !HasFilters(o)
    ensures multiset(Listing(messages, o)) == multiset(messages)
  {
    ListingSpec(messages, o);
    FilterAll(messages, PassesFor(o));
  }

  lemma {:induction false} FilterAll<T>(s: seq<T>, p: T -> bool)
    requires forall x :: p(x)
    ensures Filter(s, p) == s
  {
    if s != [] {
      FilterAll(s[1..], p);
    }
  }

  /** `getPersonaMessagesPaginated` over the persona's messages (none when it has no row). */
  function Paginated(messages: seq<LtmMessage>, options: QueryOptions): (r: Page)
  {
    var offset := options.offset.GetOr(0);
    var limit := options.limit.GetOr(50);
    if messages == [] then Page([], 0, offset, limit, false)
    else
      var listing := Listing(messages, options);
      var items := Slice(listing, offset, offset + limit);
      Page(items, |listing|, offset, limit, offset + |items| < |listing|)
  }

  /** The listing has one entry per message that passes the filters. */
  lemma ListingLength(messages: seq<LtmMessage>, o: QueryOptions)
    ensures |Listing(messages, o)| == |Filter(messages, PassesFor(o))|
  {
    ListingSpec(messages, o);
  }

  /**
   * A page reports the requested offset and limit, counts every message that
   * passes the filters in its total, and says whether the listing goes on past it.
   */
  lemma PaginatedCounts(messages: seq<LtmMessage>, options: QueryOptions)
    ensures var r := Paginated(messages, options);
      && r.offset == options.offset.GetOr(0) && r.limit == options.limit.GetOr(50)
      && r.total == |Filter(messages, PassesFor(options))|
      && (r.hasMore <==> messages != [] && r.offset + |r.items| < r.total)
      && (0 <= r.offset && 0 <= r.limit ==> |r.items| == Min(r.limit, Max(0, r.total - r.offset)))
  {
    if messages != [] {
      var listing := Listing(messages, options);
      ListingLength(messages, options);
      var offset := options.offset.GetOr(0);
      var limit := options.limit.GetOr(50);
      var items := Slice(listing, offset, offset + limit);
      assert Paginated(messages, options) == Page(items, |listing|, offset, limit, offset + |items| < |listing|);
      if 0 <= offset && 0 <= limit {
        SliceWindow(listing, offset, limit);
        assert |items| == Min(limit, Max(0, |listing| - offset));
      }
    }
  }

  /** The items of a page pass the filters and are newest first. */
  lemma PaginatedItems(messages: seq<LtmMessage>, options: QueryOptions)
    ensures var r := Paginated(messages, options);
      && NewestFirst(r.items)
      && (forall k | 0 <= k < |r.items| :: r.items[k] in messages && Passes(options, r.items[k]))
  {
    if messages != [] {
      var r := Paginated(messages, options);
      var listing := Listing(messages, options);
      ListingSpec(messages, options);
      SliceKeeps(listing, r.offset, r.offset + r.limit, TimeKey);
    }
  }

  /** A page is the window `[offset, offset + limit)` of the filtered newest-first listing. */
  lemma PaginatedWindow(messages: seq<LtmMessage>, options: QueryOptions)
    ensures var r := Paginated(messages, options);
      0 <= r.offset <= r.total && 0 <= r.limit ==>
        r.items == Listing(messages, options)[r.offset..Min(r.offset + r.limit, r.total)]
  {
    var r := Paginated(messages, options);
    if messages != [] && 0 <= r.offset && 0 <= r.limit {
      SliceWindow(Listing(messages, options), r.offset, r.limit);
    }
  }

  /** A slice of a sorted list is sorted and holds only elements of the list. */
  lemma SliceKeeps<T>(s: seq<T>, a: int, b: int, key: T -> int)
    requires SortedDesc(s, key)
    ensures SortedDesc(Slice(s, a, b), key)
    ensures forall k | 0 <= k < |Slice(s, a, b)| :: Slice(s, a, b)[k] in s
  {
    SliceRange(s, a, b);
    var i := SliceIndex(|s|, a);
    var j := SliceIndex(|s|, b);
    var hi := if j < i then i else j;
    SortedDescRange(s, i, hi, key);
    assert forall k | 0 <= k < |Slice(s, a, b)| :: Slice(s, a, b)[k] == s[i + k];
  }

  function Min(a: int, b: int): int { if a <= b then a else b }

  function Max(a: int, b: int): int { if a >= b then a else b }

  // ---------------------------------------------------------------------------
  // getLastNMessages, getMessagesByTimeRange, searchMessages
  // ---------------------------------------------------------------------------

  /** `getLastNMessages`: the newest-first sort cut with `slice(0, n)`. */
  function LastN(messages: seq<LtmMessage>, n: int): seq<LtmMessage>
  {
    Slice(SortDesc(messages, TimeKey), 0, n)
  }

  /**
   * The result is the newest-first arrangement of the messages cut to `n`
   * (with `slice`'s count from the end for a negative `n`).
   */
  lemma LastNSpec(messages: seq<LtmMessage>, n: int)
    ensures var r := LastN(messages, n);
      && |r| == (if n >= 0 then Min(n, |messages|) else Max(0, |messages| + n))
      && NewestFirst(r)
      && (forall k | 0 <= k < |r| :: r[k] in messages)
      && r == SortDesc(messages, TimeKey)[..|r|]
  {
    SortDescSpec(messages, TimeKey);
    var sorted := SortDesc(messages, TimeKey);
    var r := LastN(messages, n);
    forall k | 0 <= k < |r| ensures r[k] in messages {
      assert r[k] == sorted[k];
      assert sorted[k] in multiset(sorted);
    }
  }

  /** Nothing older than a returned message is left out of it while a newer one is dropped. */
  lemma LastNNewest(messages: seq<LtmMessage>, n: int, k: nat, j: nat)
    requires var r := LastN(messages, n); k < |r| && |r| <= j < |messages|
    ensures TimeKey(LastN(messages, n)[k]) >= TimeKey(SortDesc(messages, TimeKey)[j])
  {
    LastNSpec(messages, n);
    SortDescSpec(messages, TimeKey);
  }

  /** The time-range test: a message without a timestamp counts as `now`; an unparsable one never matches. */
  predicate InRange(m: LtmMessage, start: int, end: int, now: int)
  {
    match m.timestamp
    case Missing => start <= now <= end
    case At(ms) => start <= ms <= end
    case Invalid => false
  }

  function InRangeFor(start: int, end: int, now: int): LtmMessage -> bool
  {
    (m: LtmMessage) => InRange(m, start, end, now)
  }

  /** `getMessagesByTimeRange`. */
  function TimeRange(messages: seq<LtmMessage>, start: int, end: int, now: int): seq<LtmMessage>
  {
    Filter(messages, InRangeFor(start, end, now))
  }

  /** Exactly the messages within `[start, end]`, each as often as it occurs. */
  lemma TimeRangeSpec(messages: seq<LtmMessage>, start: int, end: int, now: int, m: LtmMessage)
    ensures m in TimeRange(messages, start, end, now) <==> m in messages && InRange(m, start, end, now)
    ensures multiset(TimeRange(messages, start, end, now))[m] ==
      if InRange(m, start, end, now) then multiset(messages)[m] else 0
  {
    FilterMultiplicity(messages, InRangeFor(start, end, now), m);
  }

  predicate Matches(m: LtmMessage, query: string)
  {
    Contains(LowerStr(m.content), LowerStr(query))
  }

  function MatchesFor(query: string): LtmMessage -> bool
  {
    (m: LtmMessage) => Matches(m, query)
  }

  /** `searchMessages`. */
  function Search(messages: seq<LtmMessage>, query: string): seq<LtmMessage>
  {
    Filter(messages, MatchesFor(query))
  }

  /** A case-insensitive substring filter: exactly the matching messages, each as often as it occurs. */
  lemma SearchSpec(messages: seq<LtmMessage>, query: string, m: LtmMessage)
    ensures m in Search(messages, query) <==> m in messages && Matches(m, query)
    ensures multiset(Search(messages, query))[m] == if Matches(m, query) then multiset(messages)[m] else 0
  {
    FilterMultiplicity(messages, MatchesFor(query), m);
  }

  /** The search ignores case, and the empty query keeps every message. */
  lemma SearchIgnoresCase(messages: seq<LtmMessage>, query: string)
    ensures Search(messages, LowerStr(query)) == Search(messages, query)
    ensures Search(messages, []) == messages
  {
    LowerStrIdempotent(query);
    FilterSame(messages, MatchesFor(LowerStr(query)), MatchesFor(query));
    forall m ensures Matches(m, []) {
      assert OccursAt(LowerStr(m.content), [], 0);
    }
    FilterAll(messages, MatchesFor([]));
  }

  lemma {:induction false} FilterSame<T>(s: seq<T>, p: T -> bool, q: T -> bool)
    requires forall x :: p(x) == q(x)
    ensures Filter(s, p) == Filter(s, q)
  {
    if s != [] {
      FilterSame(s[1..], p, q);
    }
  }

  /** A search result is also a result of every shorter query it starts with. */
  lemma SearchNarrows(messages: seq<LtmMessage>, query: string, longer: string, m: LtmMessage)
    requires StartsWith(longer, query)
    requires m in Search(messages, longer)
    ensures m in Search(messages, query)
  {
    SearchSpec(messages, longer, m);
    SearchSpec(messages, query, m);
    assert LowerStr(longer)[..|query|] == LowerStr(query);
    assert OccursAt(LowerStr(longer), LowerStr(query), 0);
    ContainsTrans(LowerStr(m.content), LowerStr(longer), LowerStr(query));
  }

  // ---------------------------------------------------------------------------
  // extractKeywords
  // ---------------------------------------------------------------------------

  const StopWords: seq<string> :=
    ["the", "is", "at", "which", "on", "a", "an", "and", "or", "but", "in", "with", "to", "of", "for"]

  predicate IsKeyword(w: string) { |w| > 2 && !Listed(w, StopWords) }

  /** `extractKeywords`: the same tokenizer as the store's, with its own stop list. */
  function ExtractKeywords(query: string): seq<string>
  {
    MemoryDatabase.Keywords(query, IsKeyword)
  }

  /**
   * The keywords are exactly the distinct words of the query longer than two
   * characters that are not stop words, in order of first occurrence; each is
   * lower-case and free of whitespace and of the deleted punctuation.
   */
  lemma ExtractKeywordsSpec(query: string)
    ensures var r := ExtractKeywords(query);
      var words := MemoryDatabase.Words(query);
      && NoDuplicates(r)
      && (forall k | 0 <= k < |r| :: |r[k]| > 2 && r[k] !in StopWords && r[k] in words && LowerStr(r[k]) == r[k])
      && (forall w | w in words && |w| > 2 && w !in StopWords :: w in r)
      && (forall i, j | 0 <= i < j < |r| :: IndexIn(words, r[i]) < IndexIn(words, r[j]))
      && (forall k, i | 0 <= k < |r| && 0 <= i < |r[k]| ::
            !IsSpace(r[k][i]) && !MemoryDatabase.IsKeywordPunct(r[k][i]))
  {
    MemoryDatabase.KeywordsSpec(query, IsKeyword);
    var r := ExtractKeywords(query);
    forall k | 0 <= k < |r| ensures r[k] !in StopWords {
      ListedIn(r[k], StopWords);
    }
    forall w | w in MemoryDatabase.Words(query) && |w| > 2 && w !in StopWords ensures w in r {
      ListedIn(w, StopWords);
    }
  }

  // ---------------------------------------------------------------------------
  // semanticSearchMessages: the neighbour-expanding selection
  // ---------------------------------------------------------------------------

  /**
   * Relevance scores are given by an oracle in millionths; a message is
   * relevant when its score is above 0.2.
   */
  const RelevanceThreshold: int := 200000

  /** Ten minutes in milliseconds. */
  const NeighbourWindowMs: int := 600000

  /** `!msg.id || !excludeIds.includes(msg.id)`. */
  predicate Kept(excludeIds: seq<int>, m: LtmMessage)
  {
    !(m.id.Finite? && m.id.n != 0 && m.id.n in excludeIds)
  }

  function KeptFor(excludeIds: seq<int>): LtmMessage -> bool
  {
    (m: LtmMessage) => Kept(excludeIds, m)
  }

  /**
   * The gap test between a primary and its neighbour. A timestamp that does
   * not parse makes the gap `NaN`, which is never above the window.
   */
  predicate WithinWindow(a: LtmMessage, b: LtmMessage)
  {
    a.timestamp.Invalid? || b.timestamp.Invalid?
    || (TimeKey(a) - TimeKey(b) <= NeighbourWindowMs && TimeKey(b) - TimeKey(a) <= NeighbourWindowMs)
  }

  /** `j` sits next to the primary `c`, answers it in the other role and close in time. */
  predicate NeighbourOf(sorted: seq<LtmMessage>, j: int, c: int)
  {
    0 <= c < |sorted| && 0 <= j < |sorted| && (j == c - 1 || j == c + 1)
    && sorted[j].role != sorted[c].role && WithinWindow(sorted[c], sorted[j])
  }

  /** `Math.max(1, maxResults)` primaries, or fewer when fewer are relevant. */
  function Primaries(maxResults: int, relevant: nat): (p: nat)
    ensures p <= relevant && p <= Max(1, maxResults)
  {
    Min(Max(1, maxResults), relevant)
  }

  /** `j` is one of the first `t` primaries or a neighbour of one. */
  predicate Justified(sorted: seq<LtmMessage>, relevant: seq<nat>, t: nat, j: int)
    requires t <= |relevant|
  {
    exists p | 0 <= p < t :: j == relevant[p] || NeighbourOf(sorted, j, relevant[p])
  }

  /** The scores of the oldest-first messages, by index. */
  function ScoreAt(sorted: seq<LtmMessage>, score: LtmMessage -> int): nat -> int
  {
    (i: nat) => if i < |sorted| then score(sorted[i]) else 0
  }

  predicate IsRelevant(sorted: seq<LtmMessage>, score: LtmMessage -> int, i: nat)
  {
    i < |sorted| && score(sorted[i]) > RelevanceThreshold
  }

  function RelevantFor(sorted: seq<LtmMessage>, score: LtmMessage -> int): nat -> bool
  {
    (i: nat) => IsRelevant(sorted, score, i)
  }

  function Indices(n: nat): (r: seq<nat>)
    ensures |r| == n && forall k | 0 <= k < n :: r[k] == k
  {
    seq(n, k requires 0 <= k < n => k as nat)
  }

  /** The indices scoring above the threshold, best first (ties keep their order). */
  function Relevant(sorted: seq<LtmMessage>, score: LtmMessage -> int): seq<nat>
  {
    SortDesc(Filter(Indices(|sorted|), RelevantFor(sorted, score)), ScoreAt(sorted, score))
  }

  /** Exactly the relevant indices, in non-increasing score order. */
  lemma RelevantSpec(sorted: seq<LtmMessage>, score: LtmMessage -> int)
    ensures var r := Relevant(sorted, score);
      && (forall k | 0 <= k < |r| :: IsRelevant(sorted, score, r[k]))
      && (forall i: nat | IsRelevant(sorted, score, i) :: i in r)
      && SortedDesc(r, ScoreAt(sorted, score))
  {
    var candidates := Filter(Indices(|sorted|), RelevantFor(sorted, score));
    SortDescSpec(candidates, ScoreAt(sorted, score));
    SortDescMembers(candidates, ScoreAt(sorted, score));
    var r := Relevant(sorted, score);
    forall k | 0 <= k < |r| ensures IsRelevant(sorted, score, r[k]) {
      assert r[k] in candidates;
      assert RelevantFor(sorted, score)(r[k]);
    }
    forall i: nat | IsRelevant(sorted, score, i) ensures i in candidates {
      assert Indices(|sorted|)[i] == i;
    }
  }

  /** No index is relevant exactly when no message scores above the threshold. */
  lemma RelevantEmpty(sorted: seq<LtmMessage>, score: LtmMessage -> int)
    ensures Relevant(sorted, score) == [] <==> forall m | m in sorted :: score(m) <= RelevanceThreshold
  {
    RelevantSpec(sorted, score);
    var r := Relevant(sorted, score);
    if r == [] {
      forall m | m in sorted ensures score(m) <= RelevanceThreshold {
        var i :| 0 <= i < |sorted| && sorted[i] == m;
        assert !IsRelevant(sorted, score, i);
      }
    } else {
      assert IsRelevant(sorted, score, r[0]);
      assert sorted[r[0]] in sorted;
    }
  }

  /** `addIndex`: push an in-range index not used yet. */
  method AddIndex(n: nat, selected: seq<nat>, used: set<nat>, idx: int) returns (s: seq<nat>, u: set<nat>)
    requires forall j: nat :: j in used <==> j in selected
    requires NoDuplicates(selected) && forall k | 0 <= k < |selected| :: selected[k] < n
    ensures if 0 <= idx < n && idx !in used
      then s == selected + [idx as nat] && u == used + {idx as nat}
      else s == selected && u == used
    ensures forall j: nat :: j in u <==> j in s
    ensures NoDuplicates(s) && forall k | 0 <= k < |s| :: s[k] < n
  {
    if idx < 0 || idx >= n {
      return selected, used;
    }
    if idx in used {
      return selected, used;
    }
    u := used + {idx as nat};
    s := selected + [idx as nat];
  }

  /** The tests `addNeighborPair` makes before it adds `j` as a neighbour of the primary `c`. */
  predicate Admits(sorted: seq<LtmMessage>, used: set<nat>, c: nat, j: int)
    requires c < |sorted|
  {
    0 <= j < |sorted| && j !in used && sorted[j].role != sorted[c].role && WithinWindow(sorted[c], sorted[j])
  }

  /** `after` is `before` followed by indices that are each `c` or a neighbour of it. */
  predicate Extends(sorted: seq<LtmMessage>, before: seq<nat>, after: seq<nat>, c: nat)
  {
    |before| <= |after|
    && (forall k | 0 <= k < |before| :: after[k] == before[k])
    && (forall k | |before| <= k < |after| :: after[k] == c || NeighbourOf(sorted, after[k], c))
  }

  lemma ExtendsSnoc(sorted: seq<LtmMessage>, before: seq<nat>, mid: seq<nat>, x: nat, c: nat)
    requires Extends(sorted, before, mid, c)
    requires x == c || NeighbourOf(sorted, x, c)
    ensures Extends(sorted, before, mid + [x], c)
  {
  }

  /** `addIndex(c)` then `addNeighborPair(c)`. */
  method ExpandAround(sorted: seq<LtmMessage>, c: nat, selected: seq<nat>, used: set<nat>)
    returns (s: seq<nat>, u: set<nat>)
    requires c < |sorted|
    requires forall j: nat :: j in used <==> j in selected
    requires NoDuplicates(selected) && forall k | 0 <= k < |selected| :: selected[k] < |sorted|
    ensures forall j: nat :: j in u <==> j in s
    ensures NoDuplicates(s) && forall k | 0 <= k < |s| :: s[k] < |sorted|
    ensures Extends(sorted, selected, s, c) && |s| <= |selected| + 3
    ensures c in s
    ensures c !in selected ==> |s| > |selected| && s[|selected|] == c
  {
    s, u := AddIndex(|sorted|, selected, used, c);
    if c !in selected {
      ExtendsSnoc(sorted, selected, selected, c, c);
    }
    var prev: int := c as int - 1;
    var next: int := c as int + 1;
    if Admits(sorted, u, c, prev) {
      ghost var mid := s;
      s, u := AddIndex(|sorted|, s, u, prev);
      ExtendsSnoc(sorted, selected, mid, prev as nat, c);
    }
    if Admits(sorted, u, c, next) {
      ghost var mid := s;
      s, u := AddIndex(|sorted|, s, u, next);
      ExtendsSnoc(sorted, selected, mid, next as nat, c);
    }
  }

  /**
   * The selection loop of `semanticSearchMessages`: each of the first
   * `max(1, maxResults)` relevant indices is added with its admissible
   * neighbours before and after it, stopping once twice that many are held.
   */
  method SelectWithNeighbours(sorted: seq<LtmMessage>, relevant: seq<nat>, maxResults: int)
    returns (selected: seq<nat>)
    requires forall k | 0 <= k < |relevant| :: relevant[k] < |sorted|
    ensures NoDuplicates(selected)
    ensures forall k | 0 <= k < |selected| :: selected[k] < |sorted|
    ensures forall k | 0 <= k < |selected| ::
      Justified(sorted, relevant, Primaries(maxResults, |relevant|), selected[k])
    ensures |selected| <= 3 * Primaries(maxResults, |relevant|)
    ensures relevant != [] ==> selected != [] && selected[0] == relevant[0]
    ensures (forall p | 0 <= p < Primaries(maxResults, |relevant|) :: relevant[p] in selected)
      || |selected| >= 2 * Max(1, maxResults)
  {
    var maxPrimary := Max(1, maxResults);
    var count := Primaries(maxResults, |relevant|);
    selected := [];
    var used: set<nat> := {};
    // The primary each selected index was added for.
    ghost var origin: seq<nat> := [];
    var t := 0;
    while t < count
      invariant 0 <= t <= count
      invariant forall j: nat :: j in used <==> j in selected
      invariant NoDuplicates(selected)
      invariant forall k | 0 <= k < |selected| :: selected[k] < |sorted|
      invariant |origin| == |selected|
      invariant forall k | 0 <= k < |selected| ::
        (origin[k] < t && (selected[k] == relevant[origin[k]] || NeighbourOf(sorted, selected[k], relevant[origin[k]])))
      invariant |selected| <= 3 * t
      invariant t > 0 ==> selected != [] && selected[0] == relevant[0]
      invariant forall p | 0 <= p < t :: relevant[p] in selected
    {
      ghost var before := selected;
      selected, used := ExpandAround(sorted, relevant[t], selected, used);
      origin := origin + seq(|selected| - |before|, _ => t);
      assert forall k | 0 <= k < |before| :: selected[k] == before[k];
      t := t + 1;
      if |selected| >= maxPrimary * 2 {
        break;
      }
    }
    forall k | 0 <= k < |selected| ensures Justified(sorted, relevant, count, selected[k]) {
      var p := origin[k];
      assert 0 <= p < count;
    }
  }

  /** The messages at the selected indices, in selection order. */
  function Picked(sorted: seq<LtmMessage>, selected: seq<nat>): (r: seq<LtmMessage>)
    requires forall k | 0 <= k < |selected| :: selected[k] < |sorted|
    ensures |r| == |selected| && forall k | 0 <= k < |r| :: r[k] == sorted[selected[k]] && r[k] in sorted
  {
    seq(|selected|, k requires 0 <= k < |selected| => sorted[selected[k]])
  }

  /** The final oldest-first sort of the selected messages. */
  function Ordered(sorted: seq<LtmMessage>, selected: seq<nat>): (r: seq<LtmMessage>)
    requires forall k | 0 <= k < |selected| :: selected[k] < |sorted|
    ensures |r| == |selected| && OldestFirst(r)
    ensures forall k | 0 <= k < |r| :: r[k] in sorted
    ensures selected != [] ==> sorted[selected[0]] in r
  {
    var picked := Picked(sorted, selected);
    var r := SortDesc(picked, NegTimeKey);
    SortDescSpec(picked, NegTimeKey);
    SortDescMembers(picked, NegTimeKey);
    OldestFirstSorted(r);
    assert forall k | 0 <= k < |r| :: r[k] in picked;
    assert selected != [] ==> picked[0] in picked && picked[0] == sorted[selected[0]];
    r
  }

  lemma OldestFirstSorted(s: seq<LtmMessage>)
    requires SortedDesc(s, NegTimeKey)
    ensures OldestFirst(s)
  {
    forall i, j | 0 <= i < j < |s| ensures TimeKey(s[i]) <= TimeKey(s[j]) {
      assert NegTimeKey(s[i]) >= NegTimeKey(s[j]);
    }
  }

  /** `semanticSearchMessages` for one persona's messages and a relevance oracle. */
  method SemanticSearch(messages: seq<LtmMessage>, excludeIds: seq<int>, score: LtmMessage -> int, maxResults: int)
    returns (r: seq<LtmMessage>)
    ensures forall k | 0 <= k < |r| :: r[k] in messages && Kept(excludeIds, r[k])
    ensures OldestFirst(r)
    ensures |r| <= 3 * Max(1, maxResults)
    ensures r == [] <==>
      forall m | m in messages && Kept(excludeIds, m) :: score(m) <= RelevanceThreshold
  {
    var all := Filter(messages, KeptFor(excludeIds));
    assert forall m | m in messages && Kept(excludeIds, m) :: m in all;
    if |all| == 0 {
      return [];
    }
    var sorted := SortDesc(all, NegTimeKey);
    SortDescMembers(all, NegTimeKey);
    var relevant := Relevant(sorted, score);
    RelevantEmpty(sorted, score);
    if relevant == [] {
      return [];
    }
    RelevantSpec(sorted, score);
    var selected := SelectWithNeighbours(sorted, relevant, maxResults);
    r := Ordered(sorted, selected);
    assert sorted[relevant[0]] in r;
  }

  // ---------------------------------------------------------------------------
  // The persona memory table
  // ---------------------------------------------------------------------------

  /** An opaque stored value (a user record or a configuration). */
  type Payload = string

  /** What callers pass to `savePersonaMemory`. */
  datatype PersonaMemory = PersonaMemory(
    messages: seq<LtmMessage>, users: seq<Payload>, aiConfig: Payload, voiceConfig: Payload)

  datatype LtmRow = LtmRow(
    id: nat, persona: string, messages: seq<LtmMessage>, users: seq<Payload>,
    aiConfig: Payload, voiceConfig: Payload, lastAccessed: int)

  function HasPersona(persona: string): LtmRow -> bool
  {
    (row: LtmRow) => row.persona == persona
  }

  /** `where('persona').equals(persona).first()`. */
  function Lookup(rows: seq<LtmRow>, persona: string): (r: Option<LtmRow>)
    ensures r.Some? ==> r.value in rows && r.value.persona == persona
    ensures r.None? <==> forall k | 0 <= k < |rows| :: rows[k].persona != persona
  {
    var i := FirstIndex(rows, HasPersona(persona));
    if i < 0 then None else Some(rows[i])
  }

  /** The messages the retrieval helpers work on: none when the persona has no row. */
  function MessagesOf(rows: seq<LtmRow>, persona: string): seq<LtmMessage>
  {
    match Lookup(rows, persona)
    case None => []
    case Some(row) => row.messages
  }

  /** Row ids increase along the table and stay below the next id to hand out. */
  predicate IdsIncreasing(rows: seq<LtmRow>, nextId: nat)
  {
    (forall i, j | 0 <= i < j < |rows| :: rows[i].id < rows[j].id)
    && (forall k | 0 <= k < |rows| :: rows[k].id < nextId)
  }

  datatype SaveOutcome = SaveOutcome(rows: seq<LtmRow>, id: nat, nextId: nat)

  /** `savePersonaMemory`: overwrite the persona's row, or add one with the persona set. */
  function Saved(rows: seq<LtmRow>, nextId: nat, persona: string, memory: PersonaMemory, now: int): SaveOutcome
  {
    var i := FirstIndex(rows, HasPersona(persona));
    if i >= 0 then
      var row := rows[i].(messages := memory.messages, users := memory.users, aiConfig := memory.aiConfig,
                          voiceConfig := memory.voiceConfig, lastAccessed := now);
      SaveOutcome(rows[i := row], rows[i].id, nextId)
    else
      var row := LtmRow(nextId, persona, memory.messages, memory.users, memory.aiConfig, memory.voiceConfig, now);
      SaveOutcome(rows + [row], nextId, nextId + 1)
  }

  /**
   * An existing persona keeps its row id and row count; a new persona gets a
   * new row with the next id.
   */
  lemma SavedIds(rows: seq<LtmRow>, nextId: nat, persona: string, memory: PersonaMemory, now: int)
    requires IdsIncreasing(rows, nextId)
    ensures var s := Saved(rows, nextId, persona, memory, now);
      && (Lookup(rows, persona).Some? ==> s.id == Lookup(rows, persona).value.id && |s.rows| == |rows| && s.nextId == nextId)
      && (Lookup(rows, persona).None? ==> s.id == nextId && |s.rows| == |rows| + 1 && s.nextId == nextId + 1)
      && IdsIncreasing(s.rows, s.nextId)
  {
  }

  /** Afterwards the persona's lookup returns the saved contents under the returned id. */
  lemma SavedLookup(rows: seq<LtmRow>, nextId: nat, persona: string, memory: PersonaMemory, now: int)
    ensures var s := Saved(rows, nextId, persona, memory, now);
      Lookup(s.rows, persona) == Some(LtmRow(s.id, persona, memory.messages, memory.users,
                                             memory.aiConfig, memory.voiceConfig, now))
  {
    var s := Saved(rows, nextId, persona, memory, now);
    var i := FirstIndex(rows, HasPersona(persona));
    if i >= 0 {
      FirstIndexSame(rows, s.rows, HasPersona(persona), i);
    } else {
      FirstIndexSnoc(rows, s.rows[|rows|], HasPersona(persona));
    }
  }

  /** No other persona's lookup changes. */
  lemma SavedOthers(rows: seq<LtmRow>, nextId: nat, persona: string, memory: PersonaMemory, now: int, other: string)
    requires other != persona
    ensures Lookup(Saved(rows, nextId, persona, memory, now).rows, other) == Lookup(rows, other)
  {
    var s := Saved(rows, nextId, persona, memory, now);
    var i := FirstIndex(rows, HasPersona(persona));
    if i >= 0 {
      FirstIndexUpdate(rows, i, s.rows[i], HasPersona(other));
    } else {
      FirstIndexSnoc(rows, s.rows[|rows|], HasPersona(other));
    }
  }

  lemma FirstIndexSame<T>(a: seq<T>, b: seq<T>, p: T -> bool, i: nat)
    requires |a| == |b| && i < |a| && FirstIndex(a, p) == i && p(b[i])
    requires forall j | 0 <= j < i :: a[j] == b[j]
    ensures FirstIndex(b, p) == i
  {
  }

  /** Replacing an element that fails `p` by another one that fails it leaves `FirstIndex` alone. */
  lemma FirstIndexUpdate<T>(a: seq<T>, i: nat, x: T, p: T -> bool)
    requires i < |a| && !p(a[i]) && !p(x)
    ensures FirstIndex(a[i := x], p) == FirstIndex(a, p)
  {
    var b := a[i := x];
    var r := FirstIndex(a, p);
    var q := FirstIndex(b, p);
    if r >= 0 {
      assert b[r] == a[r];
    }
    if q >= 0 {
      assert b[q] == a[q];
    }
  }

  lemma {:induction false} FirstIndexSnoc<T>(a: seq<T>, x: T, p: T -> bool)
    ensures FirstIndex(a + [x], p) == if FirstIndex(a, p) >= 0 then FirstIndex(a, p) else if p(x) then |a| else -1
  {
    if a != [] && !p(a[0]) {
      FirstIndexSnoc(a[1..], x, p);
      assert (a + [x])[1..] == a[1..] + [x];
    }
  }

  /** The row `getPersonaMemory` leaves behind: the found row with its access time set to `now`. */
  function Accessed(rows: seq<LtmRow>, persona: string, now: int): (r: seq<LtmRow>)
    ensures |r| == |rows|
    ensures forall k | 0 <= k < |rows| :: r[k] == rows[k] || (rows[k].persona == persona && r[k] == rows[k].(lastAccessed := now))
  {
    var i := FirstIndex(rows, HasPersona(persona));
    if i < 0 then rows else rows[i := rows[i].(lastAccessed := now)]
  }

  /** Reading a persona changes no row's contents other than its access time, and no lookup's contents. */
  lemma AccessedKeepsContents(rows: seq<LtmRow>, persona: string, now: int, q: string)
    ensures MessagesOf(Accessed(rows, persona, now), q) == MessagesOf(rows, q)
  {
    var i := FirstIndex(rows, HasPersona(persona));
    if i >= 0 {
      var a := Accessed(rows, persona, now);
      var ri := FirstIndex(rows, HasPersona(q));
      var ai := FirstIndex(a, HasPersona(q));
      if ri >= 0 { assert a[ri].persona == rows[ri].persona; }
      if ai >= 0 { assert a[ai].persona == rows[ai].persona; }
      if ri >= 0 && ai >= 0 {
        assert !(ai < ri) && !(ri < ai);
      }
    }
  }

  class LongTermStore {
    var rows: seq<LtmRow>
    var nextId: nat

    predicate Valid()
      reads this
    {
      IdsIncreasing(rows, nextId)
    }

    /** An empty table; Dexie's `++id` keys start at 1. */
    constructor()
      ensures Valid() && rows == [] && nextId == 1
    {
      rows := [];
      nextId := 1;
    }

    /** `savePersonaMemory`: update the persona's row in place or add one; returns the row id. */
    method SavePersonaMemory(persona: string, memory: PersonaMemory, now: int) returns (id: nat)
      requires Valid()
      modifies this
      ensures Valid()
      ensures Saved(old(rows), old(nextId), persona, memory, now) == SaveOutcome(rows, id, nextId)
      ensures MessagesOf(rows, persona) == memory.messages
    {
      ghost var before := rows;
      SavedIds(rows, nextId, persona, memory, now);
      SavedLookup(rows, nextId, persona, memory, now);
      var i := FirstIndex(rows, HasPersona(persona));
      if i >= 0 {
        id := rows[i].id;
        rows := rows[i := rows[i].(messages := memory.messages, users := memory.users, aiConfig := memory.aiConfig,
                                   voiceConfig := memory.voiceConfig, lastAccessed := now)];
      } else {
        id := nextId;
        rows := rows + [LtmRow(nextId, persona, memory.messages, memory.users, memory.aiConfig, memory.voiceConfig, now)];
        nextId := nextId + 1;
      }
    }

    /** `getPersonaMemory`: the first row of the persona as read, after which its access time is set. */
    method GetPersonaMemory(persona: string, now: int) returns (memory: Option<LtmRow>)
      requires Valid()
      modifies this`rows
      ensures Valid()
      ensures memory == Lookup(old(rows), persona)
      ensures rows == Accessed(old(rows), persona, now)
    {
      memory := Lookup(rows, persona);
      var i := FirstIndex(rows, HasPersona(persona));
      if i >= 0 {
        rows := rows[i := rows[i].(lastAccessed := now)];
      }
    }
  }
}
