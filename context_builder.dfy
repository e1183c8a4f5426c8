/**
 * The short-term context builder of the client: it walks the conversation
 * backwards, keeps the recent non-trivial user and assistant turns (each clipped
 * to 600 characters) under a pair budget and a character budget, and derives a
 * one-line summary from the last meaningful user message.
 */
module ContextBuilder {
  import opened Wrappers
  import opened Text

  datatype Role = User | Assistant | System

  datatype ChatMsg = ChatMsg(role: Role, content: string, images: Option<seq<string>>)

  /** `memoryPairs`, and the optional `charBudget` and `minPairs`. */
  datatype BuildOpts = BuildOpts(memoryPairs: int, charBudget: Option<int>, minPairs: Option<int>)

  const DefaultCharBudget: int := 2000
  const DefaultMinPairs: int := 1
  const MaxMessageLength: int := 600
  const SummaryLength: int := 140

  const ErrorPrefix: string := "error:"
  const Acknowledgements: seq<string> := ["ok", "k", "thanks", "thank you"]
  const Ellipsis: string := "…"

  /** Empty, an error echo, a bare acknowledgement, or shorter than two characters once trimmed. */
  predicate IsTrivial(s: string)
  {
    var t := LowerStr(Trim(s));
    t == [] || StartsWith(t, ErrorPrefix) || t in Acknowledgements || |t| < 2
  }

  /** Whitespace-only text is trivial. */
  lemma BlankIsTrivial(s: string)
    requires AllSpace(s)
    ensures IsTrivial(s)
  {
    TrimAllSpace(s);
  }

  /** Triviality ignores letter case, because the text is lower-cased after trimming. */
  lemma TrivialIgnoresCase(s: string)
    ensures IsTrivial(LowerStr(s)) == IsTrivial(s)
  {
    TrimLower(s);
    LowerStrIdempotent(Trim(s));
  }

  /** `s`, or its first `max - 1` characters followed by an ellipsis when it is longer than `max`. */
  function Clip(s: string, max: int): (r: string)
    ensures |s| <= max ==> r == s
    ensures 1 <= max < |s| ==> |r| == max && r == s[..max - 1] + Ellipsis
    ensures max >= 1 ==> |r| <= max
  {
    if |s| <= max then s else Slice(s, 0, max - 1) + Ellipsis
  }

  /** `Math.ceil(|s| / 4)`. */
  function ApproxTokens(s: string): (r: nat)
    ensures 4 * r >= |s| && 4 * r < |s| + 4
  {
    (|s| + 3) / 4
  }

  function MemoryPairs(opts: BuildOpts): (r: int)
    ensures r >= 1 && r >= opts.memoryPairs
  {
    if opts.memoryPairs < 1 then 1 else opts.memoryPairs
  }

  function CharBudget(opts: BuildOpts): int { opts.charBudget.GetOr(DefaultCharBudget) }

  function MinPairs(opts: BuildOpts): int { opts.minPairs.GetOr(DefaultMinPairs) }

  /** A message the scan may keep: not a system message and not trivial. */
  predicate Keep(m: ChatMsg) { m.role != System && !IsTrivial(m.content) }

  /** The form in which a kept message enters the context. */
  function Shorten(m: ChatMsg): ChatMsg
  {
    ChatMsg(m.role, Clip(m.content, MaxMessageLength), m.images)
  }

  /** The messages of `h` that satisfy `keep`, shortened, in conversation order. */
  function Select(h: seq<ChatMsg>, keep: ChatMsg -> bool): seq<ChatMsg>
  {
    if h == [] then []
    else (if keep(h[0]) then [Shorten(h[0])] else []) + Select(h[1..], keep)
  }

  /** Every message the scan may keep, shortened, in conversation order. */
  function Eligible(h: seq<ChatMsg>): seq<ChatMsg>
  {
    Select(h, Keep)
  }

  /** The character cost the scan charges for a list of kept messages. */
  function Cost(s: seq<ChatMsg>): int
  {
    if s == [] then 0 else ApproxTokens(s[0].content) * 4 + Cost(s[1..])
  }

  function UserCount(s: seq<ChatMsg>): nat
  {
    if s == [] then 0 else (if s[0].role == User then 1 else 0) + UserCount(s[1..])
  }

  /** Positions in `h`, from `base` on, of the messages that `Select(h, keep)` keeps. */
  ghost function KeptIndices(h: seq<ChatMsg>, keep: ChatMsg -> bool, base: int): seq<int>
  {
    if h == [] then []
    else (if keep(h[0]) then [base] else []) + KeptIndices(h[1..], keep, base + 1)
  }

  lemma {:induction false} KeptIndicesLength(h: seq<ChatMsg>, keep: ChatMsg -> bool, base: int)
    ensures |KeptIndices(h, keep, base)| == |Select(h, keep)|
  {
    if h != [] {
      KeptIndicesLength(h[1..], keep, base + 1);
    }
  }

  /** The kept positions lie inside `h`, in strictly increasing order. */
  lemma {:induction false} KeptIndicesIncreasing(h: seq<ChatMsg>, keep: ChatMsg -> bool, base: int)
    ensures forall k | 0 <= k < |KeptIndices(h, keep, base)| ::
      base <= KeptIndices(h, keep, base)[k] < base + |h|
    ensures forall j, k | 0 <= j < k < |KeptIndices(h, keep, base)| ::
      KeptIndices(h, keep, base)[j] < KeptIndices(h, keep, base)[k]
  {
    if h != [] {
      KeptIndicesIncreasing(h[1..], keep, base + 1);
    }
  }

  /** The k-th selected message is the shortened form of the kept message at the k-th kept position. */
  lemma {:induction false} SelectAt(h: seq<ChatMsg>, keep: ChatMsg -> bool, base: int)
    ensures |KeptIndices(h, keep, base)| == |Select(h, keep)|
    ensures forall k | 0 <= k < |Select(h, keep)| ::
      base <= KeptIndices(h, keep, base)[k] < base + |h|
      && keep(h[KeptIndices(h, keep, base)[k] - base])
      && Select(h, keep)[k] == Shorten(h[KeptIndices(h, keep, base)[k] - base])
  {
    KeptIndicesLength(h, keep, base);
    KeptIndicesIncreasing(h, keep, base);
    if h != [] {
      SelectAt(h[1..], keep, base + 1);
      var p := KeptIndices(h[1..], keep, base + 1);
      var e := Select(h[1..], keep);
      var d := if keep(h[0]) then 1 else 0;
      forall k | d <= k < |Select(h, keep)|
        ensures keep(h[KeptIndices(h, keep, base)[k] - base])
        ensures Select(h, keep)[k] == Shorten(h[KeptIndices(h, keep, base)[k] - base])
      {
        assert KeptIndices(h, keep, base)[k] == p[k - d];
        assert Select(h, keep)[k] == e[k - d];
        assert h[1..][p[k - d] - (base + 1)] == h[p[k - d] - base];
      }
    }
  }

  /**
   * The kept messages are an in-order subsequence of the conversation: the k-th
   * is the shortened form of a non-system, non-trivial message at a position
   * that grows with k.
   */
  lemma EligibleIsSubsequence(h: seq<ChatMsg>)
    ensures |KeptIndices(h, Keep, 0)| == |Eligible(h)|
    ensures forall k | 0 <= k < |Eligible(h)| ::
      0 <= KeptIndices(h, Keep, 0)[k] < |h|
      && h[KeptIndices(h, Keep, 0)[k]].role != System
      && !IsTrivial(h[KeptIndices(h, Keep, 0)[k]].content)
      && Eligible(h)[k] == Shorten(h[KeptIndices(h, Keep, 0)[k]])
    ensures forall j, k | 0 <= j < k < |Eligible(h)| :: KeptIndices(h, Keep, 0)[j] < KeptIndices(h, Keep, 0)[k]
  {
    SelectAt(h, Keep, 0);
    KeptIndicesIncreasing(h, Keep, 0);
  }

  /** No system message enters the context, and no entry is longer than 600 characters. */
  lemma {:induction false} SelectShape(h: seq<ChatMsg>, keep: ChatMsg -> bool)
    requires forall m :: keep(m) ==> m.role != System
    ensures |Select(h, keep)| <= |h|
    ensures forall k | 0 <= k < |Select(h, keep)| ::
      Select(h, keep)[k].role != System && |Select(h, keep)[k].content| <= MaxMessageLength
  {
    if h != [] {
      SelectShape(h[1..], keep);
    }
  }

  lemma EligibleShape(h: seq<ChatMsg>)
    ensures |Eligible(h)| <= |h|
    ensures forall k | 0 <= k < |Eligible(h)| ::
      Eligible(h)[k].role != System && |Eligible(h)[k].content| <= MaxMessageLength
  {
    SelectShape(h, Keep);
  }

  /** Taking one more (older) message adds its cost and, for a user message, one to the count. */
  lemma ScanPush(prev: seq<ChatMsg>, x: ChatMsg)
    ensures ([x] + prev)[1..] == prev
    ensures Cost([x] + prev) == ApproxTokens(x.content) * 4 + Cost(prev)
    ensures UserCount([x] + prev) == (if x.role == User then 1 else 0) + UserCount(prev)
  {
    assert ([x] + prev)[1..] == prev;
  }

  /** One step of the backwards scan: the message before a suffix is kept or skipped. */
  lemma SelectStep(h: seq<ChatMsg>, keep: ChatMsg -> bool, i: int)
    requires 0 < i <= |h|
    ensures Select(h[i - 1..], keep) == (if keep(h[i - 1]) then [Shorten(h[i - 1])] else []) + Select(h[i..], keep)
  {
    assert h[i - 1..][1..] == h[i..];
  }

  /** The messages kept from a suffix of the conversation are a suffix of all kept messages. */
  lemma {:induction false} SelectOfSuffix(h: seq<ChatMsg>, keep: ChatMsg -> bool, j: nat)
    requires j <= |h|
    ensures IsSuffix(Select(h[j..], keep), Select(h, keep))
    decreases j
  {
    if j > 0 {
      SelectOfSuffix(h, keep, j - 1);
      assert h[j - 1..][1..] == h[j..];
      var b := Select(h, keep);
      var c := Select(h[j - 1..], keep);
      var a := Select(h[j..], keep);
      assert c[|c| - |a|..] == a;
      assert b[|b| - |a|..] == b[|b| - |c|..][|c| - |a|..];
    } else {
      assert h[0..] == h;
    }
  }

  /** A user message that is not trivial: the source of the summary. */
  predicate IsMeaningfulUser(m: ChatMsg) { m.role == User && !IsTrivial(m.content) }

  /** `[...history].reverse().find(...)`: the position of the last message meaning `p`, or -1. */
  function LastWhere(h: seq<ChatMsg>, p: ChatMsg -> bool): (r: int)
    ensures -1 <= r < |h|
    ensures r >= 0 ==> p(h[r])
    ensures forall j | r < j < |h| :: !p(h[j])
  {
    if h == [] then -1
    else if p(h[|h| - 1]) then |h| - 1
    else LastWhere(h[..|h| - 1], p)
  }

  const SummaryPrefix: string := "Context: Recent focus — "

  /**
   * The first break of the scan, tested when it reaches the kept message
   * `h[j - 1]` with `Select(h[j..], keep)` taken: the message's cost overdraws
   * the budget and at least `minPairs` user messages are already taken.
   */
  predicate BudgetBreak(h: seq<ChatMsg>, keep: ChatMsg -> bool, charBudget: int, minPairs: int, j: int)
  {
    0 < j <= |h| && keep(h[j - 1])
    && charBudget - Cost(Select(h[j..], keep)) - ApproxTokens(Shorten(h[j - 1]).content) * 4 < 0
    && UserCount(Select(h[j..], keep)) >= minPairs
  }

  /**
   * The second break, tested right after the kept message `h[j]` was taken:
   * `memoryPairs` user messages are taken and under a quarter of the budget is left.
   */
  predicate PairsBreak(h: seq<ChatMsg>, keep: ChatMsg -> bool, memoryPairs: int, charBudget: int, j: int)
  {
    0 <= j < |h| && keep(h[j])
    && UserCount(Select(h[j..], keep)) >= memoryPairs
    && 4 * (charBudget - Cost(Select(h[j..], keep))) < charBudget
  }

  /**
   * The scan stops at `start`: at the front of the conversation, or where one of
   * its two breaks holds, and neither break holds anywhere it passed before.
   */
  predicate StopsAt(h: seq<ChatMsg>, keep: ChatMsg -> bool, memoryPairs: int, charBudget: int, minPairs: int, start: int)
  {
    0 <= start <= |h|
    && (start > 0 ==> BudgetBreak(h, keep, charBudget, minPairs, start) || PairsBreak(h, keep, memoryPairs, charBudget, start))
    && (forall j | start < j <= |h| :: !BudgetBreak(h, keep, charBudget, minPairs, j))
    && (forall j | start < j < |h| :: !PairsBreak(h, keep, memoryPairs, charBudget, j))
  }

  /** Neither break holds at any point the scan has passed on its way down to `i`. */
  predicate NoBreakFrom(h: seq<ChatMsg>, keep: ChatMsg -> bool, memoryPairs: int, charBudget: int, minPairs: int, i: nat)
    decreases |h| - i
  {
    i >= |h|
    || (&& !PairsBreak(h, keep, memoryPairs, charBudget, i)
        && !BudgetBreak(h, keep, charBudget, minPairs, i + 1)
        && NoBreakFrom(h, keep, memoryPairs, charBudget, minPairs, i + 1))
  }

  lemma {:induction false} NoBreakFromAll(h: seq<ChatMsg>, keep: ChatMsg -> bool, memoryPairs: int, charBudget: int, minPairs: int, i: nat)
    requires NoBreakFrom(h, keep, memoryPairs, charBudget, minPairs, i)
    ensures forall j | i < j <= |h| :: !BudgetBreak(h, keep, charBudget, minPairs, j)
    ensures forall j | i <= j < |h| :: !PairsBreak(h, keep, memoryPairs, charBudget, j)
    decreases |h| - i
  {
    if i < |h| {
      NoBreakFromAll(h, keep, memoryPairs, charBudget, minPairs, i + 1);
    }
  }

  /** A break at `start` (or the front), with none before it, is where the scan stops. */
  lemma StopAtBreak(h: seq<ChatMsg>, keep: ChatMsg -> bool, memoryPairs: int, charBudget: int, minPairs: int, i: nat, start: nat)
    requires start <= i <= |h| && i <= start + 1
    requires NoBreakFrom(h, keep, memoryPairs, charBudget, minPairs, i)
    requires start == i ==> start == 0 || BudgetBreak(h, keep, charBudget, minPairs, start)
    requires start < i ==> PairsBreak(h, keep, memoryPairs, charBudget, start) && !BudgetBreak(h, keep, charBudget, minPairs, i)
    ensures StopsAt(h, keep, memoryPairs, charBudget, minPairs, start)
    ensures start > 0 ==>
      UserCount(Select(h[start..], keep)) >= minPairs || UserCount(Select(h[start..], keep)) >= memoryPairs
  {
    NoBreakFromAll(h, keep, memoryPairs, charBudget, minPairs, i);
  }

  /** The first break in terms of the scan's running totals. */
  lemma BudgetBreakAt(h: seq<ChatMsg>, keep: ChatMsg -> bool, charBudget: int, minPairs: int, i: int,
                      e: seq<ChatMsg>, budgetLeft: int, pairs: int)
    requires 0 < i <= |h| && e == Select(h[i..], keep)
    requires budgetLeft == charBudget - Cost(e) && pairs == UserCount(e)
    ensures BudgetBreak(h, keep, charBudget, minPairs, i) <==>
      keep(h[i - 1]) && budgetLeft - ApproxTokens(Clip(h[i - 1].content, MaxMessageLength)) * 4 < 0 && pairs >= minPairs
  {
  }

  /** The second break in terms of the scan's running totals. */
  lemma PairsBreakAt(h: seq<ChatMsg>, keep: ChatMsg -> bool, memoryPairs: int, charBudget: int, i: int,
                     e: seq<ChatMsg>, budgetLeft: int, pairs: int)
    requires 0 <= i < |h| && e == Select(h[i..], keep)
    requires budgetLeft == charBudget - Cost(e) && pairs == UserCount(e)
    ensures PairsBreak(h, keep, memoryPairs, charBudget, i) <==>
      keep(h[i]) && pairs >= memoryPairs && 4 * budgetLeft < charBudget
  {
  }

  /** The running state of the scan at `i`: what it took from `h[i..]`, reversed, with its count and budget. */
  predicate ScanInv(h: seq<ChatMsg>, keep: ChatMsg -> bool, charBudget: int, minPairs: int, i: int,
                    e: seq<ChatMsg>, out: seq<ChatMsg>, pairs: int, budgetLeft: int)
  {
    && 0 <= i <= |h|
    && e == Select(h[i..], keep)
    && out == Reverse(e)
    && pairs == UserCount(e)
    && budgetLeft == charBudget - Cost(e)
    && (e != [] && budgetLeft < 0 ==> UserCount(e[1..]) < minPairs)
  }

  lemma SkipInv(h: seq<ChatMsg>, keep: ChatMsg -> bool, charBudget: int, minPairs: int, i: int,
                e: seq<ChatMsg>, out: seq<ChatMsg>, pairs: int, budgetLeft: int)
    requires ScanInv(h, keep, charBudget, minPairs, i, e, out, pairs, budgetLeft) && 0 < i && !keep(h[i - 1])
    ensures ScanInv(h, keep, charBudget, minPairs, i - 1, e, out, pairs, budgetLeft)
  {
    SelectStep(h, keep, i);
  }

  lemma TakeInv(h: seq<ChatMsg>, keep: ChatMsg -> bool, charBudget: int, minPairs: int, i: int,
                e: seq<ChatMsg>, out: seq<ChatMsg>, pairs: int, budgetLeft: int)
    requires ScanInv(h, keep, charBudget, minPairs, i, e, out, pairs, budgetLeft) && 0 < i && keep(h[i - 1])
    requires !(budgetLeft - ApproxTokens(Clip(h[i - 1].content, MaxMessageLength)) * 4 < 0 && pairs >= minPairs)
    ensures var m := h[i - 1];
      ScanInv(h, keep, charBudget, minPairs, i - 1, [Shorten(m)] + e, out + [ChatMsg(m.role, Clip(m.content, MaxMessageLength), m.images)],
        pairs + (if m.role == User then 1 else 0), budgetLeft - ApproxTokens(Clip(m.content, MaxMessageLength)) * 4)
  {
    var m := h[i - 1];
    SelectStep(h, keep, i);
    ReverseSnoc(e, Shorten(m));
    ScanPush(e, Shorten(m));
  }

  /** There is only one place the scan can stop, so the stop condition fixes what is kept. */
  lemma StopUnique(h: seq<ChatMsg>, keep: ChatMsg -> bool, memoryPairs: int, charBudget: int, minPairs: int, s: int, t: int)
    requires StopsAt(h, keep, memoryPairs, charBudget, minPairs, s)
    requires StopsAt(h, keep, memoryPairs, charBudget, minPairs, t)
    ensures s == t
  {
  }

  /**
   * The backwards scan of `buildShortTermContext`, skipping the messages that
   * fail `keep` (system and trivial ones). It stops at `start`: what it took is
   * everything `keep` selects from `history[start..]`, in reverse; it stops
   * at the first point, going backwards, where one of its two breaks holds
   * (`StopsAt`); and a cost over budget is only accepted while fewer than
   * `minPairs` user messages were taken before the oldest kept message.
   */
  method ScanBackwards(history: seq<ChatMsg>, keep: ChatMsg -> bool, memoryPairs: int, charBudget: int, minPairs: int)
    returns (out: seq<ChatMsg>, ghost start: nat)
    ensures start <= |history|
    ensures out == Reverse(Select(history[start..], keep))
    ensures start > 0 ==>
      UserCount(Select(history[start..], keep)) >= minPairs || UserCount(Select(history[start..], keep)) >= memoryPairs
    ensures Select(history[start..], keep) != [] && Cost(Select(history[start..], keep)) > charBudget ==>
      UserCount(Select(history[start..], keep)[1..]) < minPairs
    ensures StopsAt(history, keep, memoryPairs, charBudget, minPairs, start)
  {
    out := [];
    var pairs := 0;
    var budgetLeft := charBudget;
    var i := |history|;
    ghost var e: seq<ChatMsg> := [];
    ghost var stopped := false;
    assert history[i..] == [];
    while i > 0
      invariant ScanInv(history, keep, charBudget, minPairs, i, e, out, pairs, budgetLeft)
      invariant NoBreakFrom(history, keep, memoryPairs, charBudget, minPairs, i)
      invariant !stopped
    {
      var m := history[i - 1];
      if !keep(m) {
        SkipInv(history, keep, charBudget, minPairs, i, e, out, pairs, budgetLeft);
        i := i - 1;
        continue;
      }
      var clipped := Clip(m.content, MaxMessageLength);
      var cost := ApproxTokens(clipped) * 4;
      BudgetBreakAt(history, keep, charBudget, minPairs, i, e, budgetLeft, pairs);
      if budgetLeft - cost < 0 && pairs >= minPairs {
        StopAtBreak(history, keep, memoryPairs, charBudget, minPairs, i, i);
        stopped := true;
        break;
      }
      TakeInv(history, keep, charBudget, minPairs, i, e, out, pairs, budgetLeft);
      e := [Shorten(m)] + e;
      out := out + [ChatMsg(m.role, clipped, m.images)];
      budgetLeft := budgetLeft - cost;
      if m.role == User {
        pairs := pairs + 1;
      }
      i := i - 1;
      PairsBreakAt(history, keep, memoryPairs, charBudget, i, e, budgetLeft, pairs);
      if pairs >= memoryPairs && 4 * budgetLeft < charBudget {
        StopAtBreak(history, keep, memoryPairs, charBudget, minPairs, i + 1, i);
        stopped := true;
        break;
      }
    }
    if !stopped {
      StopAtBreak(history, keep, memoryPairs, charBudget, minPairs, 0, 0);
    }
    start := i;
  }

  /**
   * `buildShortTermContext`. The kept messages are a suffix of
   * `Eligible(history)`, cut short only once at least `minPairs` or the clamped
   * `memoryPairs` user messages were taken, exactly where the scan's first
   * break holds (`StopsAt`, unique by `StopUnique`); and the summary is built
   * from the last meaningful user message.
   */
  method BuildShortTermContext(history: seq<ChatMsg>, opts: BuildOpts) returns (pruned: seq<ChatMsg>, summary: Option<string>)
    ensures IsSuffix(pruned, Eligible(history))
    ensures UserCount(pruned) < MinPairs(opts) && UserCount(pruned) < MemoryPairs(opts) ==> pruned == Eligible(history)
    ensures pruned != [] && Cost(pruned) > CharBudget(opts) ==> UserCount(pruned[1..]) < MinPairs(opts)
    ensures exists start | 0 <= start <= |history| ::
      pruned == Select(history[start..], Keep)
      && StopsAt(history, Keep, MemoryPairs(opts), CharBudget(opts), MinPairs(opts), start)
    ensures summary.Some? <==> LastWhere(history, IsMeaningfulUser) >= 0
    ensures summary.Some? ==>
      summary.value
      == SummaryPrefix + Clip(CollapseSpaces(history[LastWhere(history, IsMeaningfulUser)].content), SummaryLength)
  {
    var out;
    ghost var start;
    out, start := ScanBackwards(history, Keep, MemoryPairs(opts), CharBudget(opts), MinPairs(opts));
    ReverseReverse(Select(history[start..], Keep));
    pruned := Reverse(out);
    SelectOfSuffix(history, Keep, start);
    assert start == 0 ==> history[start..] == history;

    var last := LastWhere(history, IsMeaningfulUser);
    if last >= 0 {
      summary := Some(SummaryPrefix + Clip(CollapseSpaces(history[last].content), SummaryLength));
    } else {
      summary := None;
    }
  }

  /** The summary is present exactly when some user message is not trivial. */
  lemma SummaryPresence(history: seq<ChatMsg>)
    ensures LastWhere(history, IsMeaningfulUser) >= 0
      <==> exists i :: 0 <= i < |history| && history[i].role == User && !IsTrivial(history[i].content)
  {
  }
}
