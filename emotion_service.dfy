/**
 * The discrete parts of the emotion service: the keyword-occurrence scanner,
 * negation scopes as index intervals, the bounded emotion history with its
 * trend queries, the avatar-alignment reordering of scored emotions and the
 * dialogue-act classifier.
 *
 * Emotion labels are kept as strings; confidences are reals.
 */
module EmotionService {
  import opened Wrappers
  import opened Text

  type EmotionLabel = string

  function Min(a: int, b: int): int { if a <= b then a else b }

  predicate Increasing(s: seq<nat>)
  {
    forall i, j | 0 <= i < j < |s| :: s[i] < s[j]
  }

  // ---------------------------------------------------------------------------
  // findKeywordOccurrences
  // ---------------------------------------------------------------------------

  /**
   * `findKeywordOccurrences`: repeated `indexOf` from one past the last hit.
   * With an empty keyword `indexOf` never fails and the loop never ends.
   */
  method FindKeywordOccurrences(text: string, keyword: string) returns (occurrences: seq<nat>)
    requires keyword != []
    ensures forall k | 0 <= k < |occurrences| :: OccursAt(text, keyword, occurrences[k])
    ensures forall i: nat | OccursAt(text, keyword, i) :: i in occurrences
    ensures Increasing(occurrences)
  {
    occurrences := [];
    var index := IndexOf(text, keyword, 0);
    while index != -1
      invariant index == -1 || (0 <= index && OccursAt(text, keyword, index))
      invariant forall k | 0 <= k < |occurrences| :: OccursAt(text, keyword, occurrences[k])
      invariant index != -1 ==> forall k | 0 <= k < |occurrences| :: occurrences[k] < index
      invariant Increasing(occurrences)
      invariant forall i: nat | OccursAt(text, keyword, i) && (index == -1 || i < index) :: i in occurrences
      decreases if index == -1 then 0 else |text| + 1 - index
    {
      occurrences := occurrences + [index as nat];
      index := IndexOf(text, keyword, index + 1);
    }
  }

  // ---------------------------------------------------------------------------
  // Whitespace tokens
  // ---------------------------------------------------------------------------

  /** A maximal run of non-space characters and where it starts. */
  datatype Token = Token(start: nat, word: string)

  function TokenEnd(t: Token): nat { t.start + |t.word| }

  function TokenWord(t: Token): string { t.word }

  /** The tokens of `s` at or after `i`, in order. */
  function TokensFrom(s: string, i: nat): seq<Token>
    requires i <= |s|
    decreases |s| - i
  {
    if i == |s| then []
    else if IsSpace(s[i]) then TokensFrom(s, i + 1)
    else
      var n := RunLen(s, i, NotSpace);
      [Token(i, s[i..i + n])] + TokensFrom(s, i + n)
  }

  /**
   * The non-empty pieces of `text.split(/\s+/)`. The empty pieces the split
   * gives before leading or after trailing whitespace are left out: they match
   * no negation word and `indexOf('')` does not move the scan.
   */
  function Tokens(s: string): seq<Token> { TokensFrom(s, 0) }

  /** Where the scan stands before token `k`: the end of the previous token, or `i`. */
  function GapStart(r: seq<Token>, k: nat, i: nat): nat
    requires k <= |r|
  {
    if k == 0 then i else TokenEnd(r[k - 1])
  }

  /** `t` is a maximal run of non-space characters of `s`, read at its own position. */
  predicate Placed(s: string, t: Token)
  {
    && TokenEnd(t) <= |s| && t.word == s[t.start..TokenEnd(t)] && t.word != []
    && (forall q | t.start <= q < TokenEnd(t) :: NotSpace(s[q]))
    && (TokenEnd(t) == |s| || IsSpace(s[TokenEnd(t)]))
  }

  /** Every token is a maximal run of non-space characters read at its own position. */
  lemma {:induction false} TokensFromPlaced(s: string, i: nat)
    requires i <= |s|
    ensures forall t | t in TokensFrom(s, i) :: Placed(s, t) && i <= t.start
    decreases |s| - i
  {
    if i < |s| {
      if IsSpace(s[i]) {
        TokensFromPlaced(s, i + 1);
      } else {
        var n := RunLen(s, i, NotSpace);
        TokensFromPlaced(s, i + n);
        var t := Token(i, s[i..i + n]);
        assert TokensFrom(s, i) == [t] + TokensFrom(s, i + n);
        assert Placed(s, t);
      }
    }
  }

  /** Each token ends before the next one starts. */
  predicate Spaced(r: seq<Token>)
  {
    forall a, b | 0 <= a < b < |r| :: TokenEnd(r[a]) < r[b].start
  }

  /** The tokens after a run start past the space (or end) that closes it. */
  lemma TailAfterRun(s: string, i: nat)
    requires i < |s| && NotSpace(s[i])
    ensures var n := RunLen(s, i, NotSpace);
      forall t | t in TokensFrom(s, i + n) :: i + n < t.start
  {
    var n := RunLen(s, i, NotSpace);
    TokensFromPlaced(s, i + n);
    forall t | t in TokensFrom(s, i + n) ensures i + n < t.start {
      assert Placed(s, t) && NotSpace(s[t.start]);
    }
  }

  /** A token ending before every token of a spaced list can lead it. */
  lemma SpacedCons(h: Token, tail: seq<Token>)
    requires Spaced(tail) && forall t | t in tail :: TokenEnd(h) < t.start
    ensures Spaced([h] + tail)
  {
    var r := [h] + tail;
    forall a, b | 0 <= a < b < |r| ensures TokenEnd(r[a]) < r[b].start {
      assert r[b] == tail[b - 1] && tail[b - 1] in tail;
      if a > 0 {
        assert r[a] == tail[a - 1];
      }
    }
  }

  /** Tokens come in strictly increasing positions, a space apart. */
  lemma {:induction false} TokensFromOrdered(s: string, i: nat)
    requires i <= |s|
    ensures Spaced(TokensFrom(s, i))
    decreases |s| - i
  {
    if i < |s| {
      if IsSpace(s[i]) {
        TokensFromOrdered(s, i + 1);
      } else {
        var n := RunLen(s, i, NotSpace);
        TokensFromOrdered(s, i + n);
        TailAfterRun(s, i);
        SpacedCons(Token(i, s[i..i + n]), TokensFrom(s, i + n));
      }
    }
  }

  lemma TokensOrdered(s: string)
    ensures Spaced(Tokens(s))
  {
    TokensFromOrdered(s, 0);
  }

  /** Every token of `s` is placed in `s`. */
  lemma TokenMembers(s: string)
    ensures forall t | t in Tokens(s) :: Placed(s, t)
  {
    TokensFromPlaced(s, 0);
  }

  /** Searching from where the scan stands finds token `k` at its own start. */
  lemma {:induction false} IndexOfTokenFrom(s: string, i: nat, k: nat)
    requires i <= |s| && k < |TokensFrom(s, i)|
    ensures var r := TokensFrom(s, i); IndexOf(s, r[k].word, GapStart(r, k, i)) == r[k].start
    decreases |s| - i
  {
    var r := TokensFrom(s, i);
    if IsSpace(s[i]) {
      IndexOfTokenFrom(s, i + 1, k);
      if k == 0 {
        TokensFromPlaced(s, i + 1);
        assert r[0] in TokensFrom(s, i + 1);
        var w := r[0].word;
        assert w[0] == s[r[0].start] && NotSpace(w[0]);
        assert !OccursAt(s, w, i);
      }
    } else {
      var n := RunLen(s, i, NotSpace);
      var tail := TokensFrom(s, i + n);
      assert r == [Token(i, s[i..i + n])] + tail;
      if k > 0 {
        IndexOfTokenFrom(s, i + n, k - 1);
        assert r[k] == tail[k - 1];
        if k > 1 {
          assert r[k - 1] == tail[k - 2];
        }
        assert GapStart(r, k, i) == GapStart(tail, k - 1, i + n);
      }
    }
  }

  /** `text.indexOf(word, currentIndex)` finds token `k` at its own start. */
  lemma IndexOfToken(s: string, k: nat)
    requires k < |Tokens(s)|
    ensures IndexOf(s, Tokens(s)[k].word, GapStart(Tokens(s), k, 0)) == Tokens(s)[k].start
  {
    IndexOfTokenFrom(s, 0, k);
  }

  // ---------------------------------------------------------------------------
  // detectNegationScopes, isWithinNegationScope
  // ---------------------------------------------------------------------------

  const NegationWords: seq<string> := [
    "not", "no", "never", "don't", "dont", "won't", "wont", "can't", "cant",
    "shouldn't", "shouldnt", "wouldn't", "wouldnt", "couldn't", "couldnt",
    "isn't", "isnt", "aren't", "arent", "wasn't", "wasnt", "weren't", "werent",
    "hasn't", "hasnt", "haven't", "havent", "hadn't", "hadnt", "doesn't", "doesnt",
    "didn't", "didnt", "without", "neither", "nor", "none", "nobody", "nothing", "nowhere"]

  /** How far a scope reaches when no punctuation closes it. */
  const ScopeReach: nat := 50

  predicate IsScopePunct(c: char) { c == '.' || c == '!' || c == '?' || c == ',' || c == ';' }

  datatype Scope = Scope(start: int, end: int)

  predicate IsNegationToken(t: Token) { Listed(LowerStr(t.word), NegationWords) }

  /** The end of a scope whose negation word ends at `from`: the next scope punctuation, or 50 on, within the text. */
  function ScopeEnd(text: string, from: nat): int
  {
    if from > |text| then |text|
    else
      var next := FirstIndex(text[from..], IsScopePunct);
      if next != -1 then from + next else Min(from + ScopeReach, |text|)
  }

  /**
   * A scope stops at the first `.!?,;` after the negation word however far it
   * is; with no such character it reaches 50 characters on, or the end.
   */
  lemma ScopeEndSpec(text: string, from: nat)
    requires from <= |text|
    ensures from <= ScopeEnd(text, from) <= |text|
    ensures forall q | from <= q < ScopeEnd(text, from) :: !IsScopePunct(text[q])
    ensures (ScopeEnd(text, from) < |text| && IsScopePunct(text[ScopeEnd(text, from)]))
      || (ScopeEnd(text, from) == Min(from + ScopeReach, |text|)
          && forall q | from <= q < |text| :: !IsScopePunct(text[q]))
  {
    var rest := text[from..];
    var next := FirstIndex(rest, IsScopePunct);
    forall q | from <= q < |text| && (next == -1 || q < from + next) ensures !IsScopePunct(text[q]) {
      assert text[q] == rest[q - from];
    }
    if next != -1 {
      assert text[from + next] == rest[next];
    }
  }

  function ScopeOf(text: string): Token -> Scope
  {
    (t: Token) => Scope(t.start, ScopeEnd(text, TokenEnd(t)))
  }

  /** The scopes of `detectNegationScopes`: one per negation token, in order. */
  function NegationScopes(text: string): seq<Scope>
  {
    Map(Filter(Tokens(text), IsNegationToken), ScopeOf(text))
  }

  /** Mapping a filtered prefix one element longer adds at most the image of that element. */
  lemma MapFilterSnoc<A, B>(s: seq<A>, i: nat, p: A -> bool, f: A -> B)
    requires i < |s|
    ensures Map(Filter(s[..i + 1], p), f) == Map(Filter(s[..i], p), f) + (if p(s[i]) then [f(s[i])] else [])
  {
    assert s[..i + 1] == s[..i] + [s[i]];
    FilterSnoc(s[..i], s[i], p);
    var prior := Filter(s[..i], p);
    if p(s[i]) {
      assert Map(prior + [s[i]], f) == Map(prior, f) + [f(s[i])];
    } else {
      assert prior + [] == prior;
    }
  }

  /** What the scan computes for token `i`: where `indexOf` finds it, and the scope it opens. */
  lemma ScanStep(text: string, i: nat)
    requires i < |Tokens(text)|
    ensures var t := Tokens(text)[i];
      && IndexOf(text, t.word, GapStart(Tokens(text), i, 0)) == t.start
      && TokenEnd(t) == GapStart(Tokens(text), i + 1, 0) <= |text|
      && ScopeOf(text)(t).start == t.start
      && ScopeOf(text)(t).end ==
           var next := FirstIndex(text[TokenEnd(t)..], IsScopePunct);
           if next != -1 then TokenEnd(t) + next else Min(TokenEnd(t) + ScopeReach, |text|)
  {
    IndexOfToken(text, i);
    TokenMembers(text);
    assert Placed(text, Tokens(text)[i]);
  }

  /** `detectNegationScopes`: scan the split words, locating each with `indexOf` from the end of the last. */
  method DetectNegationScopes(text: string) returns (scopes: seq<Scope>)
    ensures scopes == NegationScopes(text)
  {
    var tokens := Tokens(text);
    scopes := [];
    var currentIndex := 0;
    for i := 0 to |tokens|
      invariant currentIndex == GapStart(tokens, i, 0)
      invariant scopes == Map(Filter(tokens[..i], IsNegationToken), ScopeOf(text))
    {
      var word := tokens[i].word;
      ScanStep(text, i);
      var wordStart := IndexOf(text, word, currentIndex);
      currentIndex := wordStart + |word|;
      MapFilterSnoc(tokens, i, IsNegationToken, ScopeOf(text));
      if IsNegationToken(tokens[i]) {
        var scopeEnd := Min(currentIndex + ScopeReach, |text|);
        var nextPunctuation := FirstIndex(text[currentIndex..], IsScopePunct);
        var actualEnd := if nextPunctuation != -1 then currentIndex + nextPunctuation else scopeEnd;
        assert Scope(wordStart, actualEnd) == ScopeOf(text)(tokens[i]);
        scopes := scopes + [Scope(wordStart, actualEnd)];
      }
    }
    assert tokens[..|tokens|] == tokens;
  }

  /** A token occurs at its own start, and the scope it would open ends at or after it, within the text. */
  lemma TokenScope(text: string, t: Token)
    requires t in Tokens(text)
    ensures OccursAt(text, t.word, t.start)
    ensures TokenEnd(t) <= ScopeOf(text)(t).end <= |text|
  {
    TokenMembers(text);
    assert Placed(text, t);
    ScopeEndSpec(text, TokenEnd(t));
  }

  /**
   * One scope per negation token: each starts where its token does, at an
   * occurrence of a negation word, and ends at or after the token, within the text.
   */
  lemma NegationScopesSpec(text: string)
    ensures var negs := Filter(Tokens(text), IsNegationToken);
      var r := NegationScopes(text);
      && |r| == |negs|
      && (forall k | 0 <= k < |r| ::
            r[k].start == negs[k].start && OccursAt(text, negs[k].word, r[k].start)
            && Listed(LowerStr(negs[k].word), NegationWords)
            && TokenEnd(negs[k]) <= r[k].end <= |text|)
  {
    var negs := Filter(Tokens(text), IsNegationToken);
    forall k | 0 <= k < |negs|
      ensures OccursAt(text, negs[k].word, negs[k].start)
      ensures TokenEnd(negs[k]) <= ScopeOf(text)(negs[k]).end <= |text|
    {
      TokenScope(text, negs[k]);
    }
  }

  /** The scopes come in order of position. */
  lemma NegationScopesOrdered(text: string)
    ensures forall a, b | 0 <= a < b < |NegationScopes(text)| :: NegationScopes(text)[a].start < NegationScopes(text)[b].start
  {
    var toks := Tokens(text);
    TokensOrdered(text);
    assert forall a, b | 0 <= a < b < |toks| :: StartsBefore(toks[a], toks[b]);
    FilterPairwise(toks, IsNegationToken, StartsBefore);
    var negs := Filter(toks, IsNegationToken);
    var r := NegationScopes(text);
    forall a, b | 0 <= a < b < |r| ensures r[a].start < r[b].start {
      assert r[a].start == negs[a].start && r[b].start == negs[b].start;
      assert StartsBefore(negs[a], negs[b]);
    }
  }

  predicate StartsBefore(x: Token, y: Token) { x.start < y.start }

  /** `isWithinNegationScope`: some scope holds the position, both ends included. */
  function WithinNegationScope(position: int, scopes: seq<Scope>): (r: bool)
    ensures r <==> exists k | 0 <= k < |scopes| :: scopes[k].start <= position <= scopes[k].end
  {
    if scopes == [] then false
    else
      (scopes[0].start <= position <= scopes[0].end) || WithinNegationScope(position, scopes[1..])
  }

  /** Every character of a negation word lies in the scopes detected for its text. */
  lemma NegationWordNegated(text: string, t: Token, p: int)
    requires t in Tokens(text) && IsNegationToken(t)
    requires t.start <= p <= TokenEnd(t)
    ensures WithinNegationScope(p, NegationScopes(text))
  {
    NegationScopesSpec(text);
    var negs := Filter(Tokens(text), IsNegationToken);
    var k :| 0 <= k < |negs| && negs[k] == t;
    assert NegationScopes(text)[k].start <= p <= NegationScopes(text)[k].end;
  }

  // ---------------------------------------------------------------------------
  // getPrimaryEmotion, adjustResponseEmotionsToMatchAvatar
  // ---------------------------------------------------------------------------

  datatype Scored = Scored(emotion: EmotionLabel, confidence: real)

  /** `getPrimaryEmotion`: the head of the ranked list, or neutral when there is none. */
  function PrimaryEmotion(emotions: seq<Scored>): EmotionLabel
  {
    if emotions == [] then "neutral" else emotions[0].emotion
  }

  function HasEmotion(e: EmotionLabel): Scored -> bool
  {
    (s: Scored) => s.emotion == e
  }

  function OtherEmotion(e: EmotionLabel): Scored -> bool
  {
    (s: Scored) => s.emotion != e
  }

  predicate Mentions(emotions: seq<Scored>, e: EmotionLabel)
  {
    exists k | 0 <= k < |emotions| :: emotions[k].emotion == e
  }

  /** `adjustResponseEmotionsToMatchAvatar`. */
  function AdjustToAvatar(emotions: seq<Scored>, avatar: EmotionLabel): seq<Scored>
  {
    var i := FirstIndex(emotions, HasEmotion(avatar));
    if i >= 0 then
      if emotions[i].confidence < emotions[0].confidence
      then [Scored(avatar, emotions[0].confidence * 1.1)] + Filter(emotions, OtherEmotion(avatar))
      else emotions
    else
      // `emotions[0]?.confidence || 0.5`: a missing or zero confidence becomes 0.5.
      var top := if emotions == [] || emotions[0].confidence == 0.0 then 0.5 else emotions[0].confidence;
      [Scored(avatar, top * 1.1)] + emotions[..Min(4, |emotions|)]
  }

  /** When the avatar emotion is missing it is put first, followed by the top four others. */
  lemma AdjustAddsAvatar(emotions: seq<Scored>, avatar: EmotionLabel)
    requires !Mentions(emotions, avatar)
    ensures var r := AdjustToAvatar(emotions, avatar);
      && r[0].emotion == avatar && |r| == Min(|emotions|, 4) + 1
      && r[1..] == emotions[..Min(4, |emotions|)]
  {
  }

  /** When the avatar emotion is ranked below the head it moves to the head and appears only there. */
  lemma AdjustPromotesAvatar(emotions: seq<Scored>, avatar: EmotionLabel)
    requires var i := FirstIndex(emotions, HasEmotion(avatar));
      i >= 0 && emotions[i].confidence < emotions[0].confidence
    ensures var r := AdjustToAvatar(emotions, avatar);
      && r[0] == Scored(avatar, emotions[0].confidence * 1.1)
      && (forall k | 0 < k < |r| :: r[k].emotion != avatar)
      && r[1..] == Filter(emotions, OtherEmotion(avatar))
  {
    var r := AdjustToAvatar(emotions, avatar);
    var rest := Filter(emotions, OtherEmotion(avatar));
    assert r[1..] == rest;
    forall k | 0 < k < |r| ensures r[k].emotion != avatar {
      assert r[k] == rest[k - 1];
      assert OtherEmotion(avatar)(rest[k - 1]);
    }
  }

  /** Otherwise, when it already leads or ties the head, the list is left as it is. */
  lemma AdjustKeeps(emotions: seq<Scored>, avatar: EmotionLabel)
    requires var i := FirstIndex(emotions, HasEmotion(avatar));
      i >= 0 && emotions[i].confidence >= emotions[0].confidence
    ensures AdjustToAvatar(emotions, avatar) == emotions
  {
  }

  /** The adjusted list always names the avatar emotion, and it is primary unless it already scored at least the head. */
  lemma AdjustMentionsAvatar(emotions: seq<Scored>, avatar: EmotionLabel)
    ensures Mentions(AdjustToAvatar(emotions, avatar), avatar)
    ensures var i := FirstIndex(emotions, HasEmotion(avatar));
      PrimaryEmotion(AdjustToAvatar(emotions, avatar)) ==
        if i >= 0 && emotions[i].confidence >= emotions[0].confidence then emotions[0].emotion else avatar
  {
    var r := AdjustToAvatar(emotions, avatar);
    var i := FirstIndex(emotions, HasEmotion(avatar));
    if i >= 0 && emotions[i].confidence >= emotions[0].confidence {
      assert r[i].emotion == avatar;
    } else {
      assert r[0].emotion == avatar;
    }
  }

  // ---------------------------------------------------------------------------
  // EmotionHistoryTracker
  // ---------------------------------------------------------------------------

  datatype Speaker = UserSpeaker | AssistantSpeaker

  datatype HistoryEntry = HistoryEntry(timestamp: int, emotion: EmotionLabel, confidence: real, speaker: Speaker)

  datatype Trajectory = Escalating | Deescalating | Stable

  const MaxHistory: nat := 10

  /** The history after `addEmotion`: the entry appended, the oldest dropped past ten. */
  function Appended(history: seq<HistoryEntry>, entry: HistoryEntry): seq<HistoryEntry>
  {
    var h := history + [entry];
    if |h| > MaxHistory then h[1..] else h
  }

  /** The history keeps the newest ten entries, ending with the one just added. */
  lemma AppendedSpec(history: seq<HistoryEntry>, entry: HistoryEntry)
    requires |history| <= MaxHistory
    ensures var r := Appended(history, entry);
      && |r| == Min(|history| + 1, MaxHistory) && r[|r| - 1] == entry
      && IsSuffix(r, history + [entry])
  {
  }

  function EntryEmotion(e: HistoryEntry): EmotionLabel { e.emotion }

  function Emotions(h: seq<HistoryEntry>): seq<EmotionLabel> { Map(h, EntryEmotion) }

  /** How many entries carry emotion `e`. */
  function Count(h: seq<HistoryEntry>, e: EmotionLabel): nat
  {
    if h == [] then 0 else Count(h[..|h| - 1], e) + (if h[|h| - 1].emotion == e then 1 else 0)
  }

  lemma {:induction false} CountPositive(h: seq<HistoryEntry>, e: EmotionLabel)
    ensures Count(h, e) > 0 <==> e in Emotions(h)
  {
    if h != [] {
      var init := h[..|h| - 1];
      CountPositive(init, e);
      assert Emotions(h) == Emotions(init) + [h[|h| - 1].emotion];
    }
  }

  function BySpeaker(s: Speaker): HistoryEntry -> bool
  {
    (e: HistoryEntry) => e.speaker == s
  }

  /** The entries `getRecentTrend` looks at: all of them, or one speaker's. */
  function SpeakerHistory(h: seq<HistoryEntry>, speaker: Option<Speaker>): seq<HistoryEntry>
  {
    if speaker.Some? then Filter(h, BySpeaker(speaker.value)) else h
  }

  function ConfidenceSum(h: seq<HistoryEntry>): real
  {
    if h == [] then 0.0 else ConfidenceSum(h[..|h| - 1]) + h[|h| - 1].confidence
  }

  function Average(h: seq<HistoryEntry>): real
    requires h != []
  {
    ConfidenceSum(h) / |h| as real
  }

  /** `getEmotionalTrajectory`: compare the mean confidence of the later half with the earlier half. */
  function TrajectoryOf(h: seq<HistoryEntry>): Trajectory
  {
    if |h| < 3 then Stable
    else
      var mid := |h| / 2;
      var diff := Average(h[mid..]) - Average(h[..mid]);
      if diff > 0.15 then Escalating else if diff < -0.15 then Deescalating else Stable
  }

  lemma {:induction false} ConfidenceSumConstant(h: seq<HistoryEntry>, c: real)
    requires forall k | 0 <= k < |h| :: h[k].confidence == c
    ensures ConfidenceSum(h) == |h| as real * c
  {
    if h != [] {
      ConfidenceSumConstant(h[..|h| - 1], c);
    }
  }

  /** Entries of one confidence average to it. */
  lemma AverageConstant(h: seq<HistoryEntry>, c: real)
    requires h != [] && forall k | 0 <= k < |h| :: h[k].confidence == c
    ensures Average(h) == c
  {
    ConfidenceSumConstant(h, c);
    var n := |h| as real;
    assert ConfidenceSum(h) == n * c;
    assert (n * c) / n == c;
  }

  /** Fewer than three entries, or an unchanging confidence, make a stable trajectory. */
  lemma TrajectoryStable(h: seq<HistoryEntry>, c: real)
    requires |h| < 3 || forall k | 0 <= k < |h| :: h[k].confidence == c
    ensures TrajectoryOf(h) == Stable
  {
    if |h| >= 3 {
      var mid := |h| / 2;
      var late, early := h[mid..], h[..mid];
      assert forall k | 0 <= k < |late| :: late[k] == h[mid + k];
      AverageConstant(late, c);
      AverageConstant(early, c);
    }
  }

  /** `order` and `counts` as `getRecentTrend` builds them for `h`. */
  ghost predicate Tally(h: seq<HistoryEntry>, counts: map<EmotionLabel, nat>, order: seq<EmotionLabel>)
  {
    && order == Dedupe(Emotions(h))
    && (forall e :: e in counts <==> e in order)
    && (forall e | e in counts :: counts[e] == Count(h, e))
  }

  /** The counts map of `getRecentTrend`, with its keys in insertion order (the order a `Map` iterates in). */
  method CountEmotions(h: seq<HistoryEntry>) returns (counts: map<EmotionLabel, nat>, order: seq<EmotionLabel>)
    ensures Tally(h, counts, order)
  {
    counts := map[];
    order := [];
    for i := 0 to |h|
      invariant Tally(h[..i], counts, order)
    {
      var e := h[i].emotion;
      TallyStep(h, i, counts, order);
      var c := if e in counts then counts[e] else 0;
      if e !in counts {
        order := order + [e];
      }
      counts := counts[e := c + 1];
    }
    assert h[..|h|] == h;
  }

  /** One more entry keeps the tally once its emotion is counted (and added to the order if new). */
  lemma TallyStep(h: seq<HistoryEntry>, i: nat, counts: map<EmotionLabel, nat>, order: seq<EmotionLabel>)
    requires i < |h| && Tally(h[..i], counts, order)
    ensures var e := h[i].emotion;
      Tally(h[..i + 1], counts[e := (if e in counts then counts[e] else 0) + 1], if e in counts then order else order + [e])
  {
    CountStep(h, i);
    var e := h[i].emotion;
    var c2 := counts[e := (if e in counts then counts[e] else 0) + 1];
    forall x | x in c2 ensures c2[x] == Count(h[..i + 1], x) {
      CountPositive(h[..i], x);
    }
  }

  /** One more entry: its emotion joins the order if new and its count goes up by one. */
  lemma CountStep(h: seq<HistoryEntry>, i: nat)
    requires i < |h|
    ensures Emotions(h[..i + 1]) == Emotions(h[..i]) + [h[i].emotion]
    ensures Dedupe(Emotions(h[..i + 1])) ==
      var d := Dedupe(Emotions(h[..i])); if h[i].emotion in d then d else d + [h[i].emotion]
    ensures forall x :: Count(h[..i + 1], x) == Count(h[..i], x) + (if h[i].emotion == x then 1 else 0)
  {
    assert h[..i + 1][..i] == h[..i];
    var es := Emotions(h[..i + 1]);
    assert es == Emotions(h[..i]) + [h[i].emotion];
    assert es[..|es| - 1] == Emotions(h[..i]);
  }

  /** The key at `at` counts at least as much as every key, and strictly more than every earlier one. */
  ghost predicate FirstMaximal(counts: map<EmotionLabel, nat>, order: seq<EmotionLabel>, at: nat)
    requires forall e | e in order :: e in counts
  {
    && at < |order|
    && (forall t | 0 <= t < |order| :: counts[order[t]] <= counts[order[at]])
    && (forall t | 0 <= t < at :: counts[order[t]] < counts[order[at]])
  }

  /** The first maximal key is a most frequent emotion of the history. */
  lemma FirstMaximalIsMost(h: seq<HistoryEntry>, counts: map<EmotionLabel, nat>, order: seq<EmotionLabel>, at: nat)
    requires Tally(h, counts, order) && FirstMaximal(counts, order, at)
    ensures order[at] in Emotions(h)
    ensures forall e :: Count(h, e) <= Count(h, order[at])
  {
    forall e ensures Count(h, e) <= Count(h, order[at]) {
      CountPositive(h, e);
      if e in counts {
        var t := IndexIn(order, e);
        assert order[t] == e;
      }
    }
  }

  /** Among the most frequent emotions, the first maximal key is the one seen first. */
  lemma FirstMaximalIsEarliest(h: seq<HistoryEntry>, counts: map<EmotionLabel, nat>, order: seq<EmotionLabel>, at: nat)
    requires Tally(h, counts, order) && FirstMaximal(counts, order, at)
    ensures forall e | Count(h, e) == Count(h, order[at]) ::
      IndexIn(Emotions(h), order[at]) <= IndexIn(Emotions(h), e)
  {
    forall e | Count(h, e) == Count(h, order[at]) ensures IndexIn(Emotions(h), order[at]) <= IndexIn(Emotions(h), e) {
      EarliestAmongEqual(h, counts, order, at, e);
    }
  }

  lemma EarliestAmongEqual(h: seq<HistoryEntry>, counts: map<EmotionLabel, nat>, order: seq<EmotionLabel>, at: nat,
                           e: EmotionLabel)
    requires Tally(h, counts, order) && FirstMaximal(counts, order, at)
    requires Count(h, e) == Count(h, order[at])
    ensures IndexIn(Emotions(h), order[at]) <= IndexIn(Emotions(h), e)
  {
    var ems := Emotions(h);
    var m := order[at];
    assert m in ems;
    CountPositive(h, m);
    CountPositive(h, e);
    assert e in order;
    var t := IndexIn(order, e);
    assert order[t] == e;
    assert counts[e] == counts[m];
    if at < t {
      DedupeOrdered(ems, at, t);
    } else {
      assert t == at;
    }
  }

  /** Two positions of the deduplicated list, in the order of their first occurrences. */
  lemma DedupeOrdered<T>(s: seq<T>, i: nat, j: nat)
    requires i < j < |Dedupe(s)|
    ensures IndexIn(s, Dedupe(s)[i]) < IndexIn(s, Dedupe(s)[j])
  {
    DedupeSpec(s);
  }

  /** A tally of a non-empty history has keys, each one counted and with a positive count. */
  lemma TallyKeys(h: seq<HistoryEntry>, counts: map<EmotionLabel, nat>, order: seq<EmotionLabel>)
    requires h != [] && Tally(h, counts, order)
    ensures order != []
    ensures forall t | 0 <= t < |order| :: order[t] in counts && counts[order[t]] > 0
  {
    var ems := Emotions(h);
    assert ems[0] in ems;
    forall t | 0 <= t < |order| ensures order[t] in counts && counts[order[t]] > 0 {
      CountPositive(h, order[t]);
    }
  }

  /**
   * The second half of `getRecentTrend`: walk the keys in insertion order and
   * keep one whose count is strictly greater than the best so far.
   */
  method MostFrequent(h: seq<HistoryEntry>, counts: map<EmotionLabel, nat>, order: seq<EmotionLabel>)
    returns (best: EmotionLabel)
    requires h != [] && Tally(h, counts, order)
    ensures best in Emotions(h)
    ensures forall e :: Count(h, e) <= Count(h, best)
    ensures forall e | Count(h, e) == Count(h, best) :: IndexIn(Emotions(h), best) <= IndexIn(Emotions(h), e)
  {
    TallyKeys(h, counts, order);
    var maxCount := 0;
    best := "neutral";
    ghost var at: nat := 0;
    for j := 0 to |order|
      invariant at <= j && (j > 0 ==> at < j && best == order[at] && maxCount == counts[best] && maxCount > 0)
      invariant j == 0 ==> maxCount == 0
      invariant forall t | 0 <= t < j :: counts[order[t]] <= maxCount
      invariant forall t | 0 <= t < at :: counts[order[t]] < maxCount
    {
      var c := counts[order[j]];
      if c > maxCount {
        maxCount := c;
        best := order[j];
        at := j;
      }
    }
    FirstMaximalIsMost(h, counts, order, at);
    FirstMaximalIsEarliest(h, counts, order, at);
  }

  class EmotionHistoryTracker {
    var history: seq<HistoryEntry>

    predicate Valid()
      reads this
    {
      |history| <= MaxHistory
    }

    constructor()
      ensures Valid() && history == []
    {
      history := [];
    }

    /** `addEmotion`, stamped with the clock reading `now`. */
    method AddEmotion(emotion: EmotionLabel, confidence: real, speaker: Speaker, now: int)
      requires Valid()
      modifies this
      ensures Valid()
      ensures history == Appended(old(history), HistoryEntry(now, emotion, confidence, speaker))
    {
      history := history + [HistoryEntry(now, emotion, confidence, speaker)];
      if |history| > MaxHistory {
        history := history[1..];
      }
    }

    /**
     * `getRecentTrend`: none for an empty history; otherwise a most frequent
     * emotion, ties going to the one that appeared first.
     */
    method GetRecentTrend(speaker: Option<Speaker>) returns (trend: Option<EmotionLabel>)
      ensures trend.None? <==> SpeakerHistory(history, speaker) == []
      ensures trend.Some? ==>
        var h := SpeakerHistory(history, speaker);
        && trend.value in Emotions(h)
        && (forall e :: Count(h, e) <= Count(h, trend.value))
        && (forall e | Count(h, e) == Count(h, trend.value) ::
              IndexIn(Emotions(h), trend.value) <= IndexIn(Emotions(h), e))
    {
      var relevant := SpeakerHistory(history, speaker);
      if |relevant| == 0 {
        return None;
      }
      var counts, order := CountEmotions(relevant);
      var best := MostFrequent(relevant, counts, order);
      trend := Some(best);
    }

    /** `getEmotionalTrajectory`. */
    function GetEmotionalTrajectory(): Trajectory
      reads this
    {
      TrajectoryOf(history)
    }

    /** `clear`. */
    method Clear()
      modifies this
      ensures Valid() && history == []
    {
      history := [];
    }
  }

  // ---------------------------------------------------------------------------
  // classifyDialogueAct
  // ---------------------------------------------------------------------------

  datatype DialogueAct = Question | Statement | Command | Exclamation | Greeting

  const QuestionStarts: seq<string> :=
    ["what", "when", "where", "who", "why", "how", "can", "could", "would", "should", "is", "are", "do", "does", "did"]
  const ExclamationWords: seq<string> := ["wow", "amazing", "incredible", "awesome"]
  const CommandStarts: seq<string> :=
    ["please", "kindly", "could you", "can you", "would you", "tell me", "show me", "help me", "give me"]
  const GreetingStarts: seq<string> :=
    ["hi", "hello", "hey", "greetings", "good morning", "good afternoon", "good evening", "howdy"]

  /** A `?` anywhere in the trimmed text, or a question word at its start (no word boundary is required). */
  predicate AsksQuestion(text: string)
  {
    Contains(Trim(text), "?") || StartsWithAny(LowerStr(Trim(text)), QuestionStarts)
  }

  predicate Exclaims(text: string)
  {
    Contains(Trim(text), "!") || HasAnyWord(LowerStr(text), ExclamationWords)
  }

  predicate Commands(text: string)
  {
    StartsWithAny(LowerStr(Trim(text)), CommandStarts)
  }

  /** Greetings are looked for at the start of the untrimmed text, followed by a word boundary. */
  predicate Greets(text: string)
  {
    StartsWithAnyWord(LowerStr(text), GreetingStarts)
  }

  /** `classifyDialogueAct`: question, then exclamation, then command, then greeting, else statement. */
  function ClassifyDialogueAct(text: string): DialogueAct
  {
    if AsksQuestion(text) then Question
    else if Exclaims(text) then Exclamation
    else if Commands(text) then Command
    else if Greets(text) then Greeting
    else Statement
  }

  /** A question mark makes a question whatever else the text holds. */
  lemma QuestionMarkWins(text: string)
    requires Contains(Trim(text), "?")
    ensures ClassifyDialogueAct(text) == Question
  {
  }

  /** "Can you", "could you" and "would you" requests start with a question word, so they are questions. */
  lemma PoliteRequestIsQuestion(text: string, k: nat)
    requires 2 <= k <= 4 && StartsWith(LowerStr(Trim(text)), CommandStarts[k])
    ensures ClassifyDialogueAct(text) == Question
  {
    var t := LowerStr(Trim(text));
    var q := if k == 2 then 7 else if k == 3 then 6 else 8;
    assert QuestionStarts[q] == CommandStarts[k][..|QuestionStarts[q]|];
    assert t[..|QuestionStarts[q]|] == QuestionStarts[q];
    assert StartsWith(t, QuestionStarts[q]);
  }

  /** A command is one of the other request openings, with no `?` or `!` in the trimmed text. */
  lemma CommandOpenings(text: string)
    requires ClassifyDialogueAct(text) == Command
    ensures !Contains(Trim(text), "?") && !Contains(Trim(text), "!")
    ensures exists k | 0 <= k < |CommandStarts| && !(2 <= k <= 4) :: StartsWith(LowerStr(Trim(text)), CommandStarts[k])
  {
    var t := LowerStr(Trim(text));
    var k :| 0 <= k < |CommandStarts| && StartsWith(t, CommandStarts[k]);
    if 2 <= k <= 4 {
      PoliteRequestIsQuestion(text, k);
    }
  }

  /** A greeting has none of the marks of a question, exclamation or command. */
  lemma GreetingIsPlain(text: string)
    requires ClassifyDialogueAct(text) == Greeting
    ensures !AsksQuestion(text) && !Exclaims(text) && !Commands(text) && Greets(text)
  {
  }
}
