/**
 * The rules of `src/utils/humanization.ts` that shape a reply: the sampling temperature
 * and token budget chosen from the user's message, the recognition of short
 * acknowledgements, the conversational context and the tone it asks for, and the tracker
 * of recently used three-word phrases. An emotion is its label.
 */
module Humanization {
  import opened Wrappers
  import opened Text

  // ----- getContextualTemperature -----

  const BaseTemperature: real := 0.9

  /** The emotions that raise the temperature. */
  const CreativeEmotions: seq<string> := ["excitement", "joy", "curiosity", "amusement", "surprise"]

  /** The words of `/\b(code|error|...|fix)\b/i`. */
  const CodingTerms: seq<string> :=
    ["code", "error", "bug", "function", "class", "syntax", "implement", "debug", "fix"]

  function MinReal(a: real, b: real): real
  {
    if a <= b then a else b
  }

  /**
   * `getContextualTemperature`. The keyword test ignores case; since the keywords are
   * ASCII words, that is the test on the ASCII-lowercased message.
   */
  function ContextualTemperature(userInput: string, primaryEmotion: string): (t: real)
    ensures t in {0.7, 0.75, 0.9, 0.95, 1.0}
    ensures primaryEmotion in CreativeEmotions <==> t == 1.0
  {
    var words := JsSplitCount(userInput);
    if primaryEmotion in CreativeEmotions then MinReal(1.0, BaseTemperature + 0.1)
    else if HasAnyWord(LowerStr(userInput), CodingTerms) then 0.7
    else if words < 5 then MinReal(1.0, BaseTemperature + 0.05)
    else if words > 100 then 0.75
    else BaseTemperature
  }

  /**
   * The emotion is looked at before the words: a creative emotion gives the highest
   * temperature even for a coding question, and otherwise a coding question gives the
   * lowest one whatever its length.
   */
  lemma TemperaturePrecedence(userInput: string, primaryEmotion: string)
    ensures var t := ContextualTemperature(userInput, primaryEmotion);
      && (primaryEmotion in CreativeEmotions ==> t == 1.0)
      && (primaryEmotion !in CreativeEmotions && HasAnyWord(LowerStr(userInput), CodingTerms) ==> t == 0.7)
      && (t == 0.7 ==> HasAnyWord(LowerStr(userInput), CodingTerms))
  {
  }

  /** Without the emotion or a coding word, the length decides: short, long or in between. */
  lemma TemperatureByLength(userInput: string, primaryEmotion: string)
    requires primaryEmotion !in CreativeEmotions && !HasAnyWord(LowerStr(userInput), CodingTerms)
    ensures var t := ContextualTemperature(userInput, primaryEmotion);
      && (t == 0.95 <==> JsSplitCount(userInput) < 5)
      && (t == 0.75 <==> JsSplitCount(userInput) > 100)
      && (t == BaseTemperature <==> 5 <= JsSplitCount(userInput) <= 100)
  {
  }

  // ----- getAdaptiveMaxTokens -----

  /** The token budget for a message of `words` whitespace-separated pieces. */
  function TokensForWords(words: nat): (n: nat)
    ensures n in {150, 500, 1000, 1500}
  {
    if words < 10 then 150
    else if words < 30 then 500
    else if words < 70 then 1000
    else 1500
  }

  /** `getAdaptiveMaxTokens`; the conversation depth is among its inputs but not used. */
  function AdaptiveMaxTokens(userInput: string, conversationDepth: int): (n: nat)
    ensures n in {150, 500, 1000, 1500}
  {
    TokensForWords(JsSplitCount(userInput))
  }

  /** The bands: fewer than 10, 30 and 70 pieces, and the rest. */
  lemma MaxTokensBands(userInput: string, conversationDepth: int)
    ensures var words := JsSplitCount(userInput); var n := AdaptiveMaxTokens(userInput, conversationDepth);
      && (n == 150 <==> words < 10)
      && (n == 500 <==> 10 <= words < 30)
      && (n == 1000 <==> 30 <= words < 70)
      && (n == 1500 <==> words >= 70)
  {
  }

  /** A longer message never gets a smaller budget, whatever the two conversation depths. */
  lemma MaxTokensMonotone(a: string, depthA: int, b: string, depthB: int)
    requires JsSplitCount(a) <= JsSplitCount(b)
    ensures AdaptiveMaxTokens(a, depthA) <= AdaptiveMaxTokens(b, depthB)
  {
  }

  // ----- getBackchannelResponse -----

  /** The six anchored patterns, each as the list of its alternatives. */
  const BackchannelPatterns: seq<seq<string>> := [
    ["ok", "okay", "k"],
    ["yeah", "yep", "yup"],
    ["sure", "alright", "cool"],
    ["got it", "i see", "noted"],
    ["thanks", "thank you", "thx"],
    ["right", "exactly", "true"]
  ]

  const BackchannelReplies: seq<string> := [
    "Got it.", "Cool.", "Right.", "Noted.", "Fair enough.",
    "Makes sense.", "Understood.", "Absolutely.", "For sure."
  ]

  /** `s` is, in full, one of the alternatives of the `k`-th pattern. */
  predicate MatchesPattern(s: string, k: int)
  {
    0 <= k < |BackchannelPatterns| && s in BackchannelPatterns[k]
  }

  /** The trimmed, lowercased message matches one of the patterns in full. */
  predicate IsBackchannel(userInput: string)
  {
    exists k :: 0 <= k < |BackchannelPatterns| && MatchesPattern(LowerStr(Trim(userInput)), k)
  }

  /**
   * `getBackchannelResponse`: `pick` is the reply chosen at random. The patterns are
   * tried in order; the reply does not depend on which one matches.
   */
  function BackchannelResponse(userInput: string, pick: nat): (r: Option<string>)
    requires pick < |BackchannelReplies|
    ensures r.Some? <==> IsBackchannel(userInput)
    ensures r.Some? ==> r.value in BackchannelReplies
  {
    var trimmed := LowerStr(Trim(userInput));
    if FirstMatch(trimmed, 0) < |BackchannelPatterns| then Some(BackchannelReplies[pick]) else None
  }

  /** The index of the first pattern from `k` on that `s` matches, or the number of patterns. */
  function FirstMatch(s: string, k: nat): (i: nat)
    requires k <= |BackchannelPatterns|
    ensures k <= i <= |BackchannelPatterns|
    ensures i < |BackchannelPatterns| ==> MatchesPattern(s, i)
    ensures forall j | k <= j < i :: !MatchesPattern(s, j)
    decreases |BackchannelPatterns| - k
  {
    if k == |BackchannelPatterns| then k
    else if s in BackchannelPatterns[k] then k
    else FirstMatch(s, k + 1)
  }

  // ----- detectContext and getContextualToneModifier -----

  datatype Formality = Casual | Neutral | Professional
  datatype Domain = Technical | Creative | Emotional | General
  datatype Urgency = Low | Medium | High
  datatype ConversationalContext = ConversationalContext(formality: Formality, domain: Domain, urgency: Urgency)

  const TechnicalTerms: seq<string> := ["code", "error", "bug", "function", "class", "syntax", "compile", "debug"]
  const UrgentTerms: seq<string> := ["urgent", "asap", "broken", "critical", "help"]
  const CreativeTerms: seq<string> := ["idea", "imagine", "create", "design", "story", "art", "music"]
  const EmotionalEmotions: seq<string> := ["sadness", "fear", "anger", "grief", "nervousness", "disappointment"]

  /**
   * `detectContext`: technical words first (urgent when an urgent word also appears),
   * then creative words, then a distressing emotion, and otherwise a general talk.
   */
  function DetectContext(userInput: string, primaryEmotion: string): (c: ConversationalContext)
    ensures var text := LowerStr(userInput);
      && (c.domain == Technical <==> HasAnyWord(text, TechnicalTerms))
      && (c.domain == Creative <==> !HasAnyWord(text, TechnicalTerms) && HasAnyWord(text, CreativeTerms))
      && (c.domain == Emotional <==>
            !HasAnyWord(text, TechnicalTerms) && !HasAnyWord(text, CreativeTerms) && primaryEmotion in EmotionalEmotions)
      && (c.domain == Technical ==> (c.urgency == High <==> HasAnyWord(text, UrgentTerms)))
  {
    var text := LowerStr(userInput);
    if HasAnyWord(text, TechnicalTerms) then
      ConversationalContext(Neutral, Technical, if HasAnyWord(text, UrgentTerms) then High else Medium)
    else if HasAnyWord(text, CreativeTerms) then
      ConversationalContext(Casual, Creative, Low)
    else if primaryEmotion in EmotionalEmotions then
      ConversationalContext(Casual, Emotional, High)
    else
      ConversationalContext(Neutral, General, Low)
  }

  /**
   * The formality and urgency follow from the domain: casual exactly for creative and
   * emotional talk, never professional; urgent for emotional talk, relaxed for creative
   * and general talk, and at least medium for technical talk.
   */
  lemma ContextShape(userInput: string, primaryEmotion: string)
    ensures var c := DetectContext(userInput, primaryEmotion);
      && c.formality != Professional
      && (c.formality == Casual <==> c.domain in {Creative, Emotional})
      && (c.domain == Emotional ==> c.urgency == High)
      && (c.domain in {Creative, General} <==> c.urgency == Low)
  {
  }

  const EmotionalTone := "The user seems to be going through something difficult. Be warm, empathetic, and supportive. Listen more than you lecture."
  const UrgentTechnicalTone := "Focus on solving their problem quickly and clearly. Be direct and actionable."
  const CreativeTone := "Be playful and exploratory. Embrace wild ideas. This is a space for imagination."
  const ProfessionalTone := "Maintain professionalism while staying approachable. Clear and competent."

  /** `getContextualToneModifier`: the first rule that applies, or no modifier. */
  function ToneModifier(context: ConversationalContext): (tone: string)
    ensures tone in {EmotionalTone, UrgentTechnicalTone, CreativeTone, ProfessionalTone, ""}
    ensures tone == EmotionalTone <==> context.domain == Emotional && context.urgency == High
    ensures tone == UrgentTechnicalTone <==> context.domain == Technical && context.urgency == High
    ensures tone == CreativeTone <==> context.domain == Creative
    ensures tone == ProfessionalTone <==>
      && context.formality == Professional && context.domain != Creative
      && !(context.urgency == High && context.domain in {Emotional, Technical})
  {
    if context.domain == Emotional && context.urgency == High then EmotionalTone
    else if context.domain == Technical && context.urgency == High then UrgentTechnicalTone
    else if context.domain == Creative then CreativeTone
    else if context.formality == Professional then ProfessionalTone
    else ""
  }

  /**
   * The professional tone is never chosen for a detected context, and a detected context
   * gets no modifier exactly when it is a non-urgent technical or a general talk.
   */
  lemma DetectedTone(userInput: string, primaryEmotion: string)
    ensures var c := DetectContext(userInput, primaryEmotion); var tone := ToneModifier(c);
      && tone != ProfessionalTone
      && (tone == "" <==> (c.domain == Technical && c.urgency == Medium) || c.domain == General)
  {
    ContextShape(userInput, primaryEmotion);
  }

  // ----- PhraseTracker -----

  /** Every character of `p[i..j]` satisfies `q`. */
  predicate Run(p: string, i: int, j: int, q: char -> bool)
    requires 0 <= i <= j <= |p|
  {
    forall k | i <= k < j :: q(p[k])
  }

  /**
   * A match of `/\b\w+\s+\w+\s+\w+\b/` with `word` for `\w` and `space` for `\s`: a
   * run of word characters, a run of spaces, a word, spaces and a word, in that order.
   */
  predicate PhraseOf(p: string, word: char -> bool, space: char -> bool)
  {
    exists a, b, c, d | 0 < a < b < c < d < |p| ::
      Run(p, 0, a, word) && Run(p, a, b, space) && Run(p, b, c, word)
      && Run(p, c, d, space) && Run(p, d, |p|, word)
  }

  predicate IsPhrase(p: string)
  {
    PhraseOf(p, IsWordChar, IsSpace)
  }

  /**
   * The length of the three-word phrase at the start of `s`, or 0 when none starts there.
   * Each word and each gap is taken whole: a shorter word would leave a word character
   * where a space or the closing boundary is needed, and a shorter gap would leave a
   * space where a word must start.
   */
  function PhraseLenOf(s: string, word: char -> bool, space: char -> bool): (n: nat)
    ensures n <= |s|
    ensures n > 0 ==> PhraseOf(s[..n], word, space) && (n == |s| || !word(s[n]))
  {
    var a := RunLen(s, 0, word);
    var b := a + RunLen(s, a, space);
    var c := b + RunLen(s, b, word);
    var d := c + RunLen(s, c, space);
    var e := d + RunLen(s, d, word);
    if 0 < a < b < c < d < e then
      var p := s[..e];
      assert Run(p, 0, a, word) && Run(p, a, b, space) && Run(p, b, c, word)
        && Run(p, c, d, space) && Run(p, d, e, word);
      e
    else 0
  }

  function PhraseLen(s: string): (n: nat)
    ensures n <= |s|
    ensures n > 0 ==> IsPhrase(s[..n]) && (n == |s| || !IsWordChar(s[n]))
  {
    PhraseLenOf(s, IsWordChar, IsSpace)
  }

  /**
   * `s.match(/\b\w+\s+\w+\s+\w+\b/g) || []`, for an `s` whose start is a word boundary
   * when it begins with a word character. A failed attempt at a word skips that whole
   * word, since no boundary lies inside it; after a match the scan resumes at the
   * non-word character that ends it.
   */
  function Phrases(s: string): (r: seq<string>)
    ensures forall k | 0 <= k < |r| :: IsPhrase(r[k])
    decreases |s|
  {
    if s == [] then []
    else if !IsWordChar(s[0]) then Phrases(s[1..])
    else
      var n := PhraseLen(s);
      if n > 0 then [s[..n]] + Phrases(s[n..])
      else
        var w := RunLen(s, 0, IsWordChar);
        assert w > 0;
        Phrases(s[w..])
  }

  /** A run of `p`-characters from `i` that stops at `j` has length `j - i`. */
  lemma {:induction false} RunLenExact(s: string, i: nat, j: nat, p: char -> bool)
    requires i <= j <= |s|
    requires forall k | i <= k < j :: p(s[k])
    requires j == |s| || !p(s[j])
    ensures RunLen(s, i, p) == j - i
    decreases j - i
  {
    if i < j {
      RunLenExact(s, i + 1, j, p);
    }
  }

  /**
   * When no character is both a word and a space character, a string that is a phrase
   * as a whole is matched as a whole.
   */
  lemma PhraseLenOfWhole(s: string, word: char -> bool, space: char -> bool)
    requires PhraseOf(s, word, space)
    requires forall k | 0 <= k < |s| :: !(word(s[k]) && space(s[k]))
    ensures PhraseLenOf(s, word, space) == |s| && word(s[0])
  {
    var a, b, c, d :| 0 < a < b < c < d < |s| &&
      Run(s, 0, a, word) && Run(s, a, b, space) && Run(s, b, c, word)
      && Run(s, c, d, space) && Run(s, d, |s|, word);
    PhraseSplit(s, word, space, a, b, c, d);
  }

  lemma PhraseSplit(s: string, word: char -> bool, space: char -> bool, a: nat, b: nat, c: nat, d: nat)
    requires 0 < a < b < c < d < |s|
    requires Run(s, 0, a, word) && Run(s, a, b, space) && Run(s, b, c, word)
    requires Run(s, c, d, space) && Run(s, d, |s|, word)
    requires forall k | 0 <= k < |s| :: !(word(s[k]) && space(s[k]))
    ensures PhraseLenOf(s, word, space) == |s| && word(s[0])
  {
    assert word(s[0]) && space(s[a]) && word(s[b]) && space(s[c]) && word(s[d]);
    RunLenExact(s, 0, a, word);
    RunLenExact(s, a, b, space);
    RunLenExact(s, b, c, word);
    RunLenExact(s, c, d, space);
    RunLenExact(s, d, |s|, word);
  }

  /** A phrase on its own is found exactly once, as the whole of the text. */
  lemma WholePhrase(s: string)
    requires IsPhrase(s)
    ensures PhraseLen(s) == |s|
    ensures Phrases(s) == [s]
  {
    PhraseLenOfWhole(s, IsWordChar, IsSpace);
    assert s[..|s|] == s;
    assert s[|s|..] == [];
  }

  const MaxTracked: nat := 20
  const AvoidancePrefix := "Vary your language. You've recently used: "
  const AvoidanceSuffix := ". Try different phrasing."

  /** The phrases that occur more than twice in `phrases`. */
  function SeenMoreThanTwice(phrases: seq<string>): string -> bool
  {
    p => multiset(phrases)[p] > 2
  }

  /** The overused phrases, once each, in the order they were first used. */
  function Overused(phrases: seq<string>): seq<string>
  {
    Filter(Dedupe(phrases), SeenMoreThanTwice(phrases))
  }

  /** `getAvoidanceHint` on the tracked phrases. */
  function AvoidanceHint(phrases: seq<string>): string
  {
    if |phrases| < 5 then ""
    else
      var overused := Overused(phrases);
      if |overused| == 0 then ""
      else AvoidancePrefix + Join(Slice(overused, 0, 3), ", ") + AvoidanceSuffix
  }

  /** The overused phrases are exactly the ones seen more than twice, without repeats. */
  lemma OverusedSpec(phrases: seq<string>)
    ensures forall p :: p in Overused(phrases) <==> multiset(phrases)[p] > 2
    ensures NoDuplicates(Overused(phrases))
  {
    var d := Dedupe(phrases);
    DedupeSpec(phrases);
    forall p | multiset(phrases)[p] > 2 ensures p in Overused(phrases) {
      assert p in phrases;
      assert p in d;
    }
    FilterPairwise(d, SeenMoreThanTwice(phrases), (x: string, y: string) => x != y);
  }

  /**
   * No hint while fewer than five phrases are tracked or none is seen more than twice;
   * otherwise the hint names the first one to three overused phrases, each once.
   */
  lemma AvoidanceHintSpec(phrases: seq<string>)
    ensures AvoidanceHint(phrases) == "" <==> |phrases| < 5 || forall p :: multiset(phrases)[p] <= 2
    ensures |phrases| >= 5 && Overused(phrases) != [] ==>
      var shown := Slice(Overused(phrases), 0, 3);
      && AvoidanceHint(phrases) == AvoidancePrefix + Join(shown, ", ") + AvoidanceSuffix
      && 1 <= |shown| <= 3
      && shown == Overused(phrases)[..|shown|]
      && NoDuplicates(shown)
      && forall k | 0 <= k < |shown| :: multiset(phrases)[shown[k]] > 2
  {
    OverusedSpec(phrases);
    var o := Overused(phrases);
    if o != [] {
      assert o[0] in o;
      var shown := Slice(o, 0, 3);
      SliceWindow(o, 0, 3);
      forall k | 0 <= k < |shown| ensures multiset(phrases)[shown[k]] > 2 {
        assert shown[k] == o[k] && o[k] in o;
      }
    }
  }

  /** Filtering by two tests that agree on every element gives the same list. */
  lemma {:induction false} FilterAgree<T>(s: seq<T>, p: T -> bool, q: T -> bool)
    requires forall x | x in s :: p(x) == q(x)
    ensures Filter(s, p) == Filter(s, q)
  {
    if s != [] {
      assert forall x | x in s[1..] :: x in s;
      FilterAgree(s[1..], p, q);
    }
  }

  /** `counts` and `order` are the phrase counts of `ps` and its distinct phrases in first-use order. */
  ghost predicate PhraseTally(ps: seq<string>, counts: map<string, int>, order: seq<string>)
  {
    && order == Dedupe(ps)
    && (forall p :: p in counts <==> p in ps)
    && (forall p | p in counts :: counts[p] == multiset(ps)[p])
  }

  /** Counting one more phrase keeps the tally. */
  lemma PhraseTallyStep(phrases: seq<string>, i: nat, counts: map<string, int>, order: seq<string>)
    requires i < |phrases| && PhraseTally(phrases[..i], counts, order)
    ensures var p := phrases[i];
      PhraseTally(phrases[..i + 1], counts[p := (if p in counts then counts[p] else 0) + 1],
        if p in counts then order else order + [p])
  {
    var phrase := phrases[i];
    var prefix := phrases[..i + 1];
    assert prefix == phrases[..i] + [phrase];
    assert prefix[..|prefix| - 1] == phrases[..i];
    assert Dedupe(prefix) == if phrase in Dedupe(phrases[..i]) then order else order + [phrase];
  }

  /**
   * The counting pass of `getAvoidanceHint`: the count of each tracked phrase, and the
   * phrases in the order the map first received them.
   */
  method CountPhrases(phrases: seq<string>) returns (counts: map<string, int>, order: seq<string>)
    ensures order == Dedupe(phrases)
    ensures forall p :: p in counts <==> p in phrases
    ensures forall p | p in counts :: counts[p] == multiset(phrases)[p]
  {
    counts := map[];
    order := [];
    for i := 0 to |phrases|
      invariant PhraseTally(phrases[..i], counts, order)
    {
      var phrase := phrases[i];
      PhraseTallyStep(phrases, i, counts, order);
      var count := if phrase in counts then counts[phrase] else 0;
      if phrase !in counts {
        order := order + [phrase];
      }
      counts := counts[phrase := count + 1];
    }
    assert phrases[..|phrases|] == phrases;
  }

  /** The phrases a reply used recently, the newest last. */
  class PhraseTracker {
    var recentPhrases: seq<string>

    constructor()
      ensures recentPhrases == []
    {
      recentPhrases := [];
    }

    /** `recordPhrase`: the reply's phrases are appended and only the newest 20 are kept. */
    method RecordPhrase(response: string)
      modifies this`recentPhrases
      ensures recentPhrases == KeepLast(old(recentPhrases) + Phrases(response), MaxTracked)
      ensures |recentPhrases| <= MaxTracked
      ensures IsSuffix(recentPhrases, old(recentPhrases) + Phrases(response))
    {
      var phrases := Phrases(response);
      recentPhrases := recentPhrases + phrases;
      if |recentPhrases| > MaxTracked {
        recentPhrases := Slice(recentPhrases, -(MaxTracked as int), |recentPhrases|);
      }
    }

    /**
     * `getAvoidanceHint`: counts the tracked phrases in a map whose keys keep the order
     * of first use, then names the first three counted more than twice.
     */
    method GetAvoidanceHint() returns (hint: string)
      ensures hint == AvoidanceHint(recentPhrases)
    {
      if |recentPhrases| < 5 {
        return "";
      }
      var phrases := recentPhrases;
      var counts, order := CountPhrases(phrases);
      FilterAgree(order, (p: string) => p in counts && counts[p] > 2, SeenMoreThanTwice(phrases));
      var overused := Filter(order, (p: string) => p in counts && counts[p] > 2);
      if |overused| == 0 {
        return "";
      }
      hint := AvoidancePrefix + Join(Slice(overused, 0, 3), ", ") + AvoidanceSuffix;
    }
  }
}
