/**
 * The checks of `src/utils/keyValidation.ts` that need no network: the format checks that
 * run before a key is sent to its service, the masked form of a key for logs, the
 * strength assessment and the placeholder-text warnings.
 */
module KeyValidation {
  import opened Wrappers
  import opened Text

  /** The result of validating a key: valid or not, with an error or warnings. */
  datatype KeyCheck = KeyCheck(valid: bool, error: Option<string>, warnings: seq<string>)

  function Rejected(error: string): KeyCheck
  {
    KeyCheck(false, Some(error), [])
  }

  /**
   * What the checks before the network call decide: a result, or that the key passed
   * them and goes to the service.
   */
  datatype Precheck = Decided(result: KeyCheck) | Probe

  // ----- validateOpenAIKey / validateElevenLabsKey, before the request -----

  const RequiredMessage := "API key is required"
  const PrefixMessage := "OpenAI API key must start with \"sk-\""
  const CharactersMessage := "API key contains invalid characters"
  const TooShortMessage := "ElevenLabs API key appears too short"

  /** `[a-zA-Z0-9_-]`. */
  predicate IsKeyChar(c: char)
  {
    ('a' <= c <= 'z') || ('A' <= c <= 'Z') || ('0' <= c <= '9') || c == '_' || c == '-'
  }

  /** `/^sk-[a-zA-Z0-9_-]+$/`. */
  predicate WellFormedOpenAiKey(key: string)
  {
    StartsWith(key, "sk-") && |key| > 3 && forall i | 3 <= i < |key| :: IsKeyChar(key[i])
  }

  /**
   * The format checks of `validateOpenAIKey`: an empty key, a key without the `sk-`
   * prefix and a key with any other character than letters, digits, `_` and `-` after
   * it are rejected, in that order, and only a key that passes all three is sent.
   */
  function OpenAiPrecheck(key: string): (r: Precheck)
    ensures r.Probe? <==> StartsWith(key, "sk-") && |key| > 3 && forall i | 3 <= i < |key| :: IsKeyChar(key[i])
    ensures r.Decided? ==> !r.result.valid && r.result.warnings == []
    ensures key == [] ==> r == Decided(Rejected(RequiredMessage))
    ensures key != [] && !StartsWith(key, "sk-") ==> r == Decided(Rejected(PrefixMessage))
    ensures StartsWith(key, "sk-") && (exists i | 3 <= i < |key| :: !IsKeyChar(key[i])) ==>
      r == Decided(Rejected(CharactersMessage))
  {
    if key == [] then Decided(Rejected(RequiredMessage))
    else if !StartsWith(key, "sk-") then Decided(Rejected(PrefixMessage))
    else if !WellFormedOpenAiKey(key) then Decided(Rejected(CharactersMessage))
    else Probe
  }

  /**
   * The format checks of `validateElevenLabsKey`: no key is fine (the key is optional),
   * a key shorter than 10 characters is rejected, anything else is sent.
   */
  function ElevenLabsPrecheck(key: string): (r: Precheck)
    ensures key == [] ==> r == Decided(KeyCheck(true, None, []))
    ensures key != [] && |key| < 10 ==> r == Decided(Rejected(TooShortMessage))
    ensures r.Probe? <==> |key| >= 10
  {
    if key == [] then Decided(KeyCheck(true, None, []))
    else if |key| < 10 then Decided(Rejected(TooShortMessage))
    else Probe
  }

  // ----- sanitizeKeyForLogging -----

  const InvalidKeyMark := "[INVALID_KEY]"

  /** The first 8 and last 4 characters, with at least four `*` between them. */
  function SanitizeKeyForLogging(key: string): (r: string)
    ensures |key| < 12 ==> r == InvalidKeyMark
    ensures |key| >= 12 ==>
      && |r| == (if |key| < 16 then 16 else |key|)
      && r[..8] == key[..8]
      && r[|r| - 4..] == key[|key| - 4..]
      && forall i | 8 <= i < |r| - 4 :: r[i] == '*'
  {
    if |key| < 12 then InvalidKeyMark
    else key[..8] + Repeat('*', if |key| - 12 < 4 then 4 else |key| - 12) + key[|key| - 4..]
  }

  /**
   * A logged key shows at most the 12 characters at its ends: every other position of the
   * sanitised form is a `*`.
   */
  lemma SanitizedRevealsTwelve(key: string)
    requires |key| >= 12
    ensures var r := SanitizeKeyForLogging(key);
      forall i | 0 <= i < |r| && r[i] != '*' :: i < 8 || i >= |r| - 4
  {
  }

  // ----- assessKeyStrength -----

  datatype Strength = Weak | Medium | Strong

  datatype Assessment = Assessment(strength: Strength, issues: seq<string>)

  const ShortIssue := "Key appears shorter than expected"
  const RepeatIssue := "Key contains repeated character patterns"
  const SequenceIssue := "Key contains sequential patterns"

  /** The characters a regular expression's `.` does not match. */
  predicate IsLineTerminator(c: char)
  {
    c == '\n' || c == '\r' || c == '\U{2028}' || c == '\U{2029}'
  }

  /**
   * `/(.)\1{3,}/`: one character four times in a row. JavaScript matches this on UTF-16
   * code units, so a character outside the basic plane (two different units) never
   * repeats.
   */
  predicate HasRepeatedRun(key: string)
  {
    exists i | 0 <= i && i + 3 < |key| ::
      && !IsLineTerminator(key[i]) && (key[i] as int) < 0x1_0000
      && key[i + 1] == key[i] && key[i + 2] == key[i] && key[i + 3] == key[i]
  }

  /** `/123|abc|qwe/i`. */
  predicate HasSequentialPattern(key: string)
  {
    var lower := LowerStr(key);
    Contains(lower, "123") || Contains(lower, "abc") || Contains(lower, "qwe")
  }

  function Issues(key: string): seq<string>
  {
    (if |key| < 40 then [ShortIssue] else [])
    + (if HasRepeatedRun(key) then [RepeatIssue] else [])
    + (if HasSequentialPattern(key) then [SequenceIssue] else [])
  }

  /**
   * At most three issues, each reported exactly when its pattern is present; the key is
   * weak with all three, medium with one or two and strong with none.
   */
  function AssessKeyStrength(key: string): (r: Assessment)
    ensures |r.issues| <= 3 && NoDuplicates(r.issues)
    ensures ShortIssue in r.issues <==> |key| < 40
    ensures RepeatIssue in r.issues <==> HasRepeatedRun(key)
    ensures SequenceIssue in r.issues <==> HasSequentialPattern(key)
    ensures r.strength == Weak <==> |r.issues| == 3
    ensures r.strength == Medium <==> 1 <= |r.issues| <= 2
    ensures r.strength == Strong <==> r.issues == []
  {
    var issues := Issues(key);
    Assessment(if |issues| > 2 then Weak else if |issues| > 0 then Medium else Strong, issues)
  }

  // ----- checkForCompromisedKeys -----

  /** The stored keys, in the order their entries are listed. */
  datatype ApiKeys = ApiKeys(openAiApiKey: string, elevenLabsApiKey: string)

  function Entries(keys: ApiKeys): seq<(string, string)>
  {
    [("OPENAI_API_KEY", keys.openAiApiKey), ("ELEVENLABS_API_KEY", keys.elevenLabsApiKey)]
  }

  const SuspiciousPatterns: seq<string> :=
    ["test", "demo", "example", "sample", "placeholder", "123456", "abcdef", "xxxxxx"]

  function PlaceholderWarning(keyType: string): string
  {
    keyType + " appears to contain placeholder text. Please use a real API key."
  }

  /** The warnings for one key: one per pattern of `patterns` found in the lowercased key. */
  function PatternWarnings(keyType: string, lowerKey: string, patterns: seq<string>): seq<string>
  {
    if patterns == [] then []
    else
      PatternWarnings(keyType, lowerKey, patterns[..|patterns| - 1])
      + (if Contains(lowerKey, patterns[|patterns| - 1]) then [PlaceholderWarning(keyType)] else [])
  }

  function FoundIn(lowerKey: string): string -> bool
  {
    p => Contains(lowerKey, p)
  }

  /** Each pattern found in the key gives one warning naming the key. */
  lemma {:induction false} PatternWarningsSpec(keyType: string, lowerKey: string, patterns: seq<string>)
    ensures |PatternWarnings(keyType, lowerKey, patterns)| == |Filter(patterns, FoundIn(lowerKey))|
    ensures forall w | w in PatternWarnings(keyType, lowerKey, patterns) :: w == PlaceholderWarning(keyType)
  {
    if patterns != [] {
      var init, last := patterns[..|patterns| - 1], patterns[|patterns| - 1];
      PatternWarningsSpec(keyType, lowerKey, init);
      assert patterns == init + [last];
      FilterSnoc(init, last, FoundIn(lowerKey));
    }
  }

  /** The warnings for every listed key, pattern by pattern; an empty key gives none. */
  function Warnings(entries: seq<(string, string)>, patterns: seq<string>): seq<string>
  {
    if entries == [] then []
    else
      var (keyType, keyValue) := entries[|entries| - 1];
      Warnings(entries[..|entries| - 1], patterns)
      + (if keyValue != [] then PatternWarnings(keyType, LowerStr(keyValue), patterns) else [])
  }

  /** Every warning names a non-empty key that contains one of the patterns. */
  lemma {:induction false} WarningsSound(entries: seq<(string, string)>, patterns: seq<string>)
    ensures forall w | w in Warnings(entries, patterns) :: exists k | 0 <= k < |entries| ::
      entries[k].1 != [] && w == PlaceholderWarning(entries[k].0)
  {
    if entries != [] {
      var init, last := entries[..|entries| - 1], entries[|entries| - 1];
      WarningsSound(init, patterns);
      PatternWarningsSpec(last.0, LowerStr(last.1), patterns);
      forall w | w in Warnings(entries, patterns) ensures exists k | 0 <= k < |entries| ::
        entries[k].1 != [] && w == PlaceholderWarning(entries[k].0)
      {
        if w in Warnings(init, patterns) {
          var k :| 0 <= k < |init| && init[k].1 != [] && w == PlaceholderWarning(init[k].0);
          assert entries[k] == init[k];
        } else {
          assert last.1 != [] && w == PlaceholderWarning(last.0);
        }
      }
    }
  }

  /** With no key set there are no warnings. */
  lemma {:induction false} NoKeysNoWarnings(entries: seq<(string, string)>, patterns: seq<string>)
    requires forall k | 0 <= k < |entries| :: entries[k].1 == []
    ensures Warnings(entries, patterns) == []
  {
    if entries != [] {
      NoKeysNoWarnings(entries[..|entries| - 1], patterns);
    }
  }

  /** A key containing a pattern is warned about. */
  lemma PatternWarned(keyType: string, lowerKey: string, patterns: seq<string>, k: nat)
    requires k < |patterns| && Contains(lowerKey, patterns[k])
    ensures PlaceholderWarning(keyType) in PatternWarnings(keyType, lowerKey, patterns)
    decreases |patterns|
  {
    if k < |patterns| - 1 {
      PatternWarned(keyType, lowerKey, patterns[..|patterns| - 1], k);
    }
  }

  /** A non-empty key containing a pattern is warned about. */
  lemma {:induction false} KeyWarned(entries: seq<(string, string)>, patterns: seq<string>, e: nat, k: nat)
    requires e < |entries| && k < |patterns| && entries[e].1 != [] && Contains(LowerStr(entries[e].1), patterns[k])
    ensures PlaceholderWarning(entries[e].0) in Warnings(entries, patterns)
  {
    if e < |entries| - 1 {
      KeyWarned(entries[..|entries| - 1], patterns, e, k);
    } else {
      PatternWarned(entries[e].0, LowerStr(entries[e].1), patterns, k);
    }
  }

  /** The loops of `checkForCompromisedKeys` over the keys and the patterns. */
  method ScanKeys(entries: seq<(string, string)>, patterns: seq<string>) returns (warnings: seq<string>)
    ensures warnings == Warnings(entries, patterns)
  {
    warnings := [];
    for e := 0 to |entries|
      invariant warnings == Warnings(entries[..e], patterns)
    {
      assert entries[..e + 1][..e] == entries[..e];
      var (keyType, keyValue) := entries[e];
      if keyValue != [] {
        var lowerKey := LowerStr(keyValue);
        ghost var before := warnings;
        for j := 0 to |patterns|
          invariant warnings == before + PatternWarnings(keyType, lowerKey, patterns[..j])
        {
          assert patterns[..j + 1][..j] == patterns[..j];
          if Contains(lowerKey, patterns[j]) {
            warnings := warnings + [PlaceholderWarning(keyType)];
          }
        }
        assert patterns[..|patterns|] == patterns;
      }
    }
    assert entries[..|entries|] == entries;
  }

  /** `checkForCompromisedKeys`: the warnings for the stored keys and the suspicious patterns. */
  method CheckForCompromisedKeys(keys: ApiKeys) returns (warnings: seq<string>)
    ensures warnings == Warnings(Entries(keys), SuspiciousPatterns)
  {
    warnings := ScanKeys(Entries(keys), SuspiciousPatterns);
  }
}
