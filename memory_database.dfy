/**
 * The table-backed memory store of `src/memory/memoryDatabase.ts`. The
 * IndexedDB tables become fields of a class (`messages` and `associations` as
 * sequences in primary-key order, persona states and settings as maps keyed by
 * their unique index). Salience, age and the "weak" test depend on the clock and
 * on floating-point decay, so they are oracles supplied by the caller.
 */
module MemoryDatabase {
  import opened Wrappers
  import opened Text
  import opened Ordering
  import Facts
  import AssociativeMemory

  const MaxAssociationsPerPersona: nat := 200

  /** The stop list of the store, in its order; `then` is listed twice. */
  const StopWords: seq<string> := [
    "the", "this", "that", "there", "here", "and", "but", "with", "then",
    "when", "what", "why", "are", "you", "your", "have", "has", "was",
    "all", "any", "each", "every", "for", "from", "into", "just", "like",
    "more", "most", "not", "now", "only", "other", "out", "own", "same",
    "than", "them", "then", "these", "they", "very", "well", "will"]

  // ---------------------------------------------------------------------------
  // Tokens and keywords
  // ---------------------------------------------------------------------------

  /** `isValidToken`: three or more characters, no stop word in any case, some ASCII letter. */
  predicate IsValidToken(tok: string)
  {
    |tok| >= 3 && !Listed(LowerStr(tok), StopWords) && exists i | 0 <= i < |tok| :: IsLetter(tok[i])
  }

  lemma LowerLetters(tok: string, i: nat)
    requires i < |tok|
    ensures IsLetter(tok[i]) <==> IsLetter(LowerStr(tok)[i])
  {
  }

  /** The test ignores case: a token and its lower-cased form are accepted together. */
  lemma ValidTokenIgnoresCase(tok: string)
    ensures IsValidToken(tok) <==> IsValidToken(LowerStr(tok))
  {
    LowerStrIdempotent(tok);
    if IsValidToken(tok) {
      var i :| 0 <= i < |tok| && IsLetter(tok[i]);
      LowerLetters(tok, i);
    }
    if IsValidToken(LowerStr(tok)) {
      var i :| 0 <= i < |tok| && IsLetter(LowerStr(tok)[i]);
      LowerLetters(tok, i);
    }
  }

  /** The rejections of `isValidToken`. */
  lemma ValidTokenRejects(tok: string)
    ensures |tok| < 3 ==> !IsValidToken(tok)
    ensures Listed(LowerStr(tok), StopWords) ==> !IsValidToken(tok)
    ensures (forall i | 0 <= i < |tok| :: !IsLetter(tok[i])) ==> !IsValidToken(tok)
  {
  }

  /** Characters `extractKeywords` deletes before splitting. */
  predicate IsKeywordPunct(c: char)
  {
    c == '.' || c == ',' || c == '?' || c == '!' || c == ';' || c == ':' || c == '(' || c == ')'
    || c == '[' || c == ']' || c == '{' || c == '}' || c == '"' || c == '\''
  }

  predicate NotPunct(c: char) { !IsKeywordPunct(c) }

  predicate IsKeyword(w: string) { |w| > 2 && !Listed(w, StopWords) }

  /** The words of `text`: lower-cased, the punctuation deleted, split on whitespace. */
  function Words(text: string): seq<string>
  {
    Runs(Filter(LowerStr(text), NotPunct), NotSpace)
  }

  /** Lower-case, delete punctuation, split on whitespace, keep the words `keep` accepts, dedupe. */
  function Keywords(text: string, keep: string -> bool): seq<string>
  {
    Dedupe(Filter(Words(text), keep))
  }

  /** `extractKeywords` of the store. */
  function ExtractKeywords(text: string): seq<string>
  {
    Keywords(text, IsKeyword)
  }

  /**
   * For any word filter, the keywords are exactly the distinct accepted words
   * of the text, in order of first occurrence; each is lower-case and free of
   * whitespace and of the deleted punctuation.
   */
  lemma KeywordsSpec(text: string, keep: string -> bool)
    ensures var r := Keywords(text, keep);
      NoDuplicates(r)
      && (forall k | 0 <= k < |r| :: keep(r[k]) && r[k] in Words(text) && LowerStr(r[k]) == r[k])
      && (forall w | w in Words(text) && keep(w) :: w in r)
      && (forall i, j | 0 <= i < j < |r| :: IndexIn(Words(text), r[i]) < IndexIn(Words(text), r[j]))
      && (forall k, i | 0 <= k < |r| && 0 <= i < |r[k]| :: !IsSpace(r[k][i]) && !IsKeywordPunct(r[k][i]))
  {
    var words := Words(text);
    var kept := Filter(words, keep);
    DedupeSpec(kept);
    var r := Dedupe(kept);
    forall k | 0 <= k < |r| ensures keep(r[k]) && r[k] in words && LowerStr(r[k]) == r[k] {
      assert r[k] in kept;
      forall i | 0 <= i < |r[k]| ensures Lower(r[k][i]) == r[k][i] {
        WordChars(text, r[k], i);
      }
    }
    forall k, i | 0 <= k < |r| && 0 <= i < |r[k]| ensures !IsSpace(r[k][i]) && !IsKeywordPunct(r[k][i]) {
      WordChars(text, r[k], i);
    }
    forall i, j | 0 <= i < j < |r| ensures IndexIn(words, r[i]) < IndexIn(words, r[j]) {
      assert r[i] in kept && r[j] in kept;
      FilterIndexIn(words, keep, r[i], r[j]);
    }
  }

  predicate LowerFixed(c: char) { Lower(c) == c }

  /** A character of a word is lower-case, not whitespace and not deleted punctuation. */
  lemma WordChars(text: string, w: string, i: nat)
    requires w in Words(text) && i < |w|
    ensures !IsSpace(w[i]) && !IsKeywordPunct(w[i]) && Lower(w[i]) == w[i]
  {
    var clean := Filter(LowerStr(text), NotPunct);
    forall k | 0 <= k < |clean| ensures LowerFixed(clean[k]) {
      assert clean[k] in LowerStr(text);
    }
    var j :| 0 <= j < |Words(text)| && Words(text)[j] == w;
    assert NotSpace(w[i]);
    RunsChars(clean, NotSpace, NotPunct, w, i);
    RunsChars(clean, NotSpace, LowerFixed, w, i);
  }

  /**
   * The keywords are exactly the distinct words of the text longer than two
   * characters that are not stop words, in order of first occurrence; each is
   * lower-case and free of whitespace and of the deleted punctuation.
   */
  lemma ExtractKeywordsSpec(text: string)
    ensures var r := ExtractKeywords(text);
      NoDuplicates(r)
      && (forall k | 0 <= k < |r| :: |r[k]| > 2 && !Listed(r[k], StopWords) && r[k] in Words(text) && LowerStr(r[k]) == r[k])
      && (forall w | w in Words(text) && |w| > 2 && !Listed(w, StopWords) :: w in r)
      && (forall i, j | 0 <= i < j < |r| :: IndexIn(Words(text), r[i]) < IndexIn(Words(text), r[j]))
      && (forall k, i | 0 <= k < |r| && 0 <= i < |r[k]| :: !IsSpace(r[k][i]) && !IsKeywordPunct(r[k][i]))
  {
    KeywordsSpec(text, IsKeyword);
  }

  // ---------------------------------------------------------------------------
  // `parseAssociationsFromText`: the regular expression
  //   \b([a-z0-9_-]{3,})\s*(=|is|equals)\s*([a-z0-9_-]{3,})\b
  // with JavaScript's leftmost-start, greedy-with-backtracking semantics.
  // ---------------------------------------------------------------------------

  const TrainingWords: seq<string> := ["remember", "associate", "map", "define", "set", "means"]
  const TrainingOperators: seq<string> := ["=", "is", "equals"]
  const PlainOperators: seq<string> := ["="]

  predicate WordCharAt(s: string, i: int) { 0 <= i < |s| && IsWordChar(s[i]) }

  /** `\b` at position `i`. */
  predicate Boundary(s: string, i: int) { WordCharAt(s, i - 1) != WordCharAt(s, i) }

  predicate IsTokenChar(c: char) { Facts.IsTokenChar(c) }

  predicate AllTokenChars(w: string) { forall i | 0 <= i < |w| :: IsTokenChar(w[i]) }

  /** The third group: the longest of `s[p..p+g]`, `s[p..p+g-1]`, ... of length 3 or more followed by `\b`. */
  function MatchRight(s: string, p: nat, g: nat): (r: Option<string>)
    requires p + g <= |s| && forall k | p <= k < p + g :: IsTokenChar(s[k])
    ensures r.Some? ==> |r.value| >= 3 && AllTokenChars(r.value)
    decreases g
  {
    if g < 3 then None
    else if Boundary(s, p + g) then Some(s[p..p + g])
    else MatchRight(s, p, g - 1)
  }

  /**
   * The operator alternatives in order, each followed by `\s*` and the third
   * group. The `\s*` takes the whole whitespace run: giving back a space never
   * helps, since the group that follows cannot start with whitespace.
   */
  function MatchOperator(s: string, q: nat, ops: seq<string>): (r: Option<string>)
    requires q <= |s|
    ensures r.Some? ==> |r.value| >= 3 && AllTokenChars(r.value)
    ensures r.Some? ==> exists k :: 0 <= k < |ops| && OccursAt(s, ops[k], q)
  {
    if ops == [] then None
    else if OccursAt(s, ops[0], q) then
      var p := q + |ops[0]| + RunLen(s, q + |ops[0]|, IsSpace);
      var m := MatchRight(s, p, RunLen(s, p, IsTokenChar));
      if m.Some? then m else MatchOperator(s, q, ops[1..])
    else MatchOperator(s, q, ops[1..])
  }

  /** The first group, greedy from `g` characters down to 3. */
  function MatchLeft(s: string, i: nat, g: nat, ops: seq<string>): (r: Option<Facts.Pair>)
    requires i + g <= |s| && forall k | i <= k < i + g :: IsTokenChar(s[k])
    ensures r.Some? ==> |r.value.left| >= 3 && AllTokenChars(r.value.left)
    ensures r.Some? ==> |r.value.right| >= 3 && AllTokenChars(r.value.right)
    ensures r.Some? ==> exists q, k :: 0 <= q <= |s| && 0 <= k < |ops| && OccursAt(s, ops[k], q)
    decreases g
  {
    if g < 3 then None
    else
      var j := i + g;
      var q := j + RunLen(s, j, IsSpace);
      var m := MatchOperator(s, q, ops);
      if m.Some? then Some(Facts.Pair(s[i..j], m.value)) else MatchLeft(s, i, g - 1, ops)
  }

  /** A match starting exactly at `i`. */
  function MatchAt(s: string, i: nat, ops: seq<string>): (r: Option<Facts.Pair>)
    requires i <= |s|
    ensures r.Some? ==> |r.value.left| >= 3 && AllTokenChars(r.value.left)
    ensures r.Some? ==> |r.value.right| >= 3 && AllTokenChars(r.value.right)
    ensures r.Some? ==> exists q, k :: 0 <= q <= |s| && 0 <= k < |ops| && OccursAt(s, ops[k], q)
  {
    if !Boundary(s, i) then None else MatchLeft(s, i, RunLen(s, i, IsTokenChar), ops)
  }

  /** `chunk.match(eqRe)`: the match with the leftmost start at or after `i`. */
  function Search(s: string, i: nat, ops: seq<string>): (r: Option<Facts.Pair>)
    requires i <= |s|
    ensures r.Some? ==> |r.value.left| >= 3 && AllTokenChars(r.value.left)
    ensures r.Some? ==> |r.value.right| >= 3 && AllTokenChars(r.value.right)
    ensures r.Some? ==> exists q, k :: 0 <= q <= |s| && 0 <= k < |ops| && OccursAt(s, ops[k], q)
    decreases |s| - i
  {
    var m := MatchAt(s, i, ops);
    if m.Some? then m else if i == |s| then None else Search(s, i + 1, ops)
  }

  predicate IsChunkSeparator(c: char) { c == ';' || c == ',' }

  /** `split(/[;,]/)`: the pieces between separators, empty ones included. */
  function Pieces(s: string): (r: seq<string>)
    ensures |r| >= 1
    ensures forall k, i | 0 <= k < |r| && 0 <= i < |r[k]| :: r[k][i] in s && !IsChunkSeparator(r[k][i])
    decreases |s|
  {
    var n := RunLen(s, 0, (c: char) => !IsChunkSeparator(c));
    if n == |s| then [s]
    else
      var rest := Pieces(s[n + 1..]);
      assert forall k, i | 0 <= k < |rest| && 0 <= i < |rest[k]| :: rest[k][i] in s by {
        forall k, i | 0 <= k < |rest| && 0 <= i < |rest[k]| ensures rest[k][i] in s {
          var j :| 0 <= j < |s[n + 1..]| && s[n + 1..][j] == rest[k][i];
          assert s[n + 1 + j] == rest[k][i];
        }
      }
      [s[..n]] + rest
  }

  /** The training keywords switch on `is` and `equals` as operators. */
  predicate TrainingMode(lc: string) { HasAnyWord(lc, TrainingWords) }

  function OperatorsFor(lc: string): seq<string>
  {
    if TrainingMode(lc) then TrainingOperators else PlainOperators
  }

  /** The pair one chunk contributes, if any: the first match, when `valid` accepts both sides. */
  function ParseChunk(chunk: string, ops: seq<string>, valid: string -> bool): (r: Option<Facts.Pair>)
    ensures r.Some? ==> Search(chunk, 0, ops) == r && valid(r.value.left) && valid(r.value.right)
  {
    var m := Search(chunk, 0, ops);
    if m.Some? && valid(m.value.left) && valid(m.value.right) then m else None
  }

  /** The chunks of `parseAssociationsFromText`: lower-cased, spaces collapsed, split on `;` and `,`. */
  function Chunks(text: string): seq<string>
  {
    Pieces(CollapseSpaces(LowerStr(text)))
  }

  /** The pairs of `ParseChunk` over `chunks`, in order. */
  function ParseChunks(chunks: seq<string>, ops: seq<string>, valid: string -> bool): (r: seq<Facts.Pair>)
    ensures |r| <= |chunks|
    ensures forall k | 0 <= k < |r| :: exists j :: 0 <= j < |chunks| && ParseChunk(chunks[j], ops, valid) == Some(r[k])
  {
    if chunks == [] then []
    else
      var init := chunks[..|chunks| - 1];
      var rest := ParseChunks(init, ops, valid);
      var m := ParseChunk(chunks[|chunks| - 1], ops, valid);
      assert forall k | 0 <= k < |rest| :: exists j :: 0 <= j < |chunks| && ParseChunk(chunks[j], ops, valid) == Some(rest[k]) by {
        forall k | 0 <= k < |rest| ensures exists j :: 0 <= j < |chunks| && ParseChunk(chunks[j], ops, valid) == Some(rest[k]) {
          var j :| 0 <= j < |init| && ParseChunk(init[j], ops, valid) == Some(rest[k]);
          assert init[j] == chunks[j];
        }
      }
      if m.Some? then rest + [m.value] else rest
  }

  /** `parseAssociationsFromText`. */
  function ParseAssociations(text: string): seq<Facts.Pair>
  {
    if text == [] then [] else ParseChunks(Chunks(text), OperatorsFor(LowerStr(text)), IsValidToken)
  }

  /** The loop over the chunks, with the operator list fixed by the training test. */
  method ParseChunksLoop(chunks: seq<string>, ops: seq<string>, valid: string -> bool) returns (result: seq<Facts.Pair>)
    ensures result == ParseChunks(chunks, ops, valid)
  {
    result := [];
    var i := 0;
    while i < |chunks|
      invariant 0 <= i <= |chunks|
      invariant result == ParseChunks(chunks[..i], ops, valid)
    {
      assert chunks[..i + 1][..i] == chunks[..i];
      var m := Search(chunks[i], 0, ops);
      if m.Some? {
        var left := m.value.left;
        var right := m.value.right;
        if left != [] && right != [] && valid(left) && valid(right) {
          result := result + [Facts.Pair(left, right)];
        }
      }
      i := i + 1;
    }
    assert chunks[..i] == chunks;
  }

  method ParseAssociationsFromText(text: string) returns (result: seq<Facts.Pair>)
    ensures result == ParseAssociations(text)
  {
    if |text| == 0 {
      return [];
    }
    var lc := LowerStr(text);
    var ops := if TrainingMode(lc) then TrainingOperators else PlainOperators;
    var chunks := Pieces(CollapseSpaces(lc));
    result := ParseChunksLoop(chunks, ops, IsValidToken);
  }

  /** Every pair is a match of the expression in some chunk that `valid` accepts on both sides. */
  lemma ParseChunksShape(chunks: seq<string>, ops: seq<string>, valid: string -> bool)
    ensures forall k | 0 <= k < |ParseChunks(chunks, ops, valid)| ::
      var p := ParseChunks(chunks, ops, valid)[k];
      |p.left| >= 3 && |p.right| >= 3 && AllTokenChars(p.left) && AllTokenChars(p.right)
      && valid(p.left) && valid(p.right)
  {
    var r := ParseChunks(chunks, ops, valid);
    forall k | 0 <= k < |r|
      ensures |r[k].left| >= 3 && |r[k].right| >= 3 && AllTokenChars(r[k].left) && AllTokenChars(r[k].right)
        && valid(r[k].left) && valid(r[k].right)
    {
      var j :| 0 <= j < |chunks| && ParseChunk(chunks[j], ops, valid) == Some(r[k]);
    }
  }

  /**
   * At most one pair per chunk; both sides are three or more characters of
   * `[a-z0-9_-]` and pass `isValidToken`; empty text gives nothing.
   */
  lemma ParseAssociationsSpec(text: string)
    ensures text == [] ==> ParseAssociations(text) == []
    ensures |ParseAssociations(text)| <= |Chunks(text)|
    ensures forall k | 0 <= k < |ParseAssociations(text)| ::
      var p := ParseAssociations(text)[k];
      |p.left| >= 3 && |p.right| >= 3 && AllTokenChars(p.left) && AllTokenChars(p.right)
      && IsValidToken(p.left) && IsValidToken(p.right)
  {
    if text != [] {
      ParseChunksShape(Chunks(text), OperatorsFor(LowerStr(text)), IsValidToken);
    }
  }

  /** Without a training keyword only `=` separates: a chunk matches only if it holds `=`. */
  lemma PlainChunkNeedsEquals(chunk: string)
    ensures Search(chunk, 0, PlainOperators).Some? ==> exists i :: 0 <= i < |chunk| && chunk[i] == '='
  {
    var m := Search(chunk, 0, PlainOperators);
    if m.Some? {
      var q, k :| 0 <= q <= |chunk| && 0 <= k < |PlainOperators| && OccursAt(chunk, PlainOperators[k], q);
      assert PlainOperators[k] == "=";
      assert chunk[q] == chunk[q..q + 1][0];
    }
  }

  lemma {:induction false} ParseChunksNone(chunks: seq<string>, ops: seq<string>, valid: string -> bool)
    requires forall j | 0 <= j < |chunks| :: Search(chunks[j], 0, ops).None?
    ensures ParseChunks(chunks, ops, valid) == []
  {
    if chunks != [] {
      ParseChunksNone(chunks[..|chunks| - 1], ops, valid);
    }
  }

  lemma CollapseKeepsEquals(s: string)
    requires forall i | 0 <= i < |s| :: s[i] != '='
    ensures forall i | 0 <= i < |CollapseSpaces(s)| :: CollapseSpaces(s)[i] != '='
    decreases |s|
  {
    if s != [] {
      if IsSpace(s[0]) {
        var t := TrimStart(s);
        assert forall i | 0 <= i < |t| :: t[i] == s[LeadingSpaces(s) + i];
        CollapseKeepsEquals(t);
      } else {
        CollapseKeepsEquals(s[1..]);
      }
    }
  }

  /** Text with neither `=` nor a training keyword gives no pairs. */
  lemma PlainTextNeedsEquals(text: string)
    requires forall i | 0 <= i < |text| :: text[i] != '='
    requires !TrainingMode(LowerStr(text))
    ensures ParseAssociations(text) == []
  {
    if text != [] {
      var lc := LowerStr(text);
      assert forall i | 0 <= i < |lc| :: lc[i] != '=';
      CollapseKeepsEquals(lc);
      var chunks := Chunks(text);
      forall j | 0 <= j < |chunks| ensures Search(chunks[j], 0, PlainOperators).None? {
        assert forall i | 0 <= i < |chunks[j]| :: chunks[j][i] in CollapseSpaces(lc);
        PlainChunkNeedsEquals(chunks[j]);
      }
      ParseChunksNone(chunks, PlainOperators, IsValidToken);
    }
  }

  // ---------------------------------------------------------------------------
  // Associations table
  // ---------------------------------------------------------------------------

  datatype StoredAssociation = StoredAssociation(
    id: nat, persona: string, left: string, right: string, strength: real, exposures: nat,
    createdAt: string, lastUsed: string, lastReinforcedAt: string, cachedSalience: Option<real>)

  /** `(persona, left, right)`, the compound index `addAssociations` looks rows up by. */
  function RowKey(a: StoredAssociation): (string, string, string)
  {
    (a.persona, a.left, a.right)
  }

  function RowIs(persona: string, l: string, r: string): StoredAssociation -> bool
  {
    (a: StoredAssociation) => a.persona == persona && a.left == l && a.right == r
  }

  /** A row found by `addAssociations`: strength up by one (capped), one more exposure, salience cache dropped. */
  function Reinforce(a: StoredAssociation, now: string): StoredAssociation
  {
    a.(strength := AssociativeMemory.Bump(a.strength, 1.0), exposures := a.exposures + 1,
       lastUsed := now, lastReinforcedAt := now, cachedSalience := None)
  }

  /** A row found by `touchAssociations`: the same with half a step. */
  function TouchRow(a: StoredAssociation, now: string): StoredAssociation
  {
    a.(strength := AssociativeMemory.Bump(a.strength, 0.5), exposures := a.exposures + 1,
       lastUsed := now, lastReinforcedAt := now, cachedSalience := None)
  }

  function NewRow(id: nat, persona: string, l: string, r: string, now: string): StoredAssociation
  {
    StoredAssociation(id, persona, l, r, 1.0, 1, now, now, now, None)
  }

  /** The key of an input pair after trimming and lower-casing, if both sides pass `isValidToken`. */
  function PreparedKey(p: Facts.Pair): Option<(string, string)>
  {
    var l := Normalized(p.left);
    var r := Normalized(p.right);
    if IsValidToken(l) && IsValidToken(r) then Some((l, r)) else None
  }

  /** One transaction step of `addAssociations`: reinforce the row found, or insert a new one. */
  function StoreAddOne(rows: seq<StoredAssociation>, nextId: nat, persona: string, key: Option<(string, string)>, now: string)
    : (r: (seq<StoredAssociation>, nat))
    ensures |rows| <= |r.0| <= |rows| + 1 && r.1 >= nextId
  {
    if key.None? then (rows, nextId)
    else
      var (l, rt) := key.value;
      var idx := FirstIndex(rows, RowIs(persona, l, rt));
      if idx >= 0 then (rows[idx := Reinforce(rows[idx], now)], nextId)
      else (rows + [NewRow(nextId, persona, l, rt, now)], nextId + 1)
  }

  function StoreAddAll(rows: seq<StoredAssociation>, nextId: nat, persona: string, keys: seq<Option<(string, string)>>, now: string)
    : (r: (seq<StoredAssociation>, nat))
    ensures |rows| <= |r.0| && r.1 >= nextId
  {
    if keys == [] then (rows, nextId)
    else
      var prev := StoreAddAll(rows, nextId, persona, keys[..|keys| - 1], now);
      StoreAddOne(prev.0, prev.1, persona, keys[|keys| - 1], now)
  }

  /** At most one row per `(persona, left, right)`. */
  predicate UniqueRowKeys(rows: seq<StoredAssociation>)
  {
    forall i, j | 0 <= i < j < |rows| :: RowKey(rows[i]) != RowKey(rows[j])
  }

  /** Primary keys ascend and stay below the next one to be issued. */
  predicate IdsBelow(rows: seq<StoredAssociation>, nextId: nat)
  {
    (forall i, j | 0 <= i < j < |rows| :: rows[i].id < rows[j].id)
    && (forall i | 0 <= i < |rows| :: rows[i].id < nextId)
  }

  function RowKeys(rows: seq<StoredAssociation>): set<(string, string, string)>
  {
    set k | 0 <= k < |rows| :: RowKey(rows[k])
  }

  function PersonaKeys(persona: string, keys: seq<Option<(string, string)>>): set<(string, string, string)>
  {
    set k | 0 <= k < |keys| && keys[k].Some? :: (persona, keys[k].value.0, keys[k].value.1)
  }

  /** Reinforcing a row in place keeps every key and id. */
  lemma ReinforceKeeps(rows: seq<StoredAssociation>, idx: nat, now: string)
    requires idx < |rows|
    ensures var r := rows[idx := Reinforce(rows[idx], now)];
      RowKeys(r) == RowKeys(rows)
      && (forall k | 0 <= k < |rows| :: RowKey(r[k]) == RowKey(rows[k]) && r[k].id == rows[k].id)
  {
    var r := rows[idx := Reinforce(rows[idx], now)];
    assert forall k | 0 <= k < |rows| :: RowKey(r[k]) == RowKey(rows[k]);
    forall x | x in RowKeys(r) ensures x in RowKeys(rows) {
      var k :| 0 <= k < |r| && RowKey(r[k]) == x;
    }
    forall x | x in RowKeys(rows) ensures x in RowKeys(r) {
      var k :| 0 <= k < |rows| && RowKey(rows[k]) == x;
    }
  }

  /** Appending a row adds its key. */
  lemma AppendKeys(rows: seq<StoredAssociation>, n: StoredAssociation)
    ensures RowKeys(rows + [n]) == RowKeys(rows) + {RowKey(n)}
  {
    var r := rows + [n];
    assert RowKey(r[|rows|]) in RowKeys(r);
    forall x | x in RowKeys(r) ensures x in RowKeys(rows) + {RowKey(n)} {
      var k :| 0 <= k < |r| && RowKey(r[k]) == x;
      if k < |rows| { assert r[k] == rows[k]; }
    }
    forall x | x in RowKeys(rows) ensures x in RowKeys(r) {
      var k :| 0 <= k < |rows| && RowKey(rows[k]) == x;
      assert r[k] == rows[k];
    }
  }

  lemma StoreAddOneKeeps(rows: seq<StoredAssociation>, nextId: nat, persona: string, key: Option<(string, string)>, now: string)
    requires UniqueRowKeys(rows) && IdsBelow(rows, nextId)
    ensures var r := StoreAddOne(rows, nextId, persona, key, now);
      UniqueRowKeys(r.0) && IdsBelow(r.0, r.1)
      && RowKeys(r.0) == RowKeys(rows) + (if key.Some? then {(persona, key.value.0, key.value.1)} else {})
      && (forall k | 0 <= k < |rows| && rows[k].persona != persona :: r.0[k] == rows[k])
  {
    if key.Some? {
      var (l, rt) := key.value;
      var idx := FirstIndex(rows, RowIs(persona, l, rt));
      if idx >= 0 {
        assert RowIs(persona, l, rt)(rows[idx]);
        ReinforceKeeps(rows, idx, now);
        assert RowKey(rows[idx]) in RowKeys(rows);
      } else {
        var n := NewRow(nextId, persona, l, rt, now);
        forall i | 0 <= i < |rows| ensures RowKey(rows[i]) != RowKey(n) {
          assert !RowIs(persona, l, rt)(rows[i]);
        }
        AppendKeys(rows, n);
      }
    }
  }

  lemma PersonaKeysSnoc(persona: string, keys: seq<Option<(string, string)>>, key: Option<(string, string)>)
    ensures PersonaKeys(persona, keys + [key])
      == PersonaKeys(persona, keys) + (if key.Some? then {(persona, key.value.0, key.value.1)} else {})
  {
    var t := keys + [key];
    if key.Some? { assert t[|keys|] == key; }
    forall x | x in PersonaKeys(persona, t)
      ensures x in PersonaKeys(persona, keys) + (if key.Some? then {(persona, key.value.0, key.value.1)} else {})
    {
      var k :| 0 <= k < |t| && t[k].Some? && (persona, t[k].value.0, t[k].value.1) == x;
      if k < |keys| { assert t[k] == keys[k]; }
    }
    forall x | x in PersonaKeys(persona, keys) ensures x in PersonaKeys(persona, t) {
      var k :| 0 <= k < |keys| && keys[k].Some? && (persona, keys[k].value.0, keys[k].value.1) == x;
      assert t[k] == keys[k];
    }
  }

  /**
   * The reinforce-or-insert loop keeps one row per `(persona, left, right)`,
   * ascending ids below the next id, adds exactly the persona-tagged keys of the
   * accepted pairs, and leaves other personas' rows as they were.
   */
  lemma {:induction false} StoreAddAllSpec(rows: seq<StoredAssociation>, nextId: nat, persona: string, keys: seq<Option<(string, string)>>, now: string)
    requires UniqueRowKeys(rows) && IdsBelow(rows, nextId)
    ensures var r := StoreAddAll(rows, nextId, persona, keys, now);
      UniqueRowKeys(r.0) && IdsBelow(r.0, r.1)
      && RowKeys(r.0) == RowKeys(rows) + PersonaKeys(persona, keys)
      && (forall k | 0 <= k < |rows| && rows[k].persona != persona :: r.0[k] == rows[k])
  {
    if keys != [] {
      var init := keys[..|keys| - 1];
      var last := keys[|keys| - 1];
      StoreAddAllSpec(rows, nextId, persona, init, now);
      var prev := StoreAddAll(rows, nextId, persona, init, now);
      StoreAddOneKeeps(prev.0, prev.1, persona, last, now);
      assert keys == init + [last];
      PersonaKeysSnoc(persona, init, last);
    }
  }

  /** `Math.min(1e6, x)`. */
  function Capped(x: real): real
  {
    if x < AssociativeMemory.MaxStrength then x else AssociativeMemory.MaxStrength
  }

  /** `existing.strength || 1`: a missing (zero) strength counts as one. */
  function Base(s: real): real { if s == 0.0 then 1.0 else s }

  /**
   * `after` is `before` reinforced `n` times: same id, key and creation time, `n`
   * more exposures, and, when it was reinforced at all, strength raised by `n`
   * (capped at `1e6`), both use times `now` and the salience cache cleared.
   */
  predicate Tallied(before: StoredAssociation, after: StoredAssociation, n: nat, now: string)
  {
    && after.id == before.id && RowKey(after) == RowKey(before) && after.createdAt == before.createdAt
    && after.exposures == before.exposures + n
    && (n == 0 ==> after == before)
    && (n > 0 ==>
         && after.lastUsed == now && after.lastReinforcedAt == now && after.cachedSalience.None?
         && (before.strength >= 0.0 ==> after.strength == Capped(Base(before.strength) + n as real)))
  }

  /**
   * `a` was inserted for `persona` during this call and then met `n` times in
   * all: an id not below the call's first free id, `n` exposures, strength `n`
   * (capped), every time stamp `now`, no salience cached.
   */
  predicate Inserted(a: StoredAssociation, n: nat, persona: string, nextId: nat, now: string)
  {
    && a.persona == persona && a.id >= nextId && n > 0 && a.exposures == n
    && a.strength == Capped(n as real)
    && a.createdAt == now && a.lastUsed == now && a.lastReinforcedAt == now && a.cachedSalience.None?
  }

  /** How often the accepted keys name `a`'s `(left, right)` for `persona`. */
  function Occurrences(keys: seq<Option<(string, string)>>, persona: string, a: StoredAssociation): nat
  {
    if a.persona == persona then multiset(keys)[Some((a.left, a.right))] else 0
  }

  /** An existing `(persona, left, right)` row is reinforced in place, and no other row changes. */
  lemma StoreAddOneReinforces(rows: seq<StoredAssociation>, nextId: nat, persona: string, l: string, rt: string,
                              now: string, i: nat)
    requires UniqueRowKeys(rows) && i < |rows| && RowKey(rows[i]) == (persona, l, rt)
    ensures var r := StoreAddOne(rows, nextId, persona, Some((l, rt)), now);
      r.1 == nextId && |r.0| == |rows| && Tallied(rows[i], r.0[i], 1, now)
      && r.0[i].strength == Capped(Base(rows[i].strength) + 1.0)
      && (forall k | 0 <= k < |rows| && k != i :: r.0[k] == rows[k])
  {
    var idx := FirstIndex(rows, RowIs(persona, l, rt));
    assert RowIs(persona, l, rt)(rows[i]);
    assert idx >= 0;
    assert RowKey(rows[idx]) == RowKey(rows[i]);
  }

  /** A key with no row yet gets a new row with the next id, strength 1 and one exposure. */
  lemma StoreAddOneInserts(rows: seq<StoredAssociation>, nextId: nat, persona: string, l: string, rt: string, now: string)
    requires (persona, l, rt) !in RowKeys(rows)
    ensures var r := StoreAddOne(rows, nextId, persona, Some((l, rt)), now);
      r.1 == nextId + 1 && |r.0| == |rows| + 1 && r.0[..|rows|] == rows
      && RowKey(r.0[|rows|]) == (persona, l, rt) && r.0[|rows|].id == nextId
      && Inserted(r.0[|rows|], 1, persona, nextId, now)
  {
    var idx := FirstIndex(rows, RowIs(persona, l, rt));
    assert forall j | 0 <= j < |rows| :: RowKey(rows[j]) in RowKeys(rows);
    assert forall j | 0 <= j < |rows| :: !RowIs(persona, l, rt)(rows[j]);
    var r := StoreAddOne(rows, nextId, persona, Some((l, rt)), now);
    assert r.0 == rows + [NewRow(nextId, persona, l, rt, now)];
  }

  lemma TalliedStep(before: StoredAssociation, a: StoredAssociation, n: nat, now: string)
    requires Tallied(before, a, n, now)
    ensures Tallied(before, Reinforce(a, now), n + 1, now)
  {
    var b := Reinforce(a, now);
    if before.strength >= 0.0 && n > 0 {
      var x := Base(before.strength) + n as real;
      assert a.strength == Capped(x) && Capped(x) > 0.0;
      assert b.strength == Capped(Capped(x) + 1.0);
    }
  }

  lemma InsertedStep(a: StoredAssociation, n: nat, persona: string, nextId: nat, now: string)
    requires Inserted(a, n, persona, nextId, now)
    ensures Inserted(Reinforce(a, now), n + 1, persona, nextId, now)
  {
    assert a.strength > 0.0;
  }

  lemma OccurrencesSnoc(keys: seq<Option<(string, string)>>, last: Option<(string, string)>, persona: string,
                        a: StoredAssociation)
    ensures Occurrences(keys + [last], persona, a)
      == Occurrences(keys, persona, a) + (if last.Some? && RowKey(a) == (persona, last.value.0, last.value.1) then 1 else 0)
  {
    assert multiset(keys + [last]) == multiset(keys) + multiset{last};
  }

  /** A key of the persona with no row is named by none of the keys that were folded in. */
  lemma AbsentKeyUnseen(keys: seq<Option<(string, string)>>, persona: string, a: StoredAssociation,
                        known: set<(string, string, string)>)
    requires PersonaKeys(persona, keys) <= known && a.persona == persona && RowKey(a) !in known
    ensures Occurrences(keys, persona, a) == 0
  {
    assert forall j | 0 <= j < |keys| && keys[j].Some? ::
      (persona, keys[j].value.0, keys[j].value.1) in PersonaKeys(persona, keys);
    assert forall j | 0 <= j < |keys| :: keys[j] != Some((a.left, a.right));
    assert Some((a.left, a.right)) !in keys;
  }

  /** What the fold over `init + [last]` promises, given what the fold over `init` did. */
  predicate FoldTallied(rows: seq<StoredAssociation>, r: seq<StoredAssociation>, nextId: nat, persona: string,
                        keys: seq<Option<(string, string)>>, now: string)
  {
    && |rows| <= |r|
    && (forall k | 0 <= k < |rows| :: Tallied(rows[k], r[k], Occurrences(keys, persona, rows[k]), now))
    && (forall k | |rows| <= k < |r| :: Inserted(r[k], Occurrences(keys, persona, r[k]), persona, nextId, now))
  }

  lemma FoldStepReinforce(rows: seq<StoredAssociation>, prev: seq<StoredAssociation>, prevNext: nat, nextId: nat,
                          persona: string, init: seq<Option<(string, string)>>, l: string, rt: string, now: string, idx: nat)
    requires FoldTallied(rows, prev, nextId, persona, init, now) && UniqueRowKeys(prev)
    requires idx < |prev| && RowKey(prev[idx]) == (persona, l, rt)
    ensures FoldTallied(rows, StoreAddOne(prev, prevNext, persona, Some((l, rt)), now).0, nextId, persona, init + [Some((l, rt))], now)
  {
    var keys := init + [Some((l, rt))];
    StoreAddOneReinforces(prev, prevNext, persona, l, rt, now, idx);
    var r := StoreAddOne(prev, prevNext, persona, Some((l, rt)), now).0;
    assert r[idx] == Reinforce(prev[idx], now);
    forall k | 0 <= k < |rows| ensures Tallied(rows[k], r[k], Occurrences(keys, persona, rows[k]), now) {
      OccurrencesSnoc(init, Some((l, rt)), persona, rows[k]);
      assert RowKey(rows[k]) == RowKey(prev[k]);
      if k == idx {
        TalliedStep(rows[k], prev[k], Occurrences(init, persona, rows[k]), now);
      }
    }
    forall k | |rows| <= k < |r| ensures Inserted(r[k], Occurrences(keys, persona, r[k]), persona, nextId, now) {
      OccurrencesSnoc(init, Some((l, rt)), persona, prev[k]);
      if k == idx {
        InsertedStep(prev[k], Occurrences(init, persona, prev[k]), persona, nextId, now);
        OccurrencesSnoc(init, Some((l, rt)), persona, r[k]);
      }
    }
  }

  lemma FoldStepInsert(rows: seq<StoredAssociation>, prev: seq<StoredAssociation>, prevNext: nat, nextId: nat,
                       persona: string, init: seq<Option<(string, string)>>, l: string, rt: string, now: string)
    requires FoldTallied(rows, prev, nextId, persona, init, now) && prevNext >= nextId
    requires (persona, l, rt) !in RowKeys(prev) && PersonaKeys(persona, init) <= RowKeys(prev)
    ensures FoldTallied(rows, StoreAddOne(prev, prevNext, persona, Some((l, rt)), now).0, nextId, persona, init + [Some((l, rt))], now)
  {
    var keys := init + [Some((l, rt))];
    StoreAddOneInserts(prev, prevNext, persona, l, rt, now);
    var r := StoreAddOne(prev, prevNext, persona, Some((l, rt)), now).0;
    forall k | 0 <= k < |prev| ensures r[k] == prev[k] && RowKey(prev[k]) != (persona, l, rt) {
      assert r[..|prev|][k] == r[k];
      assert RowKey(prev[k]) in RowKeys(prev);
    }
    forall k | 0 <= k < |rows| ensures Tallied(rows[k], r[k], Occurrences(keys, persona, rows[k]), now) {
      OccurrencesSnoc(init, Some((l, rt)), persona, rows[k]);
      assert RowKey(rows[k]) == RowKey(prev[k]);
    }
    forall k | |rows| <= k < |r| ensures Inserted(r[k], Occurrences(keys, persona, r[k]), persona, nextId, now) {
      OccurrencesSnoc(init, Some((l, rt)), persona, r[k]);
      if k == |prev| {
        AbsentKeyUnseen(init, persona, r[k], RowKeys(prev));
      }
    }
  }

  /**
   * The values `addAssociations` writes: every earlier row is reinforced once per
   * accepted pair naming it and is otherwise untouched, and every row it adds
   * belongs to the persona, has a fresh id, and carries as many exposures (and as
   * much strength, capped) as pairs named it.
   */
  lemma {:induction false} StoreAddAllTallies(rows: seq<StoredAssociation>, nextId: nat, persona: string,
                                              keys: seq<Option<(string, string)>>, now: string)
    requires UniqueRowKeys(rows) && IdsBelow(rows, nextId)
    ensures var r := StoreAddAll(rows, nextId, persona, keys, now).0;
      && (forall k | 0 <= k < |rows| :: Tallied(rows[k], r[k], Occurrences(keys, persona, rows[k]), now))
      && (forall k | |rows| <= k < |r| :: Inserted(r[k], Occurrences(keys, persona, r[k]), persona, nextId, now))
  {
    if keys == [] {
      assert multiset(keys) == multiset{};
    } else {
      var init := keys[..|keys| - 1];
      var last := keys[|keys| - 1];
      assert keys == init + [last];
      StoreAddAllTallies(rows, nextId, persona, init, now);
      StoreAddAllSpec(rows, nextId, persona, init, now);
      var prev := StoreAddAll(rows, nextId, persona, init, now);
      assert FoldTallied(rows, prev.0, nextId, persona, init, now);
      if last.None? {
        forall k | 0 <= k < |prev.0| ensures Occurrences(keys, persona, prev.0[k]) == Occurrences(init, persona, prev.0[k]) {
          OccurrencesSnoc(init, last, persona, prev.0[k]);
        }
        forall k | 0 <= k < |rows| ensures Occurrences(keys, persona, rows[k]) == Occurrences(init, persona, rows[k]) {
          OccurrencesSnoc(init, last, persona, rows[k]);
        }
      } else {
        var (l, rt) := last.value;
        var idx := FirstIndex(prev.0, RowIs(persona, l, rt));
        if idx >= 0 {
          assert RowIs(persona, l, rt)(prev.0[idx]);
          FoldStepReinforce(rows, prev.0, prev.1, nextId, persona, init, l, rt, now, idx);
        } else {
          assert forall j | 0 <= j < |prev.0| :: RowKey(prev.0[j]) != (persona, l, rt);
          FoldStepInsert(rows, prev.0, prev.1, nextId, persona, init, l, rt, now);
        }
      }
    }
  }

  /** The loop of `addAssociations`; `prepare` is the normalisation and token check. */
  method StoreAddLoop(rows: seq<StoredAssociation>, nextId: nat, persona: string, pairs: seq<Facts.Pair>,
                      prepare: Facts.Pair -> Option<(string, string)>, now: string)
    returns (newRows: seq<StoredAssociation>, newNext: nat)
    ensures (newRows, newNext) == StoreAddAll(rows, nextId, persona, Map(pairs, prepare), now)
  {
    ghost var keys := Map(pairs, prepare);
    newRows, newNext := rows, nextId;
    var i := 0;
    while i < |pairs|
      invariant 0 <= i <= |pairs|
      invariant (newRows, newNext) == StoreAddAll(rows, nextId, persona, keys[..i], now)
    {
      assert keys[..i + 1][..i] == keys[..i];
      var key := prepare(pairs[i]);
      if key.Some? {
        var (l, r) := key.value;
        var idx := FirstIndex(newRows, RowIs(persona, l, r));
        if idx >= 0 {
          newRows := newRows[idx := Reinforce(newRows[idx], now)];
        } else {
          newRows := newRows + [NewRow(newNext, persona, l, r, now)];
          newNext := newNext + 1;
        }
      }
      i := i + 1;
    }
    assert keys[..i] == keys;
  }

  /** The lookup key of `touchAssociations`: trimmed and lower-cased, with no token check. */
  function TouchKeyOf(p: Facts.Pair): (string, string)
  {
    (Normalized(p.left), Normalized(p.right))
  }

  function StoreTouchOne(rows: seq<StoredAssociation>, persona: string, key: (string, string), now: string)
    : (r: seq<StoredAssociation>)
    ensures |r| == |rows|
  {
    var idx := FirstIndex(rows, RowIs(persona, key.0, key.1));
    if idx >= 0 then rows[idx := TouchRow(rows[idx], now)] else rows
  }

  function StoreTouchAll(rows: seq<StoredAssociation>, persona: string, keys: seq<(string, string)>, now: string)
    : (r: seq<StoredAssociation>)
    ensures |r| == |rows|
  {
    if keys == [] then rows
    else StoreTouchOne(StoreTouchAll(rows, persona, keys[..|keys| - 1], now), persona, keys[|keys| - 1], now)
  }

  /**
   * Touching adds and removes no row and changes no id or key; rows of other
   * personas and rows whose key was not named stay as they were, and strengths
   * stay within the cap.
   */
  lemma {:induction false} StoreTouchAllSpec(rows: seq<StoredAssociation>, persona: string, keys: seq<(string, string)>, now: string)
    ensures var r := StoreTouchAll(rows, persona, keys, now);
      (forall k | 0 <= k < |rows| :: r[k].id == rows[k].id && RowKey(r[k]) == RowKey(rows[k]))
      && (forall k | 0 <= k < |rows| && (rows[k].persona != persona || (rows[k].left, rows[k].right) !in keys) :: r[k] == rows[k])
      && (forall k | 0 <= k < |rows| && rows[k].strength <= AssociativeMemory.MaxStrength :: r[k].strength <= AssociativeMemory.MaxStrength)
  {
    if keys != [] {
      var init := keys[..|keys| - 1];
      var key := keys[|keys| - 1];
      StoreTouchAllSpec(rows, persona, init, now);
      var prev := StoreTouchAll(rows, persona, init, now);
      assert keys == init + [key];
      var idx := FirstIndex(prev, RowIs(persona, key.0, key.1));
      if idx >= 0 {
        assert RowIs(persona, key.0, key.1)(prev[idx]);
      }
    }
  }

  /** How many of the touched keys name row `a` of the persona. */
  function TouchCount(keys: seq<(string, string)>, persona: string, a: StoredAssociation): nat
  {
    if a.persona == persona then multiset(keys)[(a.left, a.right)] else 0
  }

  /**
   * `after` is `before` touched `n` times: same id, key and creation time, `n` more
   * exposures, and, when it was touched at all, strength raised by half a step per
   * touch (capped at `1e6`), both use times `now` and the salience cache cleared.
   */
  predicate Touched(before: StoredAssociation, after: StoredAssociation, n: nat, now: string)
  {
    && after.id == before.id && RowKey(after) == RowKey(before) && after.createdAt == before.createdAt
    && after.exposures == before.exposures + n
    && (n == 0 ==> after == before)
    && (n > 0 ==>
         && after.lastUsed == now && after.lastReinforcedAt == now && after.cachedSalience.None?
         && (before.strength >= 0.0 ==> after.strength == Capped(Base(before.strength) + n as real * 0.5)))
  }

  /** Every row of `after` is the row of `before` at its index, touched once per key naming it. */
  predicate AllTouched(before: seq<StoredAssociation>, after: seq<StoredAssociation>, persona: string, keys: seq<(string, string)>, now: string)
  {
    && |after| == |before|
    && forall k | 0 <= k < |before| :: Touched(before[k], after[k], TouchCount(keys, persona, before[k]), now)
  }

  lemma TouchedStep(before: StoredAssociation, a: StoredAssociation, n: nat, now: string)
    requires Touched(before, a, n, now)
    ensures Touched(before, TouchRow(a, now), n + 1, now)
  {
    var b := TouchRow(a, now);
    if before.strength >= 0.0 && n > 0 {
      var x := Base(before.strength) + n as real * 0.5;
      assert a.strength == Capped(x) && Capped(x) > 0.0;
      assert b.strength == Capped(Capped(x) + 0.5);
    }
  }

  lemma TouchCountSnoc(keys: seq<(string, string)>, last: (string, string), persona: string, a: StoredAssociation)
    ensures TouchCount(keys + [last], persona, a)
      == TouchCount(keys, persona, a) + (if RowKey(a) == (persona, last.0, last.1) then 1 else 0)
  {
    assert multiset(keys + [last]) == multiset(keys) + multiset{last};
  }

  /**
   * The values `touchAssociations` writes: with one row per key, every row is
   * touched once per key naming it for the persona, and is otherwise untouched.
   */
  lemma {:induction false} StoreTouchAllTallies(rows: seq<StoredAssociation>, persona: string, keys: seq<(string, string)>, now: string)
    requires UniqueRowKeys(rows)
    ensures AllTouched(rows, StoreTouchAll(rows, persona, keys, now), persona, keys, now)
  {
    if keys == [] {
      assert multiset(keys) == multiset{};
    } else {
      var init := keys[..|keys| - 1];
      var last := keys[|keys| - 1];
      assert keys == init + [last];
      StoreTouchAllTallies(rows, persona, init, now);
      StoreTouchAllSpec(rows, persona, init, now);
      var prev := StoreTouchAll(rows, persona, init, now);
      assert UniqueRowKeys(prev) by {
        forall i, j | 0 <= i < j < |prev| ensures RowKey(prev[i]) != RowKey(prev[j]) {
          assert RowKey(prev[i]) == RowKey(rows[i]) && RowKey(prev[j]) == RowKey(rows[j]);
        }
      }
      var r := StoreTouchAll(rows, persona, keys, now);
      assert r == StoreTouchOne(prev, persona, last, now);
      forall k | 0 <= k < |rows| ensures Touched(rows[k], r[k], TouchCount(keys, persona, rows[k]), now) {
        TouchCountSnoc(init, last, persona, rows[k]);
        TouchFoldStep(rows[k], prev, persona, TouchCount(init, persona, rows[k]), last, now, k);
      }
    }
  }

  /** One more key: row `k` is touched once more exactly when the key names it. */
  lemma TouchFoldStep(before: StoredAssociation, prev: seq<StoredAssociation>, persona: string, n: nat,
                      last: (string, string), now: string, k: nat)
    requires UniqueRowKeys(prev) && k < |prev| && Touched(before, prev[k], n, now)
    ensures Touched(before, StoreTouchOne(prev, persona, last, now)[k],
                    n + (if RowKey(before) == (persona, last.0, last.1) then 1 else 0), now)
  {
    var idx := FirstIndex(prev, RowIs(persona, last.0, last.1));
    assert RowIs(persona, last.0, last.1)(prev[k]) <==> RowKey(prev[k]) == (persona, last.0, last.1);
    if idx >= 0 {
      assert RowIs(persona, last.0, last.1)(prev[idx]);
      if k == idx {
        TouchedStep(before, prev[k], n, now);
      } else {
        assert RowKey(prev[k]) != RowKey(prev[idx]);
      }
    }
  }

  /** The loop of `touchAssociations`. */
  method StoreTouchLoop(rows: seq<StoredAssociation>, persona: string, used: seq<Facts.Pair>,
                        key: Facts.Pair -> (string, string), now: string)
    returns (newRows: seq<StoredAssociation>)
    ensures newRows == StoreTouchAll(rows, persona, Map(used, key), now)
  {
    ghost var keys := Map(used, key);
    newRows := rows;
    var i := 0;
    while i < |used|
      invariant 0 <= i <= |used|
      invariant newRows == StoreTouchAll(rows, persona, keys[..i], now)
    {
      assert keys[..i + 1][..i] == keys[..i];
      var (l, r) := key(used[i]);
      var idx := FirstIndex(newRows, RowIs(persona, l, r));
      if idx >= 0 {
        newRows := newRows[idx := TouchRow(newRows[idx], now)];
      }
      i := i + 1;
    }
    assert keys[..i] == keys;
  }

  function IsPersona(persona: string): StoredAssociation -> bool
  {
    (a: StoredAssociation) => a.persona == persona
  }

  function Negated(key: StoredAssociation -> int): StoredAssociation -> int
  {
    (a: StoredAssociation) => -key(a)
  }

  function RowId(a: StoredAssociation): nat { a.id }

  /**
   * The keys a prune deletes: among the `sel`-elements sorted by descending
   * `order`, the first `count - limit` that are `weak`.
   */
  function PruneKeys<T>(rows: seq<T>, sel: T -> bool, order: T -> int, weak: T -> bool, key: T -> nat, limit: nat): set<nat>
  {
    var mine := Filter(rows, sel);
    if |mine| <= limit then {}
    else KeysWhere(SortDesc(mine, order)[..|mine| - limit], weak, key)
  }

  function KeyNotIn<T>(key: T -> nat, ids: set<nat>): T -> bool
  {
    (x: T) => key(x) !in ids
  }

  function KeyIn<T>(key: T -> nat, ids: set<nat>): T -> bool
  {
    (x: T) => key(x) in ids
  }

  function PruneBy<T>(rows: seq<T>, sel: T -> bool, order: T -> int, weak: T -> bool, key: T -> nat, limit: nat): seq<T>
  {
    var ids := PruneKeys(rows, sel, order, weak, key, limit);
    if ids == {} then rows else Filter(rows, KeyNotIn(key, ids))
  }

  /**
   * `pruneAssociations`: among the persona's rows sorted by ascending salience,
   * the first `count - 200` that are weak (the oracle for "salience below 0.1
   * or older than 120 days") are deleted.
   */
  function Prune(rows: seq<StoredAssociation>, persona: string, salience: StoredAssociation -> int,
                 weak: StoredAssociation -> bool): seq<StoredAssociation>
  {
    PruneBy(rows, IsPersona(persona), Negated(salience), weak, RowId, MaxAssociationsPerPersona)
  }

  predicate DistinctKeys<T>(s: seq<T>, key: T -> nat)
  {
    forall i, j | 0 <= i < j < |s| :: key(s[i]) != key(s[j])
  }

  /** The keys of the `p`-elements of `c`. */
  function KeysWhere<T>(c: seq<T>, p: T -> bool, key: T -> nat): (r: set<nat>)
    ensures |r| <= |c|
  {
    if c == [] then {} else (if p(c[0]) then {key(c[0])} else {}) + KeysWhere(c[1..], p, key)
  }

  /** Every key collected comes from a `p`-element. */
  lemma {:induction false} KeysWhereFrom<T>(c: seq<T>, p: T -> bool, key: T -> nat)
    ensures forall x | x in KeysWhere(c, p, key) :: exists k :: 0 <= k < |c| && p(c[k]) && key(c[k]) == x
  {
    if c != [] {
      var tail := c[1..];
      KeysWhereFrom(tail, p, key);
      forall x | x in KeysWhere(tail, p, key) ensures exists k :: 0 <= k < |c| && p(c[k]) && key(c[k]) == x {
        var k :| 0 <= k < |tail| && p(tail[k]) && key(tail[k]) == x;
        assert c[k + 1] == tail[k];
      }
    }
  }

  /** Every `p`-element has its key collected. */
  lemma {:induction false} KeysWhereHas<T>(c: seq<T>, p: T -> bool, key: T -> nat)
    ensures forall k | 0 <= k < |c| && p(c[k]) :: key(c[k]) in KeysWhere(c, p, key)
  {
    if c != [] {
      var tail := c[1..];
      KeysWhereHas(tail, p, key);
      forall k | 1 <= k < |c| && p(c[k]) ensures key(c[k]) in KeysWhere(tail, p, key) {
        assert tail[k - 1] == c[k];
      }
    }
  }

  lemma {:induction false} FilterPartition<T>(s: seq<T>, p: T -> bool, q: T -> bool)
    requires forall x | x in s :: q(x) == !p(x)
    ensures |Filter(s, p)| + |Filter(s, q)| == |s|
  {
    if s != [] {
      FilterPartition(s[1..], p, q);
    }
  }

  /** A sequence of distinct keys drawn from a set is no longer than the set. */
  lemma {:induction false} DistinctKeysBound<T>(s: seq<T>, key: T -> nat, ids: set<nat>)
    requires DistinctKeys(s, key)
    requires forall i | 0 <= i < |s| :: key(s[i]) in ids
    ensures |s| <= |ids|
  {
    if s != [] {
      var x := key(s[0]);
      var tail := s[1..];
      forall i | 0 <= i < |tail| ensures key(tail[i]) in ids - {x} {
        assert tail[i] == s[i + 1];
      }
      DistinctKeysBound(tail, key, ids - {x});
    }
  }

  /** Filtering keeps the keys distinct. */
  lemma {:induction false} FilterDistinctKeys<T>(s: seq<T>, p: T -> bool, key: T -> nat)
    requires DistinctKeys(s, key)
    ensures DistinctKeys(Filter(s, p), key)
  {
    if s != [] {
      var tail := s[1..];
      FilterDistinctKeys(tail, p, key);
      var ft := Filter(tail, p);
      forall b | 0 <= b < |ft| ensures key(ft[b]) != key(s[0]) {
        var j :| 0 <= j < |tail| && tail[j] == ft[b];
        assert tail[j] == s[j + 1];
      }
      var f := Filter(s, p);
      if p(s[0]) {
        assert f == [s[0]] + ft;
        forall a, b | 0 <= a < b < |f| ensures key(f[a]) != key(f[b]) {
          assert f[b] == ft[b - 1];
          if a > 0 { assert f[a] == ft[a - 1]; }
        }
      } else {
        assert f == ft;
      }
    }
  }

  /** A candidate of the sorted selection is a selected row. */
  lemma CandidateSelected<T>(rows: seq<T>, sel: T -> bool, order: T -> int, n: nat, k: nat)
    requires n <= |Filter(rows, sel)| && k < n
    ensures var c := SortDesc(Filter(rows, sel), order)[k]; c in rows && sel(c)
  {
    var mine := Filter(rows, sel);
    SortDescSpec(mine, order);
    var c := SortDesc(mine, order)[k];
    assert c in multiset(SortDesc(mine, order));
    assert c in mine;
  }

  /** A table element whose key is that of a weak candidate is that candidate. */
  lemma PruneCandidates<T>(rows: seq<T>, sel: T -> bool, order: T -> int, n: nat, weak: T -> bool, key: T -> nat)
    requires DistinctKeys(rows, key)
    requires n <= |Filter(rows, sel)|
    ensures forall x | x in rows && key(x) in KeysWhere(SortDesc(Filter(rows, sel), order)[..n], weak, key) ::
      sel(x) && weak(x) && x in SortDesc(Filter(rows, sel), order)[..n]
  {
    var candidates := SortDesc(Filter(rows, sel), order)[..n];
    KeysWhereFrom(candidates, weak, key);
    forall x | x in rows && key(x) in KeysWhere(candidates, weak, key) ensures sel(x) && weak(x) && x in candidates {
      var k :| 0 <= k < |candidates| && weak(candidates[k]) && key(candidates[k]) == key(x);
      var c := candidates[k];
      CandidateSelected(rows, sel, order, n, k);
      var i :| 0 <= i < |rows| && rows[i] == x;
      var j :| 0 <= j < |rows| && rows[j] == c;
      assert i == j;
    }
  }

  /**
   * Only weak `sel`-elements are deleted, and only from the first `count - limit`
   * in `order`; every weak one among those goes.
   */
  lemma PruneByRemovesWeak<T>(rows: seq<T>, sel: T -> bool, order: T -> int, weak: T -> bool, key: T -> nat, limit: nat)
    requires DistinctKeys(rows, key)
    ensures forall x | x in rows && x !in PruneBy(rows, sel, order, weak, key, limit) :: sel(x) && weak(x)
    ensures var mine := Filter(rows, sel);
      |mine| > limit ==>
        && (forall x | x in rows && x !in PruneBy(rows, sel, order, weak, key, limit) ::
              x in SortDesc(mine, order)[..|mine| - limit])
        && (forall x | x in SortDesc(mine, order)[..|mine| - limit] && weak(x) ::
              x !in PruneBy(rows, sel, order, weak, key, limit))
  {
    PruneWeakGo(rows, sel, order, weak, key, limit);
    PruneDeletedLowest(rows, sel, order, weak, key, limit);
  }

  /** A deleted element is a weak `sel`-element among the first `count - limit` in `order`. */
  lemma PruneDeletedLowest<T>(rows: seq<T>, sel: T -> bool, order: T -> int, weak: T -> bool, key: T -> nat, limit: nat)
    requires DistinctKeys(rows, key)
    ensures var mine := Filter(rows, sel);
      forall x | x in rows && x !in PruneBy(rows, sel, order, weak, key, limit) ::
        sel(x) && weak(x) && |mine| > limit && x in SortDesc(mine, order)[..|mine| - limit]
  {
    forall x | x in rows && x !in PruneBy(rows, sel, order, weak, key, limit)
      ensures var mine := Filter(rows, sel); sel(x) && weak(x) && |mine| > limit && x in SortDesc(mine, order)[..|mine| - limit]
    {
      DeletedOne(rows, sel, order, weak, key, limit, x);
    }
  }

  /** One deleted element: its key was collected, so it is a weak candidate. */
  lemma DeletedOne<T>(rows: seq<T>, sel: T -> bool, order: T -> int, weak: T -> bool, key: T -> nat, limit: nat, x: T)
    requires DistinctKeys(rows, key)
    requires x in rows && x !in PruneBy(rows, sel, order, weak, key, limit)
    ensures var mine := Filter(rows, sel); sel(x) && weak(x) && |mine| > limit && x in SortDesc(mine, order)[..|mine| - limit]
  {
    var mine := Filter(rows, sel);
    var ids := PruneKeys(rows, sel, order, weak, key, limit);
    assert ids != {} && |mine| > limit;
    assert key(x) in ids;
    PruneCandidates(rows, sel, order, |mine| - limit, weak, key);
  }

  /** Every weak element among the first `count - limit` in `order` is deleted. */
  lemma PruneWeakGo<T>(rows: seq<T>, sel: T -> bool, order: T -> int, weak: T -> bool, key: T -> nat, limit: nat)
    ensures var mine := Filter(rows, sel);
      |mine| > limit ==>
        forall x | x in SortDesc(mine, order)[..|mine| - limit] && weak(x) ::
          x !in PruneBy(rows, sel, order, weak, key, limit)
  {
    var mine := Filter(rows, sel);
    if |mine| > limit {
      var candidates := SortDesc(mine, order)[..|mine| - limit];
      forall x | x in candidates && weak(x) ensures x !in PruneBy(rows, sel, order, weak, key, limit) {
        var k :| 0 <= k < |candidates| && candidates[k] == x;
        WeakGoOne(rows, sel, order, weak, key, limit, k);
      }
    }
  }

  /** The weak element at position `k` of the first `count - limit` is deleted. */
  lemma WeakGoOne<T>(rows: seq<T>, sel: T -> bool, order: T -> int, weak: T -> bool, key: T -> nat, limit: nat, k: nat)
    requires |Filter(rows, sel)| > limit && k < |Filter(rows, sel)| - limit
    requires weak(SortDesc(Filter(rows, sel), order)[k])
    ensures SortDesc(Filter(rows, sel), order)[k] !in PruneBy(rows, sel, order, weak, key, limit)
  {
    var mine := Filter(rows, sel);
    var candidates := SortDesc(mine, order)[..|mine| - limit];
    var ids := PruneKeys(rows, sel, order, weak, key, limit);
    KeysWhereHas(candidates, weak, key);
    assert candidates[k] == SortDesc(mine, order)[k];
    assert key(candidates[k]) in ids;
    FilterDrops(rows, KeyNotIn(key, ids), candidates[k]);
  }

  /** At most `count - limit` elements are deleted. */
  lemma PruneByCount<T>(rows: seq<T>, sel: T -> bool, order: T -> int, weak: T -> bool, key: T -> nat, limit: nat)
    requires DistinctKeys(rows, key)
    ensures |Filter(rows, sel)| > limit ==> |rows| - |PruneBy(rows, sel, order, weak, key, limit)| <= |Filter(rows, sel)| - limit
  {
    var mine := Filter(rows, sel);
    var ids := PruneKeys(rows, sel, order, weak, key, limit);
    if |mine| > limit && ids != {} {
      var gone := Filter(rows, KeyIn(key, ids));
      FilterPartition(rows, KeyNotIn(key, ids), KeyIn(key, ids));
      FilterDistinctKeys(rows, KeyIn(key, ids), key);
      DistinctKeysBound(gone, key, ids);
      var r := Filter(rows, KeyNotIn(key, ids));
      assert |gone| <= |ids| <= |mine| - limit;
      assert |gone| + |r| == |rows|;
    }
  }

  lemma PruneBySpec<T>(rows: seq<T>, sel: T -> bool, order: T -> int, weak: T -> bool, key: T -> nat, limit: nat)
    requires DistinctKeys(rows, key)
    ensures var mine := Filter(rows, sel);
      var r := PruneBy(rows, sel, order, weak, key, limit);
      (|mine| <= limit ==> r == rows)
      && (forall x | x in rows && x !in r :: sel(x) && weak(x))
      && (forall x | x in r :: x in rows)
      && (|mine| > limit ==> |rows| - |r| <= |mine| - limit)
    ensures var mine := Filter(rows, sel);
      var r := PruneBy(rows, sel, order, weak, key, limit);
      |mine| > limit ==>
        && (forall x | x in rows && x !in r :: x in SortDesc(mine, order)[..|mine| - limit])
        && (forall x | x in SortDesc(mine, order)[..|mine| - limit] && weak(x) :: x !in r)
  {
    PruneByRemovesWeak(rows, sel, order, weak, key, limit);
    PruneByCount(rows, sel, order, weak, key, limit);
  }

  /**
   * Pruning is a no-op at 200 rows or fewer; otherwise it deletes only weak rows
   * of the persona among its `count - 200` lowest-salience ones, deletes every
   * weak row among those, keeps every other row, and may leave more than 200.
   */
  lemma PruneSpec(rows: seq<StoredAssociation>, persona: string, salience: StoredAssociation -> int,
                  weak: StoredAssociation -> bool)
    requires DistinctKeys(rows, RowId)
    ensures var mine := Filter(rows, IsPersona(persona));
      var r := Prune(rows, persona, salience, weak);
      (|mine| <= MaxAssociationsPerPersona ==> r == rows)
      && (forall x | x in rows && x !in r :: x.persona == persona && weak(x))
      && (forall x | x in rows && x.persona != persona :: x in r)
      && (forall x | x in r :: x in rows)
      && (|mine| > MaxAssociationsPerPersona ==> |rows| - |r| <= |mine| - MaxAssociationsPerPersona)
    ensures var mine := Filter(rows, IsPersona(persona));
      var r := Prune(rows, persona, salience, weak);
      |mine| > MaxAssociationsPerPersona ==>
        var lowest := SortDesc(mine, Negated(salience))[..|mine| - MaxAssociationsPerPersona];
        && (forall x | x in rows && x !in r :: x in lowest)
        && (forall x | x in lowest && weak(x) :: x !in r)
  {
    PruneBySpec(rows, IsPersona(persona), Negated(salience), weak, RowId, MaxAssociationsPerPersona);
  }

  /** Pruning only deletes rows: one row per key and ascending ids below the next id survive it. */
  lemma PruneKeepsIndex(rows: seq<StoredAssociation>, persona: string, salience: StoredAssociation -> int,
                        weak: StoredAssociation -> bool, nextId: nat)
    requires UniqueRowKeys(rows) && IdsBelow(rows, nextId)
    ensures var r := Prune(rows, persona, salience, weak);
      UniqueRowKeys(r) && IdsBelow(r, nextId)
  {
    var ids := PruneKeys(rows, IsPersona(persona), Negated(salience), weak, RowId, MaxAssociationsPerPersona);
    if ids != {} {
      var p := KeyNotIn(RowId, ids);
      var distinct := (a: StoredAssociation, b: StoredAssociation) => RowKey(a) != RowKey(b);
      var ascending := (a: StoredAssociation, b: StoredAssociation) => a.id < b.id;
      assert forall i, j | 0 <= i < j < |rows| :: distinct(rows[i], rows[j]);
      assert forall i, j | 0 <= i < j < |rows| :: ascending(rows[i], rows[j]);
      FilterPairwise(rows, p, distinct);
      FilterPairwise(rows, p, ascending);
    }
  }

  /** Touching changes no key and no id. */
  lemma TouchKeepsIndex(rows: seq<StoredAssociation>, persona: string, keys: seq<(string, string)>, now: string, nextId: nat)
    requires UniqueRowKeys(rows) && IdsBelow(rows, nextId)
    ensures var r := StoreTouchAll(rows, persona, keys, now);
      UniqueRowKeys(r) && IdsBelow(r, nextId)
  {
    StoreTouchAllSpec(rows, persona, keys, now);
  }

  // ---------------------------------------------------------------------------
  // Messages table
  // ---------------------------------------------------------------------------

  datatype MsgRole = User | Assistant | System

  /** A stored message; `timestamp` is `None` when it does not parse as a date. */
  datatype StoredMessage = StoredMessage(
    id: nat, persona: string, role: MsgRole, content: string, timestamp: Option<int>,
    accessCount: nat, lastAccessed: string)

  datatype MessageQuery = MessageQuery(
    persona: string, offset: nat, limit: nat, startDate: Option<int>, endDate: Option<int>,
    role: Option<MsgRole>, searchTerm: string)

  datatype Page = Page(items: seq<StoredMessage>, total: nat, offset: nat, limit: nat, hasMore: bool)

  /** The query with the defaults of `getMessages`: offset 0, limit 50. */
  function QueryOf(persona: string, offset: Option<nat>, limit: Option<nat>, startDate: Option<int>,
                   endDate: Option<int>, role: Option<MsgRole>, searchTerm: string): MessageQuery
  {
    MessageQuery(persona, offset.GetOr(0), limit.GetOr(50), startDate, endDate, role, searchTerm)
  }

  function OfPersona(persona: string): StoredMessage -> bool
  {
    (m: StoredMessage) => m.persona == persona
  }

  /**
   * The in-memory filters. An unparsable timestamp makes both date comparisons
   * false, so it passes; an empty search term is no filter.
   */
  predicate Passes(q: MessageQuery, m: StoredMessage)
  {
    (q.role.None? || m.role == q.role.value)
    && (q.startDate.None? || m.timestamp.None? || m.timestamp.value >= q.startDate.value)
    && (q.endDate.None? || m.timestamp.None? || m.timestamp.value <= q.endDate.value)
    && (q.searchTerm == [] || Contains(LowerStr(m.content), LowerStr(q.searchTerm)))
  }

  function PassesFor(q: MessageQuery): StoredMessage -> bool
  {
    (m: StoredMessage) => Passes(q, m)
  }

  predicate HasFilters(q: MessageQuery)
  {
    q.startDate.Some? || q.endDate.Some? || q.role.Some? || q.searchTerm != []
  }

  /** The newest-first window `[offset, offset + limit)` of the persona's messages. */
  function Window(messages: seq<StoredMessage>, q: MessageQuery): (r: seq<StoredMessage>)
    ensures |r| <= q.limit
    ensures forall k | 0 <= k < |r| :: r[k] in messages && r[k].persona == q.persona
  {
    NewestFirst(Filter(messages, OfPersona(q.persona)), q.offset, q.limit)
  }

  /**
   * The window holds `limit` messages, or what is left after `offset`, and its
   * k-th message is the persona's (offset+k)-th newest.
   */
  lemma WindowNewest(messages: seq<StoredMessage>, q: MessageQuery)
    ensures NewestWindow(Filter(messages, OfPersona(q.persona)), q.offset, q.limit, Window(messages, q))
  {
  }

  /**
   * `r` is `reverse().offset(a).limit(n)` of `s`: empty when `a` is past the end,
   * otherwise `n` elements or all that are left, the k-th being the (a+k)-th from the end.
   */
  ghost predicate NewestWindow<T>(s: seq<T>, a: nat, n: nat, r: seq<T>)
  {
    && (a >= |s| ==> r == [])
    && (a < |s| ==> |r| == if n <= |s| - a then n else |s| - a)
    && forall k | 0 <= k < |r| :: 0 <= |s| - 1 - (a + k) < |s| && r[k] == s[|s| - 1 - (a + k)]
  }

  /** The window `[a, a + n)` of the reversed list, that is, of `s` read newest first. */
  function NewestFirst<T>(s: seq<T>, a: nat, n: nat): (r: seq<T>)
    ensures NewestWindow(s, a, n, r)
  {
    ReverseElements(s);
    SliceWindow(Reverse(s), a, n);
    Slice(Reverse(s), a, a + n)
  }

  lemma {:induction false} ReverseElements<T>(s: seq<T>)
    ensures forall k | 0 <= k < |s| :: Reverse(s)[k] == s[|s| - 1 - k]
  {
    if s != [] {
      ReverseElements(s[1..]);
    }
  }

  /** `getMessages`: the page of results. */
  function QueryPage(messages: seq<StoredMessage>, q: MessageQuery): (r: Page)
    ensures r.total == |Filter(messages, OfPersona(q.persona))|
    ensures |r.items| <= q.limit && r.offset == q.offset && r.limit == q.limit
    ensures r.hasMore <==> q.offset + |r.items| < r.total
    ensures forall k | 0 <= k < |r.items| :: r.items[k] in messages && r.items[k].persona == q.persona && Passes(q, r.items[k])
    ensures r.items == Filter(Window(messages, q), PassesFor(q))
  {
    var total := |Filter(messages, OfPersona(q.persona))|;
    var window := Window(messages, q);
    assert !HasFilters(q) ==> Filter(window, PassesFor(q)) == window by {
      if !HasFilters(q) { FilterKeepsAll(window, PassesFor(q)); }
    }
    var items := if HasFilters(q) then Filter(window, PassesFor(q)) else window;
    Page(items, total, q.offset, q.limit, q.offset + |items| < total)
  }

  /** Without filters the page holds the newest-first window; no filter keeps a message out then. */
  lemma QueryPageUnfiltered(messages: seq<StoredMessage>, q: MessageQuery)
    requires !HasFilters(q)
    ensures QueryPage(messages, q).items == Window(messages, q)
    ensures forall m :: Passes(q, m)
  {
  }

  /** The access bookkeeping of `getMessages`: every returned message with an id is counted once more. */
  function MarkAccessed(messages: seq<StoredMessage>, ids: set<nat>, now: string): (r: seq<StoredMessage>)
    ensures |r| == |messages|
    ensures forall k | 0 <= k < |messages| ::
      if messages[k].id in ids
      then r[k] == messages[k].(accessCount := messages[k].accessCount + 1, lastAccessed := now)
      else r[k] == messages[k]
  {
    seq(|messages|, k requires 0 <= k < |messages| =>
      if messages[k].id in ids
      then messages[k].(accessCount := messages[k].accessCount + 1, lastAccessed := now)
      else messages[k])
  }

  function IdsOf(items: seq<StoredMessage>): set<nat>
  {
    set k | 0 <= k < |items| && items[k].id != 0 :: items[k].id
  }

  // ---------------------------------------------------------------------------
  // Persona states and settings
  // ---------------------------------------------------------------------------

  datatype PersonaState = PersonaState(lastAccessed: string, messageCount: nat, associationCount: nat)

  /** A partial update of a persona state (the fields callers pass). */
  datatype StateUpdate = StateUpdate(messageCount: Option<nat>, associationCount: Option<nat>)

  /** `upsertPersonaState` on the unique `persona` index: patch the existing row or add one with zero counts. */
  function Upserted(states: map<string, PersonaState>, persona: string, u: StateUpdate, now: string): (r: PersonaState)
    ensures r.lastAccessed == now
    ensures persona !in states ==> r.messageCount == u.messageCount.GetOr(0) && r.associationCount == u.associationCount.GetOr(0)
    ensures persona in states ==>
      r.messageCount == u.messageCount.GetOr(states[persona].messageCount)
      && r.associationCount == u.associationCount.GetOr(states[persona].associationCount)
  {
    var base := if persona in states then states[persona] else PersonaState(now, 0, 0);
    base.(lastAccessed := now,
          messageCount := u.messageCount.GetOr(base.messageCount),
          associationCount := u.associationCount.GetOr(base.associationCount))
  }

  datatype StoredSetting = StoredSetting(value: string, updatedAt: string)

  /** `getSetting`. */
  function SettingValue(settings: map<string, StoredSetting>, key: string): (r: Option<string>)
    ensures r.Some? <==> key in settings
  {
    if key in settings then Some(settings[key].value) else None
  }

  /** Reading back a setting after a write gives the written value and leaves other keys alone. */
  lemma SettingAfterSet(settings: map<string, StoredSetting>, key: string, value: string, now: string, other: string)
    ensures SettingValue(settings[key := StoredSetting(value, now)], key) == Some(value)
    ensures other != key ==> SettingValue(settings[key := StoredSetting(value, now)], other) == SettingValue(settings, other)
  {
  }

  /** After a delete the setting is gone; other keys are unchanged. */
  lemma SettingAfterDelete(settings: map<string, StoredSetting>, key: string, other: string)
    ensures SettingValue(settings - {key}, key) == None
    ensures other != key ==> SettingValue(settings - {key}, other) == SettingValue(settings, other)
  {
  }

  // ---------------------------------------------------------------------------
  // The database
  // ---------------------------------------------------------------------------

  class Database {
    var messages: seq<StoredMessage>
    var associations: seq<StoredAssociation>
    var nextAssociationId: nat
    var personaStates: map<string, PersonaState>
    var settings: map<string, StoredSetting>

    /** The compound index keeps one row per `(persona, left, right)`; ids ascend below the next one. */
    ghost predicate Valid()
      reads this`associations, this`nextAssociationId
    {
      UniqueRowKeys(associations) && IdsBelow(associations, nextAssociationId)
    }

    constructor ()
      ensures messages == [] && associations == [] && nextAssociationId == 1
      ensures personaStates == map[] && settings == map[]
      ensures Valid()
    {
      messages := [];
      associations := [];
      nextAssociationId := 1;
      personaStates := map[];
      settings := map[];
    }

    /** `upsertPersonaState`. */
    method UpsertPersonaState(persona: string, u: StateUpdate, now: string)
      modifies this`personaStates
      ensures personaStates == old(personaStates)[persona := Upserted(old(personaStates), persona, u, now)]
    {
      var state: PersonaState;
      if persona in personaStates {
        var existing := personaStates[persona];
        state := existing.(lastAccessed := now,
                           messageCount := u.messageCount.GetOr(existing.messageCount),
                           associationCount := u.associationCount.GetOr(existing.associationCount));
      } else {
        var blank := PersonaState(now, 0, 0);
        state := blank.(messageCount := u.messageCount.GetOr(0), associationCount := u.associationCount.GetOr(0));
      }
      personaStates := personaStates[persona := state];
    }

    /** `addAssociations`: reinforce-or-insert each pair, prune the persona, then record its row count. */
    method AddAssociations(persona: string, pairs: seq<Facts.Pair>, now: string,
                           salience: StoredAssociation -> int, weak: StoredAssociation -> bool)
      requires Valid()
      modifies this`associations, this`nextAssociationId, this`personaStates
      ensures Valid()
      ensures var added := StoreAddAll(old(associations), old(nextAssociationId), persona, Map(pairs, PreparedKey), now);
        associations == Prune(added.0, persona, salience, weak) && nextAssociationId == added.1
      ensures personaStates == old(personaStates)[persona :=
        Upserted(old(personaStates), persona, StateUpdate(None, Some(|Filter(associations, IsPersona(persona))|)), now)]
    {
      var rows, next := StoreAddLoop(associations, nextAssociationId, persona, pairs, PreparedKey, now);
      StoreAddAllSpec(associations, nextAssociationId, persona, Map(pairs, PreparedKey), now);
      PruneKeepsIndex(rows, persona, salience, weak, next);
      associations := Prune(rows, persona, salience, weak);
      nextAssociationId := next;
      var count := |Filter(associations, IsPersona(persona))|;
      UpsertPersonaState(persona, StateUpdate(None, Some(count)), now);
    }

    /** `touchAssociations`. */
    method TouchAssociations(persona: string, used: seq<Facts.Pair>, now: string)
      requires Valid()
      modifies this`associations
      ensures Valid()
      ensures associations == StoreTouchAll(old(associations), persona, Map(used, TouchKeyOf), now)
      ensures AllTouched(old(associations), associations, persona, Map(used, TouchKeyOf), now)
    {
      var rows := StoreTouchLoop(associations, persona, used, TouchKeyOf, now);
      TouchKeepsIndex(associations, persona, Map(used, TouchKeyOf), now, nextAssociationId);
      StoreTouchAllTallies(associations, persona, Map(used, TouchKeyOf), now);
      associations := rows;
    }

    /** `getMessages`: the page, then the access bookkeeping of the returned messages. */
    method GetMessages(q: MessageQuery, now: string) returns (page: Page)
      modifies this`messages
      ensures page == QueryPage(old(messages), q)
      ensures messages == MarkAccessed(old(messages), IdsOf(page.items), now)
    {
      page := QueryPage(messages, q);
      var ids := IdsOf(page.items);
      if ids != {} {
        messages := MarkAccessed(messages, ids, now);
      }
    }

    /** The persona's rows in the order `getAssociations` returns them, for an abstract salience. */
    function Ranked(persona: string, salience: StoredAssociation -> int): (r: seq<StoredAssociation>)
      reads this
      ensures SortedDesc(r, salience)
      ensures multiset(r) == multiset(Filter(associations, IsPersona(persona)))
    {
      SortDescSpec(Filter(associations, IsPersona(persona)), salience);
      SortDesc(Filter(associations, IsPersona(persona)), salience)
    }

    function RankedPairs(persona: string, salience: StoredAssociation -> int): (r: seq<Facts.Pair>)
      reads this
      ensures |r| == |Ranked(persona, salience)|
    {
      var s := Ranked(persona, salience);
      seq(|s|, k requires 0 <= k < |s| => Facts.Pair(s[k].left, s[k].right))
    }

    /** `buildFactsLine` of the store, with `isValidToken` as the token test. */
    method BuildFactsLine(persona: string, salience: StoredAssociation -> int, charBudget: int) returns (line: Option<string>)
      ensures line == Facts.FactsLine(RankedPairs(persona, salience), IsValidToken, charBudget)
    {
      line := Facts.BuildFactsLine(RankedPairs(persona, salience), IsValidToken, charBudget);
    }

    /**
     * `findAssociationsInText`: the strongest association for each right-hand
     * token of the text, once per `left|right`.
     */
    method FindAssociationsInText(persona: string, salience: StoredAssociation -> int, text: string) returns (used: seq<Facts.Pair>)
      ensures Filter(associations, IsPersona(persona)) == [] || text == [] ==> used == []
      ensures forall i | 0 <= i < |used| :: Facts.FromToken(RankedPairs(persona, salience), text, used[i])
      ensures forall i, j | 0 <= i < j < |used| :: Facts.Key(used[i]) != Facts.Key(used[j])
      ensures forall t | t in Facts.Tokens(text) && Facts.Best(RankedPairs(persona, salience), t).Some? ::
        Facts.KeyCovered(used, Facts.Best(RankedPairs(persona, salience), t).value)
    {
      var ranked := RankedPairs(persona, salience);
      if Filter(associations, IsPersona(persona)) == [] {
        assert ranked == [];
      }
      used := Facts.RightsUsedInText(ranked, text);
    }

    /** `getSetting`. */
    function GetSetting(key: string): (r: Option<string>)
      reads this
      ensures r == SettingValue(settings, key)
    {
      if key in settings then Some(settings[key].value) else None
    }

    /** `setSetting`: a `put` that replaces the row for `key`. */
    method SetSetting(key: string, value: string, now: string)
      modifies this`settings
      ensures settings == old(settings)[key := StoredSetting(value, now)]
    {
      settings := settings[key := StoredSetting(value, now)];
    }

    /** `deleteSetting`. */
    method DeleteSetting(key: string)
      modifies this`settings
      ensures settings == old(settings) - {key}
    {
      settings := settings - {key};
    }
  }

  /** Rows the cache accepts: the store's lower-case tokens also pass the cache's narrower test. */
  lemma StoreTokensPassCacheTest(tok: string)
    requires IsValidToken(tok) && LowerStr(tok) == tok
    ensures |tok| >= 3 && exists i | 0 <= i < |tok| :: IsLowerLetter(tok[i])
  {
    var i :| 0 <= i < |tok| && IsLetter(tok[i]);
    assert LowerStr(tok)[i] == Lower(tok[i]);
  }
}
