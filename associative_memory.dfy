/**
 * The in-memory cache of `src/memory/associativeMemory.ts`: per-persona lists
 * of `left = right` associations that are reinforced, touched, ranked by an
 * abstract salience, turned into a `Facts:` line and matched against text.
 * Persistence, background refresh and the floating-point salience formula are
 * outside the model; salience is an integer-valued key supplied by the caller.
 */
module AssociativeMemory {
  import opened Wrappers
  import opened Text
  import opened Ordering
  import Facts

  datatype Association = Association(
    left: string, right: string, strength: real, exposures: nat,
    createdAt: string, lastUsed: Option<string>, lastReinforcedAt: Option<string>)

  datatype CacheEntry = CacheEntry(associations: seq<Association>, lastSync: int, dirty: bool)

  const MaxStrength: real := 1000000.0

  const StopWords: seq<string> := [
    "the", "this", "that", "there", "here", "and", "but", "with", "then",
    "when", "what", "why", "are", "you", "your", "have", "has", "was",
    "all", "any", "each", "every"]

  /** At least three characters, not a stop word (case-sensitive), and some letter `a`-`z`. */
  predicate IsAssociationToken(tok: string)
  {
    |tok| >= 3 && !Listed(tok, StopWords) && exists i | 0 <= i < |tok| :: IsLowerLetter(tok[i])
  }

  /** The three rejections and the acceptance of `isAssociationToken`. */
  lemma AssociationTokenRules(tok: string)
    ensures |tok| < 3 ==> !IsAssociationToken(tok)
    ensures Listed(tok, StopWords) ==> !IsAssociationToken(tok)
    ensures (forall i | 0 <= i < |tok| :: !IsLowerLetter(tok[i])) ==> !IsAssociationToken(tok)
    ensures |tok| >= 3 && !Listed(tok, StopWords) && IsLowerLetter(tok[0]) ==> IsAssociationToken(tok)
  {
  }

  /** `Math.min(1e6, (strength || 1) + step)`. */
  function Bump(strength: real, step: real): (r: real)
    requires step > 0.0
    ensures r <= MaxStrength
    ensures 0.0 < strength <= MaxStrength ==> 0.0 < r <= MaxStrength
    ensures strength + step <= MaxStrength && strength != 0.0 ==> r == strength + step
  {
    var base := if strength == 0.0 then 1.0 else strength;
    if base + step < MaxStrength then base + step else MaxStrength
  }

  /** An existing association reinforced by `addAssociations`. */
  function Reinforced(a: Association, now: string): Association
  {
    a.(strength := Bump(a.strength, 1.0), exposures := a.exposures + 1,
       lastUsed := Some(now), lastReinforcedAt := Some(now))
  }

  /** An existing association touched by `touchAssociations`. */
  function Touched(a: Association, now: string): Association
  {
    a.(strength := Bump(a.strength, 0.5), exposures := a.exposures + 1,
       lastUsed := Some(now), lastReinforcedAt := Some(now))
  }

  function Fresh(l: string, r: string, now: string): Association
  {
    Association(l, r, 1.0, 1, now, Some(now), Some(now))
  }

  function PairIs(l: string, r: string): Association -> bool
  {
    (a: Association) => a.left == l && a.right == r
  }

  /** The `(left, right)` keys of a list. */
  function PairsOf(s: seq<Association>): set<(string, string)>
  {
    set k | 0 <= k < |s| :: (s[k].left, s[k].right)
  }

  predicate NoDuplicatePairs(s: seq<Association>)
  {
    forall i, j | 0 <= i < j < |s| :: !(s[i].left == s[j].left && s[i].right == s[j].right)
  }

  predicate StrengthsInRange(s: seq<Association>)
  {
    forall k | 0 <= k < |s| :: 0.0 < s[k].strength <= MaxStrength
  }

  /** The key of an input pair after trimming and lower-casing, if both sides are tokens. */
  function Prepared(p: Facts.Pair): Option<(string, string)>
  {
    var l := Normalized(p.left);
    var r := Normalized(p.right);
    if IsAssociationToken(l) && IsAssociationToken(r) then Some((l, r)) else None
  }

  /** The normalised key of an input pair, used by `touchAssociations` without a token check. */
  function TouchKey(p: Facts.Pair): (string, string)
  {
    (Normalized(p.left), Normalized(p.right))
  }

  /** One iteration of the loop of `addAssociations`, on a prepared key. */
  function AddOne(s: seq<Association>, key: Option<(string, string)>, now: string): (r: seq<Association>)
    ensures |s| <= |r| <= |s| + 1
  {
    if key.None? then s
    else
      var (l, rt) := key.value;
      var idx := FirstIndex(s, PairIs(l, rt));
      if idx >= 0 then s[idx := Reinforced(s[idx], now)]
      else s + [Fresh(l, rt, now)]
  }

  /** The whole loop of `addAssociations` over the prepared keys. */
  function AddAll(s: seq<Association>, keys: seq<Option<(string, string)>>, now: string): (r: seq<Association>)
    ensures |s| <= |r| <= |s| + |keys|
  {
    if keys == [] then s
    else AddOne(AddAll(s, keys[..|keys| - 1], now), keys[|keys| - 1], now)
  }

  /** One iteration of the loop of `touchAssociations`. */
  function TouchOne(s: seq<Association>, key: (string, string), now: string): (r: seq<Association>)
    ensures |r| == |s|
  {
    var idx := FirstIndex(s, PairIs(key.0, key.1));
    if idx >= 0 then s[idx := Touched(s[idx], now)] else s
  }

  function TouchAll(s: seq<Association>, keys: seq<(string, string)>, now: string): (r: seq<Association>)
    ensures |r| == |s|
  {
    if keys == [] then s
    else TouchOne(TouchAll(s, keys[..|keys| - 1], now), keys[|keys| - 1], now)
  }

  /** The keys present among the prepared ones. */
  function KeysIn(keys: seq<Option<(string, string)>>): set<(string, string)>
  {
    set k | 0 <= k < |keys| && keys[k].Some? :: keys[k].value
  }

  lemma PairsOfSnoc(s: seq<Association>, a: Association)
    ensures PairsOf(s + [a]) == PairsOf(s) + {(a.left, a.right)}
  {
    var t := s + [a];
    assert (t[|s|].left, t[|s|].right) in PairsOf(t);
    forall x | x in PairsOf(t) ensures x in PairsOf(s) + {(a.left, a.right)} {
      var k :| 0 <= k < |t| && (t[k].left, t[k].right) == x;
      if k < |s| { assert t[k] == s[k]; }
    }
    forall x | x in PairsOf(s) ensures x in PairsOf(t) {
      var k :| 0 <= k < |s| && (s[k].left, s[k].right) == x;
      assert t[k] == s[k];
    }
  }

  /** Replacing an entry by one with the same key keeps the keys. */
  lemma PairsOfUpdate(s: seq<Association>, i: nat, a: Association)
    requires i < |s| && a.left == s[i].left && a.right == s[i].right
    ensures PairsOf(s[i := a]) == PairsOf(s)
  {
    var t := s[i := a];
    forall x | x in PairsOf(t) ensures x in PairsOf(s) {
      var k :| 0 <= k < |t| && (t[k].left, t[k].right) == x;
      assert (s[k].left, s[k].right) == x;
    }
    forall x | x in PairsOf(s) ensures x in PairsOf(t) {
      var k :| 0 <= k < |s| && (s[k].left, s[k].right) == x;
      assert (t[k].left, t[k].right) == x;
    }
  }

  lemma KeysInSnoc(keys: seq<Option<(string, string)>>, key: Option<(string, string)>)
    ensures KeysIn(keys + [key]) == KeysIn(keys) + (if key.Some? then {key.value} else {})
  {
    var t := keys + [key];
    if key.Some? { assert t[|keys|] == key; }
    forall x | x in KeysIn(t) ensures x in KeysIn(keys) + (if key.Some? then {key.value} else {}) {
      var k :| 0 <= k < |t| && t[k].Some? && t[k].value == x;
      if k < |keys| { assert t[k] == keys[k]; }
    }
    forall x | x in KeysIn(keys) ensures x in KeysIn(t) {
      var k :| 0 <= k < |keys| && keys[k].Some? && keys[k].value == x;
      assert t[k] == keys[k];
    }
  }

  /** One step adds the key exactly when there is one. */
  lemma AddOnePairs(s: seq<Association>, key: Option<(string, string)>, now: string)
    ensures PairsOf(AddOne(s, key, now)) == PairsOf(s) + (if key.Some? then {key.value} else {})
  {
    if key.Some? {
      var (l, rt) := key.value;
      var idx := FirstIndex(s, PairIs(l, rt));
      if idx >= 0 {
        assert PairIs(l, rt)(s[idx]);
        PairsOfUpdate(s, idx, Reinforced(s[idx], now));
        assert (s[idx].left, s[idx].right) in PairsOf(s);
      } else {
        PairsOfSnoc(s, Fresh(l, rt, now));
      }
    }
  }

  /**
   * After `addAssociations` the list holds its old keys plus the keys of exactly
   * the accepted input pairs, trimmed and lower-cased.
   */
  lemma {:induction false} AddAllPairs(s: seq<Association>, keys: seq<Option<(string, string)>>, now: string)
    ensures PairsOf(AddAll(s, keys, now)) == PairsOf(s) + KeysIn(keys)
  {
    if keys != [] {
      var init := keys[..|keys| - 1];
      var last := keys[|keys| - 1];
      AddAllPairs(s, init, now);
      AddOnePairs(AddAll(s, init, now), last, now);
      assert keys == init + [last];
      KeysInSnoc(init, last);
    }
  }

  /** A prepared key is the trimmed, lower-cased input, and exists iff both sides are tokens. */
  lemma PreparedSpec(p: Facts.Pair)
    ensures Prepared(p).Some? <==> IsAssociationToken(Normalized(p.left)) && IsAssociationToken(Normalized(p.right))
    ensures Prepared(p).Some? ==> Prepared(p).value == (LowerStr(Trim(p.left)), LowerStr(Trim(p.right)))
  {
  }

  lemma AddOneNoDuplicates(s: seq<Association>, key: Option<(string, string)>, now: string)
    requires NoDuplicatePairs(s)
    ensures NoDuplicatePairs(AddOne(s, key, now))
  {
    if key.Some? {
      var (l, rt) := key.value;
      var idx := FirstIndex(s, PairIs(l, rt));
      if idx < 0 {
        var t := s + [Fresh(l, rt, now)];
        forall i, j | 0 <= i < j < |t| ensures !(t[i].left == t[j].left && t[i].right == t[j].right) {
          if j == |s| {
            assert !PairIs(l, rt)(s[i]);
          } else {
            assert t[i] == s[i] && t[j] == s[j];
          }
        }
      }
    }
  }

  /** `addAssociations` never creates a second entry for a `(left, right)` key. */
  lemma {:induction false} AddAllNoDuplicates(s: seq<Association>, keys: seq<Option<(string, string)>>, now: string)
    requires NoDuplicatePairs(s)
    ensures NoDuplicatePairs(AddAll(s, keys, now))
  {
    if keys != [] {
      AddAllNoDuplicates(s, keys[..|keys| - 1], now);
      AddOneNoDuplicates(AddAll(s, keys[..|keys| - 1], now), keys[|keys| - 1], now);
    }
  }

  /** Strengths stay in `(0, 1e6]` under reinforcement. */
  lemma {:induction false} AddAllStrengths(s: seq<Association>, keys: seq<Option<(string, string)>>, now: string)
    requires StrengthsInRange(s)
    ensures StrengthsInRange(AddAll(s, keys, now))
  {
    if keys != [] {
      AddAllStrengths(s, keys[..|keys| - 1], now);
    }
  }

  /** A match is reinforced in place: strength `+1` (capped), exposures `+1`, timestamps `now`. */
  lemma AddOneReinforces(s: seq<Association>, l: string, rt: string, now: string, i: nat)
    requires i < |s| && s[i].left == l && s[i].right == rt && NoDuplicatePairs(s)
    ensures var r := AddOne(s, Some((l, rt)), now);
      |r| == |s| && r[i].strength == Bump(s[i].strength, 1.0) && r[i].exposures == s[i].exposures + 1
      && r[i].lastUsed == Some(now) && r[i].lastReinforcedAt == Some(now)
      && (forall k | 0 <= k < |s| && k != i :: r[k] == s[k])
  {
    var idx := FirstIndex(s, PairIs(l, rt));
    assert PairIs(l, rt)(s[i]);
    assert idx == i;
  }

  /** A key not yet present is appended with strength 1 and one exposure. */
  lemma AddOneAppends(s: seq<Association>, l: string, rt: string, now: string)
    requires (l, rt) !in PairsOf(s)
    ensures AddOne(s, Some((l, rt)), now) == s + [Fresh(l, rt, now)]
  {
  }

  /** Touching keeps every entry's key at its index: no entry is added or removed. */
  lemma {:induction false} TouchAllKeys(s: seq<Association>, keys: seq<(string, string)>, now: string)
    ensures var r := TouchAll(s, keys, now);
      forall k | 0 <= k < |s| :: r[k].left == s[k].left && r[k].right == s[k].right && r[k].createdAt == s[k].createdAt
  {
    if keys != [] {
      TouchAllKeys(s, keys[..|keys| - 1], now);
    }
  }

  lemma {:induction false} TouchAllStrengths(s: seq<Association>, keys: seq<(string, string)>, now: string)
    requires StrengthsInRange(s)
    ensures StrengthsInRange(TouchAll(s, keys, now))
  {
    if keys != [] {
      TouchAllStrengths(s, keys[..|keys| - 1], now);
    }
  }

  /** Touching re-keys nothing, so it creates no duplicate. */
  lemma TouchAllNoDuplicates(s: seq<Association>, keys: seq<(string, string)>, now: string)
    requires NoDuplicatePairs(s)
    ensures NoDuplicatePairs(TouchAll(s, keys, now))
  {
    TouchAllKeys(s, keys, now);
  }

  /** A touched match gains `0.5` strength (capped) and one exposure; nothing else changes. */
  lemma TouchOneBumps(s: seq<Association>, key: (string, string), now: string, i: nat)
    requires i < |s| && (s[i].left, s[i].right) == key && NoDuplicatePairs(s)
    ensures var r := TouchOne(s, key, now);
      r[i].strength == Bump(s[i].strength, 0.5) && r[i].exposures == s[i].exposures + 1
      && (forall k | 0 <= k < |s| && k != i :: r[k] == s[k])
  {
    var idx := FirstIndex(s, PairIs(key.0, key.1));
    assert PairIs(key.0, key.1)(s[i]);
    assert idx == i;
  }

  /** The pair projection the facts line and the text lookup work on. */
  function PairsSeq(s: seq<Association>): (r: seq<Facts.Pair>)
    ensures |r| == |s| && forall k | 0 <= k < |s| :: r[k] == Facts.Pair(s[k].left, s[k].right)
  {
    seq(|s|, k requires 0 <= k < |s| => Facts.Pair(s[k].left, s[k].right))
  }

  function RightIs(key: string): Association -> bool
  {
    (a: Association) => a.right == key
  }

  /** The left of the first association whose right is `key`: the map `translateRightSequence` builds. */
  function LeftFor(ranked: seq<Association>, key: string): (r: Option<string>)
    ensures r.None? <==> forall k | 0 <= k < |ranked| :: ranked[k].right != key
    ensures r.Some? ==> exists i | 0 <= i < |ranked| ::
      ranked[i].right == key && r.value == ranked[i].left && forall k | 0 <= k < i :: ranked[k].right != key
  {
    var idx := FirstIndex(ranked, RightIs(key));
    if idx >= 0 then Some(ranked[idx].left)
    else
      assert forall k | 0 <= k < |ranked| :: !RightIs(key)(ranked[k]);
      None
  }

  /** What `translateRightSequence` maps one token to (`map.get(r.toLowerCase()) || r`). */
  function Translate(ranked: seq<Association>, x: string): string
  {
    var l := LeftFor(ranked, LowerStr(x));
    if l.Some? && l.value != [] then l.value else x
  }

  /** A token whose lower-cased form is no right comes back unchanged. */
  lemma TranslateUnknown(ranked: seq<Association>, x: string)
    requires forall k | 0 <= k < |ranked| :: ranked[k].right != LowerStr(x)
    ensures Translate(ranked, x) == x
  {
  }

  /** A known right maps to the (non-empty) left of the first association carrying it. */
  lemma TranslateKnown(ranked: seq<Association>, x: string, i: nat)
    requires i < |ranked| && ranked[i].right == LowerStr(x) && ranked[i].left != []
    requires forall k | 0 <= k < i :: ranked[k].right != LowerStr(x)
    ensures Translate(ranked, x) == ranked[i].left
  {
    var j :| 0 <= j < |ranked| && ranked[j].right == LowerStr(x) && LeftFor(ranked, LowerStr(x)).value == ranked[j].left
      && forall k | 0 <= k < j :: ranked[k].right != LowerStr(x);
    assert j == i;
  }

  /** The map of `translateRightSequence`: each right goes to the left of its first association. */
  method FirstLefts(ranked: seq<Association>) returns (m: map<string, string>)
    ensures forall key :: key in m <==> LeftFor(ranked, key).Some?
    ensures forall key | key in m :: m[key] == LeftFor(ranked, key).value
  {
    m := map[];
    ghost var at: map<string, int> := map[];
    var i := 0;
    while i < |ranked|
      invariant 0 <= i <= |ranked|
      invariant m.Keys == at.Keys
      invariant forall j | 0 <= j < i :: ranked[j].right in m
      invariant forall key | key in m ::
        0 <= at[key] < i && ranked[at[key]].right == key && m[key] == ranked[at[key]].left &&
        forall j | 0 <= j < at[key] :: ranked[j].right != key
    {
      var a := ranked[i];
      if a.right !in m {
        m := m[a.right := a.left];
        at := at[a.right := i];
      }
      i := i + 1;
    }
    forall key | key in m ensures LeftFor(ranked, key) == Some(m[key]) {
      var idx := FirstIndex(ranked, RightIs(key));
      assert RightIs(key)(ranked[at[key]]);
      assert idx == at[key];
    }
  }

  /**
   * The loop of `addAssociations` over the cached list; `prepare` is the
   * normalisation and token check applied to each input pair.
   */
  method AddLoop(assocs: seq<Association>, pairs: seq<Facts.Pair>, prepare: Facts.Pair -> Option<(string, string)>, now: string)
    returns (r: seq<Association>)
    ensures r == AddAll(assocs, Map(pairs, prepare), now)
  {
    ghost var keys := Map(pairs, prepare);
    r := assocs;
    var i := 0;
    while i < |pairs|
      invariant 0 <= i <= |pairs|
      invariant r == AddAll(assocs, keys[..i], now)
    {
      assert keys[..i + 1][..i] == keys[..i];
      var key := prepare(pairs[i]);
      if key.Some? {
        var (l, rt) := key.value;
        var idx := FirstIndex(r, PairIs(l, rt));
        if idx >= 0 {
          r := r[idx := Reinforced(r[idx], now)];
        } else {
          r := r + [Fresh(l, rt, now)];
        }
      }
      i := i + 1;
    }
    assert keys[..i] == keys;
  }

  /** The loop of `touchAssociations`; `key` is the normalisation applied to each input pair. */
  method TouchLoop(assocs: seq<Association>, used: seq<Facts.Pair>, key: Facts.Pair -> (string, string), now: string)
    returns (r: seq<Association>)
    ensures r == TouchAll(assocs, Map(used, key), now)
  {
    ghost var keys := Map(used, key);
    r := assocs;
    var i := 0;
    while i < |used|
      invariant 0 <= i <= |used|
      invariant r == TouchAll(assocs, keys[..i], now)
    {
      assert keys[..i + 1][..i] == keys[..i];
      var (l, rt) := key(used[i]);
      var idx := FirstIndex(r, PairIs(l, rt));
      if idx >= 0 {
        r := r[idx := Touched(r[idx], now)];
      }
      i := i + 1;
    }
    assert keys[..i] == keys;
  }

  /** No cached list holds two entries for one `(left, right)` key. */
  predicate EntriesDistinct(m: map<string, CacheEntry>)
  {
    forall p | p in m :: NoDuplicatePairs(m[p].associations)
  }

  /** Replacing one entry by a duplicate-free one keeps every list duplicate-free. */
  lemma UpdateKeepsDistinct(m: map<string, CacheEntry>, persona: string, e: CacheEntry)
    requires EntriesDistinct(m) && NoDuplicatePairs(e.associations)
    ensures EntriesDistinct(m[persona := e])
  {
  }

  class Cache {
    var cache: map<string, CacheEntry>

    ghost predicate Valid()
      reads this
    {
      EntriesDistinct(cache)
    }

    constructor ()
      ensures cache == map[]
      ensures Valid()
    {
      cache := map[];
    }

    /** The associations cached for `persona`, or none. */
    function Cached(persona: string): seq<Association>
      reads this
    {
      if persona in cache then cache[persona].associations else []
    }

    /** The successful branch of `refreshCache`: the store's list replaces the entry, clean. */
    method Sync(persona: string, stored: seq<Association>, now: int)
      requires Valid() && NoDuplicatePairs(stored)
      modifies this
      ensures Valid()
      ensures cache == old(cache)[persona := CacheEntry(stored, now, false)]
    {
      cache := cache[persona := CacheEntry(stored, now, false)];
    }

    /** The cache side of `addAssociations`. */
    method AddAssociations(persona: string, pairs: seq<Facts.Pair>, now: string)
      requires Valid()
      modifies this
      ensures Valid()
      ensures pairs == [] || persona !in old(cache) ==> cache == old(cache)
      ensures pairs != [] && persona in old(cache) ==>
        cache == old(cache)[persona := old(cache)[persona].(associations := AddAll(old(cache)[persona].associations, Map(pairs, Prepared), now), dirty := true)]
    {
      if |pairs| == 0 || persona !in cache {
        return;
      }
      var entry := cache[persona];
      var assocs := AddLoop(entry.associations, pairs, Prepared, now);
      AddAllNoDuplicates(entry.associations, Map(pairs, Prepared), now);
      UpdateKeepsDistinct(cache, persona, entry.(associations := assocs, dirty := true));
      cache := cache[persona := entry.(associations := assocs, dirty := true)];
    }

    /** The cache side of `touchAssociations`. */
    method TouchAssociations(persona: string, used: seq<Facts.Pair>, now: string)
      requires Valid()
      modifies this
      ensures Valid()
      ensures used == [] || persona !in old(cache) ==> cache == old(cache)
      ensures used != [] && persona in old(cache) ==>
        cache == old(cache)[persona := old(cache)[persona].(associations := TouchAll(old(cache)[persona].associations, Map(used, TouchKey), now), dirty := true)]
    {
      if |used| == 0 || persona !in cache {
        return;
      }
      var entry := cache[persona];
      var assocs := TouchLoop(entry.associations, used, TouchKey, now);
      TouchAllNoDuplicates(entry.associations, Map(used, TouchKey), now);
      UpdateKeepsDistinct(cache, persona, entry.(associations := assocs, dirty := true));
      cache := cache[persona := entry.(associations := assocs, dirty := true)];
    }

    /** `getAssociations`: a salience-descending, stable copy of the cached list. */
    function Ranked(persona: string, salience: Association -> int): (r: seq<Association>)
      reads this
      ensures SortedDesc(r, salience)
      ensures multiset(r) == multiset(Cached(persona))
    {
      SortDescSpec(Cached(persona), salience);
      SortDesc(Cached(persona), salience)
    }

    /** `translateRightSequence`: a first-come map from right to left, then a lookup per token. */
    method TranslateRightSequence(persona: string, salience: Association -> int, rights: seq<string>) returns (out: seq<string>)
      ensures |out| == |rights|
      ensures forall k | 0 <= k < |rights| :: out[k] == Translate(Ranked(persona, salience), rights[k])
    {
      var ranked := Ranked(persona, salience);
      var m := FirstLefts(ranked);
      out := seq(|rights|, k requires 0 <= k < |rights| =>
        var key := LowerStr(rights[k]);
        if key in m && m[key] != [] then m[key] else rights[k]);
    }

    /** `buildFactsLine` over the ranked cache with `isAssociationToken` as the token test. */
    method BuildFactsLine(persona: string, salience: Association -> int, charBudget: int) returns (line: Option<string>)
      ensures line == Facts.FactsLine(PairsSeq(Ranked(persona, salience)), IsAssociationToken, charBudget)
    {
      line := Facts.BuildFactsLine(PairsSeq(Ranked(persona, salience)), IsAssociationToken, charBudget);
    }

    /** `getRightsUsedInText` over the ranked cache. */
    method GetRightsUsedInText(persona: string, salience: Association -> int, text: string) returns (used: seq<Facts.Pair>)
      ensures Cached(persona) == [] || text == [] ==> used == []
      ensures forall i | 0 <= i < |used| :: Facts.FromToken(PairsSeq(Ranked(persona, salience)), text, used[i])
      ensures forall i, j | 0 <= i < j < |used| :: Facts.Key(used[i]) != Facts.Key(used[j])
      ensures forall t | t in Facts.Tokens(text) && Facts.Best(PairsSeq(Ranked(persona, salience)), t).Some? ::
        Facts.KeyCovered(used, Facts.Best(PairsSeq(Ranked(persona, salience)), t).value)
    {
      var ranked := Ranked(persona, salience);
      if Cached(persona) == [] {
        assert PairsSeq(ranked) == [];
      }
      used := Facts.RightsUsedInText(PairsSeq(ranked), text);
    }

    /** `clearPersonaAssociations`: only that persona's entry goes. */
    method ClearPersona(persona: string)
      requires Valid()
      modifies this
      ensures Valid()
      ensures cache == old(cache) - {persona}
    {
      cache := cache - {persona};
    }

    /** `clearAllAssociations`. */
    method ClearAll()
      modifies this
      ensures Valid()
      ensures cache == map[]
    {
      cache := map[];
    }
  }

  /** The cleared persona is gone and every other entry is unchanged. */
  lemma ClearPersonaOthers(m: map<string, CacheEntry>, persona: string, other: string)
    requires other != persona
    ensures persona !in m - {persona}
    ensures other in m <==> other in m - {persona}
    ensures other in m ==> (m - {persona})[other] == m[other]
  {
  }
}
