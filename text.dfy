/**
 * String primitives shared by the client (JavaScript semantics) and the
 * backend (Python semantics): ASCII case folding, whitespace trimming,
 * substring search, JavaScript `slice`, and the `\b...\b` word match of the
 * regular expressions the application uses.
 */
module Text {

  /** The whitespace recognised by `String.prototype.trim`, `\s` and Python's `str.strip`. */
  predicate IsSpace(c: char)
  {
    c == ' ' || c == '\t' || c == '\n' || c == '\r' || c == '\U{B}' || c == '\U{C}'
    || c == '\U{A0}' || c == '\U{FEFF}' || c == '\U{2028}' || c == '\U{2029}'
  }

  predicate NotSpace(c: char) { !IsSpace(c) }

  /** `\w` of a JavaScript regular expression. */
  predicate IsWordChar(c: char)
  {
    ('a' <= c <= 'z') || ('A' <= c <= 'Z') || ('0' <= c <= '9') || c == '_'
  }

  predicate IsLowerLetter(c: char) { 'a' <= c <= 'z' }

  predicate IsLetter(c: char) { ('a' <= c <= 'z') || ('A' <= c <= 'Z') }

  function Lower(c: char): (r: char)
    ensures IsLetter(c) ==> IsLowerLetter(r)
    ensures !('A' <= c <= 'Z') ==> r == c
    ensures IsWordChar(r) == IsWordChar(c) && IsSpace(r) == IsSpace(c)
  {
    if 'A' <= c <= 'Z' then (c as int + 32) as char else c
  }

  /** `toLowerCase()` restricted to ASCII letters. */
  function LowerStr(s: string): (r: string)
    ensures |r| == |s|
    ensures forall i | 0 <= i < |s| :: r[i] == Lower(s[i])
  {
    seq(|s|, i requires 0 <= i < |s| => Lower(s[i]))
  }

  lemma LowerStrIdempotent(s: string)
    ensures LowerStr(LowerStr(s)) == LowerStr(s)
  {
  }

  lemma LowerStrConcat(a: string, b: string)
    ensures LowerStr(a + b) == LowerStr(a) + LowerStr(b)
  {
  }

  predicate AllSpace(s: string) { forall i | 0 <= i < |s| :: IsSpace(s[i]) }

  /** The length of the leading whitespace run of `s`. */
  function LeadingSpaces(s: string): (n: nat)
    ensures n <= |s| && AllSpace(s[..n])
    ensures n < |s| ==> !IsSpace(s[n])
  {
    if |s| > 0 && IsSpace(s[0]) then
      var n := 1 + LeadingSpaces(s[1..]);
      assert s[..n] == [s[0]] + s[1..][..n - 1];
      n
    else 0
  }

  /** The length of the trailing whitespace run of `s`. */
  function TrailingSpaces(s: string): (n: nat)
    ensures n <= |s| && AllSpace(s[|s| - n..])
    ensures n < |s| ==> !IsSpace(s[|s| - n - 1])
  {
    if |s| > 0 && IsSpace(s[|s| - 1]) then
      var n := 1 + TrailingSpaces(s[..|s| - 1]);
      assert s[|s| - n..] == s[..|s| - 1][|s| - n..] + [s[|s| - 1]];
      n
    else 0
  }

  /** `trimStart()`. */
  function TrimStart(s: string): string
  {
    s[LeadingSpaces(s)..]
  }

  /** The leading whitespace of `s + t`: that of `s`, or all of `s` and then that of `t`. */
  lemma {:induction false} LeadingSpacesConcat(s: string, t: string)
    ensures LeadingSpaces(s + t) == if LeadingSpaces(s) < |s| then LeadingSpaces(s) else |s| + LeadingSpaces(t)
  {
    if s == [] {
      assert s + t == t;
    } else {
      assert (s + t)[0] == s[0];
      if IsSpace(s[0]) {
        LeadingSpacesConcat(s[1..], t);
        assert (s + t)[1..] == s[1..] + t;
      }
    }
  }

  lemma {:induction false} LeadingSpacesAll(s: string)
    requires AllSpace(s)
    ensures LeadingSpaces(s) == |s|
  {
    if s != [] {
      LeadingSpacesAll(s[1..]);
    }
  }

  /** With a non-space last character only the front is trimmed. */
  lemma TrimNoTrailing(x: string)
    requires x != [] && !IsSpace(x[|x| - 1])
    ensures Trim(x) == TrimStart(x)
  {
    var lo := LeadingSpaces(x);
    var y := x[lo..];
    assert y[|y| - 1] == x[|x| - 1];
    assert TrailingSpaces(y) == 0;
  }

  /** Trimming `s + t` where `t` ends in a non-space character and starts with whitespace followed by one. */
  lemma TrimBeforeTag(s: string, gap: string, tag: string)
    requires AllSpace(gap) && tag != [] && !IsSpace(tag[0]) && !IsSpace(tag[|tag| - 1])
    ensures Trim(s + gap + tag) == if TrimStart(s) == [] then tag else TrimStart(s) + gap + tag
  {
    var x := s + gap + tag;
    assert x == s + (gap + tag);
    assert x[|x| - 1] == tag[|tag| - 1];
    TrimNoTrailing(x);
    LeadingSpacesAll(gap);
    LeadingSpacesConcat(gap, tag);
    LeadingSpacesConcat(s, gap + tag);
    var n := LeadingSpaces(s);
    if n < |s| {
      assert x[n..] == s[n..] + gap + tag;
    } else {
      assert LeadingSpaces(x) == |s| + |gap|;
      assert x[|s| + |gap|..] == tag;
    }
  }

  /** Where `Trim(s)` starts and ends inside `s`. */
  function TrimLo(s: string): nat
    ensures TrimLo(s) <= |s|
  {
    LeadingSpaces(s)
  }

  function TrimHi(s: string): (b: nat)
    ensures TrimLo(s) <= b <= |s|
  {
    |s| - TrailingSpaces(s[LeadingSpaces(s)..])
  }

  /** `trim()` / Python `strip()`: `s` without its leading and trailing whitespace. */
  function Trim(s: string): (r: string)
    ensures |r| <= |s|
  {
    s[TrimLo(s)..TrimHi(s)]
  }

  /** Only whitespace is removed, from both ends. */
  lemma TrimMargins(s: string)
    ensures AllSpace(s[..TrimLo(s)]) && AllSpace(s[TrimHi(s)..])
  {
    var a := LeadingSpaces(s);
    var t := s[a..];
    assert s[TrimHi(s)..] == t[|t| - TrailingSpaces(t)..];
  }

  lemma TrimBounds(s: string)
    ensures Trim(s) == [] || (!IsSpace(Trim(s)[0]) && !IsSpace(Trim(s)[|Trim(s)| - 1]))
  {
    if Trim(s) != [] {
      TrimFirst(s);
      TrimLast(s);
    }
  }

  lemma TrimFirst(s: string)
    requires Trim(s) != []
    ensures !IsSpace(Trim(s)[0])
  {
    var a := LeadingSpaces(s);
    assert a < |s|;
    assert Trim(s)[0] == s[a];
  }

  lemma TrimLast(s: string)
    requires Trim(s) != []
    ensures !IsSpace(Trim(s)[|Trim(s)| - 1])
  {
    var a := LeadingSpaces(s);
    var t := s[a..];
    var n := TrailingSpaces(t);
    var hi := TrimHi(s);
    assert hi == a + |t| - n;
    assert Trim(s)[|Trim(s)| - 1] == s[hi - 1];
    assert s[hi - 1] == t[|t| - n - 1];
  }

  lemma TrimAllSpace(s: string)
    requires AllSpace(s)
    ensures Trim(s) == []
  {
  }

  lemma TrimOfTrimmed(s: string)
    requires s == [] || (!IsSpace(s[0]) && !IsSpace(s[|s| - 1]))
    ensures Trim(s) == s
  {
  }

  lemma TrimIdempotent(s: string)
    ensures Trim(Trim(s)) == Trim(s)
  {
    TrimBounds(s);
    TrimOfTrimmed(Trim(s));
  }

  lemma ContainsTrim(s: string)
    ensures OccursAt(s, Trim(s), TrimLo(s)) && Contains(s, Trim(s))
  {
    var lo := TrimLo(s);
    assert 0 <= lo <= |s| - |Trim(s)| && OccursAt(s, Trim(s), lo);
  }

  /** A slice of a prefix is the same slice of the whole. */
  lemma SliceOfPrefix(s: string, n: int, a: int, b: int)
    requires 0 <= a <= b <= n <= |s|
    ensures s[..n][a..b] == s[a..b]
  {
  }

  predicate StartsWith(s: string, p: string)
  {
    |p| <= |s| && s[..|p|] == p
  }

  predicate EndsWith(s: string, p: string)
  {
    |p| <= |s| && s[|s| - |p|..] == p
  }

  /** `t` occurs in `s` at position `i`. */
  predicate OccursAt(s: string, t: string, i: int)
  {
    0 <= i && i + |t| <= |s| && s[i..i + |t|] == t
  }

  /** `includes` / Python `in`. */
  predicate Contains(s: string, t: string)
  {
    exists i :: 0 <= i <= |s| - |t| && OccursAt(s, t, i)
  }

  lemma ContainsTrans(s: string, t: string, u: string)
    requires Contains(s, t) && Contains(t, u)
    ensures Contains(s, u)
  {
    var i :| 0 <= i <= |s| - |t| && OccursAt(s, t, i);
    var j :| 0 <= j <= |t| - |u| && OccursAt(t, u, j);
    forall k | 0 <= k < |u| ensures u[k] == s[i + j..i + j + |u|][k] {
      assert u[k] == t[j + k];
    }
    assert u == s[i + j..i + j + |u|];
    assert OccursAt(s, u, i + j);
  }

  /** A string found inside `s` contains nothing that `s` lacks. */
  lemma InfixLacks(s: string, c: string, m: string)
    requires Contains(s, c) && !Contains(s, m)
    ensures !Contains(c, m)
  {
    var i :| 0 <= i <= |s| - |c| && OccursAt(s, c, i);
    NotContainsInfix(s, m, i, i + |c|);
  }

  /** A part of a string without an occurrence of `t` has none either. */
  lemma NotContainsInfix(s: string, t: string, a: int, b: int)
    requires 0 <= a <= b <= |s| && !Contains(s, t)
    ensures !Contains(s[a..b], t)
  {
    if Contains(s[a..b], t) {
      var i :| 0 <= i <= b - a - |t| && OccursAt(s[a..b], t, i);
      forall k | 0 <= k < |t| ensures t[k] == s[a + i..a + i + |t|][k] {
        assert t[k] == s[a..b][i + k];
      }
      assert t == s[a + i..a + i + |t|];
      assert OccursAt(s, t, a + i);
    }
  }

  /** A string unchanged by lower-casing holds no word starting with an upper-case letter. */
  lemma NoUpperNoOccurrence(s: string, t: string)
    requires LowerStr(s) == s && |t| > 0 && 'A' <= t[0] <= 'Z'
    ensures !Contains(s, t)
  {
    forall i | 0 <= i <= |s| - |t| ensures !OccursAt(s, t, i) {
      assert s[i] == LowerStr(s)[i] == Lower(s[i]);
      assert s[i..i + |t|][0] == s[i];
    }
  }

  /** `s.indexOf(t, from)`: the first occurrence at or after `from` (clamped to [0, |s|]), or -1. */
  function IndexOf(s: string, t: string, from: int): (r: int)
    ensures r == -1 || (OccursAt(s, t, r) && r >= from)
    ensures r == -1 ==> forall i :: from <= i ==> !OccursAt(s, t, i)
    ensures r >= 0 ==> forall i :: from <= i < r ==> !OccursAt(s, t, i)
    decreases |s| - from
  {
    if from < 0 then IndexOf(s, t, 0)
    else if from + |t| > |s| then -1
    else if s[from..from + |t|] == t then from
    else IndexOf(s, t, from + 1)
  }

  lemma IndexOfFound(s: string, t: string, from: int)
    requires exists i :: from <= i && OccursAt(s, t, i)
    ensures IndexOf(s, t, from) >= 0
  {
  }

  /** Python `s.split(sep)[0]`: the text before the first occurrence of `sep`, or all of `s`. */
  function SplitHead(s: string, sep: string): (r: string)
    requires sep != []
    ensures |r| <= |s| && r == s[..|r|]
  {
    var k := IndexOf(s, sep, 0);
    if k < 0 then s else s[..k]
  }

  /** The head holds no separator, and it ends where the first separator starts. */
  lemma SplitHeadSpec(s: string, sep: string)
    requires sep != []
    ensures !Contains(SplitHead(s, sep), sep)
    ensures Contains(s, sep) ==> OccursAt(s, sep, |SplitHead(s, sep)|)
    ensures !Contains(s, sep) ==> SplitHead(s, sep) == s
  {
    var r := SplitHead(s, sep);
    var k := IndexOf(s, sep, 0);
    forall i | 0 <= i <= |r| - |sep| ensures !OccursAt(r, sep, i) {
      SliceOfPrefix(s, |r|, i, i + |sep|);
      assert r[i..i + |sep|] == s[i..i + |sep|];
      assert !OccursAt(s, sep, i);
    }
  }

  /** `\bw\b` at position `i`, for a word `w` that starts and ends with word characters. */
  predicate WordAt(s: string, w: string, i: int)
  {
    OccursAt(s, w, i)
    && (i == 0 || !IsWordChar(s[i - 1]))
    && (i + |w| == |s| || !IsWordChar(s[i + |w|]))
  }

  predicate HasWord(s: string, w: string)
  {
    exists i :: 0 <= i <= |s| - |w| && WordAt(s, w, i)
  }

  /** `/\b(w1|w2|...)\b/` matched against `s` by `test`. */
  predicate HasAnyWord(s: string, words: seq<string>)
  {
    exists k :: 0 <= k < |words| && HasWord(s, words[k])
  }

  /** Any member of `words` is a prefix of `s` (`/^(w1|w2|...)/`). */
  predicate StartsWithAny(s: string, words: seq<string>)
  {
    exists k :: 0 <= k < |words| && StartsWith(s, words[k])
  }

  /** `/^(w1|w2|...)\b/`. */
  predicate StartsWithAnyWord(s: string, words: seq<string>)
  {
    exists k :: 0 <= k < |words| && WordAt(s, words[k], 0)
  }

  /** JavaScript's relative index normalisation used by `slice`. */
  function SliceIndex(len: nat, k: int): (r: nat)
    ensures r <= len
  {
    if k < 0 then (if len + k < 0 then 0 else len + k) else if k > len then len else k
  }

  /** `s.slice(a, b)` with JavaScript's handling of negative and out-of-range bounds. */
  function Slice<T>(s: seq<T>, a: int, b: int): (r: seq<T>)
    ensures |r| <= |s|
  {
    var i := SliceIndex(|s|, a);
    var j := SliceIndex(|s|, b);
    if i < j then s[i..j] else []
  }

  /** `slice` always cuts out one contiguous range. */
  lemma SliceRange<T>(s: seq<T>, a: int, b: int)
    ensures var i := SliceIndex(|s|, a);
      Slice(s, a, b) == s[i..if SliceIndex(|s|, b) < i then i else SliceIndex(|s|, b)]
  {
  }

  /** `s.slice(a, a + n)` for a non-negative start and count. */
  lemma SliceWindow<T>(s: seq<T>, a: int, n: int)
    requires 0 <= a && 0 <= n
    ensures a <= |s| ==> Slice(s, a, a + n) == s[a..if a + n <= |s| then a + n else |s|]
    ensures |Slice(s, a, a + n)| == if a >= |s| then 0 else if n <= |s| - a then n else |s| - a
  {
  }

  function Join(parts: seq<string>, sep: string): (r: string)
    ensures parts == [] ==> r == []
    ensures |parts| == 1 ==> r == parts[0]
  {
    if parts == [] then []
    else if |parts| == 1 then parts[0]
    else parts[0] + sep + Join(parts[1..], sep)
  }

  /** The length of a joined list: the parts plus one separator between each neighbour pair. */
  lemma {:induction false} JoinLength(parts: seq<string>, sep: string)
    requires parts != []
    ensures |Join(parts, sep)| == SumLengths(parts) + (|parts| - 1) * |sep|
  {
    if |parts| > 1 {
      JoinLength(parts[1..], sep);
    }
  }

  lemma {:induction false} JoinSnoc(parts: seq<string>, sep: string, x: string)
    ensures Join(parts + [x], sep) == if parts == [] then x else Join(parts, sep) + sep + x
  {
    if |parts| > 1 {
      assert (parts + [x])[1..] == parts[1..] + [x];
      JoinSnoc(parts[1..], sep, x);
    } else if |parts| == 1 {
      assert (parts + [x])[1..] == [x];
    }
  }

  /** The concatenation of `parts`, in order. */
  function Concat(parts: seq<string>): string
  {
    if parts == [] then [] else Concat(parts[..|parts| - 1]) + parts[|parts| - 1]
  }

  lemma ConcatSnoc(parts: seq<string>, x: string)
    ensures Concat(parts + [x]) == Concat(parts) + x
  {
    assert (parts + [x])[..|parts|] == parts;
  }

  /** Concatenation distributes over appending lists. */
  lemma {:induction false} ConcatAppend(a: seq<string>, b: seq<string>)
    ensures Concat(a + b) == Concat(a) + Concat(b)
    decreases |b|
  {
    if b == [] {
      assert a + b == a;
    } else {
      var b' := b[..|b| - 1];
      assert (a + b)[..|a + b| - 1] == a + b';
      ConcatAppend(a, b');
    }
  }

  function SumLengths(parts: seq<string>): nat
  {
    if parts == [] then 0 else |parts[0]| + SumLengths(parts[1..])
  }

  function Repeat(c: char, n: nat): (r: string)
    ensures |r| == n && forall i | 0 <= i < n :: r[i] == c
  {
    seq(n, _ => c)
  }

  /** `s.replace(/\s+/g, ' ')`: every maximal whitespace run becomes one space. */
  function CollapseSpaces(s: string): (r: string)
    ensures |r| <= |s|
    ensures forall i | 0 <= i < |r| :: IsSpace(r[i]) ==> r[i] == ' '
    decreases |s|
  {
    if s == [] then []
    else if IsSpace(s[0]) then
      " " + CollapseSpaces(TrimStart(s))
    else [s[0]] + CollapseSpaces(s[1..])
  }

  /** The number of maximal whitespace runs in `s`. */
  function SpaceRuns(s: string): nat
    decreases |s|
  {
    if s == [] then 0
    else if IsSpace(s[0]) then
      1 + SpaceRuns(TrimStart(s))
    else SpaceRuns(s[1..])
  }

  /** `s.split(/\s+/).length`: one more piece than there are whitespace runs. */
  function JsSplitCount(s: string): (r: nat)
    ensures r >= 1
  {
    1 + SpaceRuns(s)
  }

  /** Python `len(s.split())`: the number of maximal non-whitespace runs. */
  function WordCount(s: string): nat
    decreases |s|
  {
    if s == [] then 0
    else if IsSpace(s[0]) then WordCount(s[1..])
    else 1 + WordCount(DropWord(s))
  }

  /** `s` without its leading run of non-whitespace characters. */
  function DropWord(s: string): (r: string)
    ensures |r| <= |s| && r == s[|s| - |r|..]
    ensures r == [] || IsSpace(r[0])
    ensures s != [] && !IsSpace(s[0]) ==> |r| < |s|
    decreases |s|
  {
    if |s| > 0 && !IsSpace(s[0]) then DropWord(s[1..]) else s
  }

  /** Splitting on whitespace never yields more words than there are non-space characters. */
  lemma {:induction false} WordCountBound(s: string)
    ensures WordCount(s) <= |s|
    decreases |s|
  {
    if s == [] {
    } else if IsSpace(s[0]) {
      WordCountBound(s[1..]);
    } else {
      WordCountBound(DropWord(s));
    }
  }

  lemma {:induction false} WordCountAllSpace(s: string)
    requires AllSpace(s)
    ensures WordCount(s) == 0
    decreases |s|
  {
    if s != [] {
      WordCountAllSpace(s[1..]);
    }
  }

  /** `reverse()` of a list. */
  function Reverse<T>(s: seq<T>): (r: seq<T>)
    ensures |r| == |s|
  {
    if s == [] then [] else Reverse(s[1..]) + [s[0]]
  }

  lemma {:induction false} ReverseSnoc<T>(s: seq<T>, x: T)
    ensures Reverse(s + [x]) == [x] + Reverse(s)
  {
    if s != [] {
      assert (s + [x])[1..] == s[1..] + [x];
      ReverseSnoc(s[1..], x);
    } else {
      assert [x][1..] == [];
    }
  }

  /** Reversing twice gives the list back. */
  lemma {:induction false} ReverseReverse<T>(s: seq<T>)
    ensures Reverse(Reverse(s)) == s
  {
    if s != [] {
      ReverseSnoc(Reverse(s[1..]), s[0]);
      ReverseReverse(s[1..]);
    }
  }

  /** `a` is a suffix of `b`. */
  predicate IsSuffix<T(==)>(a: seq<T>, b: seq<T>)
  {
    |a| <= |b| && b[|b| - |a|..] == a
  }

  /** The newest `n` elements of `s`: `s.slice(-n)`, or all of `s` when it is no longer. */
  function KeepLast<T(==)>(s: seq<T>, n: nat): (r: seq<T>)
    ensures |r| == if |s| <= n then |s| else n
    ensures IsSuffix(r, s)
  {
    if |s| > n then s[|s| - n..] else s
  }

  /** Appending and then keeping `n`: the new element last, after the newest `n - 1` old ones. */
  lemma KeepLastSnoc<T>(s: seq<T>, x: T, n: nat)
    requires n > 0
    ensures KeepLast(s + [x], n) == KeepLast(s, n - 1) + [x]
  {
    if |s| + 1 > n {
      assert (s + [x])[|s| + 1 - n..] == s[|s| + 1 - n..] + [x];
    }
  }

  lemma {:induction false} LeadingSpacesLower(s: string)
    ensures LeadingSpaces(LowerStr(s)) == LeadingSpaces(s)
  {
    if |s| > 0 {
      assert LowerStr(s)[1..] == LowerStr(s[1..]);
      LeadingSpacesLower(s[1..]);
    }
  }

  lemma {:induction false} TrailingSpacesLower(s: string)
    ensures TrailingSpaces(LowerStr(s)) == TrailingSpaces(s)
  {
    if |s| > 0 {
      assert LowerStr(s)[..|s| - 1] == LowerStr(s[..|s| - 1]);
      TrailingSpacesLower(s[..|s| - 1]);
    }
  }

  /** Lower-casing and trimming commute, since lower-casing maps whitespace to itself. */
  lemma TrimLower(s: string)
    ensures Trim(LowerStr(s)) == LowerStr(Trim(s))
  {
    TrimBoundsLower(s);
    LowerSlice(s, TrimLo(s), TrimHi(s));
  }

  lemma TrimBoundsLower(s: string)
    ensures TrimLo(LowerStr(s)) == TrimLo(s) && TrimHi(LowerStr(s)) == TrimHi(s)
  {
    var a := LeadingSpaces(s);
    LeadingSpacesLower(s);
    LowerSlice(s, a, |s|);
    TrailingSpacesLower(s[a..]);
  }

  lemma LowerSlice(s: string, a: int, b: int)
    requires 0 <= a <= b <= |s|
    ensures LowerStr(s)[a..b] == LowerStr(s[a..b])
  {
  }

  /** `s.trim().toLowerCase()`. */
  function Normalized(s: string): (r: string)
    ensures |r| <= |s|
  {
    LowerStr(Trim(s))
  }

  /** `findIndex`: the first position whose element satisfies `p`, or -1. */
  function FirstIndex<T>(s: seq<T>, p: T -> bool): (r: int)
    ensures -1 <= r < |s|
    ensures r >= 0 ==> p(s[r])
    ensures forall j | 0 <= j < |s| && (r < 0 || j < r) :: !p(s[j])
  {
    if s == [] then -1
    else if p(s[0]) then 0
    else
      var k := FirstIndex(s[1..], p);
      if k < 0 then -1 else k + 1
  }

  /** `s.map(f)`. */
  function Map<A, B>(s: seq<A>, f: A -> B): (r: seq<B>)
    ensures |r| == |s| && forall k | 0 <= k < |s| :: r[k] == f(s[k])
  {
    seq(|s|, k requires 0 <= k < |s| => f(s[k]))
  }

  /** `s.filter(p)`. */
  function Filter<T>(s: seq<T>, p: T -> bool): (r: seq<T>)
    ensures |r| <= |s|
    ensures forall k | 0 <= k < |r| :: p(r[k]) && r[k] in s
    ensures forall x | x in s && p(x) :: x in r
  {
    if s == [] then []
    else (if p(s[0]) then [s[0]] else []) + Filter(s[1..], p)
  }

  /** A filter every element passes changes nothing. */
  lemma {:induction false} FilterKeepsAll<T>(s: seq<T>, p: T -> bool)
    requires forall k | 0 <= k < |s| :: p(s[k])
    ensures Filter(s, p) == s
  {
    if s != [] {
      FilterKeepsAll(s[1..], p);
    }
  }

  /** An element the filter rejects is not in its result. */
  lemma FilterDrops<T>(s: seq<T>, p: T -> bool, x: T)
    requires !p(x)
    ensures x !in Filter(s, p)
  {
  }

  lemma {:induction false} FilterSnoc<T>(s: seq<T>, x: T, p: T -> bool)
    ensures Filter(s + [x], p) == Filter(s, p) + (if p(x) then [x] else [])
  {
    if s != [] {
      FilterSnoc(s[1..], x, p);
      assert (s + [x])[1..] == s[1..] + [x];
    }
  }

  /** A relation that holds between every earlier and later element still holds after filtering. */
  lemma {:induction false} FilterPairwise<T>(s: seq<T>, p: T -> bool, before: (T, T) -> bool)
    requires forall i, j | 0 <= i < j < |s| :: before(s[i], s[j])
    ensures forall i, j | 0 <= i < j < |Filter(s, p)| :: before(Filter(s, p)[i], Filter(s, p)[j])
  {
    if s != [] {
      FilterPairwise(s[1..], p, before);
      var rest := Filter(s[1..], p);
      forall k | 0 <= k < |rest| ensures before(s[0], rest[k]) {
        var j :| 0 <= j < |s[1..]| && s[1..][j] == rest[k];
        assert s[j + 1] == rest[k];
      }
    }
  }

  /** The length of the run of `p`-characters of `s` that starts at `i`. */
  function RunLen(s: string, i: nat, p: char -> bool): (n: nat)
    requires i <= |s|
    ensures i + n <= |s| && (forall k | i <= k < i + n :: p(s[k]))
    ensures i + n < |s| ==> !p(s[i + n])
    decreases |s| - i
  {
    if i < |s| && p(s[i]) then 1 + RunLen(s, i + 1, p) else 0
  }

  /** The maximal non-empty runs of `p`-characters of `s`, in order. */
  function Runs(s: string, p: char -> bool): (r: seq<string>)
    ensures forall k | 0 <= k < |r| :: r[k] != [] && forall i | 0 <= i < |r[k]| :: p(r[k][i])
    decreases |s|
  {
    if s == [] then []
    else if !p(s[0]) then Runs(s[1..], p)
    else
      var n := RunLen(s, 0, p);
      [s[..n]] + Runs(s[n..], p)
  }

  /** Every character of a run of `s` is a character of `s`, so whatever holds of all of them holds of the run. */
  lemma RunsChars(s: string, p: char -> bool, q: char -> bool, w: string, i: nat)
    requires forall k | 0 <= k < |s| :: q(s[k])
    requires w in Runs(s, p) && i < |w|
    ensures q(w[i])
    decreases |s|
  {
    if s != [] {
      if !p(s[0]) {
        RunsChars(s[1..], p, q, w, i);
      } else {
        var n := RunLen(s, 0, p);
        if w != s[..n] {
          RunsChars(s[n..], p, q, w, i);
        } else {
          assert w[i] == s[i];
        }
      }
    }
  }

  /** The index of the first `x` in `s`, or `|s|`. */
  function IndexIn<T(==)>(s: seq<T>, x: T): (r: nat)
    ensures r <= |s| && (r < |s| <==> x in s)
    ensures r < |s| ==> s[r] == x && forall j | 0 <= j < r :: s[j] != x
  {
    if s == [] then 0 else if s[0] == x then 0 else 1 + IndexIn(s[1..], x)
  }

  /** `[...new Set(s)]`: the distinct elements of `s` in order of first occurrence. */
  function Dedupe<T(==)>(s: seq<T>): (r: seq<T>)
    ensures (forall x | x in r :: x in s) && (forall x | x in s :: x in r)
  {
    if s == [] then []
    else
      var d := Dedupe(s[..|s| - 1]);
      assert s == s[..|s| - 1] + [s[|s| - 1]];
      if s[|s| - 1] in d then d else d + [s[|s| - 1]]
  }

  /** `w` is one of `words` (`new Set(words).has(w)`). */
  predicate Listed(w: string, words: seq<string>)
    decreases |words|
  {
    words != [] && (words[0] == w || Listed(w, words[1..]))
  }

  lemma {:induction false} ListedIn(w: string, words: seq<string>)
    ensures Listed(w, words) <==> w in words
  {
    if words != [] {
      ListedIn(w, words[1..]);
      assert words == [words[0]] + words[1..];
    }
  }

  predicate NoDuplicates<T(==)>(s: seq<T>)
  {
    forall i, j | 0 <= i < j < |s| :: s[i] != s[j]
  }

  lemma IndexInPrefix<T>(s: seq<T>, n: nat, x: T)
    requires n <= |s| && x in s[..n]
    ensures IndexIn(s, x) == IndexIn(s[..n], x)
  {
    var k := IndexIn(s[..n], x);
    assert s[k] == x;
    assert forall j | 0 <= j < k :: s[j] == s[..n][j];
  }

  /** Filtering keeps the relative order of the first occurrences of the elements it keeps. */
  lemma {:induction false} FilterIndexIn<T>(s: seq<T>, p: T -> bool, x: T, y: T)
    requires p(x) && p(y) && x in s && y in s
    requires IndexIn(Filter(s, p), x) < IndexIn(Filter(s, p), y)
    ensures IndexIn(s, x) < IndexIn(s, y)
  {
    var f := Filter(s, p);
    var head := if p(s[0]) then [s[0]] else [];
    assert f == head + Filter(s[1..], p);
    if s[0] != x {
      assert s[0] != y by {
        assert p(s[0]) ==> f[0] == s[0];
      }
      assert x in s[1..] && y in s[1..] by {
        assert s == [s[0]] + s[1..];
      }
      var t := Filter(s[1..], p);
      IndexInCons(head, t, x);
      IndexInCons(head, t, y);
      FilterIndexIn(s[1..], p, x, y);
    }
  }

  /** Prepending elements other than `x` shifts its first index by their number. */
  lemma IndexInCons<T>(head: seq<T>, t: seq<T>, x: T)
    requires x !in head
    ensures IndexIn(head + t, x) == |head| + IndexIn(t, x)
  {
    var j := IndexIn(head + t, x);
    var k := IndexIn(t, x);
    if k < |t| {
      assert (head + t)[|head| + k] == x;
    } else {
      assert x !in head + t;
    }
  }

  /** The distinct elements appear once each, ordered by their first occurrence in `s`. */
  lemma {:induction false} DedupeSpec<T>(s: seq<T>)
    ensures NoDuplicates(Dedupe(s))
    ensures forall i, j | 0 <= i < j < |Dedupe(s)| :: IndexIn(s, Dedupe(s)[i]) < IndexIn(s, Dedupe(s)[j])
  {
    if s != [] {
      var init := s[..|s| - 1];
      var x := s[|s| - 1];
      DedupeSpec(init);
      var d := Dedupe(init);
      assert s == init + [x];
      forall y | y in d ensures IndexIn(s, y) == IndexIn(init, y) {
        IndexInPrefix(s, |s| - 1, y);
      }
      if x !in d {
        assert x !in init;
        assert IndexIn(s, x) == |s| - 1;
        var r := d + [x];
        forall i, j | 0 <= i < j < |r| ensures IndexIn(s, r[i]) < IndexIn(s, r[j]) {
          assert r[i] == d[i] && r[i] in d;
          if j < |d| { assert r[j] == d[j] && r[j] in d; }
        }
      }
    }
  }
  /** The number of copies of `x` that `Filter` keeps: all of them when `p(x)`, none otherwise. */
  lemma {:induction false} FilterMultiplicity<T>(s: seq<T>, p: T -> bool, x: T)
    ensures multiset(Filter(s, p))[x] == if p(x) then multiset(s)[x] else 0
  {
    if s != [] {
      FilterMultiplicity(s[1..], p, x);
      var head := if p(s[0]) then [s[0]] else [];
      assert Filter(s, p) == head + Filter(s[1..], p);
      assert multiset(Filter(s, p)) == multiset(head) + multiset(Filter(s[1..], p));
      assert s == [s[0]] + s[1..];
      assert multiset(s) == multiset{s[0]} + multiset(s[1..]);
    }
  }

  /** Filtering two arrangements of the same elements keeps the same elements. */
  lemma FilterPermutation<T>(a: seq<T>, b: seq<T>, p: T -> bool)
    requires multiset(a) == multiset(b)
    ensures multiset(Filter(a, p)) == multiset(Filter(b, p))
    ensures |Filter(a, p)| == |Filter(b, p)|
  {
    forall x ensures multiset(Filter(a, p))[x] == multiset(Filter(b, p))[x] {
      FilterMultiplicity(a, p, x);
      FilterMultiplicity(b, p, x);
    }
    assert multiset(Filter(a, p)) == multiset(Filter(b, p));
    assert |multiset(Filter(a, p))| == |Filter(a, p)|;
  }

  predicate IsDigit(c: char) { '0' <= c <= '9' }

  function DigitChar(d: nat): (c: char)
    requires d < 10
    ensures IsDigit(c)
  {
    (48 + d) as char
  }

  function DigitValue(c: char): nat
  {
    if IsDigit(c) then c as int - 48 else 0
  }

  /** The decimal form JavaScript's `${n}` gives a non-negative integer. */
  function NatToString(n: nat): (r: string)
    ensures r != [] && forall i | 0 <= i < |r| :: IsDigit(r[i])
  {
    if n < 10 then [DigitChar(n)] else NatToString(n / 10) + [DigitChar(n % 10)]
  }

  /** The decimal form of an integer, with a leading `-` when it is negative. */
  function IntToString(i: int): (r: string)
    ensures r != [] && (r[0] == '-' <==> i < 0)
  {
    if i < 0 then "-" + NatToString(-i) else NatToString(i)
  }

  /** Reads a string of decimal digits back as a number. */
  function ParseNat(s: string): nat
  {
    if s == [] then 0 else 10 * ParseNat(s[..|s| - 1]) + DigitValue(s[|s| - 1])
  }

  lemma {:induction false} ParseNatString(n: nat)
    ensures ParseNat(NatToString(n)) == n
  {
    if n >= 10 {
      ParseNatString(n / 10);
      var s := NatToString(n);
      assert s[..|s| - 1] == NatToString(n / 10);
    }
  }

  /** Different integers print differently. */
  lemma IntToStringInjective(a: int, b: int)
    ensures IntToString(a) == IntToString(b) ==> a == b
  {
    if IntToString(a) == IntToString(b) {
      if a < 0 {
        assert IntToString(a)[1..] == NatToString(-a);
        assert IntToString(b)[1..] == NatToString(-b);
        ParseNatString(-a);
        ParseNatString(-b);
      } else {
        ParseNatString(a);
        ParseNatString(b);
      }
    }
  }
}
