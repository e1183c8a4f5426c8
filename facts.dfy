/**
 * The parts of the associative "facts" memory that the in-memory cache
 * (`src/memory/associativeMemory.ts`) and the table-backed store
 * (`src/memory/memoryDatabase.ts`) implement identically: the budgeted
 * `Facts:` line and the search for right-hand tokens used in a text. Each
 * layer passes its own token test and its own salience-ordered list.
 */
module Facts {
  import opened Wrappers
  import opened Text

  /** A `left = right` statement. */
  datatype Pair = Pair(left: string, right: string)

  const FactsPrefix: string := "Facts: "
  const FactsSeparator: string := "; "

  /** The fragment `left=right` of the facts line. */
  function Fragment(p: Pair): (r: string)
    ensures |r| == |p.left| + 1 + |p.right|
  {
    p.left + "=" + p.right
  }

  function Fragments(c: seq<Pair>): (r: seq<string>)
    ensures |r| == |c| && forall k | 0 <= k < |c| :: r[k] == Fragment(c[k])
  {
    seq(|c|, k requires 0 <= k < |c| => Fragment(c[k]))
  }

  function RightsOf(c: seq<Pair>): set<string>
  {
    set k | 0 <= k < |c| :: c[k].right
  }

  predicate DistinctRights(c: seq<Pair>)
  {
    forall i, j | 0 <= i < j < |c| :: c[i].right != c[j].right
  }

  /** The facts line for the chosen associations. */
  function LineOf(c: seq<Pair>): string
  {
    FactsPrefix + Join(Fragments(c), FactsSeparator)
  }

  /**
   * The associations the scan of `buildFactsLine` takes from `rest`: it skips
   * invalid tokens and rights already taken, and stops at the first fragment
   * that would take the line past `budget`.
   */
  function Chosen(rest: seq<Pair>, valid: string -> bool, budget: int, total: int, chosen: seq<Pair>, seen: set<string>): seq<Pair>
    decreases |rest|
  {
    if rest == [] then chosen
    else
      var a := rest[0];
      if !valid(a.left) || !valid(a.right) || a.right in seen then
        Chosen(rest[1..], valid, budget, total, chosen, seen)
      else
        var add := (if chosen == [] then 0 else 2) + |Fragment(a)|;
        if total + add > budget then chosen
        else Chosen(rest[1..], valid, budget, total + add, chosen + [a], seen + {a.right})
  }

  /** Both tokens of `a` pass the token test. */
  predicate Usable(valid: string -> bool, a: Pair)
  {
    valid(a.left) && valid(a.right)
  }

  /**
   * The budget-free reference for the scan: the usable associations of `xs`
   * in order, the first one for each right token not already in `seen`.
   */
  function FirstNew(xs: seq<Pair>, valid: string -> bool, seen: set<string>): seq<Pair>
    decreases |xs|
  {
    if xs == [] then []
    else
      var a := xs[0];
      if !Usable(valid, a) || a.right in seen then FirstNew(xs[1..], valid, seen)
      else [a] + FirstNew(xs[1..], valid, seen + {a.right})
  }

  /** The position in `rest` where the scan stops: the first misfit, or the end of the list. */
  function Stop(rest: seq<Pair>, valid: string -> bool, budget: int, total: int, chosen: seq<Pair>, seen: set<string>): (n: nat)
    ensures n <= |rest|
    decreases |rest|
  {
    if rest == [] then 0
    else
      var a := rest[0];
      if !valid(a.left) || !valid(a.right) || a.right in seen then
        1 + Stop(rest[1..], valid, budget, total, chosen, seen)
      else
        var add := (if chosen == [] then 0 else 2) + |Fragment(a)|;
        if total + add > budget then 0
        else 1 + Stop(rest[1..], valid, budget, total + add, chosen + [a], seen + {a.right})
  }

  /** `buildFactsLine` on a salience-ordered list: `None` when nothing fits. */
  function FactsLine(assocs: seq<Pair>, valid: string -> bool, budget: int): Option<string>
  {
    if assocs == [] then None
    else
      var c := Chosen(assocs, valid, budget, |FactsPrefix|, [], {});
      if c == [] then None else Some(LineOf(c))
  }

  lemma FragmentsSnoc(c: seq<Pair>, a: Pair)
    ensures Fragments(c + [a]) == Fragments(c) + [Fragment(a)]
  {
  }

  lemma LineOfSnoc(c: seq<Pair>, a: Pair)
    requires c != []
    ensures |LineOf(c + [a])| == |LineOf(c)| + 2 + |Fragment(a)|
  {
    FragmentsSnoc(c, a);
    JoinSnoc(Fragments(c), FactsSeparator, Fragment(a));
  }

  lemma LineOfSingle(a: Pair)
    ensures |LineOf([a])| == |FactsPrefix| + |Fragment(a)|
  {
    assert Fragments([a]) == [Fragment(a)];
  }

  lemma RightsOfSnoc(c: seq<Pair>, a: Pair)
    ensures RightsOf(c + [a]) == RightsOf(c) + {a.right}
  {
    assert (c + [a])[|c|] == a;
    forall x | x in RightsOf(c) ensures x in RightsOf(c + [a]) {
      var k :| 0 <= k < |c| && c[k].right == x;
      assert (c + [a])[k] == c[k];
    }
  }

  lemma RightsOfCons(a: Pair, c: seq<Pair>)
    ensures RightsOf([a] + c) == {a.right} + RightsOf(c)
  {
    assert ([a] + c)[0] == a;
    forall x | x in RightsOf(c) ensures x in RightsOf([a] + c) {
      var k :| 0 <= k < |c| && c[k].right == x;
      assert ([a] + c)[k + 1] == c[k];
    }
    forall x | x in RightsOf([a] + c) ensures x in {a.right} + RightsOf(c) {
      var k :| 0 <= k < |c| + 1 && ([a] + c)[k].right == x;
      if k > 0 { assert c[k - 1].right == x; }
    }
  }

  /** The reference list holds usable associations of `xs`, with new and distinct rights. */
  lemma {:induction false} FirstNewMembers(xs: seq<Pair>, valid: string -> bool, seen: set<string>)
    ensures forall x | x in FirstNew(xs, valid, seen) :: x in xs && Usable(valid, x) && x.right !in seen
    ensures DistinctRights(FirstNew(xs, valid, seen))
    decreases |xs|
  {
    if xs != [] {
      var a := xs[0];
      if !Usable(valid, a) || a.right in seen {
        FirstNewMembers(xs[1..], valid, seen);
      } else {
        var t := FirstNew(xs[1..], valid, seen + {a.right});
        FirstNewMembers(xs[1..], valid, seen + {a.right});
        var r := [a] + t;
        forall i, j | 0 <= i < j < |r| ensures r[i].right != r[j].right {
          assert r[j] == t[j - 1];
          if i > 0 { assert r[i] == t[i - 1]; }
        }
      }
    }
  }

  /** Every usable association with a new right has its right in the reference list. */
  lemma {:induction false} FirstNewComplete(xs: seq<Pair>, valid: string -> bool, seen: set<string>)
    ensures forall k | 0 <= k < |xs| && Usable(valid, xs[k]) && xs[k].right !in seen ::
      xs[k].right in RightsOf(FirstNew(xs, valid, seen))
    decreases |xs|
  {
    if xs != [] {
      var a := xs[0];
      if !Usable(valid, a) || a.right in seen {
        FirstNewComplete(xs[1..], valid, seen);
        forall k | 0 < k < |xs| ensures xs[k] == xs[1..][k - 1] { }
      } else {
        var t := FirstNew(xs[1..], valid, seen + {a.right});
        FirstNewComplete(xs[1..], valid, seen + {a.right});
        RightsOfCons(a, t);
        forall k | 0 < k < |xs| ensures xs[k] == xs[1..][k - 1] { }
      }
    }
  }

  /** Past a skipped or taken head, positions in `xs` are one more than in its tail. */
  lemma IndexInTail(xs: seq<Pair>, t: seq<Pair>)
    requires xs != [] && forall x | x in t :: x != xs[0]
    ensures forall x | x in t :: IndexIn(xs, x) == 1 + IndexIn(xs[1..], x)
  {
    assert xs == [xs[0]] + xs[1..];
    forall x | x in t ensures IndexIn(xs, x) == 1 + IndexIn(xs[1..], x) {
      IndexInCons([xs[0]], xs[1..], x);
    }
  }

  /** The reference list keeps the order of `xs`. */
  lemma {:induction false} FirstNewOrdered(xs: seq<Pair>, valid: string -> bool, seen: set<string>)
    ensures forall i, j | 0 <= i < j < |FirstNew(xs, valid, seen)| ::
      IndexIn(xs, FirstNew(xs, valid, seen)[i]) < IndexIn(xs, FirstNew(xs, valid, seen)[j])
    decreases |xs|
  {
    if xs != [] {
      var a := xs[0];
      var skip := !Usable(valid, a) || a.right in seen;
      var seen' := if skip then seen else seen + {a.right};
      var t := FirstNew(xs[1..], valid, seen');
      FirstNewOrdered(xs[1..], valid, seen');
      FirstNewMembers(xs[1..], valid, seen');
      IndexInTail(xs, t);
      var r := FirstNew(xs, valid, seen);
      if skip {
        assert r == t;
      } else {
        assert r == [a] + t;
        forall i, j | 0 <= i < j < |r| ensures IndexIn(xs, r[i]) < IndexIn(xs, r[j]) {
          assert t[j - 1] in t;
          if i > 0 {
            assert t[i - 1] in t;
          }
          ConsOrder(xs, t, i, j);
        }
      }
    }
  }

  /** One ordered pair of `[xs[0]] + t`, given where the two elements of `t` sit in `xs`. */
  lemma ConsOrder(xs: seq<Pair>, t: seq<Pair>, i: nat, j: nat)
    requires xs != [] && i < j < 1 + |t|
    requires IndexIn(xs, t[j - 1]) == 1 + IndexIn(xs[1..], t[j - 1])
    requires i > 0 ==> IndexIn(xs, t[i - 1]) == 1 + IndexIn(xs[1..], t[i - 1])
    requires i > 0 ==> IndexIn(xs[1..], t[i - 1]) < IndexIn(xs[1..], t[j - 1])
    ensures IndexIn(xs, ([xs[0]] + t)[i]) < IndexIn(xs, ([xs[0]] + t)[j])
  {
    var r := [xs[0]] + t;
    assert r[j] == t[j - 1];
    if i == 0 {
      assert r[0] == xs[0];
    } else {
      assert r[i] == t[i - 1];
    }
  }

  /** Each association of the reference list is the first usable one in `xs` with that right. */
  lemma {:induction false} FirstNewIsFirst(xs: seq<Pair>, valid: string -> bool, seen: set<string>)
    ensures forall x, k | x in FirstNew(xs, valid, seen) && 0 <= k < IndexIn(xs, x) ::
      Usable(valid, xs[k]) ==> xs[k].right != x.right
    decreases |xs|
  {
    if xs != [] {
      var a := xs[0];
      var skip := !Usable(valid, a) || a.right in seen;
      var seen' := if skip then seen else seen + {a.right};
      var t := FirstNew(xs[1..], valid, seen');
      FirstNewIsFirst(xs[1..], valid, seen');
      FirstNewMembers(xs[1..], valid, seen');
      IndexInTail(xs, t);
      forall x, k | x in FirstNew(xs, valid, seen) && 0 <= k < IndexIn(xs, x) && Usable(valid, xs[k])
        ensures xs[k].right != x.right
      {
        if x in t && k > 0 {
          assert xs[k] == xs[1..][k - 1];
        }
      }
    }
  }

  /** The scan never drops what it has already chosen. */
  lemma {:induction false} ChosenGrows(rest: seq<Pair>, valid: string -> bool, budget: int, total: int, chosen: seq<Pair>, seen: set<string>)
    ensures |Chosen(rest, valid, budget, total, chosen, seen)| >= |chosen|
    decreases |rest|
  {
    if rest != [] {
      var a := rest[0];
      if !valid(a.left) || !valid(a.right) || a.right in seen {
        ChosenGrows(rest[1..], valid, budget, total, chosen, seen);
      } else {
        var add := (if chosen == [] then 0 else 2) + |Fragment(a)|;
        if total + add <= budget {
          ChosenGrows(rest[1..], valid, budget, total + add, chosen + [a], seen + {a.right});
        }
      }
    }
  }

  /**
   * The association at `n`, if any, would have been taken (usable, with a new
   * right) but its fragment takes the line `r` past the budget.
   */
  predicate StopsAt(rest: seq<Pair>, n: nat, valid: string -> bool, budget: int, r: seq<Pair>)
  {
    n < |rest| ==> Usable(valid, rest[n]) && rest[n].right !in RightsOf(r) && |LineOf(r + [rest[n]])| > budget
  }

  lemma StopsAtTail(rest: seq<Pair>, m: nat, valid: string -> bool, budget: int, r: seq<Pair>)
    requires rest != [] && StopsAt(rest[1..], m, valid, budget, r)
    ensures StopsAt(rest, 1 + m, valid, budget, r)
  {
    if 1 + m < |rest| { assert rest[1..][m] == rest[1 + m]; }
  }

  /** Reading one more association extends the reference list as the scan's step does. */
  lemma FirstNewPrefix(rest: seq<Pair>, m: nat, valid: string -> bool, seen: set<string>)
    requires m < |rest|
    ensures var a := rest[0];
      FirstNew(rest[..1 + m], valid, seen) ==
        if !Usable(valid, a) || a.right in seen then FirstNew(rest[1..][..m], valid, seen)
        else [a] + FirstNew(rest[1..][..m], valid, seen + {a.right})
  {
    assert rest[..1 + m][1..] == rest[1..][..m];
    assert rest[..1 + m][0] == rest[0];
  }

  /**
   * Where the scan stops: it adds the reference list of the prefix it read, and
   * stops early only at a usable association with a new right whose fragment
   * would take the line past the budget.
   */
  lemma {:induction false} ChosenStops(rest: seq<Pair>, valid: string -> bool, budget: int, total: int, chosen: seq<Pair>, seen: set<string>)
    requires ScanState(valid, budget, total, chosen, seen)
    ensures var r := Chosen(rest, valid, budget, total, chosen, seen);
      var n := Stop(rest, valid, budget, total, chosen, seen);
      r == chosen + FirstNew(rest[..n], valid, seen) && StopsAt(rest, n, valid, budget, r)
    decreases |rest|
  {
    if rest == [] {
      assert rest[..0] == [];
    } else {
      var a := rest[0];
      if !valid(a.left) || !valid(a.right) || a.right in seen {
        ChosenStops(rest[1..], valid, budget, total, chosen, seen);
        SkipStep(rest, valid, budget, total, chosen, seen);
      } else {
        var add := (if chosen == [] then 0 else 2) + |Fragment(a)|;
        if total + add > budget {
          assert rest[..0] == [];
          if chosen == [] { LineOfSingle(a); } else { LineOfSnoc(chosen, a); }
        } else {
          PushKeepsState(valid, budget, total, chosen, seen, a);
          ChosenStops(rest[1..], valid, budget, total + add, chosen + [a], seen + {a.right});
          TakeStep(rest, valid, budget, total, chosen, seen);
        }
      }
    }
  }

  /** A skipped head: the stop and the added list carry over from the tail. */
  lemma SkipStep(rest: seq<Pair>, valid: string -> bool, budget: int, total: int, chosen: seq<Pair>, seen: set<string>)
    requires rest != [] && (!Usable(valid, rest[0]) || rest[0].right in seen)
    requires var r := Chosen(rest[1..], valid, budget, total, chosen, seen);
      var m := Stop(rest[1..], valid, budget, total, chosen, seen);
      r == chosen + FirstNew(rest[1..][..m], valid, seen) && StopsAt(rest[1..], m, valid, budget, r)
    ensures var r := Chosen(rest, valid, budget, total, chosen, seen);
      var n := Stop(rest, valid, budget, total, chosen, seen);
      r == chosen + FirstNew(rest[..n], valid, seen) && StopsAt(rest, n, valid, budget, r)
  {
    var m := Stop(rest[1..], valid, budget, total, chosen, seen);
    assert Stop(rest, valid, budget, total, chosen, seen) == 1 + m;
    assert Chosen(rest, valid, budget, total, chosen, seen) == Chosen(rest[1..], valid, budget, total, chosen, seen);
    FirstNewPrefix(rest, m, valid, seen);
    StopsAtTail(rest, m, valid, budget, Chosen(rest, valid, budget, total, chosen, seen));
  }

  /** A taken head: it leads the added list, and the stop carries over from the tail. */
  lemma TakeStep(rest: seq<Pair>, valid: string -> bool, budget: int, total: int, chosen: seq<Pair>, seen: set<string>)
    requires rest != [] && Usable(valid, rest[0]) && rest[0].right !in seen
    requires total + (if chosen == [] then 0 else 2) + |Fragment(rest[0])| <= budget
    requires var a := rest[0];
      var t := total + (if chosen == [] then 0 else 2) + |Fragment(a)|;
      var r := Chosen(rest[1..], valid, budget, t, chosen + [a], seen + {a.right});
      var m := Stop(rest[1..], valid, budget, t, chosen + [a], seen + {a.right});
      r == (chosen + [a]) + FirstNew(rest[1..][..m], valid, seen + {a.right}) && StopsAt(rest[1..], m, valid, budget, r)
    ensures var r := Chosen(rest, valid, budget, total, chosen, seen);
      var n := Stop(rest, valid, budget, total, chosen, seen);
      r == chosen + FirstNew(rest[..n], valid, seen) && StopsAt(rest, n, valid, budget, r)
  {
    var a := rest[0];
    var t := total + (if chosen == [] then 0 else 2) + |Fragment(a)|;
    var m := Stop(rest[1..], valid, budget, t, chosen + [a], seen + {a.right});
    assert Stop(rest, valid, budget, total, chosen, seen) == 1 + m;
    assert Chosen(rest, valid, budget, total, chosen, seen) == Chosen(rest[1..], valid, budget, t, chosen + [a], seen + {a.right});
    FirstNewPrefix(rest, m, valid, seen);
    var x := FirstNew(rest[1..][..m], valid, seen + {a.right});
    assert (chosen + [a]) + x == chosen + ([a] + x);
    StopsAtTail(rest, m, valid, budget, Chosen(rest, valid, budget, total, chosen, seen));
  }

  /** The scan from an empty line chooses nothing exactly when the first reference association does not fit. */
  lemma {:induction false} ChosenEmpty(rest: seq<Pair>, valid: string -> bool, budget: int, total: int, seen: set<string>)
    ensures var f := FirstNew(rest, valid, seen);
      Chosen(rest, valid, budget, total, [], seen) == [] <==> (f == [] || total + |Fragment(f[0])| > budget)
    decreases |rest|
  {
    if rest != [] {
      var a := rest[0];
      if !valid(a.left) || !valid(a.right) || a.right in seen {
        ChosenEmpty(rest[1..], valid, budget, total, seen);
      } else if total + |Fragment(a)| <= budget {
        assert [] + [a] == [a];
        ChosenGrows(rest[1..], valid, budget, total + |Fragment(a)|, [a], seen + {a.right});
      }
    }
  }

  /** The state the scan keeps between steps. */
  predicate ScanState(valid: string -> bool, budget: int, total: int, chosen: seq<Pair>, seen: set<string>)
  {
    seen == RightsOf(chosen) && DistinctRights(chosen)
    && (forall k | 0 <= k < |chosen| :: valid(chosen[k].left) && valid(chosen[k].right))
    && (chosen == [] ==> total == |FactsPrefix|)
    && (chosen != [] ==> total == |LineOf(chosen)| <= budget)
  }

  /** Taking a valid association with a new right keeps the scan's state. */
  lemma PushKeepsState(valid: string -> bool, budget: int, total: int, chosen: seq<Pair>, seen: set<string>, a: Pair)
    requires ScanState(valid, budget, total, chosen, seen)
    requires valid(a.left) && valid(a.right) && a.right !in seen
    requires total + (if chosen == [] then 0 else 2) + |Fragment(a)| <= budget
    ensures ScanState(valid, budget, total + (if chosen == [] then 0 else 2) + |Fragment(a)|, chosen + [a], seen + {a.right})
  {
    RightsOfSnoc(chosen, a);
    if chosen == [] { LineOfSingle(a); } else { LineOfSnoc(chosen, a); }
    forall i | 0 <= i < |chosen| ensures chosen[i].right != a.right {
      assert chosen[i].right in RightsOf(chosen);
    }
  }

  /** The scan keeps distinct rights, valid tokens, elements of the list and a line within the budget. */
  lemma {:induction false} ChosenSafe(rest: seq<Pair>, valid: string -> bool, budget: int, total: int, chosen: seq<Pair>, seen: set<string>)
    requires ScanState(valid, budget, total, chosen, seen)
    ensures var r := Chosen(rest, valid, budget, total, chosen, seen);
      DistinctRights(r)
      && (forall k | 0 <= k < |r| :: valid(r[k].left) && valid(r[k].right))
      && (forall x | x in r :: x in chosen || x in rest)
      && (r != [] ==> |LineOf(r)| <= budget)
    decreases |rest|
  {
    if rest != [] {
      var a := rest[0];
      if !valid(a.left) || !valid(a.right) || a.right in seen {
        ChosenSafe(rest[1..], valid, budget, total, chosen, seen);
      } else {
        var add := (if chosen == [] then 0 else 2) + |Fragment(a)|;
        if total + add <= budget {
          PushKeepsState(valid, budget, total, chosen, seen, a);
          ChosenSafe(rest[1..], valid, budget, total + add, chosen + [a], seen + {a.right});
        }
      }
    }
  }

  /**
   * What the scan keeps: distinct rights, valid tokens on both sides, elements
   * of the list, and a line within the budget; it takes the reference list of
   * the prefix it read and stops only at the first usable misfit.
   */
  lemma ChosenSpec(rest: seq<Pair>, valid: string -> bool, budget: int, total: int, chosen: seq<Pair>, seen: set<string>)
    requires ScanState(valid, budget, total, chosen, seen)
    ensures var r := Chosen(rest, valid, budget, total, chosen, seen);
      DistinctRights(r)
      && (forall k | 0 <= k < |r| :: valid(r[k].left) && valid(r[k].right))
      && (forall x | x in r :: x in chosen || x in rest)
      && (r != [] ==> |LineOf(r)| <= budget)
    ensures var r := Chosen(rest, valid, budget, total, chosen, seen);
      var n := Stop(rest, valid, budget, total, chosen, seen);
      && r == chosen + FirstNew(rest[..n], valid, seen)
      && (n < |rest| ==> Usable(valid, rest[n]) && rest[n].right !in RightsOf(r) && |LineOf(r + [rest[n]])| > budget)
  {
    ChosenSafe(rest, valid, budget, total, chosen, seen);
    ChosenStops(rest, valid, budget, total, chosen, seen);
  }

  /**
   * The facts line fits the budget, starts with `Facts: `, and lists valid
   * associations of the list with no right token twice.
   */
  lemma FactsLineSpec(assocs: seq<Pair>, valid: string -> bool, budget: int)
    ensures assocs == [] ==> FactsLine(assocs, valid, budget) == None
    ensures FactsLine(assocs, valid, budget).Some? ==>
      var c := Chosen(assocs, valid, budget, |FactsPrefix|, [], {});
      var line := FactsLine(assocs, valid, budget).value;
      |line| <= budget && StartsWith(line, FactsPrefix) && line == LineOf(c)
      && DistinctRights(c) && (forall x | x in c :: x in assocs && valid(x.left) && valid(x.right))
    ensures FactsLine(assocs, valid, budget).Some? ==>
      var c := Chosen(assocs, valid, budget, |FactsPrefix|, [], {});
      var n := Stop(assocs, valid, budget, |FactsPrefix|, [], {});
      && c == FirstNew(assocs[..n], valid, {})
      && (n < |assocs| ==> Usable(valid, assocs[n]) && assocs[n].right !in RightsOf(c) && |LineOf(c + [assocs[n]])| > budget)
    ensures var f := FirstNew(assocs, valid, {});
      FactsLine(assocs, valid, budget).None? <==> (f == [] || |FactsPrefix| + |Fragment(f[0])| > budget)
  {
    ChosenEmpty(assocs, valid, budget, |FactsPrefix|, {});
    if assocs != [] {
      ChosenSpec(assocs, valid, budget, |FactsPrefix|, [], {});
    } else {
      assert FirstNew(assocs, valid, {}) == [];
    }
  }

  /** The scan of `buildFactsLine`. */
  method BuildFactsLine(assocs: seq<Pair>, valid: string -> bool, charBudget: int) returns (line: Option<string>)
    ensures line == FactsLine(assocs, valid, charBudget)
  {
    if |assocs| == 0 {
      return None;
    }
    var parts: seq<Pair> := [];
    var total := |FactsPrefix|;
    var seen: set<string> := {};
    var i := 0;
    while i < |assocs|
      invariant 0 <= i <= |assocs|
      invariant Chosen(assocs[i..], valid, charBudget, total, parts, seen)
        == Chosen(assocs, valid, charBudget, |FactsPrefix|, [], {})
    {
      var a := assocs[i];
      assert assocs[i..][1..] == assocs[i + 1..];
      if !valid(a.left) || !valid(a.right) {
        i := i + 1;
        continue;
      }
      if a.right in seen {
        i := i + 1;
        continue;
      }
      var frag := Fragment(a);
      var addLen := (if |parts| > 0 then 2 else 0) + |frag|;
      if total + addLen > charBudget {
        break;
      }
      parts := parts + [a];
      total := total + addLen;
      seen := seen + {a.right};
      i := i + 1;
    }
    assert i == |assocs| ==> assocs[i..] == [];
    if |parts| > 0 {
      line := Some(FactsPrefix + Join(Fragments(parts), FactsSeparator));
    } else {
      line := None;
    }
  }

  /** `[a-z0-9_-]`: what survives `replace(/[^a-z0-9_,\s-]/g, ' ')` and is not a separator of `split(/[\s,]+/)`. */
  predicate IsTokenChar(c: char)
  {
    ('a' <= c <= 'z') || ('0' <= c <= '9') || c == '_' || c == '-'
  }

  /** The length of the run of token characters at the start of `s`. */
  function TokenRun(s: string): (n: nat)
    ensures n <= |s| && (forall i | 0 <= i < n :: IsTokenChar(s[i]))
    ensures n < |s| ==> !IsTokenChar(s[n])
  {
    if |s| > 0 && IsTokenChar(s[0]) then 1 + TokenRun(s[1..]) else 0
  }

  /** The maximal runs of token characters of `s`, in order. */
  function TokenRuns(s: string): (r: seq<string>)
    ensures forall k | 0 <= k < |r| :: r[k] != [] && forall i | 0 <= i < |r[k]| :: IsTokenChar(r[k][i])
    decreases |s|
  {
    if s == [] then []
    else if !IsTokenChar(s[0]) then TokenRuns(s[1..])
    else
      var n := TokenRun(s);
      [s[..n]] + TokenRuns(s[n..])
  }

  /**
   * The tokens of `text.toLowerCase().replace(/[^a-z0-9_,\s-]/g, ' ').split(/[\s,]+/).filter(Boolean)`:
   * after lower-casing, every character outside `[a-z0-9_-]` separates tokens.
   */
  function Tokens(text: string): seq<string>
  {
    TokenRuns(LowerStr(text))
  }

  /** `new Set(associations.map(a => a.right.toLowerCase()))`. */
  function LowerRights(assocs: seq<Pair>): set<string>
  {
    set k | 0 <= k < |assocs| :: LowerStr(assocs[k].right)
  }

  function RightIs(t: string): Pair -> bool
  {
    (a: Pair) => a.right == t
  }

  /** `${left}|${right}`, the de-duplication key. */
  function Key(p: Pair): string
  {
    p.left + "|" + p.right
  }

  /** The keys of the pairs reported so far. */
  ghost function KeysOf(s: seq<Pair>): set<string>
  {
    set k | 0 <= k < |s| :: Key(s[k])
  }

  lemma KeysOfSnoc(s: seq<Pair>, p: Pair)
    ensures KeysOf(s + [p]) == KeysOf(s) + {Key(p)}
  {
    var t := s + [p];
    assert Key(t[|s|]) in KeysOf(t);
    forall x | x in KeysOf(t) ensures x in KeysOf(s) + {Key(p)} {
      var k :| 0 <= k < |t| && Key(t[k]) == x;
      if k < |s| { assert t[k] == s[k]; }
    }
    forall x | x in KeysOf(s) ensures x in KeysOf(t) {
      var k :| 0 <= k < |s| && Key(s[k]) == x;
      assert t[k] == s[k];
    }
  }

  lemma KeysOfHas(s: seq<Pair>, x: string)
    requires x in KeysOf(s)
    ensures exists k :: 0 <= k < |s| && Key(s[k]) == x
  {
  }

  /** The association `getRightsUsedInText` reports for token `t`, if any. */
  function Best(assocs: seq<Pair>, t: string): (r: Option<Pair>)
    ensures r.Some? ==> r.value in assocs && r.value.right == t
  {
    if t in LowerRights(assocs) then
      var idx := FirstIndex(assocs, RightIs(t));
      if idx >= 0 then Some(assocs[idx]) else None
    else None
  }

  /** A right equal to `t` is reported as the first association carrying it. */
  lemma BestIsFirst(assocs: seq<Pair>, t: string, i: nat)
    requires i < |assocs| && assocs[i].right == t && t in LowerRights(assocs)
    ensures var j := FirstIndex(assocs, RightIs(t));
      0 <= j <= i && Best(assocs, t) == Some(assocs[j]) && forall m | 0 <= m < j :: assocs[m].right != t
  {
    var idx := FirstIndex(assocs, RightIs(t));
    assert RightIs(t)(assocs[i]);
    assert idx >= 0 && idx <= i;
  }

  /**
   * The loop of `getRightsUsedInText` with the lookup abstracted: each token
   * whose lookup succeeds contributes its association once per `left|right` key.
   */
  method ScanTokens(tokens: seq<string>, best: string -> Option<Pair>) returns (used: seq<Pair>, ghost from: seq<string>)
    ensures |from| == |used|
    ensures forall k | 0 <= k < |used| :: from[k] in tokens && best(from[k]) == Some(used[k])
    ensures forall k, l | 0 <= k < l < |used| :: Key(used[k]) != Key(used[l])
    ensures forall t | t in tokens && best(t).Some? :: Key(best(t).value) in KeysOf(used)
  {
    used := [];
    from := [];
    var seen: set<string> := {};
    var i := 0;
    while i < |tokens|
      invariant 0 <= i <= |tokens| && |from| == |used|
      invariant seen == KeysOf(used)
      invariant forall k | 0 <= k < |used| :: from[k] in tokens && best(from[k]) == Some(used[k])
      invariant forall k, l | 0 <= k < l < |used| :: Key(used[k]) != Key(used[l])
      invariant forall j | 0 <= j < i && best(tokens[j]).Some? :: Key(best(tokens[j]).value) in seen
    {
      var t := tokens[i];
      var b := best(t);
      if b.Some? {
        var key := Key(b.value);
        if key !in seen {
          KeysOfSnoc(used, b.value);
          used := used + [Pair(b.value.left, b.value.right)];
          from := from + [t];
          seen := seen + {key};
        }
      }
      i := i + 1;
    }
  }

  /** `p` is what some token of `text` reports. */
  predicate FromToken(assocs: seq<Pair>, text: string, p: Pair)
  {
    exists t :: t in Tokens(text) && Best(assocs, t) == Some(p)
  }

  /** Some pair of `used` has the key of `p`. */
  predicate KeyCovered(used: seq<Pair>, p: Pair)
  {
    exists i :: 0 <= i < |used| && Key(used[i]) == Key(p)
  }

  /**
   * `getRightsUsedInText` / `findAssociationsInText` on a salience-ordered list:
   * for each token that is some right (lower-cased), the first association with
   * exactly that right, once per `left|right` key.
   */
  method RightsUsedInText(assocs: seq<Pair>, text: string) returns (used: seq<Pair>)
    ensures assocs == [] || text == [] ==> used == []
    ensures forall i | 0 <= i < |used| :: FromToken(assocs, text, used[i])
    ensures forall i, j | 0 <= i < j < |used| :: Key(used[i]) != Key(used[j])
    ensures forall t | t in Tokens(text) && Best(assocs, t).Some? :: KeyCovered(used, Best(assocs, t).value)
  {
    if |assocs| == 0 || |text| == 0 {
      return [];
    }
    var tokens := Tokens(text);
    ghost var from;
    used, from := ScanTokens(tokens, (t: string) => Best(assocs, t));
    forall k | 0 <= k < |used|
      ensures FromToken(assocs, text, used[k])
    {
      var t := from[k];
      assert t in Tokens(text) && Best(assocs, t) == Some(used[k]);
    }
    forall t | t in tokens && Best(assocs, t).Some?
      ensures KeyCovered(used, Best(assocs, t).value)
    {
      KeysOfHas(used, Key(Best(assocs, t).value));
    }
  }
}
