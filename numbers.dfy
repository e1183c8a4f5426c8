/** Integer rounding and sums over tallies, shared by the client's statistics helpers. */
module Numbers {

  /** `Math.round(a / b)` for a positive divisor: the integer nearest `a / b`, halves up. */
  function Round(a: int, b: int): (r: int)
    requires b > 0
    ensures 2 * b * r <= 2 * a + b < 2 * b * r + 2 * b
  {
    var r := (2 * a + b) / (2 * b);
    assert 2 * a + b == (2 * b) * r + (2 * a + b) % (2 * b);
    r
  }

  lemma MulMonotone(n: int, a: int, b: int)
    requires n >= 0 && a <= b
    ensures n * a <= n * b
  {
    assert n * b - n * a == n * (b - a);
  }

  /** A rounded quotient stays within bounds that hold for the quotient itself. */
  lemma RoundedBetween(total: int, n: int, lo: int, hi: int)
    requires n > 0 && n * lo <= total <= n * hi
    ensures lo <= Round(total, n) <= hi
  {
    var avg := Round(total, n);
    if avg + 1 <= lo {
      MulMonotone(n, avg + 1, lo);
    }
    if hi + 1 <= avg {
      MulMonotone(n, hi + 1, avg);
    }
  }

  /** `(tally[key] || 0) + t`: adds `t` to the running total kept for `key`. */
  function AddTo<K>(tally: map<K, int>, key: K, t: int): map<K, int>
  {
    tally[key := (if key in tally then tally[key] else 0) + t]
  }

  ghost function Pick<K>(m: map<K, int>): (k: K)
    requires m != map[]
    ensures k in m
  {
    var k :| k in m; k
  }

  /** The sum of all values of a map. */
  ghost function MapSum<K>(m: map<K, int>): int
    decreases |m|
  {
    if m == map[] then 0
    else
      var k := Pick(m);
      m[k] + MapSum(m - {k})
  }

  /** `MapSum` may take out any key first, not only the one it picks. */
  lemma {:induction false} MapSumRemove<K>(m: map<K, int>, k: K)
    requires k in m
    ensures MapSum(m) == m[k] + MapSum(m - {k})
    decreases |m|
  {
    var j := Pick(m);
    if j != k {
      MapSumRemove(m - {j}, k);
      MapSumRemove(m - {k}, j);
      assert m - {j} - {k} == m - {k} - {j};
    }
  }

  /** Adding to one entry of a tally adds the same amount to its sum. */
  lemma MapSumAddTo<K>(m: map<K, int>, key: K, t: int)
    ensures MapSum(AddTo(m, key, t)) == MapSum(m) + t
  {
    var m' := AddTo(m, key, t);
    MapSumRemove(m', key);
    if key in m {
      MapSumRemove(m, key);
      assert m' - {key} == m - {key};
    } else {
      assert m' - {key} == m;
    }
  }

  /** `s.reduce((a, x) => a + x, 0)`. */
  function Sum(s: seq<int>): int
  {
    if s == [] then 0 else Sum(s[..|s| - 1]) + s[|s| - 1]
  }

  lemma {:induction false} SumBounds(s: seq<int>, lo: int, hi: int)
    requires forall k | 0 <= k < |s| :: lo <= s[k] <= hi
    ensures |s| * lo <= Sum(s) <= |s| * hi
  {
    if s != [] {
      SumBounds(s[..|s| - 1], lo, hi);
    }
  }

  /** `Math.min(...s)` of a non-empty list. */
  function MinOf(s: seq<int>): (m: int)
    requires s != []
    ensures m in s && forall k | 0 <= k < |s| :: m <= s[k]
  {
    if |s| == 1 then s[0]
    else
      var m := MinOf(s[..|s| - 1]);
      if s[|s| - 1] < m then s[|s| - 1] else m
  }

  /** `Math.max(...s)` of a non-empty list. */
  function MaxOf(s: seq<int>): (m: int)
    requires s != []
    ensures m in s && forall k | 0 <= k < |s| :: s[k] <= m
  {
    if |s| == 1 then s[0]
    else
      var m := MaxOf(s[..|s| - 1]);
      if s[|s| - 1] > m then s[|s| - 1] else m
  }

  /** The arithmetic mean `sum / length` of a non-empty list. */
  function Mean(s: seq<int>): real
    requires s != []
  {
    (Sum(s) as real) / (|s| as real)
  }

  lemma RealMulStrict(n: real, a: real, b: real)
    requires n > 0.0 && a < b
    ensures n * a < n * b
  {
    assert n * b - n * a == n * (b - a);
    assert n * (b - a) > 0.0;
  }

  /** A quotient stays within bounds that hold for the dividend scaled by the divisor. */
  lemma QuotientBetween(n: int, lo: int, t: int, hi: int)
    requires n > 0 && n * lo <= t <= n * hi
    ensures lo as real <= (t as real) / (n as real) <= hi as real
  {
    var q := (t as real) / (n as real);
    assert (n as real) * q == t as real;
    assert (n * lo) as real == (n as real) * (lo as real);
    assert (n * hi) as real == (n as real) * (hi as real);
    if q < lo as real {
      RealMulStrict(n as real, q, lo as real);
    }
    if q > hi as real {
      RealMulStrict(n as real, hi as real, q);
    }
  }

  /** The mean lies between the smallest and the largest element. */
  lemma MeanBetween(s: seq<int>)
    requires s != []
    ensures MinOf(s) as real <= Mean(s) <= MaxOf(s) as real
  {
    SumBounds(s, MinOf(s), MaxOf(s));
    QuotientBetween(|s|, MinOf(s), Sum(s), MaxOf(s));
  }
}
