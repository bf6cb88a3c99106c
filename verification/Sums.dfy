/** Sums of the values of a finite map, and bounds on finite sets of numbers. */
module Sums {

  /** The sum of all values of `m`. */
  ghost function Sum<K(!new)>(m: map<K, nat>): nat
    decreases |m|
  {
    if m == map[] then 0
    else
      var k :| k in m;
      m[k] + Sum(m - {k})
  }

  /** The sum does not depend on the key that is split off first. */
  lemma {:induction false} SplitOff<K(!new)>(m: map<K, nat>, k: K)
    requires k in m
    ensures Sum(m) == m[k] + Sum(m - {k})
    decreases |m|
  {
    var j :| j in m && Sum(m) == m[j] + Sum(m - {j});
    if j != k {
      SplitOff(m - {j}, k);
      SplitOff(m - {k}, j);
      assert m - {j} - {k} == m - {k} - {j};
    }
  }

  /** Changing one value changes the sum by the same amount. */
  lemma Update<K(!new)>(m: map<K, nat>, m': map<K, nat>, k: K)
    requires k in m && m'.Keys == m.Keys
    requires forall j | j in m && j != k :: m'[j] == m[j]
    ensures Sum(m') + m[k] == Sum(m) + m'[k]
  {
    SplitOff(m, k);
    SplitOff(m', k);
    assert m - {k} == m' - {k};
  }

  /** Lowering the value of `k` by one if `hit`, and nothing else. */
  lemma LowerIf<K(!new)>(m: map<K, nat>, m': map<K, nat>, k: K, hit: bool)
    requires m'.Keys == m.Keys && (hit ==> k in m)
    requires forall j | j in m :: m'[j] + (if hit && j == k then 1 else 0) == m[j]
    ensures Sum(m') + (if hit then 1 else 0) == Sum(m)
  {
    if hit {
      Update(m, m', k);
    } else {
      assert m == m';
    }
  }

  /** `n * c` by repeated addition, which keeps all reasoning about it linear. */
  ghost function Times(n: nat, c: nat): nat {
    if n == 0 then 0 else c + Times(n - 1, c)
  }

  lemma {:induction false} TimesMono(n: nat, m: nat, c: nat)
    requires n <= m
    ensures Times(n, c) <= Times(m, c)
    ensures n < m ==> Times(n, c) + c <= Times(m, c)
    decreases m
  {
    if n < m {
      TimesMono(n, m - 1, c);
    }
  }

  lemma {:induction false} TimesMonoRight(n: nat, c: nat, d: nat)
    requires c <= d
    ensures Times(n, c) <= Times(n, d)
  {
    if n > 0 {
      TimesMonoRight(n - 1, c, d);
    }
  }

  lemma {:induction false} TimesZero(n: nat)
    ensures Times(n, 0) == 0
  {
    if n > 0 {
      TimesZero(n - 1);
    }
  }

  /** Adding `c` at every key of `on` adds `c` that many times. */
  lemma {:induction false} AddOn<K(!new)>(m: map<K, nat>, m': map<K, nat>, on: set<K>, c: nat)
    requires m'.Keys == m.Keys && on <= m.Keys
    requires forall j | j in m :: m'[j] == m[j] + (if j in on then c else 0)
    ensures Sum(m') == Sum(m) + Times(|on|, c)
    decreases |on|
  {
    if on == {} {
      assert m' == m;
    } else {
      var k :| k in on;
      var mid := m[k := m[k] + c];
      Update(m, mid, k);
      AddOn(mid, m', on - {k}, c);
      assert |on| == |on - {k}| + 1;
    }
  }

  lemma {:induction false} AllZero<K(!new)>(m: map<K, nat>)
    requires forall k | k in m :: m[k] == 0
    ensures Sum(m) == 0
    decreases |m|
  {
    if m != map[] {
      var k :| k in m && Sum(m) == m[k] + Sum(m - {k});
      AllZero(m - {k});
    }
  }

  lemma {:induction false} AllOne<K(!new)>(m: map<K, nat>)
    requires forall k | k in m :: m[k] == 1
    ensures Sum(m) == |m|
    decreases |m|
  {
    if m != map[] {
      var k :| k in m && Sum(m) == m[k] + Sum(m - {k});
      AllOne(m - {k});
      assert m.Keys == (m - {k}).Keys + {k};
      assert |m| == |m.Keys| && |m - {k}| == |(m - {k}).Keys|;
    }
  }

  /** A set of numbers below `n` has at most `n` elements. */
  lemma {:induction false} BoundedCard(s: set<nat>, n: nat)
    requires forall x | x in s :: x < n
    ensures |s| <= n
    decreases n
  {
    if n == 0 {
      assert forall x | x in s :: false;
      assert s == {};
    } else {
      BoundedCard(s - {n - 1}, n - 1);
    }
  }

  /** A sequence without repetition is no longer than a set that holds its elements. */
  lemma {:induction false} DistinctLength<T>(p: seq<T>, s: set<T>)
    requires forall i | 0 <= i < |p| :: p[i] in s
    requires forall i, j | 0 <= i < j < |p| :: p[i] != p[j]
    ensures |p| <= |s|
    decreases |p|
  {
    if p != [] {
      var n := |p| - 1;
      DistinctLength(p[..n], s - {p[n]});
    }
  }

  lemma {:induction false} TimesOne(n: nat)
    ensures Times(n, 1) == n
  {
    if n > 0 {
      TimesOne(n - 1);
    }
  }

  /** How many of the first `k` entries are true. */
  ghost function Hits(h: seq<bool>, k: nat): nat
    requires k <= |h|
  {
    if k == 0 then 0 else Hits(h, k - 1) + (if h[k - 1] then 1 else 0)
  }

  /** Step `i` lowers the number by one if it is a hit, and never raises it. */
  ghost predicate DropAt(ms: seq<nat>, h: seq<bool>, i: nat)
    requires |ms| == |h| + 1
  {
    i < |h| ==> ms[i + 1] + (if h[i] then 1 else 0) <= ms[i]
  }

  /** A number that every hit lowers and nothing raises bounds the number of hits. */
  lemma {:induction false} CountDrops(ms: seq<nat>, h: seq<bool>, k: nat)
    requires |ms| == |h| + 1 && k <= |h|
    requires forall i: nat {:trigger DropAt(ms, h, i)} :: DropAt(ms, h, i)
    ensures Hits(h, k) + ms[k] <= ms[0]
  {
    if k > 0 {
      CountDrops(ms, h, k - 1);
      assert DropAt(ms, h, k - 1);
    }
  }

  /** Step `i` raises the number by one if it is a hit, and leaves it alone otherwise. */
  ghost predicate RiseAt(xs: seq<int>, h: seq<bool>, i: nat)
    requires |xs| == |h| + 1
  {
    i < |h| ==> xs[i + 1] == xs[i] + if h[i] then 1 else 0
  }

  lemma {:induction false} CountRises(xs: seq<int>, h: seq<bool>, k: nat)
    requires |xs| == |h| + 1 && k <= |h|
    requires forall i: nat {:trigger RiseAt(xs, h, i)} :: RiseAt(xs, h, i)
    ensures xs[k] == xs[0] + Hits(h, k)
  {
    if k > 0 {
      CountRises(xs, h, k - 1);
      assert RiseAt(xs, h, k - 1);
    }
  }

  /** `x'` is at most `c` times `x + n`. */
  ghost predicate AtMost(x': nat, x: nat, n: nat, c: nat) {
    x' <= Times(x + n, c)
  }

  lemma ScaledPart(x: nat, x': nat, y: nat, y': nat, n: nat, c: nat)
    requires AtMost(x', x, 1, c) && AtMost(y', y, n, c)
    ensures AtMost(x' + y', x + y, n + 1, c)
  {
    TimesAdd(x + 1, y + n, c);
  }

  ghost predicate ScaledAt<K(!new)>(m: map<K, nat>, m': map<K, nat>, c: nat, k: K) {
    k in m ==> k in m' && AtMost(m'[k], m[k], 1, c)
  }

  lemma ScaledWithout<K(!new)>(m: map<K, nat>, m': map<K, nat>, c: nat, k: K)
    requires forall j {:trigger ScaledAt(m, m', c, j)} :: ScaledAt(m, m', c, j)
    ensures forall j {:trigger ScaledAt(m - {k}, m' - {k}, c, j)} :: ScaledAt(m - {k}, m' - {k}, c, j)
  {
    forall j ensures ScaledAt(m - {k}, m' - {k}, c, j) {
      assert ScaledAt(m, m', c, j);
    }
  }

  lemma OneKeyLess<K>(m: map<K, nat>, k: K)
    requires k in m
    ensures |m - {k}| == |m| - 1
  {
    assert (m - {k}).Keys == m.Keys - {k} && |(m - {k}).Keys| == |m - {k}| && |m.Keys| == |m|;
  }

  /** If each value is at most `c` times one more than before, so is the sum, with one more per key. */
  lemma {:induction false} ScaledSum<K(!new)>(m: map<K, nat>, m': map<K, nat>, c: nat, size: nat)
    requires m'.Keys == m.Keys && |m| == size
    requires forall k {:trigger ScaledAt(m, m', c, k)} :: ScaledAt(m, m', c, k)
    ensures AtMost(Sum(m'), Sum(m), size, c)
    decreases size
  {
    if m == map[] {
      assert m' == map[];
    } else {
      var k :| k in m;
      OneKeyLess(m, k);
      ScaledWithout(m, m', c, k);
      ScaledSum(m - {k}, m' - {k}, c, size - 1);
      assert ScaledAt(m, m', c, k);
      ScaledPart(m[k], m'[k], Sum(m - {k}), Sum(m' - {k}), size - 1, c);
      SplitOff(m, k);
      SplitOff(m', k);
    }
  }

  lemma {:induction false} TimesAdd(a: nat, b: nat, c: nat)
    ensures Times(a + b, c) == Times(a, c) + Times(b, c)
  {
    if a > 0 {
      TimesAdd(a - 1, b, c);
    }
  }

  /** Raising the value of `k` raises the sum. */
  lemma Raise<K(!new)>(m: map<K, nat>, m': map<K, nat>, k: K, c: nat)
    requires k in m && m'.Keys == m.Keys && m'[k] == m[k] + c
    requires forall j | j in m && j != k :: m'[j] == m[j]
    ensures Sum(m') == Sum(m) + c
  {
    Update(m, m', k);
  }

  lemma {:induction false} TimesPlus(c: nat, a: nat, b: nat)
    ensures Times(c, a + b) == Times(c, a) + Times(c, b)
  {
    if c > 0 {
      TimesPlus(c - 1, a, b);
    }
  }

  ghost predicate MoreAt<K(!new)>(m: map<K, nat>, m': map<K, nat>, d: map<K, nat>, c: nat, k: K) {
    k in m ==> k in m' && k in d && m'[k] == m[k] + Times(c, d[k])
  }

  lemma MoreWithout<K(!new)>(m: map<K, nat>, m': map<K, nat>, d: map<K, nat>, c: nat, k: K)
    requires forall j {:trigger MoreAt(m, m', d, c, j)} :: MoreAt(m, m', d, c, j)
    ensures forall j {:trigger MoreAt(m - {k}, m' - {k}, d - {k}, c, j)} :: MoreAt(m - {k}, m' - {k}, d - {k}, c, j)
  {
    forall j ensures MoreAt(m - {k}, m' - {k}, d - {k}, c, j) {
      assert MoreAt(m, m', d, c, j);
    }
  }

  /** Adding `c` times a second map, value by value, adds `c` times its sum. */
  lemma {:induction false} AddScaled<K(!new)>(m: map<K, nat>, m': map<K, nat>, d: map<K, nat>, c: nat)
    requires m'.Keys == m.Keys == d.Keys && forall k {:trigger MoreAt(m, m', d, c, k)} :: MoreAt(m, m', d, c, k)
    ensures Sum(m') == Sum(m) + Times(c, Sum(d))
    decreases |m|
  {
    if m == map[] {
      assert m' == map[] && d == map[];
      TimesZero(c);
    } else {
      var k :| k in m;
      OneKeyLess(m, k);
      MoreWithout(m, m', d, c, k);
      AddScaled(m - {k}, m' - {k}, d - {k}, c);
      assert MoreAt(m, m', d, c, k);
      SplitOff(m, k);
      SplitOff(m', k);
      SplitOff(d, k);
      TimesPlus(c, d[k], Sum(d - {k}));
    }
  }

  lemma SumPlus<K(!new)>(m: map<K, nat>, m': map<K, nat>, d: map<K, nat>)
    requires m'.Keys == m.Keys == d.Keys && forall k | k in m :: m'[k] == m[k] + d[k]
    ensures Sum(m') == Sum(m) + Sum(d)
  {
    forall k ensures MoreAt(m, m', d, 1, k) {
      assert k in d ==> Times(1, d[k]) == d[k];
    }
    AddScaled(m, m', d, 1);
    assert Times(1, Sum(d)) == Sum(d);
  }
}
