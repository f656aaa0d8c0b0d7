/**
 * Folds shared by every aggregation in the system: sums over a sequence,
 * the sub-sequence of rows in one group (what a pandas `groupby` or a
 * dictionary-accumulating loop collects), group totals, and sums over a
 * dictionary of per-key totals taken in a fixed key order.
 *
 * Every fold peels off the LAST element, so that a loop which walks a
 * sequence from the front keeps the invariant `acc == Fold(s[..i])`.
 */
module Sums {

  /** Sum of `f(x)` over the elements of `xs`, in order. */
  function SumBy<T>(xs: seq<T>, f: T -> real): real
  {
    if xs == [] then 0.0 else SumBy(xs[..|xs| - 1], f) + f(xs[|xs| - 1])
  }

  lemma {:induction false} SumByAppend<T>(a: seq<T>, b: seq<T>, f: T -> real)
    ensures SumBy(a + b, f) == SumBy(a, f) + SumBy(b, f)
  {
    if b == [] {
      assert a + b == a;
    } else {
      assert (a + b)[..|a + b| - 1] == a + b[..|b| - 1];
      SumByAppend(a, b[..|b| - 1], f);
    }
  }

  lemma SumBySingle<T>(x: T, f: T -> real)
    ensures SumBy([x], f) == f(x)
  {
    assert [x][..0] == [];
  }

  /** Every term non-positive makes the sum non-positive (and dually). */
  lemma {:induction false} SumBySign<T>(xs: seq<T>, f: T -> real)
    ensures (forall x :: x in xs ==> f(x) <= 0.0) ==> SumBy(xs, f) <= 0.0
    ensures (forall x :: x in xs ==> f(x) >= 0.0) ==> SumBy(xs, f) >= 0.0
  {
    if xs != [] {
      SumBySign(xs[..|xs| - 1], f);
      assert forall x :: x in xs[..|xs| - 1] ==> x in xs;
    }
  }

  /** A sum of scaled terms is the scaled sum. */
  lemma {:induction false} SumByScale<T>(xs: seq<T>, f: T -> real, g: T -> real, a: real)
    requires forall x :: x in xs ==> g(x) == a * f(x)
    ensures SumBy(xs, g) == a * SumBy(xs, f)
  {
    if xs != [] {
      assert forall x :: x in xs[..|xs| - 1] ==> x in xs;
      SumByScale(xs[..|xs| - 1], f, g, a);
    }
  }

  /** The elements `x` of `xs` with `key(x) == k`, in their original order. */
  function Select<T, K(==)>(xs: seq<T>, key: T -> K, k: K): (r: seq<T>)
    ensures |r| <= |xs|
    ensures forall x :: x in r ==> x in xs && key(x) == k
  {
    if xs == [] then []
    else
      var init := Select(xs[..|xs| - 1], key, k);
      assert forall x :: x in xs[..|xs| - 1] ==> x in xs;
      init + (if key(xs[|xs| - 1]) == k then [xs[|xs| - 1]] else [])
  }

  /** The elements of `xs` that satisfy `p`, in order. */
  function Where<T(!new)>(xs: seq<T>, p: T -> bool): (r: seq<T>)
    ensures |r| <= |xs|
    ensures forall x :: x in r <==> x in xs && p(x)
  {
    SelectComplete(xs, p, true);
    Select(xs, p, true)
  }

  /** Select keeps every matching element: membership is an if-and-only-if. */
  lemma {:induction false} SelectComplete<T, K>(xs: seq<T>, key: T -> K, k: K)
    ensures forall x :: x in Select(xs, key, k) <==> x in xs && key(x) == k
  {
    if xs != [] {
      SelectComplete(xs[..|xs| - 1], key, k);
      assert xs == xs[..|xs| - 1] + [xs[|xs| - 1]];
    }
  }

  lemma SelectAppend<T, K>(xs: seq<T>, x: T, key: T -> K, k: K)
    ensures Select(xs + [x], key, k) == Select(xs, key, k) + (if key(x) == k then [x] else [])
  {
    assert (xs + [x])[..|xs + [x]| - 1] == xs;
  }

  /** The set of keys that occur in `xs`. */
  function KeySet<T, K>(xs: seq<T>, key: T -> K): set<K>
  {
    set i | 0 <= i < |xs| :: key(xs[i])
  }

  lemma SelectEmptyIffAbsent<T, K>(xs: seq<T>, key: T -> K, k: K)
    ensures Select(xs, key, k) == [] <==> k !in KeySet(xs, key)
  {
    SelectComplete(xs, key, k);
    if k in KeySet(xs, key) {
      var i :| 0 <= i < |xs| && key(xs[i]) == k;
      assert xs[i] in Select(xs, key, k);
    }
  }

  lemma KeySetAppend<T, K>(xs: seq<T>, x: T, key: T -> K)
    ensures KeySet(xs + [x], key) == KeySet(xs, key) + {key(x)}
  {
    var ys := xs + [x];
    forall k | k in KeySet(xs, key) ensures k in KeySet(ys, key) {
      var i :| 0 <= i < |xs| && key(xs[i]) == k;
      assert ys[i] == xs[i];
    }
    assert ys[|xs|] == x;
  }

  /** `Where` keeps the elements that pass, and adding one at the end adds it when it passes. */
  lemma WhereAppend<T(!new)>(xs: seq<T>, x: T, p: T -> bool)
    ensures Where(xs + [x], p) == Where(xs, p) + (if p(x) then [x] else [])
  {
    SelectAppend(xs, x, p, true);
  }

  /** Total of `f` over the rows of group `k`. */
  function GroupTotal<T, K(==)>(xs: seq<T>, f: T -> real, key: T -> K, k: K): real
  {
    SumBy(Select(xs, key, k), f)
  }

  lemma GroupTotalAppend<T, K>(xs: seq<T>, x: T, f: T -> real, key: T -> K, k: K)
    ensures GroupTotal(xs + [x], f, key, k)
            == GroupTotal(xs, f, key, k) + (if key(x) == k then f(x) else 0.0)
  {
    SelectAppend(xs, x, key, k);
    SumByAppend(Select(xs, key, k), if key(x) == k then [x] else [], f);
    if key(x) == k { SumBySingle(x, f); }
  }

  /** The per-group totals, one entry per key that occurs. */
  function GroupMap<T, K(==)>(xs: seq<T>, f: T -> real, key: T -> K): (m: map<K, real>)
    ensures m.Keys == KeySet(xs, key)
  {
    map k | k in KeySet(xs, key) :: GroupTotal(xs, f, key, k)
  }

  predicate Distinct<K(==)>(ks: seq<K>)
  {
    forall i, j :: 0 <= i < j < |ks| ==> ks[i] != ks[j]
  }

  /**
   * Sum of the values of `m` taken in the order of `ks` (keys of `ks` that
   * are absent from `m` add nothing).
   */
  function SumMapOver<K(==)>(m: map<K, real>, ks: seq<K>): real
  {
    if ks == [] then 0.0
    else SumMapOver(m, ks[..|ks| - 1]) + (if ks[|ks| - 1] in m then m[ks[|ks| - 1]] else 0.0)
  }

  /** One more key of `ks` adds its value, if `m` has one. */
  lemma SumMapOverPrefix<K>(m: map<K, real>, ks: seq<K>, i: int)
    requires 0 <= i < |ks|
    ensures SumMapOver(m, ks[..i + 1]) == SumMapOver(m, ks[..i]) + (if ks[i] in m then m[ks[i]] else 0.0)
  {
    assert ks[..i + 1][..i] == ks[..i];
  }

  /** Sum of the per-group totals over the keys `ks`. */
  function TotalOver<T, K(==)>(xs: seq<T>, f: T -> real, key: T -> K, ks: seq<K>): real
  {
    if ks == [] then 0.0
    else TotalOver(xs, f, key, ks[..|ks| - 1]) + GroupTotal(xs, f, key, ks[|ks| - 1])
  }

  lemma {:induction false} TotalOverEmpty<T, K>(f: T -> real, key: T -> K, ks: seq<K>)
    ensures TotalOver([], f, key, ks) == 0.0
  {
    if ks != [] { TotalOverEmpty(f, key, ks[..|ks| - 1]); }
  }

  lemma {:induction false} TotalOverStep<T, K>(xs: seq<T>, x: T, f: T -> real, key: T -> K, ks: seq<K>)
    requires Distinct(ks)
    ensures TotalOver(xs + [x], f, key, ks)
            == TotalOver(xs, f, key, ks) + (if key(x) in ks then f(x) else 0.0)
  {
    if ks != [] {
      var init, k := ks[..|ks| - 1], ks[|ks| - 1];
      assert ks == init + [k];
      TotalOverStep(xs, x, f, key, init);
      GroupTotalAppend(xs, x, f, key, k);
      assert key(x) in ks <==> key(x) in init || key(x) == k;
      assert key(x) == k ==> key(x) !in init;
    }
  }

  /**
   * Grouping loses nothing: summing the group totals over a duplicate-free
   * list of keys that covers every row gives the total of all rows.
   */
  lemma {:induction false} Grouping<T, K>(xs: seq<T>, f: T -> real, key: T -> K, ks: seq<K>)
    requires Distinct(ks)
    requires forall x :: x in xs ==> key(x) in ks
    ensures TotalOver(xs, f, key, ks) == SumBy(xs, f)
  {
    if xs == [] {
      TotalOverEmpty(f, key, ks);
    } else {
      var init, x := xs[..|xs| - 1], xs[|xs| - 1];
      assert xs == init + [x];
      assert forall y :: y in init ==> y in xs;
      Grouping(init, f, key, ks);
      TotalOverStep(init, x, f, key, ks);
    }
  }

  /** The group map summed over `ks` is the sum of the group totals over `ks`. */
  lemma {:induction false} SumGroupMap<T, K>(xs: seq<T>, f: T -> real, key: T -> K, ks: seq<K>)
    ensures SumMapOver(GroupMap(xs, f, key), ks) == TotalOver(xs, f, key, ks)
  {
    if ks != [] {
      SumGroupMap(xs, f, key, ks[..|ks| - 1]);
      var k := ks[|ks| - 1];
      SelectEmptyIffAbsent(xs, key, k);
    }
  }

  /** Scaling every value of a map scales its sum. */
  lemma {:induction false} SumMapScale<K>(m: map<K, real>, m2: map<K, real>, a: real, ks: seq<K>)
    requires m2.Keys == m.Keys
    requires forall k :: k in m ==> m2[k] == m[k] * a
    ensures SumMapOver(m2, ks) == a * SumMapOver(m, ks)
  {
    if ks != [] { SumMapScale(m, m2, a, ks[..|ks| - 1]); }
  }

  /** Negating every value of a map negates its sum. */
  lemma {:induction false} SumMapNegate<K>(m: map<K, real>, m2: map<K, real>, ks: seq<K>)
    requires m2.Keys == m.Keys
    requires forall k :: k in m ==> m2[k] == -m[k]
    ensures SumMapOver(m2, ks) == -SumMapOver(m, ks)
  {
    if ks != [] { SumMapNegate(m, m2, ks[..|ks| - 1]); }
  }

  /** Two maps that agree on the keys of `ks` have the same sum over `ks`. */
  lemma {:induction false} SumMapAgree<K>(m: map<K, real>, m2: map<K, real>, ks: seq<K>)
    requires forall k :: k in ks ==> (k in m <==> k in m2)
    requires forall k :: k in ks && k in m ==> m[k] == m2[k]
    ensures SumMapOver(m, ks) == SumMapOver(m2, ks)
  {
    if ks != [] { SumMapAgree(m, m2, ks[..|ks| - 1]); }
  }

  /** A map all of whose values are zero sums to zero. */
  lemma {:induction false} SumMapZero<K>(m: map<K, real>, ks: seq<K>)
    requires forall k :: k in m ==> m[k] == 0.0
    ensures SumMapOver(m, ks) == 0.0
  {
    if ks != [] { SumMapZero(m, ks[..|ks| - 1]); }
  }

  /**
   * Grouping, stated on the map of group totals: summed over a
   * duplicate-free key list that covers every row, the per-group totals
   * give the total of all rows.
   */
  lemma GroupMapTotal<T, K>(xs: seq<T>, f: T -> real, key: T -> K, ks: seq<K>)
    requires Distinct(ks)
    requires forall x :: x in xs ==> key(x) in ks
    ensures SumMapOver(GroupMap(xs, f, key), ks) == SumBy(xs, f)
  {
    SumGroupMap(xs, f, key, ks);
    Grouping(xs, f, key, ks);
  }

  /** A map split into two disjoint parts sums to the sum of the parts. */
  lemma {:induction false} SumMapPartition<K>(m: map<K, real>, m1: map<K, real>, m2: map<K, real>, ks: seq<K>)
    requires forall k :: k in m <==> k in m1 || k in m2
    requires forall k :: k in m1 ==> k !in m2
    requires forall k :: k in m1 ==> m1[k] == m[k]
    requires forall k :: k in m2 ==> m2[k] == m[k]
    ensures SumMapOver(m, ks) == SumMapOver(m1, ks) + SumMapOver(m2, ks)
  {
    if ks != [] { SumMapPartition(m, m1, m2, ks[..|ks| - 1]); }
  }

  /** Keys in order of first appearance (what pandas' `unique()` returns). */
  function Dedup<K(==,!new)>(ks: seq<K>): (r: seq<K>)
    ensures Distinct(r)
    ensures forall k :: k in r <==> k in ks
  {
    if ks == [] then []
    else
      var init := Dedup(ks[..|ks| - 1]);
      var k := ks[|ks| - 1];
      assert forall j :: j in ks <==> j in ks[..|ks| - 1] || j == k;
      if k in init then init else init + [k]
  }

  /** The keys of `xs`, in order of first appearance. */
  function KeysInOrder<T, K(==,!new)>(xs: seq<T>, key: T -> K): (r: seq<K>)
    ensures Distinct(r)
    ensures forall k :: k in r <==> k in KeySet(xs, key)
  {
    var ks := seq(|xs|, i requires 0 <= i < |xs| => key(xs[i]));
    assert forall k :: k in ks <==> k in KeySet(xs, key) by {
      forall k ensures k in ks <==> k in KeySet(xs, key) {
        if k in KeySet(xs, key) {
          var i :| 0 <= i < |xs| && key(xs[i]) == k;
          assert ks[i] == k;
        }
      }
    }
    Dedup(ks)
  }

  /** The groups of `xs`, summed in the order their keys first appear, add up to the total of `xs`. */
  lemma GroupsSumInOrder<T, K(!new)>(xs: seq<T>, f: T -> real, key: T -> K)
    ensures SumMapOver(GroupMap(xs, f, key), KeysInOrder(xs, key)) == SumBy(xs, f)
  {
    var ks := KeysInOrder(xs, key);
    forall x | x in xs ensures key(x) in ks {
      var i :| 0 <= i < |xs| && xs[i] == x;
      assert key(xs[i]) in KeySet(xs, key);
    }
    GroupMapTotal(xs, f, key, ks);
  }
}
