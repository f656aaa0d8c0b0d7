/**
 * Sample statistics as pandas computes them (`mean()`, and `std()` with
 * one degree of freedom), and the bound that decides when a z-score test
 * can fire at all.
 *
 * No square root is taken: with `sigma = sqrt(v)` and `v >= 0`,
 * `|d| > t * sigma` holds exactly when `t < 0` or `d * d > t * t * v`
 * (for `v > 0`), and `d > k * sigma` for `k >= 0` exactly when `d > 0` and
 * `d * d > k * k * v`. The predicates below are those right-hand sides.
 */
module Stats {
  import opened Sums

  function Identity(x: real): real { x }

  /** `x -> (x - c)^2`. */
  function SquaredDistanceFrom(c: real): real -> real
  {
    (x: real) => (x - c) * (x - c)
  }

  function Sum(xs: seq<real>): real { SumBy(xs, Identity) }

  /** Sum of squared distances of the values from `c`. */
  function SqDev(xs: seq<real>, c: real): real { SumBy(xs, SquaredDistanceFrom(c)) }

  function Mean(xs: seq<real>): real
    requires |xs| > 0
  {
    Sum(xs) / (|xs| as real)
  }

  /** The sample variance (`ddof = 1`), the square of pandas' `std()`. */
  function SampleVariance(xs: seq<real>): (v: real)
    requires |xs| >= 2
    ensures v >= 0.0
  {
    SqDevNonNegative(xs, Mean(xs));
    SqDev(xs, Mean(xs)) / ((|xs| - 1) as real)
  }

  /** `|d| > t * sqrt(v)`, written without the square root (see above). */
  predicate ExceedsSigmas(d: real, v: real, t: real)
  {
    t < 0.0 || d * d > t * t * v
  }

  /** `d > k * sqrt(v)` for `k >= 0`, written without the square root. */
  predicate AboveSigmas(d: real, v: real, k: real)
  {
    d > 0.0 && d * d > k * k * v
  }

  lemma SquareNonNegative(x: real)
    ensures x * x >= 0.0
  {
    if x < 0.0 {
      assert x * x == (-x) * (-x);
    }
  }

  lemma {:induction false} SqDevNonNegative(xs: seq<real>, c: real)
    ensures SqDev(xs, c) >= 0.0
  {
    if xs != [] {
      SqDevNonNegative(xs[..|xs| - 1], c);
      var x := xs[|xs| - 1];
      SquareNonNegative(x - c);
      assert SquaredDistanceFrom(c)(x) == (x - c) * (x - c);
    }
  }

  /**
   * Cauchy-Schwarz for the distances from `c`:
   * `(sum of (y - c))^2 <= n * sum of (y - c)^2`.
   */
  lemma {:induction false} CauchySchwarz(ys: seq<real>, c: real)
    ensures (Sum(ys) - (|ys| as real) * c) * (Sum(ys) - (|ys| as real) * c)
            <= (|ys| as real) * SqDev(ys, c)
  {
    if ys != [] {
      var init, y := ys[..|ys| - 1], ys[|ys| - 1];
      CauchySchwarz(init, c);
      SqDevNonNegative(init, c);
      var n, k := |ys| as real, |init| as real;
      var e := y - c;
      assert n == k + 1.0;
      assert n * c == k * c + c by {
        assert n * c == (k + 1.0) * c;
      }
      assert Sum(ys) == Sum(init) + y;
      assert SqDev(ys, c) == SqDev(init, c) + e * e by {
        assert SquaredDistanceFrom(c)(y) == e * e;
      }
      CauchySchwarzStep(Sum(ys) - n * c, n, SqDev(ys, c), k, Sum(init) - k * c, SqDev(init, c), e);
    }
  }

  /**
   * The arithmetic of one Cauchy-Schwarz step: from `s^2 <= k q` for the
   * first `k` values to `(s + e)^2 <= (k + 1)(q + e^2)` with one more.
   */
  lemma CauchySchwarzStep(total: real, n: real, sq: real, k: real, s: real, q: real, e: real)
    requires total == s + e && n == k + 1.0 && sq == q + e * e
    requires k >= 0.0 && q >= 0.0 && s * s <= k * q
    requires k == 0.0 ==> s == 0.0
    ensures total * total <= n * sq
  {
    CrossTerm(k, s, q, e);
    assert (s + e) * (s + e) == s * s + 2.0 * s * e + e * e;
    assert (k + 1.0) * (q + e * e) == k * q + (q + k * e * e) + e * e;
  }

  /** `2se <= q + k e^2` whenever `s^2 <= k q`. */
  lemma CrossTerm(k: real, s: real, q: real, e: real)
    requires k >= 0.0 && q >= 0.0 && s * s <= k * q
    requires k == 0.0 ==> s == 0.0
    ensures 2.0 * s * e <= q + k * e * e
  {
    if k > 0.0 {
      SquareNonNegative(s - k * e);
      assert (s - k * e) * (s - k * e) == s * s - 2.0 * k * s * e + k * k * e * e;
      assert k * (q + k * e * e) >= k * (2.0 * s * e);
      DivideByPositive(k, q + k * e * e, 2.0 * s * e);
    } else {
      SquareNonNegative(e);
      assert k * e * e == 0.0;
    }
  }

  lemma DivideByPositive(k: real, a: real, b: real)
    requires k > 0.0 && k * a >= k * b
    ensures a >= b
  {
  }

  /** Taking out the element at `j` takes its term out of the sum. */
  lemma SumByRemove<T>(xs: seq<T>, j: int, f: T -> real)
    requires 0 <= j < |xs|
    ensures SumBy(xs, f) == SumBy(xs[..j] + xs[j + 1..], f) + f(xs[j])
  {
    var a, x, b := xs[..j], xs[j], xs[j + 1..];
    assert xs[..j + 1] == a + [x];
    assert xs == xs[..j + 1] + b;
    SumByMiddle(a, x, b, f);
  }

  lemma SumByMiddle<T>(a: seq<T>, x: T, b: seq<T>, f: T -> real)
    ensures SumBy(a + [x] + b, f) == SumBy(a + b, f) + f(x)
  {
    SumByAppend(a + [x], b, f);
    SumByAppend(a, [x], f);
    SumBySingle(x, f);
    SumByAppend(a, b, f);
  }

  /** Reordering the elements does not change the sum. */
  lemma {:induction false} SumByPermutation<T>(a: seq<T>, b: seq<T>, f: T -> real)
    requires multiset(a) == multiset(b)
    ensures SumBy(a, f) == SumBy(b, f)
    decreases |a|
  {
    if a != [] {
      var init, x := a[..|a| - 1], a[|a| - 1];
      assert a == init + [x];
      assert x in multiset(b);
      var j :| 0 <= j < |b| && b[j] == x;
      var rest := b[..j] + b[j + 1..];
      assert b == b[..j] + [x] + b[j + 1..];
      assert multiset(b) == multiset(b[..j]) + multiset{x} + multiset(b[j + 1..]);
      assert multiset(rest) == multiset(b[..j]) + multiset(b[j + 1..]);
      assert multiset(init) + multiset{x} == multiset(rest) + multiset{x};
      assert multiset(init) == multiset(init) + multiset{x} - multiset{x};
      assert multiset(rest) == multiset(rest) + multiset{x} - multiset{x};
      assert multiset(a) == multiset(init) + multiset{x};
      SumByPermutation(init, rest, f);
      SumByRemove(b, j, f);
    }
  }

  /**
   * No value lies further from the mean than the sample allows:
   * `n * (x_j - mean)^2 <= (n - 1) * sum of (x_i - mean)^2`.
   */
  lemma DeviationBound(xs: seq<real>, j: int)
    requires |xs| >= 1 && 0 <= j < |xs|
    ensures var m := Mean(xs);
            (|xs| as real) * ((xs[j] - m) * (xs[j] - m)) <= ((|xs| - 1) as real) * SqDev(xs, m)
  {
    var m := Mean(xs);
    var rest := xs[..j] + xs[j + 1..];
    var n, d := |xs| as real, xs[j] - m;
    WithoutOne(xs, j);
    CauchySchwarz(rest, m);
    RemovedDeviation(n, d, SqDev(xs, m), SqDev(rest, m), Sum(rest) - (|rest| as real) * m, |rest| as real);
    assert ((|xs| - 1) as real) == n - 1.0;
  }

  /**
   * Without the value at `j` the others are off the mean by `-(x_j - mean)`
   * in total, and their squared distances lose `(x_j - mean)^2`.
   */
  lemma WithoutOne(xs: seq<real>, j: int)
    requires |xs| >= 1 && 0 <= j < |xs|
    ensures var m, rest := Mean(xs), xs[..j] + xs[j + 1..];
            && |rest| as real == (|xs| as real) - 1.0
            && Sum(rest) - (|rest| as real) * m == -(xs[j] - m)
            && SqDev(rest, m) == SqDev(xs, m) - (xs[j] - m) * (xs[j] - m)
  {
    RestSum(xs, j);
    RestSqDev(xs, j, Mean(xs));
  }

  /** Without `x_j` the squared distances from `c` lose `(x_j - c)^2`. */
  lemma RestSqDev(xs: seq<real>, j: int, c: real)
    requires 0 <= j < |xs|
    ensures SqDev(xs[..j] + xs[j + 1..], c) == SqDev(xs, c) - (xs[j] - c) * (xs[j] - c)
  {
    var f := SquaredDistanceFrom(c);
    SumByRemove(xs, j, f);
    assert f(xs[j]) == (xs[j] - c) * (xs[j] - c);
  }

  /** The values other than `x_j` are off the mean by `-(x_j - mean)` in total. */
  lemma RestSum(xs: seq<real>, j: int)
    requires |xs| >= 1 && 0 <= j < |xs|
    ensures var m, rest := Mean(xs), xs[..j] + xs[j + 1..];
            Sum(rest) - (|rest| as real) * m == -(xs[j] - m)
  {
    var n := |xs| as real;
    var m := Mean(xs);
    var rest := xs[..j] + xs[j + 1..];
    var r := |rest| as real;
    assert |rest| == |xs| - 1;
    SumByRemove(xs, j, Identity);
    MeanTimesCount(Sum(xs), n, m);
    CountDown(n, r, m);
  }

  /** `m = total / n` gives `total = n * m`. */
  lemma MeanTimesCount(total: real, n: real, m: real)
    requires n > 0.0 && m == total / n
    ensures total == n * m
  {
  }

  /** `r = n - 1` gives `r * m = n * m - m`. */
  lemma CountDown(n: real, r: real, m: real)
    requires r == n - 1.0
    ensures r * m == n * m - m
  {
  }

  /** The arithmetic that closes `DeviationBound`. */
  lemma RemovedDeviation(n: real, d: real, total: real, rest: real, s: real, r: real)
    requires rest == total - d * d
    requires s == -d && r == n - 1.0 && s * s <= r * rest
    ensures n * (d * d) <= (n - 1.0) * total
  {
    assert s * s == d * d;
    assert (n - 1.0) * rest == (n - 1.0) * total - (n - 1.0) * (d * d);
    assert n * (d * d) == d * d + (n - 1.0) * (d * d);
  }

  /**
   * The largest squared z-score a sample of `n` values can hold is
   * `(n - 1)^2 / n`: whenever that is at most `t^2`, no value is more than
   * `t` sample standard deviations from the mean.
   */
  lemma ZScoreBound(xs: seq<real>, j: int, t: real)
    requires |xs| >= 2 && 0 <= j < |xs| && t >= 0.0
    requires ((|xs| - 1) * (|xs| - 1)) as real <= t * t * (|xs| as real)
    ensures var d := xs[j] - Mean(xs);
            d * d <= t * t * SampleVariance(xs)
  {
    var n := |xs| as real;
    var m := Mean(xs);
    var d := xs[j] - m;
    var v := SampleVariance(xs);
    DeviationBound(xs, j);
    SqDevNonNegative(xs, m);
    assert SqDev(xs, m) == (n - 1.0) * v;
    assert n * (d * d) <= (n - 1.0) * (n - 1.0) * v;
    assert (n - 1.0) * (n - 1.0) * v <= t * t * n * v;
    assert n * (d * d) <= n * (t * t * v);
  }

  /** In a sample of two to five values no value is beyond two standard deviations. */
  lemma NoTwoSigmaValueInFive(xs: seq<real>, j: int)
    requires 2 <= |xs| <= 5 && 0 <= j < |xs|
    ensures !ExceedsSigmas(xs[j] - Mean(xs), SampleVariance(xs), 2.0)
  {
    ZScoreBound(xs, j, 2.0);
  }

  /** In a sample of two to ten values no value is above three standard deviations. */
  lemma NoThreeSigmaValueInTen(xs: seq<real>, j: int)
    requires 2 <= |xs| <= 10 && 0 <= j < |xs|
    ensures !AboveSigmas(xs[j] - Mean(xs), SampleVariance(xs), 3.0)
  {
    ZScoreBound(xs, j, 3.0);
  }
}
