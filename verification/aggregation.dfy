/** The arithmetic every copy of the risk engine shares: JavaScript's
    `Math.round`, the one-decimal percentage `Math.round(avg * 1000) / 10`,
    the left-to-right `reduce` sum, and the bounds of a weighted mean. */
module Aggregation {

  /** The three recommended actions; the client copies label `Review`
      "ENHANCED DUE DILIGENCE". */
  datatype Action = Approve | Review | Block

  /** A scenario's confidence distribution: a base and a spread around it. */
  datatype Profile = Profile(base: real, variance: real)

  /** `base + (Math.random() - 0.5) * variance * 2` for the draw `u`. */
  function RawConfidence(p: Profile, u: real): real {
    p.base + (u - 0.5) * p.variance * 2.0
  }

  /** The names every plain JavaScript object inherits from `Object.prototype`.
      Indexing a scenario table with one of them finds an inherited member,
      which is truthy, so `table[name] || table.high` keeps it and its `base`
      and `variance` are `undefined`. */
  predicate InheritedName(id: string) {
    id in {"constructor", "__proto__", "toString", "toLocaleString", "valueOf", "hasOwnProperty",
           "isPrototypeOf", "propertyIsEnumerable", "__defineGetter__", "__defineSetter__",
           "__lookupGetter__", "__lookupSetter__"}
  }

  /** A real number with no fractional part. */
  predicate IsWhole(x: real) {
    x == x.Floor as real
  }

  /** JavaScript's `Math.round(x)`: the nearest integer, halves rounded up. */
  function Round(x: real): (r: int)
    ensures x - 0.5 < r as real <= x + 0.5
  {
    (x + 0.5).Floor
  }

  lemma RoundMonotone(a: real, b: real)
    requires a <= b
    ensures Round(a) <= Round(b)
  {
  }

  lemma RoundWithin(x: real, lo: int, hi: int)
    requires lo as real <= x <= hi as real
    ensures lo <= Round(x) <= hi
  {
  }

  /** `Math.round(x)` never exceeds an integer bound `n` that `x` stays below. */
  lemma RoundBelow(x: real, n: int)
    requires x < n as real
    ensures Round(x) <= n
  {
  }

  /** `Math.round(x * 1000) / 10`: a fraction `x` as a percentage with one decimal. */
  function OneDecimal(x: real): (r: real)
    ensures 100.0 * x - 0.05 < r <= 100.0 * x + 0.05
    ensures IsWhole(r * 10.0)
  {
    var n := Round(x * 1000.0);
    assert (n as real / 10.0) * 10.0 == n as real;
    n as real / 10.0
  }

  /** A fraction whose percentage lies between two whole numbers keeps its
      one-decimal percentage between them. */
  lemma OneDecimalWithin(x: real, lo: int, hi: int)
    requires lo as real <= 100.0 * x <= hi as real
    ensures lo as real <= OneDecimal(x) <= hi as real
  {
    RoundWithin(x * 1000.0, 10 * lo, 10 * hi);
  }

  /** The one-decimal percentage is `k / 10` exactly when `1000 * x` rounds to `k`. */
  lemma OneDecimalExact(x: real, k: int)
    requires k as real - 0.5 <= 1000.0 * x < k as real + 0.5
    ensures OneDecimal(x) == k as real / 10.0
  {
    assert Round(x * 1000.0) == k;
  }

  lemma OneDecimalMonotone(a: real, b: real)
    requires a <= b
    ensures OneDecimal(a) <= OneDecimal(b)
  {
    RoundMonotone(a * 1000.0, b * 1000.0);
  }

  /** `s.reduce((acc, x) => acc + f(x), 0)`, accumulated left to right. */
  function SumBy<T>(s: seq<T>, f: T -> real): real
    decreases |s|
  {
    if |s| == 0 then 0.0 else SumBy(s[..|s| - 1], f) + f(s[|s| - 1])
  }

  lemma SumByAppend<T>(s: seq<T>, x: T, f: T -> real)
    ensures SumBy(s + [x], f) == SumBy(s, f) + f(x)
  {
    assert (s + [x])[..|s|] == s;
  }

  /** The sum of a prefix grows by the next element's term. */
  lemma SumByStep<T>(s: seq<T>, i: nat, f: T -> real)
    requires i < |s|
    ensures SumBy(s[..i + 1], f) == SumBy(s[..i], f) + f(s[i])
  {
    assert s[..i + 1][..i] == s[..i];
  }

  /** Two sums agree when their terms agree on every element. */
  lemma {:induction false} SumByCongruent<T>(s: seq<T>, f: T -> real, g: T -> real)
    requires forall x :: x in s ==> f(x) == g(x)
    ensures SumBy(s, f) == SumBy(s, g)
  {
    if |s| > 0 {
      var init := s[..|s| - 1];
      assert forall x :: x in init ==> x in s;
      SumByCongruent(init, f, g);
      assert s[|s| - 1] in s;
    }
  }

  /** A sum of non-negative terms is non-negative and bounds each of its terms. */
  lemma {:induction false} SumByDominates<T>(s: seq<T>, f: T -> real)
    requires forall x :: x in s ==> f(x) >= 0.0
    ensures SumBy(s, f) >= 0.0
    ensures forall x :: x in s ==> f(x) <= SumBy(s, f)
  {
    if |s| > 0 {
      var init := s[..|s| - 1];
      assert forall x :: x in init ==> x in s;
      SumByDominates(init, f);
      assert forall x :: x in s ==> x in init || x == s[|s| - 1];
    }
  }

  /** Dividing every term by `c` divides the sum by `c`. */
  lemma {:induction false} SumByScaled<T>(s: seq<T>, f: T -> real, g: T -> real, c: real)
    requires c != 0.0
    requires forall x :: x in s ==> g(x) == f(x) / c
    ensures SumBy(s, g) == SumBy(s, f) / c
  {
    if |s| > 0 {
      var init := s[..|s| - 1];
      assert forall x :: x in init ==> x in s;
      SumByScaled(init, f, g, c);
      var last := s[|s| - 1];
      assert last in s;
      DivAdd(SumBy(init, f), f(last), c);
    }
  }

  /** Division distributes over a sum. */
  lemma DivAdd(a: real, b: real, c: real)
    requires c != 0.0
    ensures (a + b) / c == a / c + b / c
  {
    assert (a / c) * c == a && (b / c) * c == b;
    assert (a / c + b / c) * c == a + b;
  }

  /** Each term is at least `lo` times its weight, so the sum of the terms is
      at least `lo` times the total weight. */
  lemma {:induction false} WeightedLower<T>(s: seq<T>, w: T -> real, t: T -> real, lo: real)
    requires forall x :: x in s ==> lo * w(x) <= t(x)
    ensures lo * SumBy(s, w) <= SumBy(s, t)
  {
    if |s| > 0 {
      var init := s[..|s| - 1];
      var last := s[|s| - 1];
      assert forall x :: x in init ==> x in s;
      WeightedLower(init, w, t, lo);
      assert last in s;
      Distribute(lo, SumBy(init, w), w(last));
    }
  }

  /** Each term is at most `hi` times its weight, so the sum of the terms is
      at most `hi` times the total weight. */
  lemma {:induction false} WeightedUpper<T>(s: seq<T>, w: T -> real, t: T -> real, hi: real)
    requires forall x :: x in s ==> t(x) <= hi * w(x)
    ensures SumBy(s, t) <= hi * SumBy(s, w)
  {
    if |s| > 0 {
      var init := s[..|s| - 1];
      var last := s[|s| - 1];
      assert forall x :: x in init ==> x in s;
      WeightedUpper(init, w, t, hi);
      assert last in s;
      Distribute(hi, SumBy(init, w), w(last));
    }
  }

  /** Each term lies between `lo` and `hi` times its weight, so the sum of the
      terms lies between `lo` and `hi` times the total weight. */
  lemma WeightedBounds<T>(s: seq<T>, w: T -> real, t: T -> real, lo: real, hi: real)
    requires forall x :: x in s ==> lo * w(x) <= t(x) <= hi * w(x)
    ensures lo * SumBy(s, w) <= SumBy(s, t) <= hi * SumBy(s, w)
  {
    WeightedLower(s, w, t, lo);
    WeightedUpper(s, w, t, hi);
  }

  lemma Distribute(c: real, a: real, b: real)
    ensures c * (a + b) == c * a + c * b
  {
  }

  /** A weighted mean with positive total weight lies between the bounds of
      its terms. */
  lemma MeanWithin(num: real, den: real, lo: real, hi: real)
    requires den > 0.0
    requires lo * den <= num <= hi * den
    ensures lo <= num / den <= hi
  {
    var m := num / den;
    assert m * den == num;
    assert (m - lo) * den >= 0.0 && (hi - m) * den >= 0.0;
  }

  /** Percent confidences `c` between whole numbers `lo` and `hi`, weighted by
      non-negative weights with a positive total: the one-decimal weighted
      mean of `c / 100` stays between `lo` and `hi`. */
  lemma {:induction false} ScoreWithin<T>(s: seq<T>, w: T -> real, c: T -> real, t: T -> real, lo: int, hi: int)
    requires forall x :: x in s ==> w(x) >= 0.0 && lo as real <= c(x) <= hi as real
    requires forall x :: x in s ==> t(x) == c(x) / 100.0 * w(x)
    requires SumBy(s, w) > 0.0
    ensures lo as real <= OneDecimal(SumBy(s, t) / SumBy(s, w)) <= hi as real
  {
    var l := lo as real / 100.0;
    var h := hi as real / 100.0;
    forall x | x in s ensures l * w(x) <= t(x) <= h * w(x) {
      assert l <= c(x) / 100.0 <= h;
    }
    WeightedBounds(s, w, t, l, h);
    MeanWithin(SumBy(s, t), SumBy(s, w), l, h);
    OneDecimalWithin(SumBy(s, t) / SumBy(s, w), lo, hi);
  }
}
