/** The arithmetic of the axis labels: how many horizontal labels split a
    span of buckets evenly, the "nice" rounding of the top of the Y axis and
    the widening of a degenerate Y range. */
module AxisLabels {
  import opened JavaNumerics

  /** `l` labels split the buckets from `m` to `n` into `l - 1` equal steps. */
  predicate SplitsEvenly(m: int, n: int, l: int)
    requires l != 1
  {
    (n - m) % (l - 1) == 0
  }

  /** The loop of `calculateNumLabels` from `l` down to 3: the first count
      that splits the span evenly, or 0 when none does. */
  function SearchDown(m: int, n: int, l: int): (r: int)
    requires 2 <= l <= 8
    ensures r == 0 || (3 <= r <= l && SplitsEvenly(m, n, r))
    ensures 3 <= l && SplitsEvenly(m, n, 3) ==> r != 0
    decreases l
  {
    if l < 3 then 0
    else if SplitsEvenly(m, n, l) then l
    else SearchDown(m, n, l - 1)
  }

  /** The search stops at the first count that fits: no larger one does. */
  lemma {:induction false} SearchDownLargest(m: int, n: int, l: int)
    requires 2 <= l <= 8
    ensures forall k :: 3 <= k <= l && SearchDown(m, n, l) < k ==> !SplitsEvenly(m, n, k)
    decreases l
  {
    if l >= 3 && !SplitsEvenly(m, n, l) {
      SearchDownLargest(m, n, l - 1);
    }
  }

  /** `calculateNumLabels(m, n)`: a label count in 3..8 that splits the
      bucket span `n - m` evenly, or 0 when there is none. An even span always
      has one (three labels at worst). */
  function NumLabels(m: int, n: int): (l: int)
    ensures l == 0 || (3 <= l <= 8 && SplitsEvenly(m, n, l))
    ensures (n - m) % 2 == 0 ==> l != 0
  {
    assert (n - m) % 2 == 0 ==> SplitsEvenly(m, n, 3);
    SearchDown(m, n, 8)
  }

  /** The count is the largest that fits. */
  lemma NumLabelsLargest(m: int, n: int)
    ensures forall k :: 3 <= k <= 8 && NumLabels(m, n) < k ==> !SplitsEvenly(m, n, k)
  {
    SearchDownLargest(m, n, 8);
  }

  /** A span has no label count exactly when it is odd and a multiple of
      none of 3, 5 and 7. */
  lemma NoLabelsExactly(m: int, n: int)
    ensures NumLabels(m, n) == 0 <==>
      (n - m) % 2 != 0 && (n - m) % 3 != 0 && (n - m) % 5 != 0 && (n - m) % 7 != 0
  {
    var l := NumLabels(m, n);
    NumLabelsLargest(m, n);
    if l == 0 {
      assert !SplitsEvenly(m, n, 3) && !SplitsEvenly(m, n, 4) && !SplitsEvenly(m, n, 6) && !SplitsEvenly(m, n, 8);
    } else {
      assert SplitsEvenly(m, n, l);
      OddSpanSteps(n - m, l - 1);
    }
  }

  /** The step counts 2 to 7 all have a factor among 2, 3, 5 and 7. */
  lemma OddSpanSteps(diff: int, d: int)
    requires 2 <= d <= 7 && diff % d == 0
    ensures diff % 2 == 0 || diff % 3 == 0 || diff % 5 == 0 || diff % 7 == 0
  {
    if d == 4 || d == 6 {
      var q := diff / d;
      assert diff == q * d;
      assert diff == (q * (d / 2)) * 2;
      MultipleMod(q * (d / 2), 2);
    }
  }

  /** Moving the first bucket forward by one after a span without labels
      always yields a count: the span becomes even. */
  lemma OneMoreBucketHasLabels(m: int, n: int)
    requires NumLabels(m, n) == 0
    ensures NumLabels(m + 1, n) != 0
  {
    NoLabelsExactly(m, n);
    assert (n - (m + 1)) % 2 == 0;
  }

  /** The `while (tval > 10)` loop of `getMaxY`: divides by ten until the
      value is at most ten, counting one more digit per division. The result
      is the pair (leading value, digit count). */
  function LeadingDigits(tval: int, nofdig: int): (r: (int, int))
    requires tval >= 0
    ensures r.0 <= 10 && r.1 >= nofdig
    ensures r.0 == tval / Pow10(r.1 - nofdig)
    ensures r.1 > nofdig ==> tval / Pow10(r.1 - nofdig - 1) > 10
    decreases tval
  {
    if tval > 10 then
      var r := LeadingDigits(tval / 10, nofdig + 1);
      DivDiv(tval, 10, Pow10(r.1 - nofdig - 1));
      if r.1 > nofdig + 1 then
        DivDiv(tval, 10, Pow10(r.1 - nofdig - 2));
        r
      else
        r
    else (tval, nofdig)
  }

  lemma DivDiv(a: int, b: int, c: int)
    requires a >= 0 && b > 0 && c > 0
    ensures a / b / c == a / (b * c)
  {
    var q, r := a / b, a % b;
    var q2, r2 := q / c, q % c;
    assert a == b * q + r;
    assert q == c * q2 + r2;
    SplitProduct(b, c, q2, r2);
    MulMono(r2, c - 1, b);
    Distribute(c, -1, b);
    MulMono(0, r2, b);
    DivUnique(a, b * c, q2, b * r2 + r);
  }

  lemma SplitProduct(b: int, c: int, q: int, r: int)
    ensures b * (c * q + r) == (b * c) * q + b * r
  {}

  /** The smallest multiple of `u` strictly greater than `n`, as
      `((int) (n / u + 1)) * u` computes it for a positive `n`. */
  function NextMultipleAbove(n: int, u: int): (r: int)
    requires n >= 0 && u >= 1
    ensures r % u == 0
    ensures n < r <= n + u
  {
    var q := n / u;
    assert n == q * u + n % u;
    assert (q + 1) * u == q * u + u;
    MultipleMod(q + 1, u);
    (q + 1) * u
  }

  /** The exponent `powToDiv` of `getMaxY` for a truncated maximum of at
      least 10: one below the digit count when the leading value is under 4,
      otherwise the digit count minus one. It is never negative. */
  function RoundingExponent(tl: int): (p: nat)
    requires tl >= 10
    ensures var (lead, digits) := LeadingDigits(tl, 1);
            p == (if lead < 4 then digits - 2 else digits - 1)
  {
    var (lead, digits) := LeadingDigits(tl, 1);
    // with no division the leading value is `tl` itself, at least 10, so
    // the digit count is at least 2 whenever the leading value is below 4
    assert digits == 1 ==> lead == tl / Pow10(0) == tl;
    if lead < 4 then digits - 2 else digits - 1
  }

  /** The rounding of `getMaxY`: below 5 the top of the axis is 5 (this
      covers the empty-series sentinel `Integer.MIN_VALUE`), from 5 up to 10
      it is kept, and from 10 on it is the next multiple of `10^p` above its
      truncation, where `p` is `RoundingExponent`, saturated as Java's int
      cast saturates. */
  function NiceMaxY(largest: real): (r: real)
    ensures largest < 5.0 ==> r == 5.0
    ensures 5.0 <= largest < 10.0 ==> r == largest
    ensures largest >= 10.0 ==>
      var tl := ToInt32(largest);
      tl >= 10 &&
      r == (if NextMultipleAbove(tl, Pow10(RoundingExponent(tl))) >= IntMax then IntMax
            else NextMultipleAbove(tl, Pow10(RoundingExponent(tl)))) as real
    ensures r >= 5.0
  {
    if largest < 5.0 then 5.0
    else if largest < 10.0 then largest
    else
      var tlarge := ToInt32(largest);
      var u := Pow10(RoundingExponent(tlarge));
      var q := ToInt32(tlarge as real / u as real + 1.0);
      InnerCast(tlarge);
      ToInt32((q * u) as real) as real
  }

  /** The inner `(int)` cast of `getMaxY` never saturates: it is the
      quotient plus one. */
  lemma InnerCast(tl: int)
    requires 10 <= tl <= IntMax
    ensures var u := Pow10(RoundingExponent(tl));
            ToInt32(tl as real / u as real + 1.0) == tl / u + 1
            && (tl / u + 1) * u == NextMultipleAbove(tl, u)
  {
    var u := Pow10(RoundingExponent(tl));
    RealQuotientFloor(tl, u);
    if u == 1 {
      SmallExponentMeansSmall(tl);
    } else {
      assert tl / u <= tl / 2 by { DivSmaller(tl, u); }
    }
  }

  lemma DivSmaller(n: int, u: int)
    requires n >= 0 && u >= 2
    ensures n / u <= n / 2
  {
    var q := n / u;
    assert n == q * u + n % u;
    if q > 0 {
      MulMono(2, u, q);
    }
    assert q * 2 <= n;
  }

  /** A zero exponent only arises for a truncated maximum below 40. */
  lemma SmallExponentMeansSmall(tl: int)
    requires tl >= 10 && Pow10(RoundingExponent(tl)) == 1
    ensures tl < 40
  {
    var (lead, digits) := LeadingDigits(tl, 1);
    if digits == 2 {
      assert lead == tl / 10;
    }
  }

  lemma RealQuotientFloor(n: int, u: int)
    requires n >= 0 && u >= 1
    ensures (n as real / u as real).Floor == n / u
  {
    var q, r := n / u, n % u;
    assert n as real == q as real * u as real + r as real;
    assert n as real / u as real == q as real + r as real / u as real;
  }

  /** The fix of a degenerate Y range in `generateVerlabels`: an all-zero
      range becomes [0, 1]; any other single value `v` becomes a range centred
      on `v` and a tenth of `v` wide; a proper range is kept. */
  function NormalizeYRange(min: real, max: real): (r: (real, real))
    ensures min != max ==> r == (min, max)
    ensures min == max == 0.0 ==> r == (0.0, 1.0)
    ensures min == max != 0.0 ==> (r.0 + r.1) / 2.0 == max && r.1 - r.0 == max / 10.0
  {
    if max == min then
      if max == 0.0 then (0.0, 1.0) else (min * 0.95, max * 1.05)
    else (min, max)
  }

  /** The widened range is a proper one, lowest first, except for a single
      negative value, where the factors 0.95 and 1.05 turn it upside down. */
  lemma NormalizedRangeOrder(v: real)
    ensures var r := NormalizeYRange(v, v); v >= 0.0 <==> r.0 < r.1
  {}
}
