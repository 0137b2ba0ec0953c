/** Java's integer division and its double-to-integer casts, written out over
    Dafny's unbounded integers and reals. */
module JavaNumerics {

  const IntMax: int := 0x7fff_ffff
  const IntMin: int := -0x8000_0000

  /** Java's `/` on `int` and `long` with a positive divisor: the quotient
      truncated toward zero (Dafny's own `/` floors). */
  function JavaDiv(a: int, b: int): (q: int)
    requires b > 0
    ensures a >= 0 ==> q == a / b
    ensures a < 0 ==> q == (if a % b == 0 then a / b else a / b + 1)
  {
    if a >= 0 then a / b
    else
      NegativeQuotient(a, b);
      -((-a) / b)
  }

  /** Below zero truncation rounds up where Dafny's division rounds down:
      the two differ by one unless `b` divides `a`. */
  lemma NegativeQuotient(a: int, b: int)
    requires b > 0 && a < 0
    ensures -((-a) / b) == (if a % b == 0 then a / b else a / b + 1)
  {
    var q, r := (-a) / b, (-a) % b;
    assert -a == b * q + r;
    if r == 0 {
      DivUnique(a, b, -q, 0);
    } else {
      assert a == b * (-q - 1) + (b - r);
      DivUnique(a, b, -q - 1, b - r);
    }
  }

  /** The truncated quotient is the floor of `a / b` for a non-negative
      dividend and its ceiling for a negative one. */
  lemma JavaDivBounds(a: int, b: int)
    requires b > 0
    ensures a >= 0 ==> JavaDiv(a, b) * b <= a < JavaDiv(a, b) * b + b
    ensures a < 0 ==> JavaDiv(a, b) * b - b < a <= JavaDiv(a, b) * b
  {
    if a >= 0 {
      assert a == (a / b) * b + a % b;
    } else {
      var q := (-a) / b;
      assert -a == q * b + (-a) % b;
    }
  }

  /** Moving a dividend forward by at most one divisor moves the truncated
      quotient forward by zero or one. */
  lemma JavaDivStep(a: int, s: int, b: int)
    requires 0 < s <= b
    ensures JavaDiv(a, b) <= JavaDiv(a + s, b) <= JavaDiv(a, b) + 1
  {
    JavaDivBounds(a, b);
    JavaDivBounds(a + s, b);
    TruncatedStep(a, s, b, JavaDiv(a, b), JavaDiv(a + s, b));
  }

  /** The step of `JavaDivStep` for any `q` and `q'` bounded as truncated
      quotients are. */
  lemma TruncatedStep(a: int, s: int, b: int, q: int, q': int)
    requires 0 < s <= b
    requires a >= 0 ==> q * b <= a < q * b + b
    requires a < 0 ==> q * b - b < a <= q * b
    requires a + s >= 0 ==> q' * b <= a + s < q' * b + b
    requires a + s < 0 ==> q' * b - b < a + s <= q' * b
    ensures q <= q' <= q + 1
  {
    if a < 0 <= a + s {
      // q * b lies in [-b, 0] and q' * b in [0, b)
      assert -b <= q * b <= 0 <= q' * b < b;
    }
    QuotientGap(q, q', b);
  }

  /** Multiples of `b` less than two apart one way and one the other. */
  lemma QuotientGap(q: int, q': int, b: int)
    requires b > 0 && q' * b < q * b + 2 * b && q * b < q' * b + b
    ensures q <= q' <= q + 1
  {
    Distribute(q, 2, b);
    Distribute(q', 1, b);
    CancelFactor(q', q + 2, b);
    CancelFactor(q, q' + 1, b);
  }

  lemma Distribute(q: int, k: int, b: int)
    ensures (q + k) * b == q * b + k * b
  {}

  lemma MulMono(x: int, y: int, b: int)
    requires x <= y && b > 0
    ensures x * b <= y * b
  {
    assert y * b - x * b == (y - x) * b;
  }

  /** Cancels a positive factor from a strict inequality. */
  lemma CancelFactor(x: int, y: int, b: int)
    requires b > 0 && x * b < y * b
    ensures x < y
  {}

  lemma DivUnique(a: int, d: int, q: int, r: int)
    requires d > 0 && 0 <= r < d && a == d * q + r
    ensures a / d == q
  {
    var q' := a / d;
    assert a == d * q' + a % d;
    if q' < q {
      assert (q' + 1) * d == d * q' + d;
      MulMono(q' + 1, q, d);
    } else if q' > q {
      assert (q + 1) * d == d * q + d;
      MulMono(q + 1, q', d);
    }
  }

  lemma MultipleMod(k: int, u: int)
    requires u >= 1
    ensures (k * u) % u == 0
  {
    DivUnique(k * u, u, k, 0);
  }

  /** The remainder by `a * k` splits into the remainder by `a` and the
      digit `(t / a) % k` above it. */
  lemma ModSplit(t: int, a: int, k: int)
    requires a > 0 && k > 0
    ensures t % (a * k) == ((t / a) % k) * a + t % a
  {
    var q, r := t / a, t % a;
    var q2, r2 := q / k, q % k;
    assert t == a * q + r;
    assert q == k * q2 + r2;
    assert a * q == (a * k) * q2 + r2 * a;
    assert r2 * a + r < a * k by {
      MulMono(r2, k - 1, a);
      Distribute(k, -1, a);
    }
    DivUnique(t, a * k, q2, r2 * a + r);
  }

  /** Java's 32-bit `int` arithmetic: the result wrapped into the range. */
  function Wrap32(n: int): (r: int)
    ensures IntMin <= r <= IntMax
    ensures (r - n) % 0x1_0000_0000 == 0
    ensures IntMin <= n <= IntMax ==> r == n
  {
    var r := (n - IntMin) % 0x1_0000_0000 + IntMin;
    assert r - n == -0x1_0000_0000 * ((n - IntMin) / 0x1_0000_0000);
    MultipleMod(-((n - IntMin) / 0x1_0000_0000), 0x1_0000_0000);
    WrapInRange(n);
    r
  }

  lemma WrapInRange(n: int)
    ensures IntMin <= n <= IntMax ==> (n - IntMin) % 0x1_0000_0000 == n - IntMin
  {
    if IntMin <= n <= IntMax {
      DivUnique(n - IntMin, 0x1_0000_0000, 0, n - IntMin);
    }
  }

  /** One past either end of the 32-bit range wraps to the other end. */
  lemma WrapEdges()
    ensures Wrap32(IntMax + 1) == IntMin && Wrap32(IntMin - 1) == IntMax
  {}

  /** Taking one off a 32-bit value and adding it back, both wrapped, gives
      the value again. */
  lemma CountRoundTrip(c: int)
    requires IntMin <= c <= IntMax
    ensures Wrap32(Wrap32(c - 1) + 1) == c
    ensures c > IntMin ==> Wrap32(c - 1) == c - 1
  {
    WrapEdges();
  }

  /** Java's `(long)` cast of a double: truncation toward zero. */
  function Truncate(r: real): (n: int)
    ensures r >= 0.0 ==> n as real <= r < n as real + 1.0
    ensures r < 0.0 ==> n as real - 1.0 < r <= n as real
  {
    if r >= 0.0 then r.Floor else -((-r).Floor)
  }

  /** Java's `(int)` cast of a double: truncation toward zero, saturated at
      the ends of the 32-bit range. */
  function ToInt32(r: real): (n: int)
    ensures IntMin <= n <= IntMax
    ensures IntMin as real < r < IntMax as real ==> n == Truncate(r)
    ensures r >= IntMax as real ==> n == IntMax
    ensures r <= IntMin as real ==> n == IntMin
  {
    if r >= IntMax as real then IntMax
    else if r <= IntMin as real then IntMin
    else Truncate(r)
  }

  /** `Math.pow(10, p)` for a non-negative integer exponent. */
  function Pow10(p: nat): (r: int)
    ensures r >= 1
  {
    if p == 0 then 1 else 10 * Pow10(p - 1)
  }

  /** A Java `double` as the label code sees it: a real number, or the NaN
      that `0.0 / 0` yields. Infinities are not modelled. */
  datatype Double = Finite(value: real) | NaN

  /** The `(long)` cast of a double; NaN casts to 0. */
  function LongOf(d: Double): (n: int)
    ensures d.NaN? ==> n == 0
    ensures d.Finite? && d.value >= 0.0 ==> n as real <= d.value < n as real + 1.0
    ensures d.Finite? && d.value < 0.0 ==> n as real - 1.0 < d.value <= n as real
  {
    if d.NaN? then 0 else Truncate(d.value)
  }

  /** The `(int)` cast of a double; NaN casts to 0. */
  function IntOf(d: Double): (n: int)
    ensures IntMin <= n <= IntMax
    ensures d.NaN? ==> n == 0
  {
    if d.NaN? then 0 else ToInt32(d.value)
  }

  /** `a + (b - a) * i / n` in double arithmetic for a count `n` of steps:
      with no step (`n == 0`) the only position is `0.0 / 0`, NaN. */
  function Spread(a: real, b: real, i: int, n: int): (d: Double)
    requires 0 <= i <= n
    ensures n > 0 ==> d == Finite(a + (b - a) * i as real / n as real)
    ensures n > 0 && i == 0 ==> d == Finite(a)
    ensures n > 0 && i == n ==> d == Finite(b)
    ensures n == 0 <==> d.NaN?
  {
    if n == 0 then NaN
    else
      assert i == n ==> (b - a) * i as real / n as real == b - a;
      Finite(a + (b - a) * i as real / n as real)
  }
}
