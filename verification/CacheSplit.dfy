/** Apportioning of the real prompt-token total into uncached input, cache creation and cache
    read (`split_against_total`), in exact rational arithmetic. */
module CacheSplit {
  import opened Basics

  const I32_MIN := -0x8000_0000

  predicate IsI32(n: int) {
    I32_MIN <= n <= I32_MAX
  }

  /** Estimated tokens read from the cache, covered by it, and in the whole prompt. */
  datatype CacheUsage = CacheUsage(read: int, covered: int, prompt: int) {
    predicate Ordered() {
      0 <= read <= covered <= prompt
    }
  }

  datatype Parts = Parts(input: int, creation: int, read: int)

  /** `(a / b).round()`: nearest integer, halves away from zero. */
  function RoundRatio(a: int, b: int): int
    requires b > 0
  {
    if a >= 0 then (2 * a + b) / (2 * b) else -((-2 * a + b) / (2 * b))
  }

  /** A float-to-integer cast saturates. */
  function SaturateI32(n: int): int {
    Max(I32_MIN, Min(n, I32_MAX))
  }

  function CacheTotal(u: CacheUsage, total: nat): int
    requires u.covered > 0 && u.prompt > 0
  {
    Min(SaturateI32(RoundRatio(total * Min(u.covered, u.prompt), u.prompt)), total)
  }

  function Split(u: CacheUsage, totalReal: int): Parts {
    var total := Max(totalReal, 0);
    if u.covered <= 0 || u.prompt <= 0 then
      Parts(total, 0, 0)
    else
      var cacheTotal := CacheTotal(u, total);
      var read := Max(0, Min(SaturateI32(RoundRatio(cacheTotal * u.read, u.covered)), cacheTotal));
      Parts(total - cacheTotal, cacheTotal - read, read)
  }

  // ----- Division facts -----

  lemma QuotientBounds(n: int, d: int)
    requires d > 0
    ensures n / d * d <= n < n / d * d + d
  {
  }

  lemma QuotientUnique(n: int, d: int, q: int)
    requires d > 0
    requires q * d <= n < q * d + d
    ensures n / d == q
  {
    QuotientBounds(n, d);
    var e := n / d;
    if e < q {
      MulLe(e + 1, q, d);
      assert false;
    } else if q < e {
      MulLe(q + 1, e, d);
      assert false;
    }
  }

  lemma MulLe(a: int, b: int, d: int)
    requires d > 0 && a <= b
    ensures a * d <= b * d
  {
  }

  lemma CancelMul(a: int, b: int, d: int)
    requires d > 0 && a * d < b * d + d
    ensures a <= b
  {
    assert (b + 1) * d == b * d + d;
    if a > b {
      MulLe(b + 1, a, d);
    }
  }

  /** Moving the numerator by at most the divisor moves the quotient by at most one. */
  lemma QuotientStep(n: int, d: int, k: int)
    requires d > 0 && 0 <= k <= d
    ensures (n + k) / d == n / d || (n + k) / d == n / d + 1
  {
    QuotientBounds(n, d);
    var q := n / d;
    if n + k < q * d + d {
      QuotientUnique(n + k, d, q);
    } else {
      assert (q + 1) * d == q * d + d;
      QuotientUnique(n + k, d, q + 1);
    }
  }

  lemma RoundRatioNear(a: int, b: int)
    requires a >= 0 && b > 0
    ensures RoundRatio(a, b) >= 0
    ensures -b <= 2 * (RoundRatio(a, b) * b - a) <= b
  {
    var r := RoundRatio(a, b);
    QuotientBounds(2 * a + b, 2 * b);
    assert r * (2 * b) == 2 * (r * b);
    if r < 0 {
      MulLe(r, -1, 2 * b);
      assert false;
    }
  }

  lemma RoundRatioStep(a: int, b: int, k: int)
    requires a >= 0 && b > 0 && 0 <= k <= b
    ensures RoundRatio(a + k, b) == RoundRatio(a, b) || RoundRatio(a + k, b) == RoundRatio(a, b) + 1
  {
    QuotientStep(2 * a + b, 2 * b, 2 * k);
    assert 2 * (a + k) + b == (2 * a + b) + 2 * k;
  }

  /** A proper fraction of a whole rounds to at most the whole. */
  lemma RoundRatioAtMost(n: int, c: int, b: int)
    requires n >= 0 && 0 <= c <= b && b > 0
    ensures n * c >= 0
    ensures 0 <= RoundRatio(n * c, b) <= n
  {
    assert n * c >= 0 && n * c <= n * b by {
      MulBounds(n, c, b);
    }
    RoundRatioNear(n * c, b);
    CancelMul(RoundRatio(n * c, b), n, b);
  }

  lemma MulBounds(n: int, c: int, b: int)
    requires n >= 0 && 0 <= c <= b
    ensures 0 <= n * c <= n * b
  {
    assert n * b - n * c == n * (b - c);
    MulNonNegative(n, c);
    MulNonNegative(n, b - c);
  }

  lemma MulNonNegative(a: int, b: int)
    requires a >= 0 && b >= 0
    ensures a * b >= 0
  {
  }

  // ----- What the split promises -----

  lemma CacheTotalExact(u: CacheUsage, total: nat)
    requires u.covered > 0 && u.prompt > 0
    requires total <= I32_MAX
    ensures 0 <= CacheTotal(u, total) <= total
    ensures CacheTotal(u, total) == RoundRatio(total * Min(u.covered, u.prompt), u.prompt)
  {
    RoundRatioAtMost(total, Min(u.covered, u.prompt), u.prompt);
  }

  /** The part read from the cache, for a given covered total. */
  function ReadPart(u: CacheUsage, cacheTotal: nat): int
    requires u.covered > 0
  {
    Max(0, Min(SaturateI32(RoundRatio(cacheTotal * u.read, u.covered)), cacheTotal))
  }

  /** For every usage and every total, ordered or not: three non-negative parts that sum to
      the total, a negative total counting as zero. */
  lemma SplitIsExclusive(u: CacheUsage, totalReal: int)
    requires IsI32(totalReal)
    ensures var p := Split(u, totalReal);
            && p.input >= 0 && p.creation >= 0 && p.read >= 0
            && p.input + p.creation + p.read == Max(totalReal, 0)
  {
    if u.covered > 0 && u.prompt > 0 {
      CacheTotalExact(u, Max(totalReal, 0));
    }
  }

  lemma ReadPartStep(u: CacheUsage, t: nat)
    requires u.covered > 0 && t < I32_MAX
    ensures ReadPart(u, t + 1) == ReadPart(u, t) || ReadPart(u, t + 1) == ReadPart(u, t) + 1
  {
    assert (t + 1) * u.read == t * u.read + u.read;
    if u.read < 0 {
      NegativeRound(t, u);
      NegativeRound(t + 1, u);
    } else if u.read <= u.covered {
      RoundRatioAtMost(t, u.read, u.covered);
      RoundRatioAtMost(t + 1, u.read, u.covered);
      RoundRatioStep(t * u.read, u.covered, u.read);
    } else {
      RoundAtLeast(t, u);
      RoundAtLeast(t + 1, u);
    }
  }

  lemma NegativeRound(t: nat, u: CacheUsage)
    requires u.covered > 0 && u.read < 0
    ensures RoundRatio(t * u.read, u.covered) <= 0
  {
    MulNonNegative(t, -u.read);
    assert t * u.read == -(t * -u.read);
    RoundRatioNear(-(t * u.read), u.covered);
    if t * u.read == 0 {
      QuotientUnique(u.covered, 2 * u.covered, 0);
    }
  }

  lemma RoundAtLeast(t: nat, u: CacheUsage)
    requires 0 < u.covered <= u.read
    ensures RoundRatio(t * u.read, u.covered) >= t
  {
    MulBounds(t, u.covered, u.read);
    RoundRatioNear(t * u.read, u.covered);
    CancelMul(t, RoundRatio(t * u.read, u.covered), u.covered);
  }

  /** One more real token goes to exactly one of the three parts, for every usage. */
  lemma SplitStep(u: CacheUsage, total: nat)
    requires total < I32_MAX
    ensures var p, q := Split(u, total), Split(u, total + 1);
            || q == p.(input := p.input + 1)
            || q == p.(creation := p.creation + 1)
            || q == p.(read := p.read + 1)
  {
    if u.covered > 0 && u.prompt > 0 {
      CacheTotalExact(u, total);
      CacheTotalExact(u, total + 1);
      var c := Min(u.covered, u.prompt);
      assert (total + 1) * c == total * c + c;
      MulNonNegative(total, c);
      RoundRatioStep(total * c, u.prompt, c);
      ReadPartStep(u, CacheTotal(u, total));
    }
  }

  /** Parts are monotone in the total. */
  lemma {:induction false} SplitMonotone(u: CacheUsage, t: nat, t': nat)
    requires t <= t' <= I32_MAX
    ensures var p, q := Split(u, t), Split(u, t');
            p.input <= q.input && p.creation <= q.creation && p.read <= q.read
    decreases t' - t
  {
    if t < t' {
      SplitMonotone(u, t, t' - 1);
      SplitStep(u, t' - 1);
    }
  }

  /** Each part is within one token of its exact share of the total, the input part within
      half a token (both sides multiplied by the prompt estimate). */
  lemma SplitNearShare(u: CacheUsage, total: nat)
    requires u.Ordered()
    requires total <= I32_MAX
    ensures var p := Split(u, total);
            && -u.prompt <= 2 * (p.input * u.prompt - total * (u.prompt - u.covered)) <= u.prompt
            && -u.prompt <= p.read * u.prompt - total * u.read <= u.prompt
            && -u.prompt <= p.creation * u.prompt - total * (u.covered - u.read) <= u.prompt
  {
    if u.covered > 0 {
      var ct := CacheTotal(u, total);
      CacheTotalExact(u, total);
      MulNonNegative(total, u.covered);
      RoundRatioNear(total * u.covered, u.prompt);
      InputShare(total, u.prompt, u.covered, ct);
      var r := ReadPart(u, ct);
      RoundRatioAtMost(ct, u.read, u.covered);
      RoundRatioNear(ct * u.read, u.covered);
      ShareOfShare(total, u.prompt, u.covered, u.read, ct, r);
      Complement(u.covered, u.read, ct, r);
      ShareOfShare(total, u.prompt, u.covered, u.covered - u.read, ct, ct - r);
    }
  }

  lemma InputShare(total: int, p: int, c: int, ct: int)
    ensures (total - ct) * p - total * (p - c) == -(ct * p - total * c)
  {
  }

  lemma Complement(c: int, a: int, ct: int, r: int)
    ensures (ct - r) * c - ct * (c - a) == -(r * c - ct * a)
  {
  }

  lemma ShareIdentity(total: int, p: int, c: int, a: int, ct: int, r: int)
    ensures (r * p - total * a) * c == (r * c - ct * a) * p + (ct * p - total * c) * a
  {
  }

  /** Rounding twice: a share of a rounded share is off by at most one. */
  lemma ShareOfShare(total: int, p: int, c: int, a: int, ct: int, r: int)
    requires 0 < c <= p && 0 <= a <= c
    requires -p <= 2 * (ct * p - total * c) <= p
    requires -c <= 2 * (r * c - ct * a) <= c
    ensures -p <= r * p - total * a <= p
  {
    ShareIdentity(total, p, c, a, ct, r);
    DividedShare(r * p - total * a, r * c - ct * a, ct * p - total * c, p, c, a);
  }

  lemma DividedShare(x: int, f: int, e: int, p: int, c: int, a: int)
    requires 0 < c <= p && 0 <= a <= c
    requires x * c == f * p + e * a
    requires -p <= 2 * e <= p && -c <= 2 * f <= c
    ensures -p <= x <= p
  {
    Scale(f, c, p);
    Scale(e, p, a);
    MulBounds(p, a, c);
    assert -(p * c) <= x * c <= p * c;
    CancelMul(x, p, c);
    assert (-x) * c == -(x * c);
    CancelMul(-x, p, c);
  }

  lemma Scale(e: int, b: int, k: int)
    requires -b <= 2 * e <= b && k >= 0
    ensures -(b * k) <= 2 * (e * k) <= b * k
  {
    MulNonNegative(b - 2 * e, k);
    MulNonNegative(b + 2 * e, k);
    assert (b - 2 * e) * k == b * k - 2 * (e * k);
    assert (b + 2 * e) * k == b * k + 2 * (e * k);
  }
}
