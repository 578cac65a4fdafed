/** Minor-unit arithmetic: internal/platform/money/money.go. */
module Money {
  import opened Sums

  /** Integer division rounding half away from zero. */
  function DivRoundHalfUp(n: int, d: int): int
    requires d != 0
  {
    var an, ad := Abs(n), Abs(d);
    var q := if (an % ad) * 2 >= ad then an / ad + 1 else an / ad;
    if (n < 0) != (d < 0) then -q else q
  }

  function ApplyBP(base: int, bp: int): int {
    DivRoundHalfUp(base * bp, 10000)
  }

  function Clamp(v: int, min: Option<int>, max: Option<int>): int {
    var w := if min.Some? && v < min.value then min.value else v;
    if max.Some? && w > max.value then max.value else w
  }

  /** `q` is `n / d` rounded to the nearest whole, a half going away from zero. */
  predicate Nearest(n: int, d: int, q: int)
    requires d > 0
  {
    if n >= 0 then 2 * n - d < 2 * (d * q) <= 2 * n + d else 2 * n - d <= 2 * (d * q) < 2 * n + d
  }

  lemma {:induction false} AtLeast(d: int, e: int)
    requires d > 0 && e >= 1
    ensures d * e >= d
  {
    if e > 1 {
      AtLeast(d, e - 1);
      assert d * e == d * (e - 1) + d;
    }
  }

  lemma Multiples(d: int, p: int, q: int)
    requires d > 0
    ensures p < q ==> d * p + d <= d * q
  {
    if p < q {
      AtLeast(d, q - p);
      assert d * (q - p) == d * q - d * p;
    }
  }

  lemma OnlyOneNearest(n: int, d: int, p: int, q: int)
    requires d > 0 && Nearest(n, d, p) && Nearest(n, d, q)
    ensures p == q
  {
    Multiples(d, p, q);
    Multiples(d, q, p);
  }

  lemma QuotientIsNearest(n: int, d: int)
    requires d > 0
    ensures Nearest(n, d, DivRoundHalfUp(n, d))
  {
    var an := Abs(n);
    var q := an / d;
    assert an == d * q + an % d;
    assert d * (q + 1) == d * q + d;
    assert d * -q == -(d * q) && d * -(q + 1) == -(d * (q + 1));
  }

  /** For every divisor, rounding gives the nearest whole and nothing else does; a negative divisor flips the sign. */
  lemma RoundsToNearest(n: int, d: int, q: int)
    requires d > 0
    ensures Nearest(n, d, q) <==> q == DivRoundHalfUp(n, d)
    ensures DivRoundHalfUp(n, -d) == -DivRoundHalfUp(n, d)
  {
    QuotientIsNearest(n, d);
    if Nearest(n, d, q) {
      OnlyOneNearest(n, d, q, DivRoundHalfUp(n, d));
    }
  }

  /** A percentage is off by at most half a minor unit. */
  lemma ApplyBPNear(base: int, bp: int)
    ensures 2 * Abs(10000 * ApplyBP(base, bp) - base * bp) <= 10000
  {
    QuotientIsNearest(base * bp, 10000);
  }

  lemma ApplyBPSign(base: int, bp: int)
    requires bp >= 0
    ensures base >= 0 ==> ApplyBP(base, bp) >= 0
    ensures base <= 0 ==> ApplyBP(base, bp) <= 0
  {
    if base >= 0 {
      assert base * bp >= 0;
    } else {
      assert base * bp <= 0;
    }
  }
}
