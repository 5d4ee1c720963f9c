/**
 * The progress arithmetic shared by both copies of the bar: the percentage,
 * the position of the boundary scaled to the bar's length, its whole part
 * (the filled segments) and its fractional part (the partly filled segment).
 * The source computes these in floating point; here they are exact reals,
 * defined as the source writes them, with their integer characterisations
 * proved beside them. A positive `total` is required throughout.
 */
module Ratio {

  function Min(a: int, b: int): int {
    if a <= b then a else b
  }

  /** The bar length: the configured length when positive, otherwise one segment per unit of `total`. */
  function BarLength(configured: int, total: nat): (r: nat)
    ensures configured > 0 ==> r == configured
    ensures configured <= 0 ==> r == total
    ensures total > 0 ==> r >= 1
  {
    if configured > 0 then configured else total
  }

  /** `(done / total) * 100`, not clamped. */
  function Percent(done: nat, total: nat): (r: real)
    requires total > 0
    ensures r * total as real == 100.0 * done as real
    ensures r >= 0.0
  {
    (done as real / total as real) * 100.0
  }

  /** `(done / total) * length`: where the boundary falls, in segments. */
  function Scaled(done: nat, total: nat, length: nat): real
    requires total > 0
  {
    (done as real / total as real) * length as real
  }

  /** `x % 1` for a non-negative `x`: its fractional part. */
  function Fraction(x: real): (r: real)
    requires x >= 0.0
    ensures 0.0 <= r < 1.0
  {
    x - x.Floor as real
  }

  /** `Math.floor((done / total) * length)`: the whole segments reached, not capped. */
  function FilledParts(done: nat, total: nat, length: nat): (r: nat)
    requires total > 0
    ensures r == done * length / total
    ensures done >= total ==> r >= length
  {
    ScaledFloor(done, total, length);
    OverflowFills(done, total, length);
    Scaled(done, total, length).Floor
  }

  /** `Math.min(Math.floor((done / total) * length), length)`. */
  function DoneParts(done: nat, total: nat, length: nat): (r: nat)
    requires total > 0
    ensures r == Min(done * length / total, length)
    ensures r <= length
    ensures done >= total ==> r == length
  {
    Min(FilledParts(done, total, length), length)
  }

  /** `((done / total) * length) % 1`, the fill of the boundary segment. */
  function Remainder(done: nat, total: nat, length: nat): (r: real)
    requires total > 0
    ensures 0.0 <= r < 1.0
    ensures r == ((done * length) % total) as real / total as real
    ensures r == 0.0 <==> (done * length) % total == 0
  {
    ScaledFraction(done, total, length);
    Fraction(Scaled(done, total, length))
  }

  /** `Math.floor(remainder * n)`: which of the `n` transition symbols depicts the boundary. */
  function TransitionIndex(done: nat, total: nat, length: nat, n: nat): (i: nat)
    requires total > 0 && n > 0
    ensures i < n
    ensures i == ((done * length) % total) * n / total
  {
    var rem := (done * length) % total;
    ScaledFraction(done, total, length);
    ProductFloor(rem, n, total);
    (Remainder(done, total, length) * n as real).Floor
  }

  /** Once `done` reaches `total` the uncapped count of filled segments is at least `length`. */
  lemma OverflowFills(done: nat, total: nat, length: nat)
    requires total > 0
    ensures done >= total ==> done * length / total >= length
  {
    if done >= total {
      MulMonotone(total, done, length);
      QuotientBelow(done * length, total, length);
    }
  }

  lemma MulMonotone(a: nat, b: nat, c: nat)
    requires a <= b
    ensures a * c <= b * c
  {
  }

  /** `a / b < c` forces `a < b * c`. */
  lemma QuotientBelow(a: nat, b: nat, c: nat)
    requires b > 0
    ensures a / b < c ==> a < c * b
  {
    var q, r := a / b, a % b;
    assert a == q * b + r;
    if q < c {
      MulMonotone(q + 1, c, b);
    }
  }

  /** A real lying between `q` and `q + 1` has floor `q`. */
  lemma FloorBetween(x: real, q: int)
    requires q as real <= x < q as real + 1.0
    ensures x.Floor == q
  {
  }

  /** The scaled position is the exact quotient `done * length / total`. */
  lemma ScaledIsQuotient(done: nat, total: nat, length: nat)
    requires total > 0
    ensures Scaled(done, total, length) == (done * length) as real / total as real
  {
    assert (done * length) as real == done as real * length as real;
  }

  /** Whole part of a quotient in reals and in integers agree. */
  lemma QuotientParts(a: nat, b: nat)
    requires b > 0
    ensures (a as real / b as real).Floor == a / b
    ensures a as real / b as real - (a / b) as real == (a % b) as real / b as real
  {
    var q, r := a / b, a % b;
    assert a == q * b + r;
    assert a as real == q as real * b as real + r as real;
    assert a as real / b as real == q as real + r as real / b as real;
    assert 0.0 <= r as real / b as real < 1.0;
    FloorBetween(a as real / b as real, q);
  }

  /** The filled segments before capping: `floor(done * length / total)`. */
  lemma ScaledFloor(done: nat, total: nat, length: nat)
    requires total > 0
    ensures Scaled(done, total, length).Floor == done * length / total
  {
    ScaledIsQuotient(done, total, length);
    QuotientParts(done * length, total);
  }

  /** The fill of the boundary segment is the remainder of the division, over `total`. */
  lemma ScaledFraction(done: nat, total: nat, length: nat)
    requires total > 0
    ensures Fraction(Scaled(done, total, length)) == ((done * length) % total) as real / total as real
  {
    ScaledIsQuotient(done, total, length);
    QuotientParts(done * length, total);
  }

  /** `floor((rem / total) * n) == rem * n / total`, and it is below `n` when `rem < total`. */
  lemma ProductFloor(rem: nat, n: nat, total: nat)
    requires total > 0 && rem < total
    ensures ((rem as real / total as real) * n as real).Floor == rem * n / total
    ensures n > 0 ==> rem * n / total < n
  {
    assert (rem as real / total as real) * n as real == (rem * n) as real / total as real;
    QuotientParts(rem * n, total);
    if n > 0 {
      MulMonotone(rem, total, n);
      QuotientBelow(rem * n, total, n);
      if rem * n / total >= n {
        var q := rem * n / total;
        MulMonotone(n, q, total);
      }
    }
  }

  /** The percentage reaches 100 exactly when `done` reaches `total`, and is 0 exactly when nothing is done. */
  lemma PercentMilestones(done: nat, total: nat)
    requires total > 0
    ensures Percent(done, total) >= 100.0 <==> done >= total
    ensures Percent(done, total) == 0.0 <==> done == 0
  {
    var p := Percent(done, total);
    assert p * total as real == 100.0 * done as real;
  }

}
