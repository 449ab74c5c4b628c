/** Exact-arithmetic counterparts of the JavaScript `Math` helpers the
    pricing code relies on (`Math.ceil`, `Math.floor`, `Math.round`,
    `Math.max`) and of the page's own `clamp`. */
module Numeric {

  /** `Math.max` on two amounts. */
  function Max(a: real, b: real): (m: real)
    ensures m >= a && m >= b
    ensures m == a || m == b
  {
    if a >= b then a else b
  }

  /** `Math.floor`: the largest integer not above `x`. */
  function Floor(x: real): (f: int)
    ensures f as real <= x < f as real + 1.0
  {
    x.Floor
  }

  /** `Math.ceil`: the least integer not below `x`. */
  function Ceil(x: real): (c: int)
    ensures x <= c as real < x + 1.0
  {
    -((-x).Floor)
  }

  /** Rounding up never goes past any integer that already covers `x`. */
  lemma CeilLeast(x: real, n: int)
    requires x <= n as real
    ensures Ceil(x) <= n
  {
  }

  /** `Math.ceil` leaves an integer where it is. */
  lemma CeilOfInt(n: int)
    ensures Ceil(n as real) == n
  {
  }

  /** Adding a whole amount commutes with rounding up. */
  lemma CeilShift(n: int, x: real)
    ensures Ceil(n as real + x) == n + Ceil(x)
  {
    CeilLeast(n as real + x, n + Ceil(x));
    CeilLeast(x, Ceil(n as real + x) - n);
  }

  /** Rounding up is monotone. */
  lemma CeilMonotone(x: real, y: real)
    requires x <= y
    ensures Ceil(x) <= Ceil(y)
  {
    CeilLeast(x, Ceil(y));
  }

  /** `Math.ceil(a / b)` for whole `a` and a positive whole `b` is the least
      number of blocks of `b` that hold `a`. */
  lemma CeilDiv(a: nat, b: nat)
    requires b > 0
    ensures Ceil(a as real / b as real) >= 0
    ensures Ceil(a as real / b as real) * b >= a
    ensures (Ceil(a as real / b as real) - 1) * b < a
  {
    var c := Ceil(a as real / b as real);
    QuotientBelow(a, b, c);
    QuotientAbove(a, b, c - 1);
  }

  /** An integer at or above the quotient `a / b` gives enough blocks. */
  lemma QuotientBelow(a: nat, b: nat, c: int)
    requires b > 0 && a as real / b as real <= c as real
    ensures c * b >= a
  {
    var br := b as real;
    DivTimes(a as real, br);
    MulRealMonotone(a as real / br, c as real, br);
    IntMulAsReal(c, b);
  }

  /** An integer strictly below the quotient `a / b` gives too few blocks. */
  lemma QuotientAbove(a: nat, b: nat, d: int)
    requires b > 0 && d as real < a as real / b as real
    ensures d * b < a
  {
    var br := b as real;
    DivTimes(a as real, br);
    MulRealStrict(d as real, a as real / br, br);
    IntMulAsReal(d, b);
  }

  lemma DivTimes(x: real, k: real)
    requires k != 0.0
    ensures (x / k) * k == x
  {
  }

  lemma IntMulAsReal(x: int, y: int)
    ensures (x * y) as real == x as real * y as real
  {
  }

  lemma MulRealMonotone(x: real, y: real, k: real)
    requires x <= y && 0.0 <= k
    ensures x * k <= y * k
  {
    assert y * k - x * k == (y - x) * k;
  }

  lemma MulRealStrict(x: real, y: real, k: real)
    requires x < y && 0.0 < k
    ensures x * k < y * k
  {
    assert y * k - x * k == (y - x) * k;
  }

  /** Any `c` with the least-blocks property is the rounded-up quotient. */
  lemma CeilDivUnique(a: nat, b: nat, c: int)
    requires b > 0
    requires c * b >= a && (c - 1) * b < a
    ensures Ceil(a as real / b as real) == c
  {
    CeilDiv(a, b);
    var d := Ceil(a as real / b as real);
    MulIntCancel(d - 1, c, b);
    MulIntCancel(c - 1, d, b);
  }

  lemma MulIntCancel(x: int, y: int, k: nat)
    requires x * k < y * k
    ensures x < y
  {
    if x >= y {
      MulIntMonotone(y, x, k);
    }
  }

  lemma MulIntMonotone(x: int, y: int, k: nat)
    requires x <= y
    ensures x * k <= y * k
  {
    assert y * k - x * k == (y - x) * k;
  }

  /** `Math.round`: halves go up, toward positive infinity. */
  function Round(x: real): (r: int)
    ensures x - 0.5 < r as real <= x + 0.5
  {
    Floor(x + 0.5)
  }

  /** The page's `clamp(n, min, max)`, i.e. `Math.max(min, Math.min(max, n))`:
      when the bounds are inverted the lower bound wins. */
  function Clamp(n: int, min: int, max: int): (r: int)
    ensures min <= max ==> min <= r <= max
    ensures min <= n <= max ==> r == n
    ensures min <= max && n < min ==> r == min
    ensures min <= max && n > max ==> r == max
    ensures max < min ==> r == min
  {
    if min >= (if max <= n then max else n) then min
    else if max <= n then max
    else n
  }

  /** Clamping twice to the same bounds changes nothing. */
  lemma ClampIdempotent(n: int, min: int, max: int)
    ensures Clamp(Clamp(n, min, max), min, max) == Clamp(n, min, max)
  {
  }
}
