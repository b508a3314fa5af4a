/** `roundToNearest` (src/services/helpers.ts, duplicated in CardLab.tsx)
    and the request dimensions both orchestrators derive from the render
    width. Inputs are integers: `Math.round(x)` is floor(x + 1/2), and
    floor((2n + k) / 2k) is Dafny's Euclidean division since 2k > 0. */
module Rounding {

  /** The multiple of `nearest` closest to `n`, ties going up (towards
      +infinity, as `Math.round` does). */
  function RoundToNearest(n: int, nearest: int): (r: int)
    requires nearest > 0
    ensures r % nearest == 0
    ensures 2 * (r - n) <= nearest
    ensures 2 * (n - r) < nearest
  {
    var q := (2 * n + nearest) / (2 * nearest);
    DivModFacts(2 * n + nearest, 2 * nearest);
    MultipleMod(q, nearest);
    q * nearest
  }

  lemma DivModFacts(a: int, d: int)
    requires d > 0
    ensures a == d * (a / d) + a % d && 0 <= a % d < d
  {
  }

  lemma {:induction false} MulNonneg(k: int, a: int)
    requires k >= 0 && a >= 0
    ensures k * a >= 0
    decreases a
  {
    if a > 0 {
      MulNonneg(k, a - 1);
      assert k * a == k * (a - 1) + k;
    }
  }

  lemma Distrib(k: int, a: int, b: int)
    ensures k * (a - b) == k * a - k * b
  {
  }

  /** A multiple of a positive k strictly between -k and k is zero. */
  lemma {:induction false} SmallMultipleIsZero(k: int, x: int)
    requires k > 0
    requires -k < k * x < k
    ensures x == 0
  {
    if x >= 1 {
      MulNonneg(k, x - 1);
      Distrib(k, x, 1);
      assert false;
    } else if x <= -1 {
      MulNonneg(k, -x - 1);
      Distrib(k, -x, 1);
      assert false;
    }
  }

  lemma {:induction false} MultipleMod(q: int, k: int)
    requires k > 0
    ensures (q * k) % k == 0
    ensures (q * k) / k == q
  {
    var a := q * k;
    DivModFacts(a, k);
    var d, m := a / k, a % k;
    Distrib(k, q, d);
    SmallMultipleIsZero(k, q - d);
  }

  /** `Math.round(w * 1.5)` for an integer w. */
  function RoundThreeHalves(w: int): (r: int)
    ensures 2 * r == 3 * w || 2 * r == 3 * w + 1
  {
    (3 * w + 1) / 2
  }

  /** The two rounding properties together characterise the result: any
      multiple of `nearest` within half a step of `n`, ties up, is it. */
  lemma {:induction false} RoundToNearestUnique(n: int, nearest: int, m: int)
    requires nearest > 0
    requires m % nearest == 0
    requires 2 * (m - n) <= nearest && 2 * (n - m) < nearest
    ensures m == RoundToNearest(n, nearest)
  {
    var r := RoundToNearest(n, nearest);
    DivModFacts(m, nearest);
    DivModFacts(r, nearest);
    var a, b := m / nearest, r / nearest;
    Distrib(nearest, a, b);
    SmallMultipleIsZero(nearest, a - b);
  }

  /** Exact multiples are fixed points. */
  lemma {:induction false} RoundToNearestFixesMultiples(m: int, nearest: int)
    requires nearest > 0
    ensures RoundToNearest(m * nearest, nearest) == m * nearest
  {
    MultipleMod(m, nearest);
    RoundToNearestUnique(m * nearest, nearest, m * nearest);
  }

  lemma {:induction false} RoundToNearestIdempotent(n: int, nearest: int)
    requires nearest > 0
    ensures RoundToNearest(RoundToNearest(n, nearest), nearest) == RoundToNearest(n, nearest)
  {
    var r := RoundToNearest(n, nearest);
    RoundToNearestUnique(r, nearest, r);
  }

  lemma {:induction false} RoundToNearestMonotone(n: int, m: int, nearest: int)
    requires nearest > 0
    requires n <= m
    ensures RoundToNearest(n, nearest) <= RoundToNearest(m, nearest)
  {
    var a, b := 2 * n + nearest, 2 * m + nearest;
    var d := 2 * nearest;
    DivModFacts(a, d);
    DivModFacts(b, d);
    var qa, qb := a / d, b / d;
    if qa > qb {
      MulNonneg(d, qa - qb - 1);
      Distrib(d, qa, qb);
      assert false;
    }
    MulNonneg(qb - qa, nearest);
    Distrib(nearest, qb, qa);
  }

  /** Ties go up: 4 is half-way between 0 and 8 and rounds to 8; -4 is
      half-way between -8 and 0 and rounds to 0. */
  lemma RoundToNearestTies()
    ensures RoundToNearest(4, 8) == 8
    ensures RoundToNearest(-4, 8) == 0
    ensures RoundToNearest(12, 8) == 16
  {
  }

  /** `roundToNearest(renderWidth, 8)`: the width both orchestrators send. */
  function RequestWidth(renderWidth: int): (r: int)
    ensures r % 8 == 0 && -4 <= r - renderWidth <= 4
  {
    RoundToNearest(renderWidth, 8)
  }

  /** `roundToNearest(Math.round(renderWidth * ASPECT_RATIO), 8)` with an
      aspect ratio of 1.5. */
  function RequestHeight(renderWidth: int): (r: int)
    ensures r % 8 == 0
    ensures -4 <= r - RoundThreeHalves(renderWidth) <= 4
    ensures -8 <= 2 * r - 3 * renderWidth <= 9
  {
    RoundToNearest(RoundThreeHalves(renderWidth), 8)
  }
}
