/** Quartic ease-in-out, after Robert Penner's easing equations, as used by the
    snap animation to interpolate the scroll offset frame by frame. */
module Easing {

  /** `Math.pow(x, 4)`: the square of the square. */
  function Pow4(x: real): real
  {
    Square(Square(x))
  }

  function Square(x: real): real
  {
    x * x
  }

  /** `easeInOutQuart(currentIteration, startValue, changeInValue, totalIterations)`:
      the iteration is first rescaled to t = iteration / (total / 2), so the run
      covers t in [0, 2]; the first half accelerates, the second decelerates. */
  function EaseInOutQuart(iteration: real, start: real, change: real, total: real): real
    requires total != 0.0
  {
    var t := iteration / (total / 2.0);
    if t < 1.0 then change / 2.0 * Pow4(t) + start
    else -change / 2.0 * (Pow4(t - 2.0) - 2.0) + start
  }

  /** The normalised curve: progress in [0, 1] against normalised time t in [0, 2]. */
  function Quart(t: real): real
  {
    if t < 1.0 then Pow4(t) / 2.0 else 1.0 - Pow4(t - 2.0) / 2.0
  }

  /** `v` lies between `a` and `b`, whichever way round they are. */
  predicate Between(v: real, a: real, b: real)
  {
    if a <= b then a <= v <= b else b <= v <= a
  }

  lemma Pow4NonNegative(x: real)
    ensures Pow4(x) >= 0.0
  {
    assert x * x >= 0.0;
    assert Pow4(x) == (x * x) * (x * x);
  }

  lemma Pow4Even(x: real)
    ensures Pow4(-x) == Pow4(x)
  {
  }

  /** x^4 is strictly increasing on the non-negative reals. */
  lemma Pow4Monotone(a: real, b: real)
    requires 0.0 <= a <= b
    ensures Pow4(a) <= Pow4(b)
    ensures a < b ==> Pow4(a) < Pow4(b)
  {
    SquareMonotone(a, b);
    assert Pow4(a) == (a * a) * (a * a);
    assert Pow4(b) == (b * b) * (b * b);
    SquareMonotone(a * a, b * b);
  }

  lemma SquareMonotone(x: real, y: real)
    requires 0.0 <= x <= y
    ensures x * x <= y * y
    ensures x < y ==> x * x < y * y
  {
    var xx, xy, yy := x * x, x * y, y * y;
    assert xx <= xy <= yy;
    if x < y {
      assert yy - xy == (y - x) * y;
      assert xy < yy;
      assert xx < yy;
    }
  }

  /** Every run is the unit curve scaled by `change` and shifted by `start`. */
  lemma EaseIsScaledQuart(iteration: real, start: real, change: real, total: real)
    requires total != 0.0
    ensures EaseInOutQuart(iteration, start, change, total)
            == start + change * Quart(iteration / (total / 2.0))
  {
    var t := iteration / (total / 2.0);
    if t < 1.0 {
      assert change / 2.0 * Pow4(t) == change * (Pow4(t) / 2.0);
    } else {
      assert -change / 2.0 * (Pow4(t - 2.0) - 2.0) == change * (1.0 - Pow4(t - 2.0) / 2.0);
    }
  }

  /** Normalised time of iteration `i` of a `total`-iteration run. */
  lemma NormalisedTime(i: real, total: real)
    requires total > 0.0 && 0.0 <= i <= total
    ensures 0.0 <= i / (total / 2.0) <= 2.0
    ensures i / (total / 2.0) < 1.0 <==> i < total / 2.0
  {
    var h := total / 2.0;
    var t := i / h;
    assert t * h == i;
    assert i - h == (t - 1.0) * h;
    assert i - total == (t - 2.0) * h;
    SignOfProduct(t, h);
    SignOfProduct(t - 1.0, h);
    SignOfProduct(t - 2.0, h);
    assert t < 1.0 <==> i - h < 0.0;
  }

  /** Normalised time of a run's iteration lies in [0, 2]. */
  lemma NormalisedRange(i: real, total: real)
    requires total > 0.0 && 0.0 <= i <= total
    ensures 0.0 <= i / (total / 2.0) <= 2.0
  {
    var h := total / 2.0;
    var t := i / h;
    assert t * h == i;
    assert i - total == (t - 2.0) * h;
    SignOfProduct(t, h);
    SignOfProduct(t - 2.0, h);
  }

  /** Multiplying by a positive `h` keeps the sign. */
  lemma SignOfProduct(x: real, h: real)
    requires h > 0.0
    ensures x < 0.0 <==> x * h < 0.0
    ensures x > 0.0 <==> x * h > 0.0
  {
  }

  lemma NormalisedTimeMonotone(i: real, j: real, total: real)
    requires total > 0.0 && i <= j
    ensures i / (total / 2.0) <= j / (total / 2.0)
  {
    var h := total / 2.0;
    assert (i / h) * h == i && (j / h) * h == j;
    if i / h > j / h {
      assert (i / h) * h > (j / h) * h;
    }
  }

  /** On [0, 2] the curve runs from 0 to 1; it stays below 1/2 before t = 1 and
      at or above 1/2 from t = 1 on. */
  lemma QuartRange(t: real)
    requires 0.0 <= t <= 2.0
    ensures 0.0 <= Quart(t) <= 1.0
    ensures t < 1.0 ==> Quart(t) < 0.5
    ensures t >= 1.0 ==> Quart(t) >= 0.5
  {
    if t < 1.0 {
      Pow4NonNegative(t);
      Pow4Monotone(t, 1.0);
    } else {
      Pow4NonNegative(t - 2.0);
      Pow4Even(t - 2.0);
      Pow4Monotone(2.0 - t, 1.0);
    }
  }

  /** The curve never goes backwards on [0, 2]. */
  lemma QuartMonotone(t: real, u: real)
    requires 0.0 <= t <= u <= 2.0
    ensures Quart(t) <= Quart(u)
  {
    if u < 1.0 {
      Pow4Monotone(t, u);
    } else if t >= 1.0 {
      Pow4Even(t - 2.0);
      Pow4Even(u - 2.0);
      Pow4Monotone(2.0 - u, 2.0 - t);
    } else {
      QuartRange(t);
      QuartRange(u);
    }
  }

  /** Ease-in-out symmetry: the second half mirrors the first about the midpoint. */
  lemma QuartSymmetric(t: real)
    ensures Quart(2.0 - t) == 1.0 - Quart(t)
  {
    Pow4Even(t);
    Pow4Even(t - 2.0);
    assert (2.0 - t) - 2.0 == -t;
    assert Pow4(2.0 - t) == Pow4(t - 2.0);
    if t < 1.0 {
      assert !(2.0 - t < 1.0);
    } else if t > 1.0 {
      assert 2.0 - t < 1.0;
    }
  }

  /** The run starts at `start`, passes `start + change / 2` halfway and lands on
      `start + change` at the last iteration. */
  lemma EaseEndpoints(start: real, change: real, total: real)
    requires total > 0.0
    ensures EaseInOutQuart(0.0, start, change, total) == start
    ensures EaseInOutQuart(total / 2.0, start, change, total) == start + change / 2.0
    ensures EaseInOutQuart(total, start, change, total) == start + change
  {
    var h := total / 2.0;
    assert 0.0 / h == 0.0;
    assert h / h == 1.0;
    assert total / h == 2.0;
    EaseIsScaledQuart(0.0, start, change, total);
    EaseIsScaledQuart(h, start, change, total);
    EaseIsScaledQuart(total, start, change, total);
  }

  /** Within a run every eased value lies between `start` and `start + change`
      (either way round, so a negative change is covered); the first half lies
      between `start` and the midpoint, the second half between the midpoint and
      the target. */
  lemma EaseWithinRun(iteration: real, start: real, change: real, total: real)
    requires total > 0.0 && 0.0 <= iteration <= total
    ensures Between(EaseInOutQuart(iteration, start, change, total), start, start + change)
    ensures iteration < total / 2.0 ==>
              Between(EaseInOutQuart(iteration, start, change, total), start, start + change / 2.0)
    ensures iteration >= total / 2.0 ==>
              Between(EaseInOutQuart(iteration, start, change, total), start + change / 2.0, start + change)
  {
    var t := iteration / (total / 2.0);
    NormalisedTime(iteration, total);
    QuartRange(t);
    EaseIsScaledQuart(iteration, start, change, total);
    var q := Quart(t);
    assert q < 0.5 <==> iteration < total / 2.0;
    UnitBetween(start, change, q);
    var e := EaseInOutQuart(iteration, start, change, total);
    assert e == start + change * q;
  }

  /** A progress `q` of [0, 1] puts `s + c * q` between `s` and `s + c`, and in
      the half of that range that `q` is in. */
  lemma UnitBetween(s: real, c: real, q: real)
    requires 0.0 <= q <= 1.0
    ensures Between(s + c * q, s, s + c)
    ensures q < 0.5 ==> Between(s + c * q, s, s + c / 2.0)
    ensures q >= 0.5 ==> Between(s + c * q, s + c / 2.0, s + c)
  {
    assert s + c * 0.0 == s;
    assert s + c * 0.5 == s + c / 2.0;
    assert s + c * 1.0 == s + c;
    ScaledBetween(s, c, q, 0.0, 1.0);
    if q < 0.5 {
      ScaledBetween(s, c, q, 0.0, 0.5);
    } else {
      ScaledBetween(s, c, q, 0.5, 1.0);
    }
  }

  /** A point `q` of [lo, hi], scaled by `c` and shifted by `s`, lies between the
      images of `lo` and `hi`. */
  lemma ScaledBetween(s: real, c: real, q: real, lo: real, hi: real)
    requires lo <= q <= hi
    ensures Between(s + c * q, s + c * lo, s + c * hi)
  {
    ScaleMonotone(c, lo, q);
    ScaleMonotone(c, q, hi);
  }

  /** Multiplying by `c` keeps an order when c >= 0 and reverses it when c <= 0. */
  lemma ScaleMonotone(c: real, a: real, b: real)
    requires a <= b
    ensures c >= 0.0 ==> c * a <= c * b
    ensures c <= 0.0 ==> c * a >= c * b
  {
    assert c * b - c * a == c * (b - a);
  }

  /** Division by a non-zero `h` is the inverse of multiplication by it. */
  lemma DivideBack(x: real, y: real, h: real)
    requires h != 0.0 && x * h == y
    ensures x == y / h
  {
  }

  /** With a positive change the first half stays strictly below the midpoint. */
  lemma EaseFirstHalfBelowMidpoint(iteration: real, start: real, change: real, total: real)
    requires total > 0.0 && 0.0 <= iteration < total / 2.0 && change > 0.0
    ensures EaseInOutQuart(iteration, start, change, total) < start + change / 2.0
  {
    var q := Quart(iteration / (total / 2.0));
    var e := EaseInOutQuart(iteration, start, change, total);
    assert q < 0.5 by {
      NormalisedTime(iteration, total);
      QuartRange(iteration / (total / 2.0));
    }
    assert e == start + change * q by {
      EaseIsScaledQuart(iteration, start, change, total);
    }
    assert change * q < change * 0.5 by {
      assert change * 0.5 - change * q == change * (0.5 - q);
    }
  }

  /** The eased scroll offset moves monotonically towards the target: it never
      overshoots and never turns back. */
  lemma EaseMonotone(i: real, j: real, start: real, change: real, total: real)
    requires total > 0.0 && 0.0 <= i <= j <= total
    ensures change >= 0.0 ==> EaseInOutQuart(i, start, change, total) <= EaseInOutQuart(j, start, change, total)
    ensures change <= 0.0 ==> EaseInOutQuart(i, start, change, total) >= EaseInOutQuart(j, start, change, total)
  {
    var qi, qj := Quart(i / (total / 2.0)), Quart(j / (total / 2.0));
    var ei, ej := EaseInOutQuart(i, start, change, total), EaseInOutQuart(j, start, change, total);
    assert qi <= qj by {
      QuartOrderOfTimes(i, j, total);
    }
    assert ei == start + change * qi by {
      EaseIsScaledQuart(i, start, change, total);
    }
    assert ej == start + change * qj by {
      EaseIsScaledQuart(j, start, change, total);
    }
    ShiftedOrder(ei, ej, start, change, qi, qj);
  }

  /** Later iterations of a run are at least as far along the curve. */
  lemma QuartOrderOfTimes(i: real, j: real, total: real)
    requires total > 0.0 && 0.0 <= i <= j <= total
    ensures Quart(i / (total / 2.0)) <= Quart(j / (total / 2.0))
  {
    NormalisedRange(i, total);
    NormalisedRange(j, total);
    NormalisedTimeMonotone(i, j, total);
    QuartMonotone(i / (total / 2.0), j / (total / 2.0));
  }

  /** Two points scaled by `c` and shifted by `s` keep their order when c >= 0
      and swap it when c <= 0. */
  lemma ShiftedOrder(ei: real, ej: real, s: real, c: real, qi: real, qj: real)
    requires ei == s + c * qi && ej == s + c * qj && qi <= qj
    ensures c >= 0.0 ==> ei <= ej
    ensures c <= 0.0 ==> ei >= ej
  {
    ScaleMonotone(c, qi, qj);
  }

  /** Iteration `total - i` is the mirror image of iteration `i`: the distance
      already covered at `i` equals the distance still to go at `total - i`. */
  lemma EaseSymmetric(i: real, start: real, change: real, total: real)
    requires total > 0.0
    ensures EaseInOutQuart(total - i, start, change, total) - start
            == start + change - EaseInOutQuart(i, start, change, total)
  {
    var h := total / 2.0;
    assert (i / h) * h == i;
    assert (2.0 - i / h) * h == total - i;
    DivideBack(2.0 - i / h, total - i, h);
    QuartSymmetric(i / h);
    EaseIsScaledQuart(i, start, change, total);
    EaseIsScaledQuart(total - i, start, change, total);
  }
}
