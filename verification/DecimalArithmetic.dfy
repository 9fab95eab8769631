/** Decimal arithmetic at fifty significant digits, rounded half to even, as the calculators run it,
    followed by the one quantization that is stored. Stored quantities are integer micro-units; a
    quotient in flight is a ratio. The theorems say when fifty digits are as good as exact. */
module DecimalArithmetic {
  import opened Arithmetic

  /** Ten to the 49th: the smallest coefficient with fifty digits. */
  const FIFTY_DIGITS: nat := 10_0000_0000_0000_0000_0000_0000_0000_0000_0000_0000_0000_0000

  /** Ten to the 43rd, far above any product of two NUMERIC(18,6) values in micro-units. */
  const OPERAND_LIMIT: nat := 1000_0000_0000_0000_0000_0000_0000_0000_0000_0000_0000

  datatype Ratio = Ratio(num: nat, den: nat)

  function HalfEven(n: nat, d: nat): nat
    requires d > 0
  {
    var q, r := n / d, n % d;
    if 2 * r < d || (2 * r == d && q % 2 == 0) then q else q + 1
  }

  /** `n / d` rounded to fifty significant digits. */
  function Round50(n: nat, d: nat): (v: Ratio)
    requires d > 0
    ensures v.den > 0
    decreases if n >= 10 * FIFTY_DIGITS * d then n - FIFTY_DIGITS * d else if n < FIFTY_DIGITS * d
      then FIFTY_DIGITS * d - n else 0
  {
    if n == 0 then Ratio(0, 1)
    else if n >= 10 * FIFTY_DIGITS * d then
      var v := Round50(n, 10 * d); Ratio(10 * v.num, v.den)
    else if n < FIFTY_DIGITS * d then
      var v := Round50(10 * n, d); Ratio(v.num, 10 * v.den)
    else Ratio(HalfEven(n, d), 1)
  }

  /** The smallest integer not below a ratio (ROUND_CEILING). */
  function Ceiling(v: Ratio): nat
    requires v.den > 0
  {
    (v.num + v.den - 1) / v.den
  }

  /** The integer nearest to `n / d`, halves rounded up. */
  function HalfUp(n: nat, d: nat): nat
    requires d > 0
  {
    (2 * n + d) / (2 * d)
  }

  /** Micro-units of a ratio (ROUND_HALF_UP to six places). */
  function Micros(v: Ratio): nat
    requires v.den > 0
  {
    HalfUp(1000000 * v.num, v.den)
  }

  // ---- the rounding error ----

  /** `v` is within half a unit in its fiftieth digit of `n / d`. */
  predicate Near(v: Ratio, n: nat, d: nat) {
    var error := v.num * d - n * v.den;
    -(n * v.den) <= 2 * FIFTY_DIGITS * error <= n * v.den
  }

  lemma HalfEvenIsNear(n: nat, d: nat)
    requires d > 0
    ensures 2 * n - d <= 2 * (HalfEven(n, d) * d) <= 2 * n + d
  {
    var q, r := n / d, n % d;
    assert n == q * d + r;
    assert (q + 1) * d == q * d + d;
  }

  lemma CoefficientIsNear(n: nat, d: nat)
    requires d > 0 && FIFTY_DIGITS * d <= n
    ensures Near(Ratio(HalfEven(n, d), 1), n, d)
  {
    hide HalfEven;
    HalfEvenIsNear(n, d);
  }

  lemma ShiftUp(v: Ratio, n: nat, d: nat)
    requires Near(v, n, 10 * d)
    ensures Near(Ratio(10 * v.num, v.den), n, d)
  {
    assert (10 * v.num) * d == v.num * (10 * d);
  }

  lemma ShiftDown(v: Ratio, n: nat, d: nat)
    requires Near(v, 10 * n, d)
    ensures Near(Ratio(v.num, 10 * v.den), n, d)
  {
    assert (10 * n) * v.den == n * (10 * v.den);
  }

  /** Rounding to fifty digits is off by at most half a unit in the fiftieth digit. */
  lemma {:induction false} RoundingIsNear(n: nat, d: nat)
    requires d > 0
    ensures Near(Round50(n, d), n, d)
    decreases if n >= 10 * FIFTY_DIGITS * d then n - FIFTY_DIGITS * d else if n < FIFTY_DIGITS * d
      then FIFTY_DIGITS * d - n else 0
  {
    if n == 0 {
    } else if n >= 10 * FIFTY_DIGITS * d {
      hide Near;
      RoundingIsNear(n, 10 * d);
      ShiftUp(Round50(n, 10 * d), n, d);
    } else if n < FIFTY_DIGITS * d {
      hide Near;
      RoundingIsNear(10 * n, d);
      ShiftDown(Round50(10 * n, d), n, d);
    } else {
      hide Near, HalfEven;
      CoefficientIsNear(n, d);
    }
  }

  /** A whole quotient of up to fifty digits is not rounded at all. */
  lemma {:induction false} WholeIsExact(n: nat, d: nat, q: nat)
    requires d > 0 && n == q * d && n < 10 * FIFTY_DIGITS * d
    ensures Round50(n, d).num == q * Round50(n, d).den
    decreases FIFTY_DIGITS * d - n
  {
    if n == 0 {
    } else if n < FIFTY_DIGITS * d {
      assert 10 * n == (10 * q) * d;
      WholeIsExact(10 * n, d, 10 * q);
      var v := Round50(10 * n, d);
      assert (10 * q) * v.den == q * (10 * v.den);
    } else {
      WholeHalfEven(n, d, q);
    }
  }

  lemma WholeHalfEven(n: nat, d: nat, q: nat)
    requires d > 0 && n == q * d
    ensures HalfEven(n, d) == q
  {
    assert n / d == q && n % d == 0 by { DivModIs(n, d, q, 0); }
  }

  /** A quotient with at most seven decimals is not rounded either. */
  lemma SevenDecimalsAreExact(n: nat, d: nat, q: nat)
    requires d > 0 && 10000000 * n == q * d && n < OPERAND_LIMIT * d
    ensures 10000000 * Round50(n, d).num == q * Round50(n, d).den
  {
    OneDecimal(n, d);
    OneDecimal(10 * n, d);
    OneDecimal(100 * n, d);
    OneDecimal(1000 * n, d);
    OneDecimal(10000 * n, d);
    OneDecimal(100000 * n, d);
    OneDecimal(1000000 * n, d);
    WholeIsExact(10000000 * n, d, q);
    Rescaled(Round50(10000000 * n, d), 10000000, q);
  }

  lemma OneDecimal(n: nat, d: nat)
    requires d > 0 && n < FIFTY_DIGITS * d
    ensures Round50(n, d).num == Round50(10 * n, d).num
    ensures n > 0 ==> Round50(n, d).den == 10 * Round50(10 * n, d).den
    ensures n == 0 ==> Round50(n, d).num == 0
  {
  }

  lemma Rescaled(v: Ratio, k: nat, q: nat)
    requires v.num == q * v.den
    ensures k * v.num == q * (k * v.den)
  {
  }

  // ---- rounding never crosses a short fraction ----

  lemma NearScaled(v: Ratio, n: nat, d: nat, b: nat)
    requires Near(v, n, d)
    ensures -(n * b * v.den) <= 2 * FIFTY_DIGITS * (d * (v.num * b) - n * b * v.den) <= n * b * v.den
  {
    var error := v.num * d - n * v.den;
    Scale(b, -(n * v.den), 2 * FIFTY_DIGITS * error);
    Scale(b, 2 * FIFTY_DIGITS * error, n * v.den);
    assert b * (2 * FIFTY_DIGITS * error) == 2 * FIFTY_DIGITS * (b * error);
    assert b * error == d * (v.num * b) - n * b * v.den by {
      assert b * (v.num * d) == d * (v.num * b);
      assert b * (n * v.den) == n * b * v.den;
      Distribute(b, v.num * d, -(n * v.den));
    }
    assert b * (n * v.den) == n * b * v.den && b * -(n * v.den) == -(n * b * v.den);
  }

  lemma StaysBelow(x: nat, y: nat, den: nat, d: nat, m: nat, a: nat)
    requires den > 0 && d > 0 && m < 2 * FIFTY_DIGITS && y == a * den && m < a * d
    requires 2 * FIFTY_DIGITS * (d * x - m * den) <= m * den
    ensures x < y
  {
    Monotone(d, y, x);
    assert d * y == (a * d) * den;
    Scale(den, m + 1, a * d);
    Distribute(den, m, 1);
    Scale(den, m + 1, 2 * FIFTY_DIGITS);
  }

  lemma StaysAbove(x: nat, y: nat, den: nat, d: nat, m: nat, a: nat)
    requires den > 0 && d > 0 && m < 2 * FIFTY_DIGITS && y == a * den && m > a * d
    requires -(m * den) <= 2 * FIFTY_DIGITS * (d * x - m * den)
    ensures x > y
  {
    Monotone(d, x, y);
    assert d * y == (a * d) * den;
    Scale(den, a * d, m - 1);
    Distribute(den, m, -1);
    Scale(den, m + 1, 2 * FIFTY_DIGITS);
    Distribute(den, m, 1);
  }

  /** Fifty digits keep a quotient on its side of every fraction `a / b` with a small denominator. */
  lemma NeverCrosses(n: nat, d: nat, a: nat, b: nat)
    requires d > 0 && n * b < 2 * FIFTY_DIGITS
    ensures
      var v := Round50(n, d);
      && (n * b < a * d ==> v.num * b < a * v.den)
      && (n * b > a * d ==> v.num * b > a * v.den)
  {
    hide Round50;
    var v := Round50(n, d);
    RoundingIsNear(n, d);
    NearScaled(v, n, d, b);
    if n * b < a * d { StaysBelow(v.num * b, a * v.den, v.den, d, n * b, a); }
    if n * b > a * d { StaysAbove(v.num * b, a * v.den, v.den, d, n * b, a); }
  }

  lemma OneLess(c: int, d: int)
    ensures (c - 1) * d == c * d - d
  {
  }

  lemma CeilingIs(n: int, d: int, c: int)
    requires d > 0 && (c - 1) * d < n <= c * d
    ensures (n + d - 1) / d == c
  {
    DivModIs(n + d - 1, d, c, n + d - 1 - d * c);
  }

  /** Whole batches: rounding up the fifty-digit quotient is rounding up the exact one. */
  lemma CeilingIsExact(n: nat, d: nat)
    requires d > 0 && n < OPERAND_LIMIT
    ensures Ceiling(Round50(n, d)) == (n + d - 1) / d
  {
    hide Round50;
    var v, c := Round50(n, d), (n + d - 1) / d;
    FewestBatches(n, d);
    OneLess(c, d);
    OneLess(c, v.den);
    NeverCrosses(n, d, c, 1);
    if c > 0 { NeverCrosses(n, d, c - 1, 1); }
    if n == c * d { WholeIsExact(n, d, c); }
    CeilingIs(v.num, v.den, c);
  }

  /** Half up, as the interval it stands for. */
  lemma HalfUpIs(n: nat, d: nat, h: nat)
    requires d > 0
    ensures HalfUp(n, d) == h <==> (2 * h - 1) * d <= 2 * n < (2 * h + 1) * d
  {
    var q, r := (2 * n + d) / (2 * d), (2 * n + d) % (2 * d);
    assert 2 * n + d == 2 * d * q + r;
    assert (2 * q - 1) * d == 2 * d * q - d && (2 * q + 1) * d == 2 * d * q + d;
    assert (2 * h - 1) * d == 2 * d * h - d && (2 * h + 1) * d == 2 * d * h + d;
    if (2 * h - 1) * d <= 2 * n < (2 * h + 1) * d {
      DivModIs(2 * n + d, 2 * d, h, 2 * n + d - 2 * d * h);
    }
  }

  /** Stored values: quantizing the fifty-digit quotient is quantizing the exact one. */
  lemma QuantizingIsExact(n: nat, d: nat)
    requires d > 0 && n < OPERAND_LIMIT
    ensures Micros(Round50(n, d)) == HalfUp(1000000 * n, d)
  {
    hide Round50, HalfUp;
    var v, h := Round50(n, d), HalfUp(1000000 * n, d);
    HalfUpIs(1000000 * n, d, h);
    NeverCrosses(n, d, 2 * h + 1, 2000000);
    if h > 0 {
      NeverCrosses(n, d, 2 * h - 1, 2000000);
      if 2000000 * n == (2 * h - 1) * d {
        assert 10000000 * n == 5 * (2 * h - 1) * d;
        assert OPERAND_LIMIT <= OPERAND_LIMIT * d;
        SevenDecimalsAreExact(n, d, 5 * (2 * h - 1));
      }
    }
    HalfUpIs(1000000 * v.num, v.den, h);
  }

  // ---- whole batches ----

  datatype BatchResult =
    | BatchPlan(batches: nat, output: nat, excess: int)
    | NegativeDemand
    | NonPositiveYield

  /** The whole-batch plan for a remaining demand and a batch perBatch, both in micro-units. */
  function WholeBatchPlan(demand: int, perBatch: int): BatchResult {
    if demand < 0 then NegativeDemand
    else if perBatch <= 0 then NonPositiveYield
    else if demand == 0 then BatchPlan(0, 0, 0)
    else
      var batches := Ceiling(Round50(demand, perBatch));
      BatchPlan(batches, batches * perBatch, batches * perBatch - demand)
  }

  /** The plan has the fewest batches that cover the demand; less than one batch is over. */
  lemma PlanIsLeastCover(demand: int, perBatch: int)
    requires demand < OPERAND_LIMIT
    ensures WholeBatchPlan(demand, perBatch).NegativeDemand? <==> demand < 0
    ensures WholeBatchPlan(demand, perBatch).NonPositiveYield? <==> demand >= 0 && perBatch <= 0
    ensures demand >= 0 && perBatch > 0 ==>
      var plan := WholeBatchPlan(demand, perBatch);
      && plan.BatchPlan?
      && plan.output == plan.batches * perBatch == demand + plan.excess
      && 0 <= plan.excess < perBatch
      && forall b: nat :: b * perBatch >= demand ==> plan.batches <= b
  {
    if demand >= 0 && perBatch > 0 {
      hide Round50, Ceiling;
      CeilingIsExact(demand, perBatch);
      FewestBatches(demand, perBatch);
    }
  }

  lemma FewestBatches(demand: nat, perBatch: nat)
    requires perBatch > 0
    ensures
      var c := (demand + perBatch - 1) / perBatch;
      && demand <= c * perBatch < demand + perBatch
      && (demand == 0 ==> c == 0)
      && forall b: nat :: b * perBatch >= demand ==> c <= b
  {
    var c := (demand + perBatch - 1) / perBatch;
    assert demand + perBatch - 1 == perBatch * c + (demand + perBatch - 1) % perBatch;
    Commute(perBatch, c);
    if demand == 0 { DivModIs(perBatch - 1, perBatch, 0, perBatch - 1); }
    forall b: nat | b * perBatch >= demand ensures c <= b {
      Monotone(perBatch, b + 1, c);
      Distribute(perBatch, b, 1);
      Commute(perBatch, b);
    }
  }

  // ---- rescaling an order line to another package quantity ----

  /** Underlying quantity after changing `packages` to `newPackages`: the stored ratio at fifty
      digits, the product at fifty digits, then one quantization. */
  function Rescale(newPackages: nat, packages: nat, underlying: nat): nat
    requires packages > 0
  {
    var ratio := Round50(underlying, packages);
    Micros(Round50(newPackages * ratio.num, 1000000 * ratio.den))
  }

  const NUMERIC_18_6_LIMIT: nat := 100_0000_0000_0000_0000

  lemma CancelPositive(c: nat, x: int, y: int)
    requires c > 0 && c * x <= c * y
    ensures x <= y
  {
    Monotone(c, y, x);
  }

  lemma GapIdentity(a: int, c: int, den: int, n: int, x: int)
    ensures c * (2 * (x * den) - 2 * n) == den * (2 * x * c - 2000000 * a) + 2 * (a * (1000000 * den) - n * c)
  {
  }

  lemma SumOfTwo(cy: int, dg: int, error: int, dc: int, nc: int)
    requires cy == dg + 2 * error && -dc <= dg <= dc && -nc <= 2 * FIFTY_DIGITS * error <= nc
    ensures -(FIFTY_DIGITS * dc + nc) <= FIFTY_DIGITS * cy <= FIFTY_DIGITS * dc + nc
  {
  }

  lemma CancelBound(c: nat, y: int, bound: nat)
    requires c > 0 && -(c * bound) <= FIFTY_DIGITS * (c * y) <= c * bound
    ensures -(bound as int) <= FIFTY_DIGITS * y <= bound
  {
    assert c * (FIFTY_DIGITS * y) == FIFTY_DIGITS * (c * y);
    CancelPositive(c, FIFTY_DIGITS * y, bound);
    assert c * -(bound as int) == -(c * bound);
    CancelPositive(c, -(bound as int), FIFTY_DIGITS * y);
  }

  lemma Negate(a: int, b: int)
    ensures a * (0 - b) == 0 - a * b
  {
  }

  lemma Gather(c: int, den: int, n: int)
    ensures c * (FIFTY_DIGITS * den + n) == FIFTY_DIGITS * (den * c) + n * c
  {
  }

  lemma HalfUpGap(n: nat, d: nat)
    requires d > 0
    ensures 0 - d <= 2 * HalfUp(n, d) * d - 2 * n <= d
  {
    hide HalfUp;
    var h := HalfUp(n, d);
    HalfUpIs(n, d, h);
    assert (2 * h - 1) * d == 2 * h * d - d && (2 * h + 1) * d == 2 * h * d + d;
  }

  /** One rounding followed by quantization to micro-units. */
  lemma QuantizedQuotient(n: nat, den: nat, x: nat)
    requires den > 0 && x == Micros(Round50(n, 1000000 * den))
    ensures -(FIFTY_DIGITS * den + n) <= FIFTY_DIGITS * (2 * (x * den) - 2 * n) <= FIFTY_DIGITS * den + n
  {
    hide Round50, HalfUp;
    var v := Round50(n, 1000000 * den);
    RoundingIsNear(n, 1000000 * den);
    HalfUpGap(1000000 * v.num, v.den);
    var c: int, gap, y := v.den, 2 * x * v.den - 2000000 * v.num, 2 * (x * den) - 2 * n;
    GapIdentity(v.num, c, den, n, x);
    Monotone(den, gap, c);
    Monotone(den, 0 - c, gap);
    Negate(den, c);
    SumOfTwo(c * y, den * gap, v.num * (1000000 * den) - n * c, den * c, n * c);
    Gather(c, den, n);
    CancelBound(c, y, FIFTY_DIGITS * den + n);
  }

  lemma RatioIdentity(num: int, den: int, p: int, w: int, u: int, x: int)
    ensures den * (2 * (x * p) - 2 * (w * u)) == p * (2 * (x * den) - 2 * (w * num)) + 2 * (w * (num * p - u * den))
  {
  }

  lemma ScaledGap(num: nat, den: nat, p: nat, w: nat, gap: int)
    requires -(FIFTY_DIGITS * den + w * num) <= FIFTY_DIGITS * gap <= FIFTY_DIGITS * den + w * num
    ensures
      -(FIFTY_DIGITS * (p * den) + w * (num * p)) <= FIFTY_DIGITS * (p * gap)
      <= FIFTY_DIGITS * (p * den) + w * (num * p)
  {
    var top := FIFTY_DIGITS * den + w * num;
    Scale(p, FIFTY_DIGITS * gap, top);
    Scale(p, -top, FIFTY_DIGITS * gap);
    assert p * top == FIFTY_DIGITS * (p * den) + w * (num * p) by {
      Distribute(p, FIFTY_DIGITS * den, w * num);
      assert p * (FIFTY_DIGITS * den) == FIFTY_DIGITS * (p * den) && p * (w * num) == w * (num * p);
    }
    assert p * -top == -(p * top);
    assert p * (FIFTY_DIGITS * gap) == FIFTY_DIGITS * (p * gap);
  }

  lemma ScaledError(ud: nat, w: nat, error: int)
    requires 0 - ud <= 2 * FIFTY_DIGITS * error <= ud
    ensures -(w * ud) <= 2 * FIFTY_DIGITS * (w * error) <= w * ud
  {
    Scale(w, 2 * FIFTY_DIGITS * error, ud);
    Scale(w, -(ud as int), 2 * FIFTY_DIGITS * error);
    assert w * (2 * FIFTY_DIGITS * error) == 2 * FIFTY_DIGITS * (w * error);
    assert w * -(ud as int) == -(w * ud);
  }

  lemma NearlyEqual(np: nat, ud: nat, error: int)
    requires error == np - ud && 2 * FIFTY_DIGITS * error <= ud
    ensures np <= 2 * ud
  {
  }

  lemma SumOfErrors(dy: int, pg: int, we: int, pd: int, wud: int, wnp: int)
    requires dy == pg + 2 * we && wnp <= 2 * wud
    requires -(FIFTY_DIGITS * pd + wnp) <= FIFTY_DIGITS * pg <= FIFTY_DIGITS * pd + wnp
    requires -wud <= 2 * FIFTY_DIGITS * we <= wud
    ensures -(FIFTY_DIGITS * pd + 3 * wud) <= FIFTY_DIGITS * dy <= FIFTY_DIGITS * pd + 3 * wud
  {
  }

  /** The combined error of both roundings, before anything is known about sizes. */
  lemma RescaleError(newPackages: nat, packages: nat, underlying: nat)
    requires 0 < packages
    ensures
      var x, bound := Rescale(newPackages, packages, underlying),
        FIFTY_DIGITS * packages + 3 * (newPackages * underlying);
      -bound <= FIFTY_DIGITS * (2 * (x * packages) - 2 * (newPackages * underlying)) <= bound
  {
    hide Round50, Micros;
    var v := Round50(underlying, packages);
    var x := Rescale(newPackages, packages, underlying);
    var w, u, p, den := newPackages, underlying, packages, v.den;
    var y, gap, error := 2 * (x * p) - 2 * (w * u), 2 * (x * den) - 2 * (w * v.num), v.num * p - u * den;
    RoundingIsNear(u, p);
    QuantizedQuotient(w * v.num, den, x);
    RatioIdentity(v.num, den, p, w, u, x);
    ScaledGap(v.num, den, p, w, gap);
    ScaledError(u * den, w, error);
    NearlyEqual(v.num * p, u * den, error);
    Scale(w, v.num * p, 2 * (u * den));
    assert w * (2 * (u * den)) == 2 * (w * (u * den));
    SumOfErrors(den * y, p * gap, w * error, p * den, w * (u * den), w * (v.num * p));
    assert den * (FIFTY_DIGITS * p + 3 * (w * u)) == FIFTY_DIGITS * (p * den) + 3 * (w * (u * den));
    CancelBound(den, y, FIFTY_DIGITS * p + 3 * (w * u));
  }

  /** Both roundings together leave a representable result at a nearest micro-unit: half a unit at
      most from the exact proportion. */
  lemma RescaleIsNearest(newPackages: nat, packages: nat, underlying: nat)
    requires 0 < packages < NUMERIC_18_6_LIMIT
    requires Rescale(newPackages, packages, underlying) < NUMERIC_18_6_LIMIT
    ensures
      var x := Rescale(newPackages, packages, underlying);
      0 - packages <= 2 * (x * packages) - 2 * (newPackages * underlying) <= packages
  {
    hide Rescale;
    var x := Rescale(newPackages, packages, underlying);
    RescaleError(newPackages, packages, underlying);
    Scale(packages, x, NUMERIC_18_6_LIMIT);
    TinyError(packages, newPackages * underlying, x * packages, 2 * (x * packages) - 2 * (newPackages * underlying));
  }

  /** A proportion below the NUMERIC(18,6) limit is stored without overflow. */
  lemma RescaleFits(newPackages: nat, packages: nat, underlying: nat)
    requires 0 < packages < NUMERIC_18_6_LIMIT
    requires newPackages * underlying <= (NUMERIC_18_6_LIMIT - 1) * packages
    ensures Rescale(newPackages, packages, underlying) < NUMERIC_18_6_LIMIT
  {
    hide Rescale;
    var x := Rescale(newPackages, packages, underlying);
    RescaleError(newPackages, packages, underlying);
    Monotone(packages, NUMERIC_18_6_LIMIT, x);
  }

  lemma TinyError(p: nat, wu: nat, xp: nat, y: int)
    requires p < NUMERIC_18_6_LIMIT && xp <= NUMERIC_18_6_LIMIT * p && y == 2 * xp - 2 * wu
    requires -(FIFTY_DIGITS * p + 3 * wu) <= FIFTY_DIGITS * y <= FIFTY_DIGITS * p + 3 * wu
    ensures 0 - p <= y <= p
  {
  }

  /** Rescaling is exact half-up rounding, except that an exact tie may go down. */
  lemma RescaleIsHalfUp(newPackages: nat, packages: nat, underlying: nat)
    requires 0 < packages < NUMERIC_18_6_LIMIT
    requires Rescale(newPackages, packages, underlying) < NUMERIC_18_6_LIMIT
    ensures
      var x, exact := Rescale(newPackages, packages, underlying), HalfUp(newPackages * underlying, packages);
      x == exact || (x + 1 == exact && (2 * x + 1) * packages == 2 * (newPackages * underlying))
  {
    hide Rescale, HalfUp;
    RescaleIsNearest(newPackages, packages, underlying);
    var x := Rescale(newPackages, packages, underlying);
    HalfUpIs(newPackages * underlying, packages, x);
    HalfUpIs(newPackages * underlying, packages, x + 1);
    assert (2 * x + 1) * packages == 2 * (x * packages) + packages;
    assert (2 * x - 1) * packages == 2 * (x * packages) - packages;
    assert (2 * (x + 1) + 1) * packages == 2 * (x * packages) + 3 * packages;
    assert (2 * (x + 1) - 1) * packages == (2 * x + 1) * packages;
  }

  /** Raising the package quantity and putting it back restores the stored underlying quantity,
      whatever the ratio. */
  lemma LargerAndBackRestores(newPackages: nat, packages: nat, underlying: nat)
    requires 0 < packages <= newPackages < NUMERIC_18_6_LIMIT && underlying < NUMERIC_18_6_LIMIT
    requires Rescale(newPackages, packages, underlying) < NUMERIC_18_6_LIMIT
    ensures Rescale(packages, newPackages, Rescale(newPackages, packages, underlying)) == underlying
  {
    hide Rescale;
    var x := Rescale(newPackages, packages, underlying);
    var back := Rescale(packages, newPackages, x);
    Monotone(x, packages, newPackages);
    Monotone(newPackages, x, NUMERIC_18_6_LIMIT - 1);
    Commute(x, packages);
    Commute(x, newPackages);
    RescaleFits(packages, newPackages, x);
    RescaleIsNearest(newPackages, packages, underlying);
    RescaleIsNearest(packages, newPackages, x);
    if packages < newPackages {
      Closest(packages, newPackages, underlying, x, back);
    } else {
      SamePackages(packages, x, underlying);
      SamePackages(packages, back, x);
    }
  }

  lemma Closest(p: nat, w: nat, u: nat, x: nat, back: nat)
    requires p < w && 0 - p <= 2 * (x * p) - 2 * (w * u) <= p && 0 - w <= 2 * (back * w) - 2 * (p * x) <= w
    ensures back == u
  {
    Commute(x, p);
    Difference(w, back, u);
    Bounded(w, p, 2 * (back - u));
  }

  lemma Commute(a: int, b: int)
    ensures a * b == b * a
  {
  }

  lemma Difference(w: int, a: int, b: int)
    ensures w * (2 * (a - b)) == 2 * (a * w) - 2 * (w * b)
  {
  }

  lemma Bounded(w: nat, p: nat, n: int)
    requires p < w && n % 2 == 0 && 0 - (p + w) <= w * n <= p + w
    ensures n == 0
  {
    Monotone(w, 2, n);
    Monotone(w, n, -2);
  }

  lemma SamePackages(p: nat, x: nat, u: nat)
    requires p > 0 && 0 - p <= 2 * (x * p) - 2 * (p * u) <= p
    ensures x == u
  {
    Difference(p, x, u);
    Bounded(p, 0, 2 * (x - u));
  }

  /** Twice the error of the way down, seen from the way back: `packages` times what was stored against
      the exact product. */
  function Gap(newPackages: nat, packages: nat, underlying: nat): int
    requires packages > 0
  {
    2 * (packages * Rescale(newPackages, packages, underlying)) - 2 * (newPackages * underlying)
  }

  /** Lowering the package quantity and putting it back: exactly when the stored underlying quantity
      comes back. Within half of the lower quantity it does, beyond it does not, and at exactly half
      the way back is a tie and its ratio decides. (An order with a quantity of zero is refused, so the
      way back is never from there.) */
  lemma SmallerAndBackRestoresIff(newPackages: nat, packages: nat, underlying: nat)
    requires 0 < newPackages < packages < NUMERIC_18_6_LIMIT
    requires Rescale(newPackages, packages, underlying) < NUMERIC_18_6_LIMIT
    requires Rescale(packages, newPackages, Rescale(newPackages, packages, underlying)) < NUMERIC_18_6_LIMIT
    ensures
      var x := Rescale(newPackages, packages, underlying);
      var back, gap, w := Rescale(packages, newPackages, x), Gap(newPackages, packages, underlying), newPackages;
      back == underlying <==>
        || 0 - w < gap < w
        || (gap == w && FallsShort(packages, newPackages, x))
        || (gap == 0 - w && !FallsShort(packages, newPackages, x))
  {
    hide Rescale, HalfUp;
    var p, w, u := packages, newPackages, underlying;
    var x := Rescale(w, p, u);
    var back := Rescale(p, w, x);
    RescaleIsHalfUpIff(p, w, x);
    var exact := HalfUp(p * x, w);
    HalfUpIs(p * x, w, exact);
    Commute(w, u);
    Commute(w, exact);
    Twice(w, exact);
    Monotone(w, exact, u);
    Monotone(w, u, exact);
    Monotone(w, exact + 1, u);
    Monotone(w, u + 1, exact);
    Distribute(w, exact, 1);
    Distribute(w, u, 1);
    Nearest(w, u, exact, p * x);
  }

  lemma Twice(w: nat, h: int)
    ensures (2 * h - 1) * w == 2 * (w * h) - w && (2 * h + 1) * w == 2 * (w * h) + w
  {
  }

  lemma Nearest(w: nat, u: nat, h: int, px: int)
    requires w > 0 && 2 * (w * h) - w <= 2 * px < 2 * (w * h) + w
    requires (h <= u ==> w * h <= w * u) && (u <= h ==> w * u <= w * h)
    requires (h + 1 <= u ==> w * h + w <= w * u) && (u + 1 <= h ==> w * u + w <= w * h)
    ensures h == u <==> 0 - w <= 2 * px - 2 * (w * u) < w
  {
  }

  /** In particular whenever the lower quantity is exact. */
  lemma ExactAndBackRestores(newPackages: nat, packages: nat, underlying: nat, whole: nat)
    requires 0 < newPackages < packages < NUMERIC_18_6_LIMIT && newPackages * underlying == whole * packages
    requires whole < NUMERIC_18_6_LIMIT && underlying < NUMERIC_18_6_LIMIT
    ensures Rescale(packages, newPackages, Rescale(newPackages, packages, underlying)) == underlying
  {
    hide Rescale, HalfUp;
    var p, w := packages, newPackages;
    Monotone(p, whole, NUMERIC_18_6_LIMIT - 1);
    Commute(p, whole);
    RescaleFits(w, p, underlying);
    RescaleIsNearest(w, p, underlying);
    Commute(w, underlying);
    SamePackages2(p, Rescale(w, p, underlying), whole);
    Commute(p, whole);
    Monotone(w, underlying, NUMERIC_18_6_LIMIT - 1);
    RescaleFits(p, w, whole);
    RescaleIsNearest(p, w, whole);
    SamePackages2(w, Rescale(p, w, whole), underlying);
  }

  lemma SamePackages2(p: nat, x: nat, u: nat)
    requires p > 0 && 0 - p <= 2 * (x * p) - 2 * (u * p) <= p
    ensures x == u
  {
    Commute(u, p);
    SamePackages(p, x, u);
  }

  /** Such a change: two micro-units in three packages are one in one, and three when put back. */
  lemma SmallerAndBackMayLose()
    ensures Rescale(1000000, 3000000, 2) == 1
    ensures Rescale(3000000, 1000000, 1) == 3
  {
    hide Rescale, HalfUp;
    RescaleFits(1000000, 3000000, 2);
    RescaleIsHalfUp(1000000, 3000000, 2);
    HalfUpIs(1000000 * 2, 3000000, 1);
    RescaleFits(3000000, 1000000, 1);
    RescaleIsHalfUp(3000000, 1000000, 1);
    HalfUpIs(3000000 * 1, 1000000, 3);
  }

  lemma Coefficient(n: nat, d: nat, q: nat)
    requires d > 0 && q * d <= n && 2 * (n - q * d) < d && FIFTY_DIGITS <= q && n < 10 * FIFTY_DIGITS * d
    ensures Round50(n, d) == Ratio(q, 1)
  {
    Scale(d, FIFTY_DIGITS, q);
    DivModIs(n, d, q, n - q * d);
  }

  lemma FiveDecimals(n: nat, d: nat)
    requires d > 0 && 0 < n && 10000 * n < FIFTY_DIGITS * d
    ensures Round50(n, d) == Ratio(Round50(100000 * n, d).num, 100000 * Round50(100000 * n, d).den)
  {
    OneDecimal(n, d);
    OneDecimal(10 * n, d);
    OneDecimal(100 * n, d);
    OneDecimal(1000 * n, d);
    OneDecimal(10000 * n, d);
  }

  const SHIFT: nat := 1000_0000_0000_0000_0000_0000_0000_0000_0000_0000_0000_0000_0000_0000

  /** Fifty-five decimal shifts, as a quotient near a millionth needs. */
  lemma ManyDecimals(n: nat, d: nat)
    requires d > 0 && 0 < n && SHIFT * n < 10 * FIFTY_DIGITS * d
    ensures Round50(n, d) == Ratio(Round50(SHIFT * n, d).num, SHIFT * Round50(SHIFT * n, d).den)
  {
    hide Round50;
    FiveDecimals(n, d);
    FiveDecimals(10_0000 * n, d);
    FiveDecimals(100_0000_0000 * n, d);
    FiveDecimals(1000_0000_0000_0000 * n, d);
    FiveDecimals(1_0000_0000_0000_0000_0000 * n, d);
    FiveDecimals(10_0000_0000_0000_0000_0000_0000 * n, d);
    FiveDecimals(100_0000_0000_0000_0000_0000_0000_0000 * n, d);
    FiveDecimals(1000_0000_0000_0000_0000_0000_0000_0000_0000 * n, d);
    FiveDecimals(1_0000_0000_0000_0000_0000_0000_0000_0000_0000_0000 * n, d);
    FiveDecimals(10_0000_0000_0000_0000_0000_0000_0000_0000_0000_0000_0000 * n, d);
    FiveDecimals(100_0000_0000_0000_0000_0000_0000_0000_0000_0000_0000_0000_0000 * n, d);
  }

  /** An exact tie can go the wrong way: eleven micro-units in six packages are five and a half in
      three, but the ratio's rounding error brings the result just below the tie. */
  lemma TieCanGoDown()
    ensures Rescale(3000000, 6000000, 11) == 5
    ensures HalfUp(3000000 * 11, 6000000) == 6
  {
    hide Round50, HalfUp;
    var q := 18_3333_3333_3333_3333_3333_3333_3333_3333_3333_3333_3333_3333;
    HalfUpIs(3000000 * 11, 6000000, 6);
    ManyDecimals(11, 6000000);
    Coefficient(SHIFT * 11, 6000000, q);
    var n, d := 3000000 * q, 1000000 * SHIFT;
    assert SHIFT * n == 3 * q * d;
    ManyDecimals(n, d);
    Coefficient(SHIFT * n, d, 3 * q);
    HalfUpIs(1000000 * (3 * q), SHIFT, 5);
  }

  // ---- exactly which ties go down ----

  lemma HalfEvenNotBelow(n: nat, d: nat, q: nat)
    requires d > 0 && q * d <= n
    ensures q <= HalfEven(n, d)
  {
    assert n == d * (n / d) + n % d;
    Monotone(d, n / d + 1, q);
    Distribute(d, n / d, 1);
    Commute(q, d);
  }

  /** Seven decimal shifts. */
  lemma SevenShifts(n: nat, d: nat)
    requires d > 0 && 0 < n < OPERAND_LIMIT * d
    ensures Round50(n, d) == Ratio(Round50(10000000 * n, d).num, 10000000 * Round50(10000000 * n, d).den)
  {
    hide Round50;
    FiveDecimals(n, d);
    OneDecimal(100000 * n, d);
    OneDecimal(1000000 * n, d);
    var v := Round50(10000000 * n, d);
    assert Round50(1000000 * n, d) == Ratio(v.num, 10 * v.den);
    assert Round50(100000 * n, d) == Ratio(v.num, 100 * v.den);
  }

  lemma HalfUpReaches(n: nat, d: nat, h: nat)
    requires d > 0 && h * d <= 2 * n
    ensures h <= 2 * HalfUp(n, d)
  {
    hide HalfUp;
    HalfUpIs(n, d, HalfUp(n, d));
    Monotone(d, 2 * HalfUp(n, d) + 1, h);
    Commute(d, h);
    Commute(d, 2 * HalfUp(n, d) + 1);
  }

  lemma TieAtRatio(w: nat, num: nat, den: nat, p: nat, u: nat, h: nat)
    requires p > 0 && h * p == 2 * (w * u) && u * den <= num * p
    ensures h * den <= 2 * (w * num)
  {
    Monotone(2 * w, u * den, num * p);
    Monotone(p, 2 * (w * num) + 1, h * den);
    Regroup(w, num, den, p, u, h);
  }

  lemma Regroup(w: int, num: int, den: int, p: int, u: int, h: int)
    requires h * p == 2 * (w * u)
    ensures 2 * w * (u * den) == p * (h * den)
    ensures 2 * w * (num * p) == p * (2 * (w * num))
    ensures p * (2 * (w * num) + 1) == p * (2 * (w * num)) + p
  {
    assert 2 * w * (u * den) == (2 * (w * u)) * den;
    assert (h * p) * den == p * (h * den);
  }

  lemma RatioIsSmall(w: nat, num: nat, den: nat, p: nat, u: nat, h: nat)
    requires p > 0 && h * p == 2 * (w * u) && num * p <= 2 * (u * den)
    ensures w * num <= h * den
  {
    Monotone(w, num * p, 2 * (u * den));
    Monotone(p, h * den + 1, w * num);
    assert w * (2 * (u * den)) == (2 * (w * u)) * den;
    assert (h * p) * den == p * (h * den);
    assert w * (num * p) == p * (w * num);
    Distribute(p, h * den, 1);
  }

  lemma ReachedIsSmall(w: nat, p: nat, u: nat, h: nat)
    requires 0 < p && h * p == 2 * (w * u) && h <= 2 * NUMERIC_18_6_LIMIT
    ensures w * Round50(u, p).num < OPERAND_LIMIT * (1000000 * Round50(u, p).den)
  {
    hide Round50;
    var ratio := Round50(u, p);
    RoundingIsNear(u, p);
    AtMostTwice(ratio, u, p);
    RatioIsSmall(w, ratio.num, ratio.den, p, u, h);
    Monotone(ratio.den, h, 2 * NUMERIC_18_6_LIMIT);
    Commute(ratio.den, h);
  }

  lemma AtMostTwice(v: Ratio, n: nat, d: nat)
    requires Near(v, n, d)
    ensures v.num * d <= 2 * (n * v.den)
  {
  }

  /** Steps of the fiftieth digit in one whole, for numbers of the size of `q`. */
  function Grain(q: nat): nat
    requires q > 0
    decreases FIFTY_DIGITS - q
  {
    if FIFTY_DIGITS <= q then 1 else 10 * Grain(10 * q)
  }

  lemma {:induction false} GrainFits(q: nat)
    requires 0 < q < 10 * FIFTY_DIGITS
    ensures FIFTY_DIGITS <= Grain(q) * q < 10 * FIFTY_DIGITS
    decreases FIFTY_DIGITS - q
  {
    if q < FIFTY_DIGITS {
      GrainFits(10 * q);
      GrainStep(q, q);
    }
  }

  lemma GrainTenfold(q: nat)
    requires 0 < q < FIFTY_DIGITS
    ensures Grain(q) == 10 * Grain(10 * q)
  {
  }

  lemma Tenfold(g: int, n: int)
    ensures g * (10 * n) == (10 * g) * n
  {
  }

  lemma GrainStep(q: nat, n: nat)
    requires 0 < q < FIFTY_DIGITS
    ensures Grain(10 * q) * (10 * n) == Grain(q) * n
  {
    hide Grain;
    GrainTenfold(q);
    Tenfold(Grain(10 * q), n);
  }

  lemma HalfEvenNotAbove(n: nat, d: nat, q: nat)
    requires d > 0 && n <= q * d
    ensures HalfEven(n, d) <= q
  {
    var a := n / d;
    assert n == d * a + n % d;
    Monotone(d, q, a);
    Monotone(d, q + 1, a);
    Distribute(d, a, 0);
    Commute(q, d);
    if a == q { assert n % d == 0; }
  }

  /** Rounding to fifty digits never takes a quotient above a whole number it does not pass. */
  lemma {:induction false} NotAbove(n: nat, d: nat, q: nat)
    requires d > 0 && n <= q * d && n < 10 * FIFTY_DIGITS * d
    ensures Round50(n, d).num <= q * Round50(n, d).den
    decreases FIFTY_DIGITS * d - n
  {
    if n == 0 {
    } else if n < FIFTY_DIGITS * d {
      assert (10 * q) * d == 10 * (q * d);
      NotAbove(10 * n, d, 10 * q);
      assert (10 * q) * Round50(10 * n, d).den == q * (10 * Round50(10 * n, d).den);
    } else {
      HalfEvenNotAbove(n, d, q);
    }
  }

  lemma HalfEvenIs(n: nat, d: nat, a: nat, r: nat)
    requires d > 0 && n == d * a + r && r < d
    ensures HalfEven(n, d) == if 2 * r < d || (2 * r == d && a % 2 == 0) then a else a + 1
  {
    DivModIs(n, d, a, r);
  }

  /** Half to even reaches an even number from half a step below it. */
  lemma HalfEvenReachesIff(n: nat, d: nat, q: nat)
    requires d > 0 && q % 2 == 0
    ensures q <= HalfEven(n, d) <==> 2 * (q * d) - d <= 2 * n
  {
    var a, r := n / d, n % d;
    assert n == d * a + r;
    HalfEvenIs(n, d, a, r);
    Commute(q, d);
    Monotone(d, q, a);
    Monotone(d, a + 2, q);
    Distribute(d, a, 1);
    Distribute(d, a, 2);
  }

  lemma WholeReaches(n: nat, d: nat, q: nat)
    requires d > 0 && FIFTY_DIGITS < q < 10 * FIFTY_DIGITS && q % 2 == 0 && n < 10 * FIFTY_DIGITS * d
    ensures q * Round50(n, d).den <= Round50(n, d).num <==> 2 * (q * d) - d <= 2 * n
  {
    if n >= FIFTY_DIGITS * d {
      HalfEvenReachesIff(n, d, q);
    } else {
      hide Round50;
      NotAbove(n, d, FIFTY_DIGITS);
      var den := Round50(n, d).den;
      Monotone(den, FIFTY_DIGITS, q);
      Commute(den, q);
      Commute(den, FIFTY_DIGITS);
      Monotone(d, FIFTY_DIGITS + 1, q);
      Distribute(d, FIFTY_DIGITS, 1);
      Commute(d, q);
    }
  }

  lemma TenTimes(q: nat, den: nat)
    ensures (10 * q) * den == q * (10 * den) == 10 * (q * den)
  {
  }

  lemma LargeQuotient(n: nat, d: nat, q: nat)
    requires d > 0 && q < FIFTY_DIGITS && FIFTY_DIGITS * d <= n < 10 * FIFTY_DIGITS * d
    ensures q * Round50(n, d).den <= Round50(n, d).num
  {
    HalfEvenNotBelow(n, d, FIFTY_DIGITS);
    hide HalfEven;
  }

  lemma AlreadyPast(n: nat, d: nat, q: nat, g: nat)
    requires q <= FIFTY_DIGITS && FIFTY_DIGITS * d <= n
    ensures (g * q) * d <= g * n
  {
    Monotone(d, q, FIFTY_DIGITS);
    Commute(d, q);
    Monotone(g, q * d, n);
    Associate(g, q, d);
  }

  lemma Associate(a: int, b: int, c: int)
    ensures a * (b * c) == (a * b) * c
  {
  }

  /** Fifty digits reach a whole number with a short decimal form, no power of ten, exactly from half a
      step of its fiftieth digit below it. */
  lemma {:induction false} ReachesIff(n: nat, d: nat, q: nat)
    requires d > 0 && 0 < q < 10 * FIFTY_DIGITS && 0 < n < 10 * FIFTY_DIGITS * d
    requires (Grain(q) * q) % 2 == 0 && Grain(q) * q != FIFTY_DIGITS
    ensures q * Round50(n, d).den <= Round50(n, d).num
      <==> 2 * ((Grain(q) * q) * d) - d <= 2 * (Grain(q) * n)
    decreases FIFTY_DIGITS - q
  {
    if FIFTY_DIGITS <= q {
      WholeReaches(n, d, q);
    } else if n >= FIFTY_DIGITS * d {
      hide Round50, Grain;
      LargeQuotient(n, d, q);
      AlreadyPast(n, d, q, Grain(q));
    } else {
      hide Grain;
      GrainStep(q, q);
      GrainStep(q, n);
      ReachesIff(10 * n, d, 10 * q);
      OneDecimal(n, d);
      TenTimes(q, Round50(10 * n, d).den);
    }
  }

  // ---- the tie of a rescaling ----

  /** The ratio's own rounding takes the product of an exact half, `h / 2` micro-units, more than half a
      step of its fiftieth digit below it. */
  predicate RatioTooLow(newPackages: nat, packages: nat, underlying: nat, h: nat)
    requires packages > 0 && h > 0
  {
    var ratio := Round50(underlying, packages);
    10 * Grain(5 * h) * (h * ratio.den - 2 * (newPackages * ratio.num)) > ratio.den
  }

  predicate TenPower(n: nat) { n == 1 || (n > 0 && n % 10 == 0 && TenPower(n / 10)) }

  lemma TenMore(n: nat)
    requires TenPower(n)
    ensures TenPower(10 * n)
  {
    assert (10 * n) / 10 == n;
  }

  lemma SevenMore(n: nat)
    requires TenPower(n)
    ensures TenPower(10000000 * n)
  {
    hide TenPower;
    TenMore(n);
    TenMore(10 * n);
    TenMore(100 * n);
    TenMore(1000 * n);
    TenMore(10000 * n);
    TenMore(100000 * n);
    TenMore(1000000 * n);
  }

  lemma TheEdgeIsATenPower()
    ensures TenPower(FIFTY_DIGITS)
  {
    hide TenPower;
    assert TenPower(1) by { ATenPower(); }
    SevenMore(1);
    SevenMore(1000_0000);
    SevenMore(100_0000_0000_0000);
    SevenMore(10_0000_0000_0000_0000_0000);
    SevenMore(1_0000_0000_0000_0000_0000_0000_0000);
    SevenMore(1000_0000_0000_0000_0000_0000_0000_0000_0000);
    SevenMore(100_0000_0000_0000_0000_0000_0000_0000_0000_0000_0000);
  }

  lemma ATenPower()
    ensures TenPower(1) && forall h: nat :: h % 2 == 1 ==> !TenPower(5 * h)
  {
  }

  /** Only powers of ten are on the edge of fifty digits. */
  lemma {:induction false} OnTheEdge(q: nat)
    requires 0 < q <= FIFTY_DIGITS && TenPower(Grain(q) * q)
    ensures TenPower(q)
    decreases FIFTY_DIGITS - q
  {
    if q < FIFTY_DIGITS {
      GrainStep(q, q);
      GrainFits(q);
      if 10 * q <= FIFTY_DIGITS {
        OnTheEdge(10 * q);
      } else {
        assert Grain(10 * q) == 1;
      }
      assert (10 * q) / 10 == q;
    }
  }

  lemma EvenTimes(a: int, b: int)
    ensures (2 * a) * b % 2 == 0
  {
    assert (2 * a) * b == 2 * (a * b);
  }

  /** Five times an odd number stays off the edge, and its last step is even. */
  lemma OffTheEdge(h: nat)
    requires h % 2 == 1 && 5 * h < FIFTY_DIGITS
    ensures Grain(5 * h) * (5 * h) != FIFTY_DIGITS && (Grain(5 * h) * (5 * h)) % 2 == 0
  {
    hide TenPower, Grain;
    ATenPower();
    TheEdgeIsATenPower();
    if TenPower(Grain(5 * h) * (5 * h)) { OnTheEdge(5 * h); }
    GrainTenfold(5 * h);
    EvenTimes(5 * Grain(10 * (5 * h)), 5 * h);
  }

  lemma StepSize(g: int, h: int, den: int, n: int)
    ensures 2 * ((g * (5 * h)) * (1000000 * den)) - 1000000 * den <= 2 * (g * (10000000 * n))
      <==> 10 * g * (h * den - 2 * n) <= den
  {
    var a, b := (g * h) * den, g * n;
    assert (g * (5 * h)) * (1000000 * den) == 5000000 * a by {
      assert g * (5 * h) == 5 * (g * h);
      assert (5 * (g * h)) * (1000000 * den) == 5000000 * ((g * h) * den);
    }
    assert g * (10000000 * n) == 10000000 * b;
    assert 10 * g * (h * den - 2 * n) == 10 * a - 20 * b by {
      Distribute(10 * g, h * den, 0 - 2 * n);
      Associate(g, h, den);
      assert (10 * g) * (h * den) == 10 * (g * (h * den)) && (10 * g) * (0 - 2 * n) == 0 - 20 * (g * n);
    }
  }

  lemma FiveTimesIff(h: nat, den: nat, num: nat)
    ensures (5 * h) * den <= num <==> h * (10000000 * den) <= 2000000 * num
  {
    assert (5 * h) * den == 5 * (h * den) && h * (10000000 * den) == 10000000 * (h * den);
  }

  /** When fifty digits of a quotient reach an odd number of half micro-units. */
  lemma HalvesAreReachedIff(n: nat, den: nat, h: nat)
    requires den > 0 && 0 < n < OPERAND_LIMIT * (1000000 * den) && h % 2 == 1 && 5 * h < FIFTY_DIGITS
    ensures
      var v := Round50(n, 1000000 * den);
      h * v.den <= 2000000 * v.num <==> 10 * Grain(5 * h) * (h * den - 2 * n) <= den
  {
    hide Round50, Grain;
    var d := 1000000 * den;
    SevenShifts(n, d);
    OffTheEdge(h);
    ReachesIff(10000000 * n, d, 5 * h);
    FiveTimesIff(h, Round50(10000000 * n, d).den, Round50(10000000 * n, d).num);
    StepSize(Grain(5 * h), h, den, n);
  }

  lemma HalfUpReachesIff(n: nat, d: nat, h: nat)
    requires d > 0 && h % 2 == 1
    ensures h <= 2 * HalfUp(n, d) <==> h * d <= 2 * n
  {
    hide HalfUp;
    var x: int := HalfUp(n, d);
    HalfUpIs(n, d, x);
    if h * d <= 2 * n { HalfUpReaches(n, d, h); }
    Monotone(d, h, 2 * x - 1);
    Commute(d, h);
    Commute(d, 2 * x - 1);
  }

  lemma SomethingRounds(n: nat, d: nat)
    requires d > 0 && n > 0
    ensures Round50(n, d).num > 0
  {
    hide Round50;
    RoundingIsNear(n, d);
    NearNothing(Round50(n, d), n, d);
  }

  lemma NearNothing(v: Ratio, n: nat, d: nat)
    requires Near(v, n, d) && n > 0 && v.den > 0
    ensures v.num > 0
  {
    Monotone(n, 0, v.den);
    assert v.num == 0 ==> v.num * d == 0;
  }

  lemma Positive(a: nat, b: nat)
    ensures a * b > 0 <==> a > 0 && b > 0
  {
  }

  /** Whether an exact half is reached is decided by the ratio alone. */
  lemma RatioDecides(w: nat, p: nat, u: nat, h: nat)
    requires 0 < p && h % 2 == 1 && h <= 2 * NUMERIC_18_6_LIMIT && h * p == 2 * (w * u)
    ensures h <= 2 * Rescale(w, p, u) <==> !RatioTooLow(w, p, u, h)
  {
    hide Round50, HalfUp, Grain;
    var ratio := Round50(u, p);
    var n, d := w * ratio.num, 1000000 * ratio.den;
    Positive(h, p);
    Positive(w, u);
    SomethingRounds(u, p);
    Positive(w, ratio.num);
    ReachedIsSmall(w, p, u, h);
    HalvesAreReachedIff(n, ratio.den, h);
    var v := Round50(n, d);
    HalfUpReachesIff(1000000 * v.num, v.den, h);
  }

  /** The product is an exact half micro-unit and the ratio is too low for it. */
  predicate FallsShort(newPackages: nat, packages: nat, underlying: nat)
    requires packages > 0
  {
    var exact := HalfUp(newPackages * underlying, packages);
    && exact > 0
    && (2 * exact - 1) * packages == 2 * (newPackages * underlying)
    && RatioTooLow(newPackages, packages, underlying, 2 * exact - 1)
  }

  /** Rescaling is exact half-up rounding but for the ties whose ratio is too low: those, and only those, go
      down, by one micro-unit. */
  lemma RescaleIsHalfUpIff(newPackages: nat, packages: nat, underlying: nat)
    requires 0 < packages < NUMERIC_18_6_LIMIT
    requires Rescale(newPackages, packages, underlying) < NUMERIC_18_6_LIMIT
    ensures Rescale(newPackages, packages, underlying)
      == HalfUp(newPackages * underlying, packages) - if FallsShort(newPackages, packages, underlying) then 1 else 0
  {
    hide Rescale, HalfUp, RatioTooLow;
    var p, w, u := packages, newPackages, underlying;
    RescaleIsHalfUp(w, p, u);
    var exact := HalfUp(w * u, p);
    if exact > 0 && (2 * exact - 1) * p == 2 * (w * u) { RatioDecides(w, p, u, 2 * exact - 1); }
  }

  /** In terms of the ratio: a tie only goes down when it was itself rounded down; a ratio that fifty digits hold
      exactly, or that was rounded up, takes every tie up. */
  lemma TieGoesUpUnlessRatioIsLow(newPackages: nat, packages: nat, underlying: nat)
    requires 0 < packages < NUMERIC_18_6_LIMIT
    requires Rescale(newPackages, packages, underlying) < NUMERIC_18_6_LIMIT
    requires underlying * Round50(underlying, packages).den <= Round50(underlying, packages).num * packages
    ensures Rescale(newPackages, packages, underlying) == HalfUp(newPackages * underlying, packages)
  {
    hide Round50, HalfUp, Rescale, Grain;
    var p, w, u := packages, newPackages, underlying;
    RescaleIsHalfUpIff(w, p, u);
    var exact, ratio := HalfUp(w * u, p), Round50(u, p);
    if exact > 0 && (2 * exact - 1) * p == 2 * (w * u) {
      TieAtRatio(w, ratio.num, ratio.den, p, u, 2 * exact - 1);
      Monotone(10 * Grain(5 * (2 * exact - 1)), (2 * exact - 1) * ratio.den - 2 * (w * ratio.num), 0);
    }
  }

  /** In particular a ratio with at most seven decimals. */
  lemma ShortRatioTakesTiesUp(newPackages: nat, packages: nat, underlying: nat, q: nat)
    requires 0 < packages < NUMERIC_18_6_LIMIT && underlying < NUMERIC_18_6_LIMIT
    requires Rescale(newPackages, packages, underlying) < NUMERIC_18_6_LIMIT
    requires 10000000 * underlying == q * packages
    ensures Rescale(newPackages, packages, underlying) == HalfUp(newPackages * underlying, packages)
  {
    hide Round50, Rescale, HalfUp;
    var ratio := Round50(underlying, packages);
    Monotone(OPERAND_LIMIT, 1, packages);
    SevenDecimalsAreExact(underlying, packages, q);
    ShortRatio(ratio.num, ratio.den, packages, underlying, q);
    TieGoesUpUnlessRatioIsLow(newPackages, packages, underlying);
  }

  lemma ShortRatio(num: int, den: int, p: int, u: int, q: int)
    requires 10000000 * num == q * den && 10000000 * u == q * p
    ensures num * p == u * den
  {
    assert (10000000 * num) * p == (q * den) * p;
    assert (10000000 * u) * den == (q * p) * den;
    assert (q * den) * p == (q * p) * den;
  }
}
