/**
 Money and quantity arithmetic (`packages/utils/src/money.ts`).

 A stored amount is an `int` counting grid units: 0.0001 for money, 0.000001 for quantities and
 rates. An intermediate value, before its one final rounding, is an exact `real` counted in the
 same units.
 */
module Money {

  /** Quantity and rate units in 1. */
  const SCALE6: real := 1000000.0

  /** The nearest grid point, ties going away from zero (decimal.js `ROUND_HALF_UP`). */
  function Round(x: real): (r: int)
    ensures x >= 0.0 ==> r as real - 0.5 <= x < r as real + 0.5
    ensures x < 0.0 ==> r as real - 0.5 < x <= r as real + 0.5
  {
    if x >= 0.0 then (x + 0.5).Floor else -((0.5 - x).Floor)
  }

  /** The contract of `Round` leaves no other grid point, and it is monotone and odd. */
  lemma {:induction false} RoundIsMonotoneAndOdd(x: real, y: real)
    requires x <= y
    ensures Round(x) <= Round(y)
    ensures Round(-x) == -Round(x)
  {
  }

  lemma {:induction false} RoundOnGrid(n: int)
    ensures Round(n as real) == n
  {
  }

  lemma {:induction false} MulReal(a: int, b: int)
    ensures (a * b) as real == a as real * b as real
  {
  }

  // --- sums ---------------------------------------------------------------------------------

  function Sum(s: seq<int>): int {
    if s == [] then 0 else Sum(s[..|s| - 1]) + s[|s| - 1]
  }

  function SumReal(s: seq<real>): real {
    if s == [] then 0.0 else SumReal(s[..|s| - 1]) + s[|s| - 1]
  }

  lemma {:induction false} SumConcat(s: seq<int>, t: seq<int>)
    ensures Sum(s + t) == Sum(s) + Sum(t)
  {
    if t == [] {
      assert s + t == s;
    } else {
      SumConcat(s, t[..|t| - 1]);
      assert (s + t)[..|s + t| - 1] == s + t[..|t| - 1];
    }
  }

  lemma {:induction false} SumUpdate(s: seq<int>, i: nat, v: int)
    requires i < |s|
    ensures Sum(s[i := v]) == Sum(s) - s[i] + v
  {
    var last := |s| - 1;
    if i == last {
      assert s[i := v][..last] == s[..last];
    } else {
      SumUpdate(s[..last], i, v);
      assert s[i := v][..last] == s[..last][i := v];
    }
  }

  lemma {:induction false} SumNonNegative(s: seq<int>)
    requires forall i | 0 <= i < |s| :: s[i] >= 0
    ensures Sum(s) >= 0
  {
    if s != [] {
      SumNonNegative(s[..|s| - 1]);
    }
  }

  // --- exact values ---------------------------------------------------------------------------

  /** A quantity at a unit cost, unrounded, in products of the two units. */
  function Amount(qty: int, unitCost: int): int {
    qty * unitCost
  }

  lemma {:induction false} AmountAdd(a: int, b: int, unitCost: int)
    ensures Amount(a + b, unitCost) == Amount(a, unitCost) + Amount(b, unitCost)
    ensures Amount(0, unitCost) == 0
  {
  }

  // --- products and quotients ---------------------------------------------------------------

  /** An exact quotient; callers of the original's dividers have ruled out a zero divisor. */
  function Quotient(v: real, d: real): (x: real)
    requires d != 0.0
    ensures x * d == v
  {
    v / d
  }

  lemma {:induction false} QuotientBetween(v: real, d: real, lo: real, hi: real)
    requires d > 0.0
    requires lo * d <= v <= hi * d
    ensures lo <= Quotient(v, d) <= hi
  {
  }

  /** `qty * unitPrice` at money scale. */
  function LineTotal(qty: int, unitPrice: int): int {
    Round((qty * unitPrice) as real / SCALE6)
  }

  /** A money amount divided by a quantity, at money scale. */
  function DivideMoney(amount: int, qty: int): int
    requires qty != 0
  {
    Round(Quotient(amount as real * SCALE6, qty as real))
  }

  /**
   The unit cost after an IN posting: the blended cost, or the incoming cost when the resulting
   on-hand is zero. `inQty` and `inCost` are the caller's raw, unrounded arguments.
   */
  function MovingAverage(onHand: int, avgCost: int, inQty: real, inCost: real): int {
    var total := onHand as real + inQty;
    if total == 0.0 then Round(inCost)
    else Round(Blend(onHand as real, avgCost as real, inQty, inCost))
  }

  /** The exact blended cost of two quantities. */
  function Blend(h: real, a: real, q: real, c: real): (x: real)
    requires h + q != 0.0
    ensures x * (h + q) == h * a + q * c
  {
    Quotient(h * a + q * c, h + q)
  }

  lemma {:induction false} BlendBetween(h: real, a: real, q: real, c: real, lo: real, hi: real)
    requires h >= 0.0 && q > 0.0
    requires lo <= c <= hi && (h == 0.0 || lo <= a <= hi)
    ensures lo <= Blend(h, a, q, c) <= hi
  {
    assert h * (a - lo) >= 0.0 && h * (hi - a) >= 0.0;
    assert q * (c - lo) >= 0.0 && q * (hi - c) >= 0.0;
    QuotientBetween(h * a + q * c, h + q, lo, hi);
  }

  /** With stock on hand and a positive receipt the new average lies between the two costs. */
  lemma {:induction false} MovingAverageBetween(onHand: int, avgCost: int, inQty: int, inCost: int)
    requires onHand >= 0 && inQty > 0
    ensures var avg := MovingAverage(onHand, avgCost, inQty as real, inCost as real);
            && (onHand > 0 && avgCost <= inCost ==> avgCost <= avg <= inCost)
            && (onHand > 0 && inCost <= avgCost ==> inCost <= avg <= avgCost)
            && (onHand == 0 ==> avg == inCost)
  {
    var lo := if onHand == 0 || inCost <= avgCost then inCost else avgCost;
    var hi := if onHand == 0 || avgCost <= inCost then inCost else avgCost;
    BlendBetween(onHand as real, avgCost as real, inQty as real, inCost as real, lo as real, hi as real);
    var x := Blend(onHand as real, avgCost as real, inQty as real, inCost as real);
    RoundIsMonotoneAndOdd(lo as real, x);
    RoundIsMonotoneAndOdd(x, hi as real);
    RoundOnGrid(lo);
    RoundOnGrid(hi);
  }

  /** The new average is the blended value over the new quantity, rounded once, whatever the signs. */
  lemma {:induction false} MovingAverageIsNearest(onHand: int, avgCost: int, inQty: int, inCost: int)
    ensures var avg := MovingAverage(onHand, avgCost, inQty as real, inCost as real);
            var (total, value) := (onHand + inQty, Amount(onHand, avgCost) + Amount(inQty, inCost));
            && (total == 0 ==> avg == inCost)
            && (total > 0 ==> Nearest(value, total, avg))
            && (total < 0 ==> Nearest(-value, -total, avg))
  {
    var total, value := onHand + inQty, Amount(onHand, avgCost) + Amount(inQty, inCost);
    MulReal(onHand, avgCost);
    MulReal(inQty, inCost);
    if total == 0 {
      RoundOnGrid(inCost);
    } else {
      assert Blend(onHand as real, avgCost as real, inQty as real, inCost as real)
             == Quotient(value as real, total as real);
      RoundIsNearest(value, total);
    }
    hide Nearest, Amount, Round, Quotient;
  }

  /** How far re-valuing the whole stock at the rounded average strays from the exact value. */
  lemma {:induction false} MovingAverageError(onHand: int, avgCost: int, inQty: int, inCost: int)
    requires onHand >= 0 && inQty >= 0
    ensures var avg := MovingAverage(onHand, avgCost, inQty as real, inCost as real);
            var drift := (onHand + inQty) * avg - onHand * avgCost - inQty * inCost;
            -(onHand + inQty) <= 2 * drift <= onHand + inQty
  {
    MovingAverageIsNearest(onHand, avgCost, inQty, inCost);
    hide MovingAverage;
  }

  /** A divided amount, multiplied back, is within half a money unit per unit of the divisor. */
  lemma {:induction false} DivideMoneyError(amount: int, qty: int)
    requires qty != 0
    ensures var off := Amount(qty, DivideMoney(amount, qty)) - amount * 1000000;
            var size := if qty > 0 then qty else -qty;
            -size <= 2 * off <= size
  {
    assert (amount * 1000000) as real == amount as real * SCALE6;
    RoundIsNearest(amount * 1000000, qty);
    hide Round, Quotient;
  }

  // --- rounding, said in whole numbers ------------------------------------------------------------

  /** `r` is `v / d` rounded to a whole number, a tie going away from zero. */
  predicate Nearest(v: int, d: int, r: int)
    requires d > 0
  {
    if v >= 0 then -d <= 2 * (v - d * r) < d else -d < 2 * (v - d * r) <= d
  }

  lemma {:induction false} RoundIsNearest(v: int, d: int)
    requires d != 0
    ensures Nearest(if d > 0 then v else -v, if d > 0 then d else -d, Round(Quotient(v as real, d as real)))
  {
    var x := Quotient(v as real, d as real);
    hide Quotient, Round, Nearest;
    if d > 0 {
      RoundedQuotient(x, v, d);
    } else {
      assert x * (-d) as real == (-v) as real;
      RoundedQuotient(x, -v, -d);
    }
  }

  lemma {:induction false} RoundedQuotient(x: real, v: int, d: int)
    requires d > 0 && x * d as real == v as real
    ensures Nearest(v, d, Round(x))
  {
    SameSign(x, d as real);
    if v >= 0 {
      HalfOff(x, Round(x), d, v);
    } else {
      HalfOff(-x, -Round(x), d, -v);
    }
  }

  lemma {:induction false} SameSign(x: real, d: real)
    requires d > 0.0
    ensures x * d >= 0.0 <==> x >= 0.0
  {
  }

  lemma {:induction false} HalfOff(x: real, r: int, d: int, v: int)
    requires d > 0 && x * d as real == v as real && r as real - 0.5 <= x < r as real + 0.5
    ensures -d <= 2 * (v - d * r) < d
  {
    MulReal(d, r);
    HalfOffExact(x, r as real, d as real);
    WholeBounds(d * r, d, v);
  }

  function TimesReal(a: real, b: real): real {
    a * b
  }

  lemma {:induction false} TimesLaws(a: real, b: real, d: real)
    ensures TimesReal(a - b, d) == TimesReal(a, d) - TimesReal(b, d)
    ensures TimesReal(a + b, d) == TimesReal(a, d) + TimesReal(b, d)
  {
  }

  lemma {:induction false} TimesSigns(a: real, d: real)
    requires d > 0.0
    ensures (a >= 0.0 ==> TimesReal(a, d) >= 0.0) && (a > 0.0 ==> TimesReal(a, d) > 0.0)
    ensures TimesReal(0.5, d) == d / 2.0
  {
  }

  lemma {:induction false} HalfOffExact(x: real, r: real, d: real)
    requires d > 0.0 && r - 0.5 <= x < r + 0.5
    ensures -d <= 2.0 * (TimesReal(x, d) - TimesReal(r, d)) < d
  {
    hide TimesReal;
    TimesLaws(x, r, d);
    TimesLaws(x - r, 0.5, d);
    TimesLaws(0.5, x - r, d);
    TimesSigns(x - r + 0.5, d);
    TimesSigns(0.5 - (x - r), d);
  }

  lemma {:induction false} WholeBounds(p: int, d: int, v: int)
    requires -(d as real) <= 2.0 * (v as real - p as real) < d as real
    ensures -d <= 2 * (v - p) < d
  {
  }

  /** There is no other such number. */
  lemma {:induction false} NearestIsUnique(v: int, d: int, r: int, q: int)
    requires d > 0 && Nearest(v, d, r) && Nearest(v, d, q)
    ensures r == q
  {
    if r < q {
      TimesDistance(d, q - r);
    } else if q < r {
      TimesDistance(d, r - q);
    }
  }

  lemma {:induction false} TimesDistance(d: int, n: int)
    requires d > 0 && n > 0
    ensures d * n >= d
  {
  }

  /** A line's total is the product at money scale. */
  lemma {:induction false} LineTotalIsNearest(qty: int, unitPrice: int)
    ensures Nearest(qty * unitPrice, 1000000, LineTotal(qty, unitPrice))
  {
    RoundIsNearest(qty * unitPrice, 1000000);
  }
}
