/**
 Which arguments `post` may be handed: it averages the raw ones and stores the rounded ones
 (`apps/api/src/inventory/ledger.service.ts`), so a replay sees other numbers than the cache did.
 */
module RawPostings {
  import opened Money
  import opened Ledger

  /** Posting the raw arguments and replaying the stored ones change every balance alike. */
  ghost predicate Replays(direction: Direction, qty: real, unitCost: real) {
    forall before :: Apply(before, direction, qty, unitCost)
                     == Apply(before, direction, Round(qty) as real, Round(unitCost) as real)
  }

  predicate Whole(x: real) {
    Round(x) as real == x
  }

  predicate Tie(x: real) {
    Round(x) as real - x == 0.5 || Round(x) as real - x == -0.5
  }

  /** An IN needs both on the grid, or no quantity at all; otherwise only a quantity half-way between is wrong. */
  predicate Harmless(direction: Direction, qty: real, unitCost: real) {
    if direction == In then Whole(qty) && (qty == 0.0 || Whole(unitCost)) else !Tie(qty)
  }

  lemma {:induction false} ShiftedRound(onHand: int, qty: real)
    requires !Tie(qty)
    ensures Round(onHand as real + qty) == onHand + Round(qty)
  {
  }

  /** Rounding away from zero tears a tie on one side of zero from the same tie on the other. */
  lemma {:induction false} TornTie(qty: real) returns (onHand: int)
    requires Tie(qty)
    ensures Round(onHand as real + qty) != onHand + Round(qty)
  {
    onHand := -Round(qty);
    if qty > 0.0 {
      assert Round(qty) as real == qty + 0.5;
      assert Round(-0.5) == -1;
    } else {
      assert Round(qty) as real == qty - 0.5;
      assert Round(0.5) == 1;
    }
  }

  lemma {:induction false} HalfCost(onHand: int, avgCost: int, c: real)
    requires onHand != 0
    ensures MovingAverage(onHand, avgCost, onHand as real, c) == Round((avgCost as real + c) / 2.0)
  {
    var h, a := onHand as real, avgCost as real;
    var x := (a + c) / 2.0;
    assert x * (h + h) == h * a + h * c;
    var y := Blend(h, a, h, c);
    assert (y - x) * (h + h) == 0.0;
  }

  /** As much again at an off-grid cost: the average of the two costs crosses a tie the rounded cost lies on. */
  lemma {:induction false} OffGridCost(qty: int, unitCost: real) returns (avgCost: int)
    requires qty != 0 && !Whole(unitCost)
    ensures MovingAverage(qty, avgCost, qty as real, unitCost)
            != MovingAverage(qty, avgCost, qty as real, Round(unitCost) as real)
  {
    avgCost := (if Round(unitCost) as real > unitCost then 1 else -1) - Round(unitCost);
    HalfCost(qty, avgCost, unitCost);
    HalfCost(qty, avgCost, Round(unitCost) as real);
  }

  lemma {:induction false} FarApart(x: real, y: real)
    requires x - y > 1.0 || y - x > 1.0
    ensures Round(x) != Round(y)
  {
  }

  /** A rate of change that is not zero takes the difference past any bound. */
  lemma {:induction false} SlopeWins(slope: real, offset: real) returns (a: int)
    requires slope != 0.0
    ensures a as real * slope + offset > 1.0
  {
    var need := (2.0 + (if offset < 0.0 then -offset else offset)) / (if slope > 0.0 then slope else -slope);
    assert need * (if slope > 0.0 then slope else -slope) == 2.0 + (if offset < 0.0 then -offset else offset);
    var n := need.Floor + 1;
    a := if slope > 0.0 then n else -n;
    assert n as real >= need;
    SlopeStep(n as real, need, if slope > 0.0 then slope else -slope);
    assert a as real * slope == n as real * (if slope > 0.0 then slope else -slope);
  }

  lemma {:induction false} SlopeStep(n: real, need: real, size: real)
    requires n >= need && size > 0.0
    ensures n * size >= need * size
  {
  }

  /** The blended cost as a line in the old average. */
  lemma {:induction false} BlendLine(h: real, a: real, q: real, c: real)
    requires h + q != 0.0
    ensures Blend(h, a, q, c) == a * Quotient(h, h + q) + Quotient(q * c, h + q)
  {
    var d := h + q;
    var x := a * Quotient(h, d) + Quotient(q * c, d);
    assert x * d == a * (Quotient(h, d) * d) + Quotient(q * c, d) * d;
    assert (Blend(h, a, q, c) - x) * d == 0.0;
  }

  lemma {:induction false} SlopesDiffer(h: real, q: real, r: real)
    requires h > 0.0 && h + q > 0.0 && h + r > 0.0 && q != r
    ensures Quotient(h, h + q) != Quotient(h, h + r)
  {
  }

  /** Two lines of different slope are more than one apart somewhere on the grid. */
  lemma {:induction false} LinesPart(m: real, k: real, n: real, l: real) returns (a: int)
    requires m != n
    ensures (a as real * m + k) - (a as real * n + l) > 1.0
  {
    a := SlopeWins(m - n, k - l);
    LinesApart(a as real, m, k, n, l);
  }

  lemma {:induction false} LinesApart(a: real, m: real, k: real, n: real, l: real)
    ensures (a * m + k) - (a * n + l) == a * (m - n) + (k - l)
  {
  }

  lemma {:induction false} BlendsPart(h: real, q: real, c: real, r: real, d: real) returns (a: int)
    requires h > 0.0 && h + q > 0.0 && h + r > 0.0 && q != r
    ensures Blend(h, a as real, q, c) - Blend(h, a as real, r, d) > 1.0
  {
    hide Blend, Quotient;
    SlopesDiffer(h, q, r);
    a := LinesPart(Quotient(h, h + q), Quotient(q * c, h + q), Quotient(h, h + r), Quotient(r * d, h + r));
    BlendLine(h, a as real, q, c);
    BlendLine(h, a as real, r, d);
  }

  /** An off-grid quantity weighs the old average otherwise, which shows for a large enough average. */
  lemma {:induction false} OffGridQty(qty: real, unitCost: real) returns (onHand: int, avgCost: int)
    requires !Whole(qty)
    ensures MovingAverage(onHand, avgCost, qty, unitCost)
            != MovingAverage(onHand, avgCost, Round(qty) as real, Round(unitCost) as real)
  {
    onHand := 2 + if Round(qty) < 0 then -Round(qty) else Round(qty);
    var h, r, c := onHand as real, Round(qty) as real, Round(unitCost) as real;
    assert h > 0.0 && qty != r && h + qty > 0.0 && h + r > 0.0;
    hide *;
    avgCost := BlendsPart(h, qty, unitCost, r, c);
    FarApart(Blend(h, avgCost as real, qty, unitCost), Blend(h, avgCost as real, r, c));
    AverageIsBlend(onHand, avgCost, qty, unitCost);
    AverageIsBlend(onHand, avgCost, r, c);
  }

  lemma {:induction false} AverageIsBlend(onHand: int, avgCost: int, qty: real, unitCost: real)
    requires onHand as real + qty != 0.0
    ensures MovingAverage(onHand, avgCost, qty, unitCost)
            == Round(Blend(onHand as real, avgCost as real, qty, unitCost))
  {
  }

  lemma {:induction false} NoQuantity(before: Balance, unitCost: real)
    ensures MovingAverage(before.onHand, before.avgCost, 0.0, unitCost)
            == MovingAverage(before.onHand, before.avgCost, 0.0, Round(unitCost) as real)
  {
    RoundOnGrid(Round(unitCost));
  }

  /** The stored row replays to what was posted, on every balance, if and only if the arguments are harmless. */
  lemma {:induction false} ReplaysExactlyWhen(direction: Direction, qty: real, unitCost: real)
    ensures Replays(direction, qty, unitCost) <==> Harmless(direction, qty, unitCost)
  {
    if Tie(qty) {
      var onHand := TornTie(qty);
      var before := Balance(onHand, 0);
      RoundOnGrid(onHand + Round(qty));
      assert Apply(before, direction, qty, unitCost)
          != Apply(before, direction, Round(qty) as real, Round(unitCost) as real);
    } else if direction != In {
      OthersReplay(direction, qty, unitCost);
    } else if !Whole(qty) {
      var onHand, avgCost := OffGridQty(qty, unitCost);
      hide MovingAverage;
      var before := Balance(onHand, avgCost);
      assert Apply(before, direction, qty, unitCost)
          != Apply(before, direction, Round(qty) as real, Round(unitCost) as real);
    } else if qty != 0.0 && !Whole(unitCost) {
      var avgCost := OffGridCost(Round(qty), unitCost);
      hide MovingAverage;
      var before := Balance(Round(qty), avgCost);
      assert Apply(before, direction, qty, unitCost)
          != Apply(before, direction, Round(qty) as real, Round(unitCost) as real);
    } else {
      InsReplay(qty, unitCost);
    }
  }

  lemma {:induction false} OthersReplay(direction: Direction, qty: real, unitCost: real)
    requires direction != In && !Tie(qty)
    ensures Replays(direction, qty, unitCost)
  {
    forall before: Balance
      ensures Apply(before, direction, qty, unitCost)
              == Apply(before, direction, Round(qty) as real, Round(unitCost) as real)
    {
      ShiftedRound(before.onHand, qty);
      RoundOnGrid(before.onHand + Round(qty));
    }
  }

  lemma {:induction false} InsReplay(qty: real, unitCost: real)
    requires Whole(qty) && (qty == 0.0 || Whole(unitCost))
    ensures Replays(In, qty, unitCost)
  {
    forall before: Balance
      ensures Apply(before, In, qty, unitCost) == Apply(before, In, Round(qty) as real, Round(unitCost) as real)
    {
      NoQuantity(before, unitCost);
      hide MovingAverage;
    }
  }

  /** So the cache survives every posting with harmless arguments, on the grid or not. */
  lemma {:induction false} HarmlessKeepsCache(stock: Stock, p: Posting, stamp: Stamp)
    requires Cached(stock) && Harmless(p.direction, p.qty, p.unitCost) && Post(stock, p, stamp).Some?
    ensures Cached(Post(stock, p, stamp).value)
  {
    ReplaysExactlyWhen(p.direction, p.qty, p.unitCost);
    var after := Post(stock, p, stamp).value;
    var m := Movement(p.key, p.lot, Round(p.qty), Round(p.unitCost), p.direction, p.refType, p.refId, stamp);
    assert after.log == stock.log + [m] && BalanceOf(after, p.key) == ApplyRow(BalanceOf(stock, p.key), m);
    forall key ensures BalanceOf(after, key) == Fold(RowsOf(after.log, key)) {
      RowsOfAppend(stock.log, m, key);
      FoldAppend(RowsOf(stock.log, key), m);
      hide Apply, Fold, RowsOf, Round;
      assert RowsOf(stock.log, key) + [] == RowsOf(stock.log, key);
    }
  }
}
