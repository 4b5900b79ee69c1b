/** Costing of issues (`apps/api/src/inventory/costing.service.ts`): MAV, STANDARD and FIFO. */
module Costing {
  import opened Money
  import opened Optional

  /** A `stock_lot` row; the lots of an item are read in `(received_at, id)` order. */
  datatype Lot = Lot(id: nat, receivedAt: int, qtyRemaining: int, unitCost: int)

  /** Strictly earlier in the reading order. */
  predicate Older(a: Lot, b: Lot) {
    a.receivedAt < b.receivedAt || (a.receivedAt == b.receivedAt && a.id < b.id)
  }

  /** The lots with another one inserted where the reading order puts it. */
  function WithLot(lots: seq<Lot>, lot: Lot): seq<Lot> {
    if lots == [] || Older(lot, lots[0]) then [lot] + lots else [lots[0]] + WithLot(lots[1..], lot)
  }

  datatype CostingMethod = Mav | Standard | Fifo

  /** `standardCost` is 0 when the item has none. */
  datatype Item = Item(costing: CostingMethod, standardCost: int)

  /** One OUT movement to post; `qty` is signed. */
  datatype Segment = Segment(qty: int, unitCost: int, lot: Option<nat>)

  // --- the greedy, oldest-first consumption --------------------------------------------------------

  /** What a demand takes from one lot: lots at or below zero are not even selected. */
  function Take(lot: Lot, demand: int): (take: int)
    ensures 0 <= take && (take > 0 ==> take <= demand && take <= lot.qtyRemaining)
  {
    if demand <= 0 || lot.qtyRemaining <= 0 then 0
    else if demand < lot.qtyRemaining then demand else lot.qtyRemaining
  }

  /** The lots after a demand is taken from them, oldest first. */
  function Consume(lots: seq<Lot>, demand: int): (left: seq<Lot>)
    ensures |left| == |lots|
  {
    if lots == [] then []
    else
      var take := Take(lots[0], demand);
      [lots[0].(qtyRemaining := lots[0].qtyRemaining - take)] + Consume(lots[1..], demand - take)
  }

  /** One segment per lot touched, and the shortfall at the fallback cost. */
  function Segments(lots: seq<Lot>, demand: int, fallback: int): seq<Segment> {
    if lots == [] then
      if demand > 0 then [Segment(-demand, fallback, None)] else []
    else
      var take := Take(lots[0], demand);
      (if take > 0 then [Segment(-take, lots[0].unitCost, Some(lots[0].id))] else [])
      + Segments(lots[1..], demand - take, fallback)
  }

  lemma {:induction false} NothingToTake(lots: seq<Lot>, demand: int, fallback: int)
    requires demand <= 0 || lots == []
    ensures Consume(lots, demand) == lots
    ensures Segments(lots, demand, fallback) == if demand > 0 then [Segment(-demand, fallback, None)] else []
  {
    if lots != [] {
      NothingToTake(lots[1..], demand, fallback);
      assert lots == [lots[0].(qtyRemaining := lots[0].qtyRemaining)] + lots[1..];
    }
  }

  lemma {:induction false} FifoStep(done: seq<Lot>, rest: seq<Lot>, segments: seq<Segment>, remaining: int,
      fallback: int)
    requires rest != []
    ensures var take := Take(rest[0], remaining);
            var left := rest[0].(qtyRemaining := rest[0].qtyRemaining - take);
            var paid := if take > 0 then segments + [Segment(-take, rest[0].unitCost, Some(rest[0].id))] else segments;
            && done + Consume(rest, remaining) == (done + [left]) + Consume(rest[1..], remaining - take)
            && segments + Segments(rest, remaining, fallback) == paid + Segments(rest[1..], remaining - take, fallback)
            && (done + rest)[|done| := left] == (done + [left]) + rest[1..]
            && (take == 0 ==> done + rest == (done + [left]) + rest[1..])
  {
    var take := Take(rest[0], remaining);
    var left := rest[0].(qtyRemaining := rest[0].qtyRemaining - take);
    assert rest == [rest[0]] + rest[1..];
    assert [] + Segments(rest[1..], remaining - take, fallback) == Segments(rest[1..], remaining - take, fallback);
  }

  /** The lots of one item, decremented in place while an issue is resolved. */
  class LotTable {
    var lots: seq<Lot>

    constructor (lots: seq<Lot>)
      ensures this.lots == lots
    {
      this.lots := lots;
    }

    method ResolveFifo(demand: int, fallback: int) returns (segments: seq<Segment>)
      modifies this
      ensures lots == Consume(old(lots), demand)
      ensures segments == Segments(old(lots), demand, fallback)
    {
      hide Consume, Segments;
      segments := [];
      var remaining := demand;
      var i := 0;
      ghost var done, rest := [], lots;
      while i < |lots| && remaining > 0
        invariant i == |done| && lots == done + rest
        invariant done + Consume(rest, remaining) == Consume(old(lots), demand)
        invariant segments + Segments(rest, remaining, fallback) == Segments(old(lots), demand, fallback)
        decreases |rest|
      {
        var lot := lots[i];
        assert lot == rest[0];
        var take := if remaining < lot.qtyRemaining then remaining else lot.qtyRemaining;
        ghost var left := lot.(qtyRemaining := lot.qtyRemaining - Take(lot, remaining));
        FifoStep(done, rest, segments, remaining, fallback);
        if take > 0 {
          segments := segments + [Segment(-take, lot.unitCost, Some(lot.id))];
          lots := lots[i := lot.(qtyRemaining := lot.qtyRemaining - take)];
          remaining := remaining - take;
        }
        done, rest := done + [left], rest[1..];
        i := i + 1;
      }
      NothingToTake(rest, remaining, fallback);
      if remaining > 0 {
        segments := segments + [Segment(-remaining, fallback, None)];
      }
    }

    /** Resolve an issue under the item's costing method; only FIFO touches the lots. */
    method ResolveIssue(item: Item, baseQty: int, avgCost: int) returns (segments: seq<Segment>)
      modifies this
      ensures segments == Resolve(item, old(lots), baseQty, avgCost)
      ensures lots == if item.costing == Fifo then Consume(old(lots), baseQty) else old(lots)
      ensures Costed(item, old(lots), baseQty, avgCost, segments)
    {
      ResolveCosts(item, lots, baseQty, avgCost);
      hide Costed;
      match item.costing
      case Standard => segments := [Segment(-baseQty, item.standardCost, None)];
      case Mav => segments := [Segment(-baseQty, avgCost, None)];
      case Fifo => segments := ResolveFifo(baseQty, avgCost);
    }
  }

  function Resolve(item: Item, lots: seq<Lot>, baseQty: int, avgCost: int): seq<Segment> {
    match item.costing
    case Standard => [Segment(-baseQty, item.standardCost, None)]
    case Mav => [Segment(-baseQty, avgCost, None)]
    case Fifo => Segments(lots, baseQty, avgCost)
  }

  /** Each method's costs: one segment at the standard or the average cost, or the lots' own, then the average. */
  ghost predicate Costed(item: Item, lots: seq<Lot>, baseQty: int, avgCost: int, segments: seq<Segment>) {
    match item.costing
    case Standard => segments == [Segment(-baseQty, item.standardCost, None)]
    case Mav => segments == [Segment(-baseQty, avgCost, None)]
    case Fifo =>
      forall s | s in segments ::
        && s.qty < 0
        && if s.lot.None? then s.unitCost == avgCost
           else exists lot | lot in lots :: lot.id == s.lot.value && lot.unitCost == s.unitCost
  }

  lemma {:induction false} ResolveCosts(item: Item, lots: seq<Lot>, baseQty: int, avgCost: int)
    ensures Costed(item, lots, baseQty, avgCost, Resolve(item, lots, baseQty, avgCost))
  {
    if item.costing == Fifo {
      forall s | s in Segments(lots, baseQty, avgCost)
        ensures s.qty < 0 && (s.lot.None? ==> s.unitCost == avgCost)
        ensures s.lot.Some? ==> exists lot | lot in lots :: lot.id == s.lot.value && lot.unitCost == s.unitCost
      {
        SegmentCosts(lots, baseQty, avgCost, s);
      }
    }
  }

  // --- totals ---------------------------------------------------------------------------------------

  function SegmentQty(segments: seq<Segment>): int {
    if segments == [] then 0 else segments[0].qty + SegmentQty(segments[1..])
  }

  function SegmentValue(segments: seq<Segment>): int {
    if segments == [] then 0 else Amount(segments[0].qty, segments[0].unitCost) + SegmentValue(segments[1..])
  }

  function LotQty(lots: seq<Lot>): int {
    if lots == [] then 0 else lots[0].qtyRemaining + LotQty(lots[1..])
  }

  function LotValue(lots: seq<Lot>): int {
    if lots == [] then 0 else Amount(lots[0].qtyRemaining, lots[0].unitCost) + LotValue(lots[1..])
  }

  function Positive(n: int): int {
    if n > 0 then n else 0
  }

  /** What the lots can still supply. */
  function Available(lots: seq<Lot>): (n: nat)
    ensures LotQty(lots) <= n
  {
    if lots == [] then 0 else Positive(lots[0].qtyRemaining) + Available(lots[1..])
  }

  /** The segments' quantities sum to exactly minus the demand, lots or no lots. */
  lemma {:induction false} SegmentsMeetDemand(lots: seq<Lot>, demand: int, fallback: int)
    ensures SegmentQty(Segments(lots, demand, fallback)) == -Positive(demand)
  {
    if lots != [] {
      SegmentsMeetDemand(lots[1..], demand - Take(lots[0], demand), fallback);
      SegmentsUnfold(lots, demand, fallback);
    }
  }

  lemma {:induction false} SegmentsUnfold(lots: seq<Lot>, demand: int, fallback: int)
    requires lots != []
    ensures var take := Take(lots[0], demand);
            var rest := Segments(lots[1..], demand - take, fallback);
            && SegmentQty(Segments(lots, demand, fallback)) == -take + SegmentQty(rest)
            && SegmentValue(Segments(lots, demand, fallback)) == Amount(-take, lots[0].unitCost) + SegmentValue(rest)
  {
    var take := Take(lots[0], demand);
    var rest := Segments(lots[1..], demand - take, fallback);
    if take > 0 {
      var head := Segment(-take, lots[0].unitCost, Some(lots[0].id));
      assert ([head] + rest)[1..] == rest;
    } else {
      assert [] + rest == rest;
    }
  }

  /** No lot goes negative, and a lot is touched only once every older one is empty. */
  lemma {:induction false} OldestFirst(lots: seq<Lot>, demand: int, i: nat, j: nat)
    requires i < |lots| && j < |lots|
    ensures var left := Consume(lots, demand);
            && left[j] == lots[j].(qtyRemaining := left[j].qtyRemaining)
            && left[j].qtyRemaining <= lots[j].qtyRemaining
            && (left[j].qtyRemaining < lots[j].qtyRemaining ==> left[j].qtyRemaining >= 0)
            && (i < j && left[j].qtyRemaining < lots[j].qtyRemaining ==> left[i].qtyRemaining <= 0)
  {
    var take := Take(lots[0], demand);
    if demand - take <= 0 {
      NothingToTake(lots[1..], demand - take, 0);
    } else if j > 0 {
      OldestFirst(lots[1..], demand - take, if i == 0 then 0 else i - 1, j - 1);
      if i > 0 {
        assert Consume(lots, demand)[i] == Consume(lots[1..], demand - take)[i - 1];
      }
    }
  }

  /** Every segment is negative, and costed at its lot's own cost, or at the fallback when no lot is left. */
  lemma {:induction false} SegmentCosts(lots: seq<Lot>, demand: int, fallback: int, s: Segment)
    requires s in Segments(lots, demand, fallback)
    ensures s.qty < 0
    ensures s.lot.None? ==> s.unitCost == fallback
    ensures s.lot.Some? ==> exists lot | lot in lots :: lot.id == s.lot.value && lot.unitCost == s.unitCost
  {
    if lots != [] {
      var take := Take(lots[0], demand);
      if s in Segments(lots[1..], demand - take, fallback) {
        SegmentCosts(lots[1..], demand - take, fallback, s);
      } else {
        assert lots[0] in lots;
      }
    }
  }

  /** What leaves a lot is posted as a segment of that lot, at the lot's own cost. */
  lemma {:induction false} LotIsPosted(lots: seq<Lot>, demand: int, fallback: int, i: nat)
    requires i < |lots| && Consume(lots, demand)[i] != lots[i]
    ensures Segment(Consume(lots, demand)[i].qtyRemaining - lots[i].qtyRemaining, lots[i].unitCost, Some(lots[i].id))
            in Segments(lots, demand, fallback)
  {
    if i > 0 {
      LotIsPosted(lots[1..], demand - Take(lots[0], demand), fallback, i - 1);
    }
  }

  /**
   A fallback segment is posted exactly when the demand exceeds what the lots can supply, and then
   for exactly the excess.
   */
  lemma {:induction false} FallbackExactlyWhenShort(lots: seq<Lot>, demand: int, fallback: int)
    ensures demand <= Available(lots) ==> forall s | s in Segments(lots, demand, fallback) :: s.lot.Some?
    ensures demand > Available(lots) ==>
      var segments := Segments(lots, demand, fallback);
      segments != [] && segments[|segments| - 1] == Segment(Available(lots) - demand, fallback, None)
  {
    if lots != [] {
      var take := Take(lots[0], demand);
      FallbackExactlyWhenShort(lots[1..], demand - take, fallback);
    }
  }

  /** When the lots suffice, what leaves them in quantity and value is what the segments carry. */
  lemma {:induction false} ConsumeConserves(lots: seq<Lot>, demand: int, fallback: int)
    requires demand <= Available(lots)
    ensures LotQty(Consume(lots, demand)) == LotQty(lots) + SegmentQty(Segments(lots, demand, fallback))
    ensures LotValue(Consume(lots, demand)) == LotValue(lots) + SegmentValue(Segments(lots, demand, fallback))
  {
    if lots != [] {
      hide Amount;
      var take := Take(lots[0], demand);
      ConsumeConserves(lots[1..], demand - take, fallback);
      SegmentsUnfold(lots, demand, fallback);
      assert Consume(lots, demand)[1..] == Consume(lots[1..], demand - take);
      AmountAdd(lots[0].qtyRemaining, -take, lots[0].unitCost);
    }
  }

  lemma {:induction false} ConsumptionComposes(lots: seq<Lot>, a: nat, b: nat)
    ensures Consume(Consume(lots, a), b) == Consume(lots, a + b)
  {
    if lots != [] {
      var ta := Take(lots[0], a);
      var after := Consume(lots, a);
      assert after[1..] == Consume(lots[1..], a - ta);
      ConsumptionComposes(lots[1..], a - ta, b - Take(after[0], b));
    }
  }

  function IssueValue(lots: seq<Lot>, demand: int, fallback: int): int {
    SegmentValue(Segments(lots, demand, fallback))
  }

  lemma {:induction false} IssueUnfold(lots: seq<Lot>, demand: int, fallback: int)
    requires lots != []
    ensures IssueValue(lots, demand, fallback)
            == Amount(-Take(lots[0], demand), lots[0].unitCost)
               + IssueValue(lots[1..], demand - Take(lots[0], demand), fallback)
  {
    SegmentsUnfold(lots, demand, fallback);
  }

  lemma {:induction false} TakeComposes(lot: Lot, a: int, b: int) returns (ta: int, tb: int, left: Lot)
    requires 0 <= a && 0 <= b
    ensures ta == Take(lot, a) <= a && left == lot.(qtyRemaining := lot.qtyRemaining - ta)
    ensures tb == Take(left, b) <= b && Take(lot, a + b) == ta + tb
  {
    ta := Take(lot, a);
    left := lot.(qtyRemaining := lot.qtyRemaining - ta);
    tb := Take(left, b);
  }

  lemma {:induction false} ShortfallsAdd(a: int, b: int, fallback: int)
    requires 0 <= a && 0 <= b
    ensures IssueValue([], a, fallback) + IssueValue([], b, fallback) == IssueValue([], a + b, fallback)
  {
    ShortfallValue(a, fallback);
    ShortfallValue(b, fallback);
    ShortfallValue(a + b, fallback);
    hide *;
    AmountAdd(-a, -b, fallback);
  }

  lemma {:induction false} IssueCons(lot: Lot, rest: seq<Lot>, demand: int, fallback: int)
    ensures IssueValue([lot] + rest, demand, fallback)
            == Amount(-Take(lot, demand), lot.unitCost) + IssueValue(rest, demand - Take(lot, demand), fallback)
  {
    hide IssueValue, Amount, Take;
    IssueUnfold([lot] + rest, demand, fallback);
    assert ([lot] + rest)[1..] == rest;
  }

  lemma {:induction false} ConsumeCons(lot: Lot, rest: seq<Lot>, demand: int)
    ensures var take := Take(lot, demand);
            Consume([lot] + rest, demand)
            == [lot.(qtyRemaining := lot.qtyRemaining - take)] + Consume(rest, demand - take)
  {
    assert ([lot] + rest)[1..] == rest;
    hide Take;
  }

  /** Two issues from one lot and what is left of it are one issue from that lot. */
  lemma {:induction false} FirstLotComposes(lot: Lot, rest: seq<Lot>, a: nat, b: nat, fallback: int)
    returns (ta: int, tb: int)
    ensures 0 <= ta <= a && 0 <= tb <= b
    ensures var lots := [lot] + rest;
            && IssueValue(lots, a + b, fallback)
               == Amount(-ta, lot.unitCost) + Amount(-tb, lot.unitCost)
                  + IssueValue(rest, (a - ta) + (b - tb), fallback)
            && IssueValue(lots, a, fallback) == Amount(-ta, lot.unitCost) + IssueValue(rest, a - ta, fallback)
            && IssueValue(Consume(lots, a), b, fallback)
               == Amount(-tb, lot.unitCost) + IssueValue(Consume(rest, a - ta), b - tb, fallback)
  {
    hide *;
    var left;
    ta, tb, left := TakeComposes(lot, a, b);
    IssueCons(lot, rest, a + b, fallback);
    IssueCons(lot, rest, a, fallback);
    ConsumeCons(lot, rest, a);
    IssueCons(left, Consume(rest, a - ta), b, fallback);
    AmountAdd(-ta, -tb, lot.unitCost);
  }

  lemma {:induction false} ValueComposes(lots: seq<Lot>, a: nat, b: nat, fallback: int)
    ensures IssueValue(lots, a, fallback) + IssueValue(Consume(lots, a), b, fallback)
            == IssueValue(lots, a + b, fallback)
  {
    if lots == [] {
      ShortfallsAdd(a, b, fallback);
    } else {
      hide *;
      var ta, tb := FirstLotComposes(lots[0], lots[1..], a, b, fallback);
      assert [lots[0]] + lots[1..] == lots;
      ValueComposes(lots[1..], a - ta, b - tb, fallback);
    }
  }

  /**
   Issuing `a` and then `b` is issuing `a + b` at once: the same lots are left, and the same total
   value leaves, also when the lots run out on the way.
   */
  lemma {:induction false} IssuesCompose(lots: seq<Lot>, a: nat, b: nat, fallback: int)
    ensures Consume(Consume(lots, a), b) == Consume(lots, a + b)
    ensures IssueValue(lots, a, fallback) + IssueValue(Consume(lots, a), b, fallback)
            == IssueValue(lots, a + b, fallback)
  {
    ConsumptionComposes(lots, a, b);
    ValueComposes(lots, a, b, fallback);
  }

  lemma {:induction false} ShortfallValue(demand: int, fallback: int)
    requires demand >= 0
    ensures SegmentValue(Segments([], demand, fallback)) == Amount(-demand, fallback)
  {
  }
}
