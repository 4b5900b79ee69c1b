/**
 FIFO takes the earliest lots first, whatever was received, issued, adjusted, voided or backflushed before
 (`costing.service.ts`, `goods-receipt.service.ts` under `apps/api/src/inventory/`).
 */
module LotOrder {
  import opened Money
  import opened Optional
  import opened Ledger
  import opened Costing
  import opened Inventory
  import W = WorkOrders

  /** Received before, or at the same time under a key that is not larger. */
  ghost predicate NotAfter(a: Lot, b: Lot) {
    a.receivedAt < b.receivedAt || (a.receivedAt == b.receivedAt && a.id <= b.id)
  }

  ghost predicate Ascending(lots: seq<Lot>) {
    forall i, j | 0 <= i < j < |lots| :: NotAfter(lots[i], lots[j])
  }

  ghost predicate AllAscend(st: State) {
    forall item :: Ascending(LotsOf(st, item))
  }

  /** A received lot joins the others, none of which is lost. */
  lemma {:induction false} WithLotMembers(lots: seq<Lot>, lot: Lot)
    ensures multiset(WithLot(lots, lot)) == multiset(lots) + multiset{lot}
  {
    hide Older;
    if lots != [] && !Older(lot, lots[0]) {
      WithLotMembers(lots[1..], lot);
      assert lots == [lots[0]] + lots[1..];
    }
  }

  lemma {:induction false} WithLotAscends(lots: seq<Lot>, lot: Lot)
    requires Ascending(lots)
    ensures Ascending(WithLot(lots, lot))
  {
    if lots != [] {
      var first, rest := lots[0], lots[1..];
      assert forall x | x in rest :: NotAfter(first, x);
      if Older(lot, first) {
        assert forall x | x in rest :: NotAfter(lot, x);
        Prepended(lot, lots);
      } else {
        WithLotAscends(rest, lot);
        WithLotMembers(rest, lot);
        forall x | x in WithLot(rest, lot) ensures NotAfter(first, x) {
          assert x in multiset(WithLot(rest, lot));
        }
        Prepended(first, WithLot(rest, lot));
      }
    }
  }

  lemma {:induction false} Prepended(first: Lot, rest: seq<Lot>)
    requires Ascending(rest) && forall x | x in rest :: NotAfter(first, x)
    ensures Ascending([first] + rest)
  {
    var longer := [first] + rest;
    forall i, j | 0 <= i < j < |longer| ensures NotAfter(longer[i], longer[j]) {
      assert longer[j] == rest[j - 1] && longer[j] in rest;
      if i > 0 {
        assert longer[i] == rest[i - 1];
      }
    }
  }

  /** A receipt line adds exactly its lot, of its item alone. */
  lemma {:induction false} ReceiptAddsLot(cfg: Config, st: State, line: ReceiptLine, refId: nat)
    ensures var after := ReceiveLine(cfg, st, line, refId);
            && multiset(LotsOf(after, line.item))
               == multiset(LotsOf(st, line.item)) + multiset{Lot(line.lotId, line.receivedAt, line.qty, line.unitCost)}
            && (forall item | item != line.item :: LotsOf(after, item) == LotsOf(st, item))
            && (AllAscend(st) ==> AllAscend(after))
  {
    WithLotMembers(LotsOf(st, line.item), LotOf(line));
    if AllAscend(st) {
      WithLotAscends(LotsOf(st, line.item), LotOf(line));
    }
    AppendRow(cfg, LotAdded(st, line), Key(line.item, cfg.warehouse), Some(line.lotId), line.qty, line.unitCost, In,
              GoodsReceipt, refId);
    hide Append, WithLot, Ascending;
  }

  lemma {:induction false} ConsumeAscends(lots: seq<Lot>, demand: int)
    requires Ascending(lots)
    ensures Ascending(Consume(lots, demand))
  {
    forall i | 0 <= i < |lots|
      ensures Consume(lots, demand)[i] == lots[i].(qtyRemaining := Consume(lots, demand)[i].qtyRemaining)
    {
      OldestFirst(lots, demand, i, i);
    }
    hide Consume;
  }

  lemma {:induction false} SameLots(a: State, b: State)
    requires AllAscend(a) && b.lots == a.lots
    ensures AllAscend(b)
  {
    hide Ascending;
    forall item ensures Ascending(LotsOf(b, item)) {
      assert LotsOf(b, item) == LotsOf(a, item);
    }
  }

  lemma {:induction false} TakeOutAscends(cfg: Config, st: State, key: Key, qty: int, refType: RefType, refId: nat)
    requires AllAscend(st)
    ensures AllAscend(TakeOut(cfg, st, key, qty, refType, refId))
  {
    var added := TakeOutLog(cfg, st, key, qty, refType, refId);
    ConsumeAscends(LotsOf(st, key.item), qty);
    hide TakeOut, Ascending, Consume;
    var after := TakeOut(cfg, st, key, qty, refType, refId);
    forall item ensures Ascending(LotsOf(after, item)) {
      assert Ascending(LotsOf(st, item));
    }
  }

  lemma {:induction false} TakeOutAllAscends(cfg: Config, st: State, lines: seq<StockLine>, refType: RefType,
      refId: nat)
    requires AllAscend(st)
    ensures AllAscend(TakeOutAll(cfg, st, lines, refType, refId))
    decreases |lines|
  {
    hide TakeOut, AllAscend;
    if lines != [] {
      TakeOutAscends(cfg, st, lines[0].key, lines[0].qty, refType, refId);
      TakeOutAllAscends(cfg, TakeOut(cfg, st, lines[0].key, lines[0].qty, refType, refId), lines[1..], refType, refId);
    }
  }

  lemma {:induction false} IssueAscends(cfg: Config, st: State, lines: seq<IssueLine>, allowNegative: bool, refId: nat)
    requires AllAscend(st)
    ensures var posted := IssueLines(cfg, st, lines, allowNegative, refId);
            posted.Some? ==> AllAscend(posted.value)
    decreases |lines|
  {
    hide TakeOut, AllAscend;
    if lines != [] {
      var key := Key(lines[0].item, cfg.warehouse);
      TakeOutAscends(cfg, st, key, lines[0].qty, GoodsIssue, refId);
      IssueAscends(cfg, TakeOut(cfg, st, key, lines[0].qty, GoodsIssue, refId), lines[1..], allowNegative, refId);
    }
  }

  lemma {:induction false} ReceiveAscends(cfg: Config, st: State, lines: seq<ReceiptLine>, refId: nat)
    requires AllAscend(st)
    ensures AllAscend(ReceiveLines(cfg, st, lines, refId))
    decreases |lines|
  {
    hide ReceiveLine, AllAscend;
    if lines != [] {
      ReceiptAddsLot(cfg, st, lines[0], refId);
      ReceiveAscends(cfg, ReceiveLine(cfg, st, lines[0], refId), lines[1..], refId);
    }
  }

  lemma {:induction false} AdjustAscends(cfg: Config, st: State, lines: seq<StockLine>, refId: nat)
    requires AllAscend(st)
    ensures AllAscend(AdjustLines(cfg, st, lines, refId))
    decreases |lines|
  {
    hide AllAscend;
    if lines != [] {
      var key, qty := lines[0].key, lines[0].qty;
      var p := GridPosting(key, None, qty, AtHand(st, key).avgCost, Adjust, Adjustment, refId);
      AppendRow(cfg, st, key, None, qty, AtHand(st, key).avgCost, Adjust, Adjustment, refId);
      hide Append;
      SameLots(st, Append(cfg, st, p));
      AdjustAscends(cfg, Append(cfg, st, p), lines[1..], refId);
    }
  }

  lemma {:induction false} BackAscends(cfg: Config, st: State, outs: seq<Movement>, doc: nat)
    requires AllAscend(st)
    ensures AllAscend(PostBack(cfg, st, outs, doc))
    decreases |outs|
  {
    hide AllAscend;
    if outs != [] {
      var m := outs[0];
      AppendRow(cfg, st, m.key, m.lot, -m.qty, m.unitCost, In, GoodsIssue, doc);
      hide Append;
      SameLots(st, Append(cfg, st, BackPosting(m, doc)));
      BackAscends(cfg, Append(cfg, st, BackPosting(m, doc)), outs[1..], doc);
    }
  }

  lemma {:induction false} OrderAscends(cfg: Config, st: State, o: W.Order)
    requires AllAscend(st)
    ensures AllAscend(W.PostOrder(cfg, st, o))
  {
    AppendRow(cfg, st, o.finished, None, o.qty, o.unitCost, In, Backflush, o.wo);
    hide Append, AllAscend;
    SameLots(st, Append(cfg, st, W.FinishedIn(o)));
    TakeOutAllAscends(cfg, Append(cfg, st, W.FinishedIn(o)), o.materials, Backflush, o.wo);
  }

  lemma {:induction false} StepAscends(cfg: Config, st: State, op: Op)
    requires AllAscend(st)
    ensures AllAscend(Step(cfg, st, op))
  {
    hide AllAscend, IssueLines, ReceiveLines, AdjustLines, TakeOutAll, PostBack;
    match op
    case Issue(lines, allowNegative, refId) => IssueAscends(cfg, st, lines, allowNegative, refId);
    case Receive(lines, refId) => ReceiveAscends(cfg, st, lines, refId);
    case AdjustStock(lines, refId) => AdjustAscends(cfg, st, lines, refId);
    case Sale(doc, lines) => TakeOutAllAscends(cfg, st, lines, GoodsIssue, doc);
    case VoidSale(doc) => BackAscends(cfg, st, OutsOf(st.stock.log, doc), doc);
  }

  /** Over every run of documents and backflushes the lots of every item are read earliest first. */
  lemma {:induction false} LotsAscend(cfg: Config, plant: W.Plant, st: State, events: seq<W.Event>)
    requires AllAscend(st)
    ensures AllAscend(W.After(cfg, plant, st, events))
  {
    if events != [] {
      var n := |events| - 1;
      var before := W.After(cfg, plant, st, events[..n]);
      hide AllAscend, Step, W.OrderOf, W.PostOrder;
      LotsAscend(cfg, plant, st, events[..n]);
      match events[n]
      case Document(op) => StepAscends(cfg, before, op);
      case Completed(c) =>
        if W.OrderOf(cfg, plant, before, c).Ok? {
          OrderAscends(cfg, before, W.OrderOf(cfg, plant, before, c).value);
        }
    }
  }

  /** One lot after an issue, and the row the issue appended for it. */
  ghost predicate Posted(key: Key, was: Lot, left: Lot, rows: seq<Movement>) {
    && left == was.(qtyRemaining := left.qtyRemaining)
    && (left != was ==>
          && left.qtyRemaining < was.qtyRemaining
          && exists m | m in rows ::
               && m.key == key && m.direction == Out && m.lot == Some(was.id)
               && m.qty == left.qtyRemaining - was.qtyRemaining && m.unitCost == was.unitCost)
  }

  /**
   A lot is touched only when every lot received before it is empty, and what leaves a lot is posted as an OUT
   of that lot at its own cost.
   */
  ghost predicate EarliestFirst(key: Key, lots: seq<Lot>, left: seq<Lot>, rows: seq<Movement>) {
    && |left| == |lots|
    && (forall j | 0 <= j < |lots| :: Posted(key, lots[j], left[j], rows))
    && (forall i, j | 0 <= i < |lots| && 0 <= j < |lots| && left[j] != lots[j] ::
          NotAfter(lots[j], lots[i]) || left[i].qtyRemaining <= 0)
  }

  ghost predicate HasRow(key: Key, s: Segment, rows: seq<Movement>) {
    exists m | m in rows ::
      m.key == key && m.direction == Out && m.lot == s.lot && m.qty == s.qty && m.unitCost == s.unitCost
  }

  lemma {:induction false} ConsumeIsEarliestFirst(key: Key, lots: seq<Lot>, qty: int, fallback: int,
      rows: seq<Movement>)
    requires Ascending(lots) && forall s | s in Segments(lots, qty, fallback) :: HasRow(key, s, rows)
    ensures EarliestFirst(key, lots, Consume(lots, qty), rows)
  {
    var left := Consume(lots, qty);
    forall j | 0 <= j < |lots| ensures Posted(key, lots[j], left[j], rows) {
      OldestFirst(lots, qty, j, j);
      if left[j] != lots[j] {
        LotIsPosted(lots, qty, fallback, j);
        var gone := left[j].qtyRemaining - lots[j].qtyRemaining;
        assert HasRow(key, Segment(gone, lots[j].unitCost, Some(lots[j].id)), rows);
      }
      hide Consume, Segments;
    }
    forall i, j | 0 <= i < |lots| && 0 <= j < |lots| && left[j] != lots[j]
      ensures NotAfter(lots[j], lots[i]) || left[i].qtyRemaining <= 0
    {
      OldestFirst(lots, qty, i, j);
      hide Consume, Segments;
      assert left[j].qtyRemaining < lots[j].qtyRemaining;
      if j <= i {
        assert NotAfter(lots[j], lots[i]);
      }
    }
  }

  lemma {:induction false} IssueIsEarliestFirst(cfg: Config, st: State, key: Key, qty: int, refType: RefType,
      refId: nat) returns (rows: seq<Movement>)
    requires AllAscend(st) && cfg.items(key.item).costing == Fifo
    ensures var issued := TakeOut(cfg, st, key, qty, refType, refId);
            && issued.stock.log == st.stock.log + rows
            && EarliestFirst(key, LotsOf(st, key.item), LotsOf(issued, key.item), rows)
  {
    var lots, avg := LotsOf(st, key.item), AtHand(st, key).avgCost;
    assert Ascending(lots);
    rows := TakeOutLog(cfg, st, key, qty, refType, refId);
    hide TakeOut, Consume, Segments, EarliestFirst, Ascending, HasRow;
    forall s | s in Segments(lots, qty, avg) ensures HasRow(key, s, rows) {
      RowOfSegment(cfg, |st.stock.log|, key, Segments(lots, qty, avg), refType, refId, s);
    }
    ConsumeIsEarliestFirst(key, lots, qty, avg, rows);
  }

  /** After any run, whatever is issued of a FIFO item. */
  lemma {:induction false} EarliestLotsGoFirst(cfg: Config, plant: W.Plant, st: State, events: seq<W.Event>, key: Key,
      qty: int, refType: RefType, refId: nat) returns (rows: seq<Movement>)
    requires AllAscend(st) && cfg.items(key.item).costing == Fifo
    ensures var end := W.After(cfg, plant, st, events);
            var issued := TakeOut(cfg, end, key, qty, refType, refId);
            && issued.stock.log == end.stock.log + rows
            && EarliestFirst(key, LotsOf(end, key.item), LotsOf(issued, key.item), rows)
  {
    LotsAscend(cfg, plant, st, events);
    hide *;
    rows := IssueIsEarliestFirst(cfg, W.After(cfg, plant, st, events), key, qty, refType, refId);
  }

  lemma {:induction false} RowOfSegment(cfg: Config, n: nat, key: Key, segs: seq<Segment>, refType: RefType, refId: nat,
      s: Segment)
    requires s in segs
    ensures HasRow(key, s, OutRows(cfg, n, key, segs, refType, refId))
    decreases |segs|
  {
    var rows := OutRows(cfg, n, key, segs, refType, refId);
    if s == segs[0] {
      assert rows[0] in rows;
    } else {
      RowOfSegment(cfg, n + 1, key, segs[1..], refType, refId, s);
      assert forall m | m in rows[1..] :: m in rows;
    }
  }
}
