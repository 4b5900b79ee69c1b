/** FIFO stock is exact: lots, on-hand and ledger value never part over receipts and issues. */
module FifoStock {
  import opened Money
  import opened Optional
  import opened Ledger
  import opened Costing
  import opened Inventory

  ghost predicate AllFromLots(rows: seq<Movement>) {
    forall m | m in rows && m.direction == Out :: m.lot.Some?
  }

  ghost predicate Agree(lots: seq<Lot>, rows: seq<Movement>) {
    LotQty(lots) == QtySum(rows) && LotValue(lots) == ValueSum(rows) && AllFromLots(rows)
  }

  /**
   The item's lots hold exactly what is on hand, at exactly the value the ledger carries, and no
   issue was ever costed at the fallback.
   */
  ghost predicate Exact(cfg: Config, st: State, item: nat) {
    Agree(LotsOf(st, item), RowsOf(st.stock.log, Key(item, cfg.warehouse)))
  }

  lemma {:induction false} WithLotTotals(lots: seq<Lot>, lot: Lot)
    ensures LotQty(WithLot(lots, lot)) == LotQty(lots) + lot.qtyRemaining
    ensures LotValue(WithLot(lots, lot)) == LotValue(lots) + Amount(lot.qtyRemaining, lot.unitCost)
  {
    hide Amount;
    if lots == [] || Older(lot, lots[0]) {
      assert ([lot] + lots)[1..] == lots;
    } else {
      WithLotTotals(lots[1..], lot);
      assert ([lots[0]] + WithLot(lots[1..], lot))[1..] == WithLot(lots[1..], lot);
    }
  }

  lemma {:induction false} RowsGrow(log: seq<Movement>, added: seq<Movement>, key: Key, k: Key)
    requires forall m | m in added :: m.key == key
    ensures RowsOf(log + added, k) == if k == key then RowsOf(log, k) + added else RowsOf(log, k)
  {
    RowsOfConcat(log, added, k);
    RowsOfUniform(added, key, k);
    assert RowsOf(log, k) + [] == RowsOf(log, k);
  }

  lemma {:induction false} AgreeAfterIssue(lots: seq<Lot>, rows: seq<Movement>, qty: int, fallback: int,
      added: seq<Movement>)
    requires Agree(lots, rows) && qty <= QtySum(rows)
    requires QtySum(added) == SegmentQty(Segments(lots, qty, fallback))
    requires ValueSum(added) == SegmentValue(Segments(lots, qty, fallback))
    requires (forall s | s in Segments(lots, qty, fallback) :: s.lot.Some?) ==> AllFromLots(added)
    ensures Agree(Consume(lots, qty), rows + added)
  {
    FallbackExactlyWhenShort(lots, qty, fallback);
    ConsumeConserves(lots, qty, fallback);
    hide Amount, Consume, Segments;
    QtySumConcat(rows, added);
    ValueSumConcat(rows, added);
  }

  lemma {:induction false} AgreeAfterReceipt(lots: seq<Lot>, rows: seq<Movement>, lot: Lot, m: Movement)
    requires Agree(lots, rows)
    requires m.qty == lot.qtyRemaining && m.unitCost == lot.unitCost && m.direction == In
    ensures Agree(WithLot(lots, lot), rows + [m])
  {
    hide Amount;
    WithLotTotals(lots, lot);
    assert (rows + [m])[..|rows|] == rows;
  }

  /** Issuing no more than is on hand takes the same quantity and value from lots and ledger. */
  lemma {:induction false} TakeOutExact(cfg: Config, st: State, item: nat, qty: int, refId: nat)
    requires Exact(cfg, st, item) && cfg.items(item).costing == Fifo
    requires qty <= QtySum(RowsOf(st.stock.log, Key(item, cfg.warehouse)))
    ensures Exact(cfg, TakeOut(cfg, st, Key(item, cfg.warehouse), qty, GoodsIssue, refId), item)
  {
    var key, lots := Key(item, cfg.warehouse), LotsOf(st, item);
    var added := TakeOutLog(cfg, st, key, qty, GoodsIssue, refId);
    hide TakeOut, Agree, Consume, Segments;
    RowsGrow(st.stock.log, added, key, key);
    AgreeAfterIssue(lots, RowsOf(st.stock.log, key), qty, AtHand(st, key).avgCost, added);
  }

  lemma {:induction false} TakeOutElsewhere(cfg: Config, st: State, other: nat, qty: int, refId: nat, item: nat)
    requires Exact(cfg, st, item) && other != item
    ensures Exact(cfg, TakeOut(cfg, st, Key(other, cfg.warehouse), qty, GoodsIssue, refId), item)
  {
    var added := TakeOutLog(cfg, st, Key(other, cfg.warehouse), qty, GoodsIssue, refId);
    hide TakeOut;
    RowsGrow(st.stock.log, added, Key(other, cfg.warehouse), Key(item, cfg.warehouse));
  }

  lemma {:induction false} IssueLinesExact(cfg: Config, st: State, lines: seq<IssueLine>, refId: nat, item: nat)
    requires Cached(st.stock) && Exact(cfg, st, item) && cfg.items(item).costing == Fifo
    ensures var posted := IssueLines(cfg, st, lines, false, refId);
            posted.Some? ==> Exact(cfg, posted.value, item)
    decreases |lines|
  {
    if lines != [] {
      var line := lines[0];
      var key := Key(line.item, cfg.warehouse);
      OnHandIsQtySum(RowsOf(st.stock.log, key));
      assert AtHand(st, key) == Fold(RowsOf(st.stock.log, key));
      if AtHand(st, key).onHand >= line.qty {
        hide Exact, Cached, TakeOut;
        TakeOutKeepsCache(cfg, st, key, line.qty, GoodsIssue, refId);
        if line.item == item {
          TakeOutExact(cfg, st, item, line.qty, refId);
        } else {
          TakeOutElsewhere(cfg, st, line.item, line.qty, refId, item);
        }
        IssueLinesExact(cfg, TakeOut(cfg, st, key, line.qty, GoodsIssue, refId), lines[1..], refId, item);
      }
    }
  }

  lemma {:induction false} ReceiveLineExact(cfg: Config, st: State, line: ReceiptLine, refId: nat, item: nat)
    requires Exact(cfg, st, item)
    ensures Exact(cfg, ReceiveLine(cfg, st, line, refId), item)
  {
    hide Agree, WithLot;
    var key, tracked := Key(line.item, cfg.warehouse), Key(item, cfg.warehouse);
    AppendRow(cfg, LotAdded(st, line), key, Some(line.lotId), line.qty, line.unitCost, In, GoodsReceipt, refId);
    hide Append;
    var stamp := cfg.stamps(|st.stock.log|);
    var m := Movement(key, Some(line.lotId), line.qty, line.unitCost, In, GoodsReceipt, refId, stamp);
    RowsGrow(st.stock.log, [m], key, tracked);
    if line.item == item {
      AgreeAfterReceipt(LotsOf(st, item), RowsOf(st.stock.log, tracked), LotOf(line), m);
    }
  }

  lemma {:induction false} ReceiveLinesExact(cfg: Config, st: State, lines: seq<ReceiptLine>, refId: nat, item: nat)
    requires Exact(cfg, st, item)
    ensures Exact(cfg, ReceiveLines(cfg, st, lines, refId), item)
    decreases |lines|
  {
    if lines != [] {
      ReceiveLineExact(cfg, st, lines[0], refId, item);
      hide Exact, ReceiveLine;
      ReceiveLinesExact(cfg, ReceiveLine(cfg, st, lines[0], refId), lines[1..], refId, item);
    }
  }

  ghost predicate ReceiptOrIssue(op: Op) {
    op.Receive? || (op.Issue? && !op.allowNegative)
  }

  /**
   Over every run of receipts and issues with negative stock off, whatever the other items do, a FIFO
   item's lots equal its on-hand and its ledger value exactly; an issue document that fails, fails whole.
   */
  lemma {:induction false} FifoRunExact(cfg: Config, st: State, ops: seq<Op>, item: nat)
    requires Cached(st.stock) && Exact(cfg, st, item) && cfg.items(item).costing == Fifo
    requires forall op | op in ops :: ReceiptOrIssue(op)
    ensures var end := RunOps(cfg, st, ops);
            && Exact(cfg, end, item)
            && AtHand(end, Key(item, cfg.warehouse)).onHand == LotQty(LotsOf(end, item))
  {
    var end := RunOps(cfg, st, ops);
    RunKeepsCache(cfg, st, ops);
    if ops != [] {
      var n := |ops| - 1;
      var before, op := RunOps(cfg, st, ops[..n]), ops[n];
      hide Exact, Cached, Step;
      FifoRunExact(cfg, st, ops[..n], item);
      RunKeepsCache(cfg, st, ops[..n]);
      assert op in ops;
      StepExact(cfg, before, op, item);
    }
    EndOnHand(cfg, end, item);
  }

  lemma {:induction false} StepExact(cfg: Config, st: State, op: Op, item: nat)
    requires Cached(st.stock) && Exact(cfg, st, item) && cfg.items(item).costing == Fifo && ReceiptOrIssue(op)
    ensures Exact(cfg, Step(cfg, st, op), item)
  {
    hide Exact, Cached, IssueLines, ReceiveLines;
    if op.Receive? {
      ReceiveLinesExact(cfg, st, op.receipts, op.refId, item);
    } else {
      IssueLinesExact(cfg, st, op.lines, op.refId, item);
    }
  }

  lemma {:induction false} EndOnHand(cfg: Config, st: State, item: nat)
    requires Cached(st.stock) && Exact(cfg, st, item)
    ensures AtHand(st, Key(item, cfg.warehouse)).onHand == LotQty(LotsOf(st, item))
  {
    var key := Key(item, cfg.warehouse);
    OnHandIsQtySum(RowsOf(st.stock.log, key));
    assert AtHand(st, key) == Fold(RowsOf(st.stock.log, key));
  }
}
