/** Moving-average stock: issues and adjustments go at the average, so its value drifts only by rounding. */
module AverageStock {
  import opened Money
  import opened Optional
  import opened Ledger
  import opened Costing
  import opened Inventory
  import W = WorkOrders

  /** Every OUT and ADJUST of the key went at the average of its moment. */
  ghost predicate AtAverage(st: State, key: Key) {
    OutsAtAverage(RowsOf(st.stock.log, key))
  }

  lemma {:induction false} OutsAppend(rows: seq<Movement>, m: Movement)
    requires OutsAtAverage(rows)
    requires m.direction != In ==> m.unitCost == Fold(rows).avgCost
    ensures OutsAtAverage(rows + [m])
  {
    var longer := rows + [m];
    forall i | 0 <= i < |longer| && longer[i].direction != In ensures longer[i].unitCost == Fold(longer[..i]).avgCost {
      assert longer[..i] == rows[..i];
      assert rows[..|rows|] == rows;
    }
  }

  lemma {:induction false} AppendAtAverage(cfg: Config, st: State, k: Key, lot: Option<nat>, qty: int, unitCost: int,
                                           direction: Direction, refType: RefType, refId: nat, key: Key)
    requires Cached(st.stock) && AtAverage(st, key)
    requires k == key && direction != In ==> unitCost == AtHand(st, key).avgCost
    ensures AtAverage(Append(cfg, st, GridPosting(k, lot, qty, unitCost, direction, refType, refId)), key)
  {
    AppendRow(cfg, st, k, lot, qty, unitCost, direction, refType, refId);
    hide Append;
    var m := Movement(k, lot, qty, unitCost, direction, refType, refId, cfg.stamps(|st.stock.log|));
    RowsOfAppend(st.stock.log, m, key);
    assert AtHand(st, key) == Fold(RowsOf(st.stock.log, key));
    if k == key {
      OutsAppend(RowsOf(st.stock.log, key), m);
    } else {
      assert RowsOf(st.stock.log, key) + [] == RowsOf(st.stock.log, key);
    }
  }

  /** A moving-average issue is one posting, at the average. */
  lemma {:induction false} AverageTakeOut(cfg: Config, st: State, key: Key, qty: int, refType: RefType, refId: nat)
    requires cfg.items(key.item).costing == Mav
    ensures TakeOut(cfg, st, key, qty, refType, refId)
            == Append(cfg, st, GridPosting(key, None, -qty, AtHand(st, key).avgCost, Out, refType, refId))
  {
    hide Append;
    var segs := [Segment(-qty, AtHand(st, key).avgCost, None)];
    assert segs[1..] == [];
    assert PostOuts(cfg, st, key, segs, refType, refId) == Append(cfg, st, OutPosting(key, segs[0], refType, refId));
  }

  lemma {:induction false} TakeOutRowsElsewhere(cfg: Config, st: State, k: Key, qty: int, refType: RefType,
      refId: nat, key: Key)
    requires k != key && AtAverage(st, key)
    ensures AtAverage(TakeOut(cfg, st, k, qty, refType, refId), key)
  {
    var added := TakeOutLog(cfg, st, k, qty, refType, refId);
    hide TakeOut;
    RowsOfConcat(st.stock.log, added, key);
    RowsOfUniform(added, k, key);
    assert RowsOf(st.stock.log, key) + [] == RowsOf(st.stock.log, key);
  }

  lemma {:induction false} TakeOutAtAverage(cfg: Config, st: State, k: Key, qty: int, refType: RefType, refId: nat,
      key: Key)
    requires Cached(st.stock) && AtAverage(st, key) && cfg.items(key.item).costing == Mav
    ensures AtAverage(TakeOut(cfg, st, k, qty, refType, refId), key)
  {
    hide Cached, AtAverage;
    if k == key {
      var avg := AtHand(st, key).avgCost;
      AverageTakeOut(cfg, st, key, qty, refType, refId);
      hide TakeOut, Append;
      AppendAtAverage(cfg, st, key, None, -qty, avg, Out, refType, refId, key);
    } else {
      TakeOutRowsElsewhere(cfg, st, k, qty, refType, refId, key);
    }
  }

  lemma {:induction false} IssueAtAverage(cfg: Config, st: State, lines: seq<IssueLine>, allowNegative: bool,
      refId: nat, key: Key)
    requires Cached(st.stock) && AtAverage(st, key) && cfg.items(key.item).costing == Mav
    ensures var posted := IssueLines(cfg, st, lines, allowNegative, refId);
            posted.Some? ==> AtAverage(posted.value, key)
    decreases |lines|
  {
    hide Cached, AtAverage, TakeOut;
    if lines != [] {
      var k := Key(lines[0].item, cfg.warehouse);
      TakeOutKeepsCache(cfg, st, k, lines[0].qty, GoodsIssue, refId);
      TakeOutAtAverage(cfg, st, k, lines[0].qty, GoodsIssue, refId, key);
      IssueAtAverage(cfg, TakeOut(cfg, st, k, lines[0].qty, GoodsIssue, refId), lines[1..], allowNegative, refId, key);
    }
  }

  lemma {:induction false} TakeOutAllAtAverage(cfg: Config, st: State, lines: seq<StockLine>, refType: RefType,
      refId: nat, key: Key)
    requires Cached(st.stock) && AtAverage(st, key) && cfg.items(key.item).costing == Mav
    ensures AtAverage(TakeOutAll(cfg, st, lines, refType, refId), key)
    decreases |lines|
  {
    hide Cached, AtAverage, TakeOut;
    if lines != [] {
      TakeOutKeepsCache(cfg, st, lines[0].key, lines[0].qty, refType, refId);
      TakeOutAtAverage(cfg, st, lines[0].key, lines[0].qty, refType, refId, key);
      var after := TakeOut(cfg, st, lines[0].key, lines[0].qty, refType, refId);
      TakeOutAllAtAverage(cfg, after, lines[1..], refType, refId, key);
    }
  }

  lemma {:induction false} ReceiveAtAverage(cfg: Config, st: State, lines: seq<ReceiptLine>, refId: nat, key: Key)
    requires Cached(st.stock) && AtAverage(st, key)
    ensures AtAverage(ReceiveLines(cfg, st, lines, refId), key)
    decreases |lines|
  {
    if lines != [] {
      var line := lines[0];
      AppendAtAverage(cfg, LotAdded(st, line), Key(line.item, cfg.warehouse), Some(line.lotId), line.qty, line.unitCost,
                      In, GoodsReceipt, refId, key);
      ReceiveLinesKeepsCache(cfg, st, [line], refId);
      assert [line][1..] == [];
      assert ReceiveLines(cfg, st, [line], refId) == ReceiveLine(cfg, st, line, refId);
      hide Cached, AtAverage;
      ReceiveAtAverage(cfg, ReceiveLine(cfg, st, line, refId), lines[1..], refId, key);
    }
  }

  lemma {:induction false} AdjustAtAverage(cfg: Config, st: State, lines: seq<StockLine>, refId: nat, key: Key)
    requires Cached(st.stock) && AtAverage(st, key)
    ensures AtAverage(AdjustLines(cfg, st, lines, refId), key)
    decreases |lines|
  {
    if lines != [] {
      var k, qty := lines[0].key, lines[0].qty;
      var avg := AtHand(st, k).avgCost;
      AppendAtAverage(cfg, st, k, None, qty, avg, Adjust, Adjustment, refId, key);
      GridPostingOnGrid(k, None, qty, avg, Adjust, Adjustment, refId);
      AppendKeepsCache(cfg, st, GridPosting(k, None, qty, avg, Adjust, Adjustment, refId));
      hide Cached, AtAverage, Append;
      var after := Append(cfg, st, GridPosting(k, None, qty, avg, Adjust, Adjustment, refId));
      AdjustAtAverage(cfg, after, lines[1..], refId, key);
    }
  }

  lemma {:induction false} BackAtAverage(cfg: Config, st: State, outs: seq<Movement>, doc: nat, key: Key)
    requires Cached(st.stock) && AtAverage(st, key)
    ensures AtAverage(PostBack(cfg, st, outs, doc), key)
    decreases |outs|
  {
    hide Cached, AtAverage, Append;
    if outs != [] {
      var m := outs[0];
      AppendAtAverage(cfg, st, m.key, m.lot, -m.qty, m.unitCost, In, GoodsIssue, doc, key);
      GridPostingOnGrid(m.key, m.lot, -m.qty, m.unitCost, In, GoodsIssue, doc);
      AppendKeepsCache(cfg, st, BackPosting(m, doc));
      BackAtAverage(cfg, Append(cfg, st, BackPosting(m, doc)), outs[1..], doc, key);
    }
  }

  lemma {:induction false} StepAtAverage(cfg: Config, st: State, op: Op, key: Key)
    requires Cached(st.stock) && AtAverage(st, key) && cfg.items(key.item).costing == Mav
    ensures AtAverage(Step(cfg, st, op), key)
  {
    hide Cached, AtAverage, IssueLines, ReceiveLines, AdjustLines, TakeOutAll, PostBack;
    match op
    case Issue(lines, allowNegative, refId) => IssueAtAverage(cfg, st, lines, allowNegative, refId, key);
    case Receive(lines, refId) => ReceiveAtAverage(cfg, st, lines, refId, key);
    case AdjustStock(lines, refId) => AdjustAtAverage(cfg, st, lines, refId, key);
    case Sale(doc, lines) => TakeOutAllAtAverage(cfg, st, lines, GoodsIssue, doc, key);
    case VoidSale(doc) => BackAtAverage(cfg, st, OutsOf(st.stock.log, doc), doc, key);
  }

  lemma {:induction false} CompleteAtAverage(cfg: Config, plant: W.Plant, st: State, c: W.Completion, key: Key)
    requires Cached(st.stock) && AtAverage(st, key) && cfg.items(key.item).costing == Mav
    ensures AtAverage(W.Complete(cfg, plant, st, c), key)
  {
    var made := W.OrderOf(cfg, plant, st, c);
    hide W.OrderOf;
    if made.Ok? {
      var o := made.value;
      AppendAtAverage(cfg, st, o.finished, None, o.qty, o.unitCost, In, Backflush, o.wo, key);
      GridPostingOnGrid(o.finished, None, o.qty, o.unitCost, In, Backflush, o.wo);
      AppendKeepsCache(cfg, st, W.FinishedIn(o));
      hide Cached, AtAverage, Append;
      TakeOutAllAtAverage(cfg, Append(cfg, st, W.FinishedIn(o)), o.materials, Backflush, o.wo, key);
    }
  }

  lemma {:induction false} RunAtAverage(cfg: Config, plant: W.Plant, st: State, events: seq<W.Event>, key: Key)
    requires Cached(st.stock) && AtAverage(st, key) && cfg.items(key.item).costing == Mav
    ensures AtAverage(W.After(cfg, plant, st, events), key)
  {
    if events != [] {
      hide Cached, AtAverage, Step, W.Complete;
      var n := |events| - 1;
      var before := W.After(cfg, plant, st, events[..n]);
      RunAtAverage(cfg, plant, st, events[..n], key);
      W.EventsKeepCache(cfg, plant, st, events[..n]);
      match events[n]
      case Document(op) => StepAtAverage(cfg, before, op, key);
      case Completed(c) => CompleteAtAverage(cfg, plant, before, c, key);
    }
  }

  /**
   After any run of receipts, issues, adjustments, sales, voids and backflushes, on-hand times average
   differs from the ledger's exact value by at most half a money unit for each unit on hand after each IN,
   as long as no IN is negative or meets a negative stock.
   */
  lemma {:induction false} MovingAverageDriftBound(cfg: Config, plant: W.Plant, events: seq<W.Event>, key: Key)
    requires cfg.items(key.item).costing == Mav
    requires InsOnStock(RowsOf(W.After(cfg, plant, State(Stock([], map[]), map[]), events).stock.log, key))
    ensures var end := W.After(cfg, plant, State(Stock([], map[]), map[]), events);
            var rows := RowsOf(end.stock.log, key);
            var drift := Amount(AtHand(end, key).onHand, AtHand(end, key).avgCost) - ValueSum(rows);
            -OnHandAfterIns(rows) <= 2 * drift <= OnHandAfterIns(rows)
  {
    var empty := State(Stock([], map[]), map[]);
    var end := W.After(cfg, plant, empty, events);
    assert Cached(empty.stock) by {
      forall k ensures BalanceOf(empty.stock, k) == Fold(RowsOf(empty.stock.log, k)) {
      }
    }
    assert AtAverage(empty, key);
    RunAtAverage(cfg, plant, empty, events, key);
    W.EventsKeepCache(cfg, plant, empty, events);
    assert AtHand(end, key) == Fold(RowsOf(end.stock.log, key));
    hide Amount;
    ValueDrift(RowsOf(end.stock.log, key));
  }
}
