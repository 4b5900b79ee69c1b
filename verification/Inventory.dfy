/**
 The stock-moving services over one ledger (`goods-receipt`, `goods-issue`, `stock-adjustment` and
 `sales-stock` under `apps/api/src/inventory/`). Each document is one transaction: it posts all its
 lines or changes nothing. Quantities arrive in base units.
 */
module Inventory {
  import opened Money
  import opened Optional
  import opened Ledger
  import opened Costing

  /** The ledger with its cache, and the lots of each item. */
  datatype State = State(stock: Stock, lots: map<nat, seq<Lot>>)

  /** `stamps(n)` is the time and id the n-th movement gets; `warehouse` is the default one. */
  datatype Config = Config(items: nat -> Item, warehouse: nat, stamps: nat -> Stamp)

  datatype IssueLine = IssueLine(item: nat, qty: int)

  /** A landed receipt line, with the key and the time its lot is inserted under. */
  datatype ReceiptLine = ReceiptLine(item: nat, qty: int, unitCost: int, lotId: nat, receivedAt: int)

  datatype StockLine = StockLine(key: Key, qty: int)

  function LotsOf(st: State, item: nat): seq<Lot> {
    if item in st.lots then st.lots[item] else []
  }

  function AtHand(st: State, key: Key): Balance {
    BalanceOf(st.stock, key)
  }

  // --- postings -------------------------------------------------------------------------------------

  /** A posting whose amounts are on the grid, as every service hands them over. */
  function GridPosting(key: Key, lot: Option<nat>, qty: int, unitCost: int, direction: Direction,
                       refType: RefType, refId: nat): Posting {
    Posting(key, lot, qty as real, unitCost as real, direction, refType, refId, true)
  }

  function Append(cfg: Config, st: State, p: Posting): State
    requires p.allowNegative
  {
    State(Post(st.stock, p, cfg.stamps(|st.stock.log|)).value, st.lots)
  }

  function OutPosting(key: Key, seg: Segment, refType: RefType, refId: nat): Posting {
    GridPosting(key, seg.lot, seg.qty, seg.unitCost, Out, refType, refId)
  }

  function PostOuts(cfg: Config, st: State, key: Key, segs: seq<Segment>, refType: RefType, refId: nat): State
    decreases |segs|
  {
    if segs == [] then st
    else PostOuts(cfg, Append(cfg, st, OutPosting(key, segs[0], refType, refId)), key, segs[1..], refType, refId)
  }

  /** Cost a quantity under the item's method, take it from the lots, and post the OUTs. */
  function TakeOut(cfg: Config, st: State, key: Key, qty: int, refType: RefType, refId: nat): State {
    var item := cfg.items(key.item);
    var lots := LotsOf(st, key.item);
    var segs := Resolve(item, lots, qty, AtHand(st, key).avgCost);
    var taken := if item.costing == Fifo then st.(lots := st.lots[key.item := Consume(lots, qty)]) else st;
    PostOuts(cfg, taken, key, segs, refType, refId)
  }

  // --- documents ------------------------------------------------------------------------------------

  /** A goods issue: every line needs its quantity on hand unless negative stock is allowed. */
  function IssueLines(cfg: Config, st: State, lines: seq<IssueLine>, allowNegative: bool, refId: nat): Option<State>
    decreases |lines|
  {
    if lines == [] then Some(st)
    else
      var key := Key(lines[0].item, cfg.warehouse);
      if !allowNegative && AtHand(st, key).onHand < lines[0].qty then None
      else IssueLines(cfg, TakeOut(cfg, st, key, lines[0].qty, GoodsIssue, refId), lines[1..], allowNegative, refId)
  }

  function LotOf(line: ReceiptLine): Lot {
    Lot(line.lotId, line.receivedAt, line.qty, line.unitCost)
  }

  /** The lot a receipt line inserts. */
  function LotAdded(st: State, line: ReceiptLine): State {
    st.(lots := st.lots[line.item := WithLot(LotsOf(st, line.item), LotOf(line))])
  }

  function ReceiveLine(cfg: Config, st: State, line: ReceiptLine, refId: nat): State {
    var key := Key(line.item, cfg.warehouse);
    var p := GridPosting(key, Some(line.lotId), line.qty, line.unitCost, In, GoodsReceipt, refId);
    Append(cfg, LotAdded(st, line), p)
  }

  function ReceiveLines(cfg: Config, st: State, lines: seq<ReceiptLine>, refId: nat): State
    decreases |lines|
  {
    if lines == [] then st else ReceiveLines(cfg, ReceiveLine(cfg, st, lines[0], refId), lines[1..], refId)
  }

  /** One ADJUST per line at the current average. */
  function AdjustLines(cfg: Config, st: State, lines: seq<StockLine>, refId: nat): State
    decreases |lines|
  {
    if lines == [] then st
    else
      var key, qty := lines[0].key, lines[0].qty;
      var p := GridPosting(key, None, qty, AtHand(st, key).avgCost, Adjust, Adjustment, refId);
      AdjustLines(cfg, Append(cfg, st, p), lines[1..], refId)
  }

  predicate OfDocument(m: Movement, doc: nat) {
    OfRef(m, GoodsIssue, doc)
  }

  predicate HasMovement(log: seq<Movement>, doc: nat, direction: Direction) {
    exists m | m in log :: OfDocument(m, doc) && m.direction == direction
  }

  function TakeOutAll(cfg: Config, st: State, lines: seq<StockLine>, refType: RefType, refId: nat): State
    decreases |lines|
  {
    if lines == [] then st
    else TakeOutAll(cfg, TakeOut(cfg, st, lines[0].key, lines[0].qty, refType, refId), lines[1..], refType, refId)
  }

  /** An issued sales document; a redelivery finds its OUTs and posts nothing. */
  function IssueForSale(cfg: Config, st: State, doc: nat, lines: seq<StockLine>): State {
    if HasMovement(st.stock.log, doc, Out) then st else TakeOutAll(cfg, st, lines, GoodsIssue, doc)
  }

  function OutsOf(log: seq<Movement>, doc: nat): seq<Movement> {
    if log == [] then []
    else
      var last := log[|log| - 1];
      OutsOf(log[..|log| - 1], doc) + if OfDocument(last, doc) && last.direction == Out then [last] else []
  }

  function BackPosting(m: Movement, doc: nat): Posting {
    GridPosting(m.key, m.lot, -m.qty, m.unitCost, In, GoodsIssue, doc)
  }

  function PostBack(cfg: Config, st: State, outs: seq<Movement>, doc: nat): State
    decreases |outs|
  {
    if outs == [] then st else PostBack(cfg, Append(cfg, st, BackPosting(outs[0], doc)), outs[1..], doc)
  }

  /** A voided sales document: one compensating IN per OUT, once. */
  function Compensate(cfg: Config, st: State, doc: nat): State {
    if HasMovement(st.stock.log, doc, In) then st else PostBack(cfg, st, OutsOf(st.stock.log, doc), doc)
  }

  datatype Op = Issue(lines: seq<IssueLine>, allowNegative: bool, refId: nat)
              | Receive(receipts: seq<ReceiptLine>, refId: nat)
              | AdjustStock(adjustments: seq<StockLine>, refId: nat)
              | Sale(doc: nat, sold: seq<StockLine>)
              | VoidSale(doc: nat)

  function Step(cfg: Config, st: State, op: Op): State {
    match op
    case Issue(lines, allowNegative, refId) =>
      var posted := IssueLines(cfg, st, lines, allowNegative, refId);
      if posted.Some? then posted.value else st
    case Receive(lines, refId) => ReceiveLines(cfg, st, lines, refId)
    case AdjustStock(lines, refId) => AdjustLines(cfg, st, lines, refId)
    case Sale(doc, lines) => IssueForSale(cfg, st, doc, lines)
    case VoidSale(doc) => Compensate(cfg, st, doc)
  }

  function RunOps(cfg: Config, st: State, ops: seq<Op>): State {
    if ops == [] then st else Step(cfg, RunOps(cfg, st, ops[..|ops| - 1]), ops[|ops| - 1])
  }

  // --- every document keeps the cache equal to the replay ---------------------------------------------

  lemma {:induction false} AppendKeepsCache(cfg: Config, st: State, p: Posting)
    requires Cached(st.stock) && p.allowNegative && OnGrid(p)
    ensures Cached(Append(cfg, st, p).stock)
  {
    PostKeepsCache(st.stock, p, cfg.stamps(|st.stock.log|));
  }

  lemma {:induction false} GridPostingOnGrid(key: Key, lot: Option<nat>, qty: int, unitCost: int,
      direction: Direction, refType: RefType, refId: nat)
    ensures OnGrid(GridPosting(key, lot, qty, unitCost, direction, refType, refId))
  {
    RoundOnGrid(qty);
    RoundOnGrid(unitCost);
  }

  lemma {:induction false} PostOutsKeepsCache(cfg: Config, st: State, key: Key, segs: seq<Segment>, refType: RefType,
      refId: nat)
    requires Cached(st.stock)
    ensures Cached(PostOuts(cfg, st, key, segs, refType, refId).stock)
    decreases |segs|
  {
    if segs != [] {
      var p := OutPosting(key, segs[0], refType, refId);
      GridPostingOnGrid(key, segs[0].lot, segs[0].qty, segs[0].unitCost, Out, refType, refId);
      AppendKeepsCache(cfg, st, p);
      PostOutsKeepsCache(cfg, Append(cfg, st, p), key, segs[1..], refType, refId);
    }
  }

  lemma {:induction false} TakeOutKeepsCache(cfg: Config, st: State, key: Key, qty: int, refType: RefType, refId: nat)
    requires Cached(st.stock)
    ensures Cached(TakeOut(cfg, st, key, qty, refType, refId).stock)
  {
    var lots := LotsOf(st, key.item);
    var item := cfg.items(key.item);
    var taken := if item.costing == Fifo then st.(lots := st.lots[key.item := Consume(lots, qty)]) else st;
    PostOutsKeepsCache(cfg, taken, key, Resolve(item, lots, qty, AtHand(st, key).avgCost), refType, refId);
  }

  lemma {:induction false} IssueLinesKeepsCache(cfg: Config, st: State, lines: seq<IssueLine>, allowNegative: bool,
      refId: nat)
    requires Cached(st.stock)
    ensures var posted := IssueLines(cfg, st, lines, allowNegative, refId); posted.Some? ==> Cached(posted.value.stock)
    decreases |lines|
  {
    hide Cached, TakeOut;
    if lines != [] {
      var key := Key(lines[0].item, cfg.warehouse);
      TakeOutKeepsCache(cfg, st, key, lines[0].qty, GoodsIssue, refId);
      var after := TakeOut(cfg, st, key, lines[0].qty, GoodsIssue, refId);
      IssueLinesKeepsCache(cfg, after, lines[1..], allowNegative, refId);
    }
  }

  lemma {:induction false} ReceiveLinesKeepsCache(cfg: Config, st: State, lines: seq<ReceiptLine>, refId: nat)
    requires Cached(st.stock)
    ensures Cached(ReceiveLines(cfg, st, lines, refId).stock)
    decreases |lines|
  {
    if lines != [] {
      var line := lines[0];
      var key := Key(line.item, cfg.warehouse);
      GridPostingOnGrid(key, Some(line.lotId), line.qty, line.unitCost, In, GoodsReceipt, refId);
      var p := GridPosting(key, Some(line.lotId), line.qty, line.unitCost, In, GoodsReceipt, refId);
      AppendKeepsCache(cfg, LotAdded(st, line), p);
      hide Cached;
      ReceiveLinesKeepsCache(cfg, ReceiveLine(cfg, st, line, refId), lines[1..], refId);
    }
  }

  lemma {:induction false} AdjustLinesKeepsCache(cfg: Config, st: State, lines: seq<StockLine>, refId: nat)
    requires Cached(st.stock)
    ensures Cached(AdjustLines(cfg, st, lines, refId).stock)
    decreases |lines|
  {
    if lines != [] {
      var avg := AtHand(st, lines[0].key).avgCost;
      var p := GridPosting(lines[0].key, None, lines[0].qty, avg, Adjust, Adjustment, refId);
      GridPostingOnGrid(lines[0].key, None, lines[0].qty, avg, Adjust, Adjustment, refId);
      AppendKeepsCache(cfg, st, p);
      AdjustLinesKeepsCache(cfg, Append(cfg, st, p), lines[1..], refId);
    }
  }

  lemma {:induction false} TakeOutAllKeepsCache(cfg: Config, st: State, lines: seq<StockLine>, refType: RefType,
      refId: nat)
    requires Cached(st.stock)
    ensures Cached(TakeOutAll(cfg, st, lines, refType, refId).stock)
    decreases |lines|
  {
    hide Cached, TakeOut;
    if lines != [] {
      TakeOutKeepsCache(cfg, st, lines[0].key, lines[0].qty, refType, refId);
      var after := TakeOut(cfg, st, lines[0].key, lines[0].qty, refType, refId);
      TakeOutAllKeepsCache(cfg, after, lines[1..], refType, refId);
    }
  }

  lemma {:induction false} PostBackKeepsCache(cfg: Config, st: State, outs: seq<Movement>, doc: nat)
    requires Cached(st.stock)
    ensures Cached(PostBack(cfg, st, outs, doc).stock)
    decreases |outs|
  {
    if outs != [] {
      var m := outs[0];
      GridPostingOnGrid(m.key, m.lot, -m.qty, m.unitCost, In, GoodsIssue, doc);
      AppendKeepsCache(cfg, st, BackPosting(m, doc));
      PostBackKeepsCache(cfg, Append(cfg, st, BackPosting(m, doc)), outs[1..], doc);
    }
  }

  lemma {:induction false} StepKeepsCache(cfg: Config, st: State, op: Op)
    requires Cached(st.stock)
    ensures Cached(Step(cfg, st, op).stock)
  {
    hide Cached;
    match op
    case Issue(lines, allowNegative, refId) => IssueLinesKeepsCache(cfg, st, lines, allowNegative, refId);
    case Receive(lines, refId) => ReceiveLinesKeepsCache(cfg, st, lines, refId);
    case AdjustStock(lines, refId) => AdjustLinesKeepsCache(cfg, st, lines, refId);
    case Sale(doc, lines) => TakeOutAllKeepsCache(cfg, st, lines, GoodsIssue, doc);
    case VoidSale(doc) => PostBackKeepsCache(cfg, st, OutsOf(st.stock.log, doc), doc);
  }

  /** The services only ever post on the grid, so after any run a rebuild in posting order changes nothing. */
  lemma {:induction false} RunKeepsCache(cfg: Config, st: State, ops: seq<Op>)
    requires Cached(st.stock)
    ensures Cached(RunOps(cfg, st, ops).stock)
  {
    if ops != [] {
      RunKeepsCache(cfg, st, ops[..|ops| - 1]);
      StepKeepsCache(cfg, RunOps(cfg, st, ops[..|ops| - 1]), ops[|ops| - 1]);
    }
  }

  // --- what a document appends to the log ---------------------------------------------------------------

  function OutRows(cfg: Config, n: nat, key: Key, segs: seq<Segment>, refType: RefType,
      refId: nat): (rows: seq<Movement>)
    ensures forall m | m in rows :: m.key == key && m.direction == Out && m.refType == refType && m.refId == refId
    ensures (forall s | s in segs :: s.lot.Some?) ==> forall m | m in rows :: m.lot.Some?
    ensures |rows| == |segs| && QtySum(rows) == SegmentQty(segs) && ValueSum(rows) == SegmentValue(segs)
    decreases |segs|
  {
    if segs == [] then []
    else
      var head := Movement(key, segs[0].lot, segs[0].qty, segs[0].unitCost, Out, refType, refId, cfg.stamps(n));
      var rest := OutRows(cfg, n + 1, key, segs[1..], refType, refId);
      assert QtySum([head] + rest) == head.qty + QtySum(rest) by {
        QtySumConcat([head], rest);
        assert [head][..0] == [];
      }
      assert ValueSum([head] + rest) == Amount(head.qty, head.unitCost) + ValueSum(rest) by {
        hide Amount;
        ValueSumConcat([head], rest);
        assert [head][..0] == [];
      }
      [head] + rest
  }

  lemma {:induction false} AppendRow(cfg: Config, st: State, key: Key, lot: Option<nat>, qty: int, unitCost: int,
      direction: Direction,
                  refType: RefType, refId: nat)
    ensures var after := Append(cfg, st, GridPosting(key, lot, qty, unitCost, direction, refType, refId));
            && after.lots == st.lots
            && after.stock.log == st.stock.log
               + [Movement(key, lot, qty, unitCost, direction, refType, refId, cfg.stamps(|st.stock.log|))]
  {
  }

  lemma {:induction false} PostOutsLog(cfg: Config, st: State, key: Key, segs: seq<Segment>, refType: RefType,
      refId: nat)
    ensures var after := PostOuts(cfg, st, key, segs, refType, refId);
            && after.lots == st.lots
            && after.stock.log == st.stock.log + OutRows(cfg, |st.stock.log|, key, segs, refType, refId)
    decreases |segs|
  {
    if segs == [] {
      assert st.stock.log + [] == st.stock.log;
    } else {
      var s := segs[0];
      AppendRow(cfg, st, key, s.lot, s.qty, s.unitCost, Out, refType, refId);
      PostOutsLog(cfg, Append(cfg, st, OutPosting(key, s, refType, refId)), key, segs[1..], refType, refId);
    }
  }

  /** The rows a quantity taken out of stock adds to the log, and what it leaves in the lots. */
  lemma {:induction false} TakeOutLog(cfg: Config, st: State, key: Key, qty: int, refType: RefType, refId: nat)
    returns (added: seq<Movement>)
    ensures var item, lots := cfg.items(key.item), LotsOf(st, key.item);
            var segs := Resolve(item, lots, qty, AtHand(st, key).avgCost);
            && added == OutRows(cfg, |st.stock.log|, key, segs, refType, refId)
            && TakeOut(cfg, st, key, qty, refType, refId).stock.log == st.stock.log + added
            && TakeOut(cfg, st, key, qty, refType, refId).lots
               == if item.costing == Fifo then st.lots[key.item := Consume(lots, qty)] else st.lots
  {
    var item, lots := cfg.items(key.item), LotsOf(st, key.item);
    var segs := Resolve(item, lots, qty, AtHand(st, key).avgCost);
    var taken := if item.costing == Fifo then st.(lots := st.lots[key.item := Consume(lots, qty)]) else st;
    PostOutsLog(cfg, taken, key, segs, refType, refId);
    added := OutRows(cfg, |st.stock.log|, key, segs, refType, refId);
  }

  // --- the services over mutable tables ---------------------------------------------------------------

  /** The movement, balance and lot tables the services insert into and update. */
  class StockTables {
    const cfg: Config
    var movements: seq<Movement>
    var balances: map<Key, Balance>
    var lots: map<nat, seq<Lot>>

    constructor (cfg: Config, st: State)
      ensures this.cfg == cfg && Snapshot() == st
    {
      this.cfg := cfg;
      movements, balances, lots := st.stock.log, st.stock.balances, st.lots;
    }

    ghost function Snapshot(): State
      reads this
    {
      State(Stock(movements, balances), lots)
    }

    method LoadBalance(key: Key) returns (b: Balance)
      ensures b == AtHand(Snapshot(), key)
    {
      if key in balances {
        return balances[key];
      }
      return ZERO_BALANCE;
    }

    /** Insert the movement and upsert the balance; false is the insufficient-stock error. */
    method PostMovement(p: Posting) returns (ok: bool)
      modifies this
      ensures lots == old(lots)
      ensures ok == Post(old(Snapshot()).stock, p, cfg.stamps(|old(movements)|)).Some?
      ensures ok ==> Snapshot().stock == Post(old(Snapshot()).stock, p, cfg.stamps(|old(movements)|)).value
      ensures !ok ==> Snapshot() == old(Snapshot())
      ensures !ok <==> !p.allowNegative && p.direction == Out
                       && AtHand(old(Snapshot()), p.key).onHand as real + p.qty <= -0.5
      ensures ok ==>
                && |movements| == |old(movements)| + 1 && movements[..|old(movements)|] == old(movements)
                && var m := movements[|old(movements)|];
                   && m.key == p.key && m.lot == p.lot && m.direction == p.direction
                   && m.qty == Round(p.qty) && m.unitCost == Round(p.unitCost)
                   && m.refType == p.refType && m.refId == p.refId && m.stamp == cfg.stamps(|old(movements)|)
      ensures forall key | key != p.key :: AtHand(Snapshot(), key) == AtHand(old(Snapshot()), key)
    {
      var before := LoadBalance(p.key);
      var after := Apply(before, p.direction, p.qty, p.unitCost);
      if !p.allowNegative && p.direction == Out && after.onHand < 0 {
        return false;
      }
      movements := movements + [Movement(p.key, p.lot, Round(p.qty), Round(p.unitCost), p.direction,
                                         p.refType, p.refId, cfg.stamps(|movements|))];
      balances := balances[p.key := after];
      ok := true;
    }

    /** Replay the key's movements in `(at, id)` order and overwrite its cached balance. */
    method RebuildBalance(key: Key) returns (balance: Balance)
      modifies this`balances
      ensures balance == Rebuilt(movements, key)
      ensures balances == old(balances)[key := balance]
    {
      hide MovingAverage, Round;
      var rows := OrderByAtId(RowsOf(movements, key));
      balance := ZERO_BALANCE;
      for i := 0 to |rows|
        invariant balances == old(balances) && balance == Fold(rows[..i])
      {
        FoldAppend(rows[..i], rows[i]);
        assert rows[..i + 1] == rows[..i] + [rows[i]];
        balance := Apply(balance, rows[i].direction, rows[i].qty as real, rows[i].unitCost as real);
      }
      assert rows[..|rows|] == rows;
      balances := balances[key := balance];
    }

    method IssueStock(key: Key, qty: int, refType: RefType, refId: nat)
      modifies this
      ensures Snapshot() == TakeOut(cfg, old(Snapshot()), key, qty, refType, refId)
    {
      hide Costed, WithLot;
      var balance := LoadBalance(key);
      var item := cfg.items(key.item);
      var table := new LotTable(if key.item in lots then lots[key.item] else []);
      var segs := table.ResolveIssue(item, qty, balance.avgCost);
      if item.costing == Fifo {
        lots := lots[key.item := table.lots];
      }
      for i := 0 to |segs|
        invariant PostOuts(cfg, Snapshot(), key, segs[i..], refType, refId)
                  == TakeOut(cfg, old(Snapshot()), key, qty, refType, refId)
      {
        assert segs[i..][0] == segs[i] && segs[i..][1..] == segs[i + 1..];
        var ok := PostMovement(OutPosting(key, segs[i], refType, refId));
      }
    }

    /** Post a goods issue; on the first short line the whole transaction rolls back. */
    method PostIssue(lines: seq<IssueLine>, allowNegative: bool, refId: nat) returns (ok: bool)
      modifies this
      ensures Snapshot() == Step(cfg, old(Snapshot()), Issue(lines, allowNegative, refId))
      ensures ok == IssueLines(cfg, old(Snapshot()), lines, allowNegative, refId).Some?
    {
      var before := (movements, balances, lots);
      for i := 0 to |lines|
        invariant IssueLines(cfg, Snapshot(), lines[i..], allowNegative, refId)
                  == IssueLines(cfg, old(Snapshot()), lines, allowNegative, refId)
      {
        assert lines[i..][0] == lines[i] && lines[i..][1..] == lines[i + 1..];
        var key := Key(lines[i].item, cfg.warehouse);
        var balance := LoadBalance(key);
        if !allowNegative && balance.onHand < lines[i].qty {
          movements, balances, lots := before.0, before.1, before.2;
          return false;
        }
        IssueStock(key, lines[i].qty, GoodsIssue, refId);
      }
      ok := true;
    }

    method PostReceipt(lines: seq<ReceiptLine>, refId: nat)
      modifies this
      ensures Snapshot() == Step(cfg, old(Snapshot()), Receive(lines, refId))
    {
      for i := 0 to |lines|
        invariant ReceiveLines(cfg, Snapshot(), lines[i..], refId) == ReceiveLines(cfg, old(Snapshot()), lines, refId)
      {
        assert lines[i..][0] == lines[i] && lines[i..][1..] == lines[i + 1..];
        var line := lines[i];
        var of := if line.item in lots then lots[line.item] else [];
        lots := lots[line.item := WithLot(of, LotOf(line))];
        var ok := PostMovement(GridPosting(Key(line.item, cfg.warehouse), Some(line.lotId), line.qty, line.unitCost,
                                           In, GoodsReceipt, refId));
      }
    }

    method PostAdjustment(lines: seq<StockLine>, refId: nat)
      modifies this
      ensures Snapshot() == Step(cfg, old(Snapshot()), AdjustStock(lines, refId))
    {
      for i := 0 to |lines|
        invariant AdjustLines(cfg, Snapshot(), lines[i..], refId) == AdjustLines(cfg, old(Snapshot()), lines, refId)
      {
        assert lines[i..][0] == lines[i] && lines[i..][1..] == lines[i + 1..];
        var key := lines[i].key;
        var balance := LoadBalance(key);
        var ok := PostMovement(GridPosting(key, None, lines[i].qty, balance.avgCost, Adjust, Adjustment, refId));
      }
    }

    method OnSaleIssued(doc: nat, lines: seq<StockLine>)
      modifies this
      ensures Snapshot() == Step(cfg, old(Snapshot()), Sale(doc, lines))
    {
      if HasMovement(movements, doc, Out) {
        return;
      }
      for i := 0 to |lines|
        invariant TakeOutAll(cfg, Snapshot(), lines[i..], GoodsIssue, doc)
                  == TakeOutAll(cfg, old(Snapshot()), lines, GoodsIssue, doc)
      {
        assert lines[i..][0] == lines[i] && lines[i..][1..] == lines[i + 1..];
        IssueStock(lines[i].key, lines[i].qty, GoodsIssue, doc);
      }
    }

    method OnDocumentVoided(doc: nat)
      modifies this
      ensures Snapshot() == Step(cfg, old(Snapshot()), VoidSale(doc))
    {
      if HasMovement(movements, doc, In) {
        return;
      }
      var outs := OutsOf(movements, doc);
      for i := 0 to |outs|
        invariant PostBack(cfg, Snapshot(), outs[i..], doc) == Compensate(cfg, old(Snapshot()), doc)
      {
        assert outs[i..][0] == outs[i] && outs[i..][1..] == outs[i + 1..];
        var ok := PostMovement(BackPosting(outs[i], doc));
      }
    }
  }
}
