/** The rows each document appends to the log, and what they add up to. */
module StockRows {
  import opened Money
  import opened Optional
  import opened Ledger
  import opened Costing
  import opened Inventory

  /** What a line takes out: FIFO issues nothing for a demand that is not positive. */
  function Demand(cfg: Config, line: StockLine): int {
    if cfg.items(line.key.item).costing == Fifo then Positive(line.qty) else line.qty
  }

  function DemandOf(cfg: Config, lines: seq<StockLine>, key: Key): int {
    if lines == [] then 0
    else (if lines[0].key == key then Demand(cfg, lines[0]) else 0) + DemandOf(cfg, lines[1..], key)
  }

  /** The net quantity the rows move of one item in one warehouse. */
  function NetQty(rows: seq<Movement>, key: Key): int {
    QtySum(RowsOf(rows, key))
  }

  /** Their net value, at their own unit costs, in millionths of money units. */
  function NetValue(rows: seq<Movement>, key: Key): int {
    ValueSum(RowsOf(rows, key))
  }

  lemma {:induction false} NetQtyConcat(a: seq<Movement>, b: seq<Movement>, key: Key)
    ensures NetQty(a + b, key) == NetQty(a, key) + NetQty(b, key)
  {
    RowsOfConcat(a, b, key);
    QtySumConcat(RowsOf(a, key), RowsOf(b, key));
  }

  lemma {:induction false} NetValueConcat(a: seq<Movement>, b: seq<Movement>, key: Key)
    ensures NetValue(a + b, key) == NetValue(a, key) + NetValue(b, key)
  {
    RowsOfConcat(a, b, key);
    ValueSumConcat(RowsOf(a, key), RowsOf(b, key));
  }

  // --- issuing ------------------------------------------------------------------------------------------

  predicate Silent(cfg: Config, line: StockLine) {
    cfg.items(line.key.item).costing == Fifo && line.qty <= 0
  }

  lemma {:induction false} LineRows(cfg: Config, st: State, line: StockLine, refType: RefType, refId: nat)
    returns (added: seq<Movement>)
    ensures TakeOut(cfg, st, line.key, line.qty, refType, refId).stock.log == st.stock.log + added
    ensures forall m | m in added :: OfRef(m, refType, refId) && m.direction == Out && m.key == line.key
    ensures QtySum(added) == -Demand(cfg, line)
    ensures added == [] ==> Silent(cfg, line)
    ensures Silent(cfg, line) ==> added == []
  {
    added := TakeOutLog(cfg, st, line.key, line.qty, refType, refId);
    var item, lots := cfg.items(line.key.item), LotsOf(st, line.key.item);
    var avg := AtHand(st, line.key).avgCost;
    if item.costing == Fifo {
      SegmentsMeetDemand(lots, line.qty, avg);
      if line.qty <= 0 {
        NothingToTake(lots, line.qty, avg);
      }
    } else {
      var segs := Resolve(item, lots, line.qty, avg);
      assert segs[1..] == [];
    }
  }

  /** The rows an issue of these lines appends: OUT rows of the reference, minus the demands, none if all silent. */
  ghost predicate RowsIssued(cfg: Config, lines: seq<StockLine>, refType: RefType, refId: nat, added: seq<Movement>) {
    && (forall m | m in added :: OfRef(m, refType, refId) && m.direction == Out)
    && (forall key :: NetQty(added, key) == -DemandOf(cfg, lines, key))
    && (added == [] <==> forall line | line in lines :: Silent(cfg, line))
  }

  lemma {:induction false} IssueRows(cfg: Config, st: State, lines: seq<StockLine>, refType: RefType, refId: nat)
    returns (added: seq<Movement>)
    ensures TakeOutAll(cfg, st, lines, refType, refId).stock.log == st.stock.log + added
    ensures RowsIssued(cfg, lines, refType, refId, added)
    decreases |lines|
  {
    if lines == [] {
      hide TakeOut;
      added := [];
      assert st.stock.log + [] == st.stock.log;
    } else {
      var first := LineRows(cfg, st, lines[0], refType, refId);
      hide TakeOut, RowsIssued, Silent, Demand, NetQty, QtySum, OfRef;
      var after := TakeOut(cfg, st, lines[0].key, lines[0].qty, refType, refId);
      var rest := IssueRows(cfg, after, lines[1..], refType, refId);
      added := first + rest;
      Appended(st.stock.log, first, rest);
      MoreIssued(cfg, lines, refType, refId, first, rest);
    }
  }

  lemma {:induction false} Appended(log: seq<Movement>, first: seq<Movement>, rest: seq<Movement>)
    ensures log + first + rest == log + (first + rest)
  {
  }

  lemma {:induction false} MoreIssued(cfg: Config, lines: seq<StockLine>, refType: RefType, refId: nat,
      first: seq<Movement>, rest: seq<Movement>)
    requires lines != [] && QtySum(first) == -Demand(cfg, lines[0]) && (first == [] <==> Silent(cfg, lines[0]))
    requires forall m | m in first :: OfRef(m, refType, refId) && m.direction == Out && m.key == lines[0].key
    requires RowsIssued(cfg, lines[1..], refType, refId, rest)
    ensures RowsIssued(cfg, lines, refType, refId, first + rest)
  {
    IssueTotals(cfg, first, rest, lines);
    hide Silent, Demand, DemandOf, NetQty, QtySum, OfRef;
    assert lines == [lines[0]] + lines[1..];
  }

  lemma {:induction false} IssueTotals(cfg: Config, first: seq<Movement>, rest: seq<Movement>, lines: seq<StockLine>)
    requires lines != [] && QtySum(first) == -Demand(cfg, lines[0])
    requires forall m | m in first :: m.key == lines[0].key
    requires forall key :: NetQty(rest, key) == -DemandOf(cfg, lines[1..], key)
    ensures forall key :: NetQty(first + rest, key) == -DemandOf(cfg, lines, key)
  {
    forall key ensures NetQty(first + rest, key) == -DemandOf(cfg, lines, key) {
      NetQtyConcat(first, rest, key);
      RowsOfUniform(first, lines[0].key, key);
    }
  }

  // --- when an issue succeeds ---------------------------------------------------------------------------

  lemma {:induction false} PostOutsOnHand(cfg: Config, st: State, key: Key, segs: seq<Segment>, refType: RefType,
      refId: nat, k: Key)
    ensures AtHand(PostOuts(cfg, st, key, segs, refType, refId), k).onHand
            == AtHand(st, k).onHand + if k == key then SegmentQty(segs) else 0
    decreases |segs|
  {
    if segs != [] {
      var p := OutPosting(key, segs[0], refType, refId);
      RoundOnGrid(AtHand(st, key).onHand + segs[0].qty);
      PostOutsOnHand(cfg, Append(cfg, st, p), key, segs[1..], refType, refId, k);
    }
  }

  /** What is taken out lowers what is on hand, under every costing method. */
  lemma {:induction false} TakeOutOnHand(cfg: Config, st: State, key: Key, qty: int, refType: RefType, refId: nat,
      k: Key)
    ensures AtHand(TakeOut(cfg, st, key, qty, refType, refId), k).onHand
            == AtHand(st, k).onHand - if k == key then Demand(cfg, StockLine(key, qty)) else 0
  {
    var item, lots, avg := cfg.items(key.item), LotsOf(st, key.item), AtHand(st, key).avgCost;
    var taken := if item.costing == Fifo then st.(lots := st.lots[key.item := Consume(lots, qty)]) else st;
    var segs := Resolve(item, lots, qty, avg);
    PostOutsOnHand(cfg, taken, key, segs, refType, refId, k);
    if item.costing == Fifo {
      SegmentsMeetDemand(lots, qty, avg);
    } else {
      assert segs[1..] == [];
    }
    hide PostOuts, Consume, Segments;
  }

  function InDefault(cfg: Config, lines: seq<IssueLine>): (stock: seq<StockLine>)
    ensures |stock| == |lines|
  {
    seq(|lines|, i requires 0 <= i < |lines| => StockLine(Key(lines[i].item, cfg.warehouse), lines[i].qty))
  }

  /** What the earlier lines leave on hand is enough for the `i`-th. */
  predicate Enough(cfg: Config, st: State, lines: seq<IssueLine>, i: nat)
    requires i < |lines|
  {
    var key := Key(lines[i].item, cfg.warehouse);
    AtHand(st, key).onHand - DemandOf(cfg, InDefault(cfg, lines[..i]), key) >= lines[i].qty
  }

  lemma {:induction false} EnoughLater(cfg: Config, st: State, next: State, lines: seq<IssueLine>)
    requires lines != []
    requires forall k :: AtHand(next, k).onHand
                         == AtHand(st, k).onHand - if k == Key(lines[0].item, cfg.warehouse)
                                                   then Demand(cfg, StockLine(k, lines[0].qty)) else 0
    ensures Enough(cfg, st, lines, 0) <==> AtHand(st, Key(lines[0].item, cfg.warehouse)).onHand >= lines[0].qty
    ensures forall i | 0 <= i < |lines| - 1 :: Enough(cfg, next, lines[1..], i) <==> Enough(cfg, st, lines, i + 1)
    ensures forall k :: AtHand(next, k).onHand - DemandOf(cfg, InDefault(cfg, lines[1..]), k)
                        == AtHand(st, k).onHand - DemandOf(cfg, InDefault(cfg, lines), k)
  {
    hide AtHand, Demand;
    assert InDefault(cfg, lines)[1..] == InDefault(cfg, lines[1..]);
    forall i | 0 <= i < |lines| - 1
      ensures Enough(cfg, next, lines[1..], i) <==> Enough(cfg, st, lines, i + 1)
    {
      assert lines[1..][..i] == lines[..i + 1][1..];
      assert InDefault(cfg, lines[..i + 1])[1..] == InDefault(cfg, lines[1..][..i]);
    }
  }

  /**
   An issue succeeds if and only if negative stock is allowed or the earlier lines leave every line enough,
   exactly enough included; and then it takes its lines, no more and no less, under every costing method.
   */
  lemma {:induction false} IssueSucceedsExactlyWhen(cfg: Config, st: State, lines: seq<IssueLine>,
      allowNegative: bool, refId: nat)
    ensures var posted := IssueLines(cfg, st, lines, allowNegative, refId);
            && (posted.Some? <==> allowNegative || forall i | 0 <= i < |lines| :: Enough(cfg, st, lines, i))
            && (posted.Some? ==>
                  forall key :: AtHand(posted.value, key).onHand
                                == AtHand(st, key).onHand - DemandOf(cfg, InDefault(cfg, lines), key))
    decreases |lines|
  {
    hide TakeOut, AtHand, Demand;
    if lines != [] {
      var key := Key(lines[0].item, cfg.warehouse);
      var next := TakeOut(cfg, st, key, lines[0].qty, GoodsIssue, refId);
      forall k {
        TakeOutOnHand(cfg, st, key, lines[0].qty, GoodsIssue, refId, k);
      }
      EnoughLater(cfg, st, next, lines);
      IssueSucceedsExactlyWhen(cfg, next, lines[1..], allowNegative, refId);
      hide Enough, DemandOf, InDefault;
      AllEnough(cfg, st, next, lines);
    }
  }

  lemma {:induction false} AllEnough(cfg: Config, st: State, next: State, lines: seq<IssueLine>)
    requires lines != []
    requires forall i | 0 <= i < |lines| - 1 :: Enough(cfg, next, lines[1..], i) <==> Enough(cfg, st, lines, i + 1)
    ensures (forall i | 0 <= i < |lines| :: Enough(cfg, st, lines, i))
       <==> Enough(cfg, st, lines, 0) && forall i | 0 <= i < |lines| - 1 :: Enough(cfg, next, lines[1..], i)
  {
    hide Enough;
    if Enough(cfg, st, lines, 0) && forall i | 0 <= i < |lines| - 1 :: Enough(cfg, next, lines[1..], i) {
      forall i | 0 <= i < |lines| ensures Enough(cfg, st, lines, i) {
        if i > 0 {
          assert Enough(cfg, next, lines[1..], i - 1);
        }
      }
    }
  }

  // --- compensating -------------------------------------------------------------------------------------

  lemma {:induction false} BackRows(cfg: Config, st: State, outs: seq<Movement>, doc: nat)
    returns (added: seq<Movement>)
    ensures PostBack(cfg, st, outs, doc).stock.log == st.stock.log + added
    ensures |added| == |outs| && forall m | m in added :: OfDocument(m, doc) && m.direction == In
    ensures forall i | 0 <= i < |outs| ::
              && added[i].key == outs[i].key && added[i].lot == outs[i].lot
              && added[i].qty == -outs[i].qty && added[i].unitCost == outs[i].unitCost
    ensures forall key :: NetQty(added, key) == -NetQty(outs, key) && NetValue(added, key) == -NetValue(outs, key)
    ensures ValueSum(added) == -ValueSum(outs)
    decreases |outs|
  {
    if outs == [] {
      added := [];
      assert st.stock.log + [] == st.stock.log;
    } else {
      var out := outs[0];
      var head := BackRow(cfg, st, out, doc);
      hide Append, NetQty, NetValue, ValueSum, BackPosting;
      var rest := BackRows(cfg, Append(cfg, st, BackPosting(out, doc)), outs[1..], doc);
      added := [head] + rest;
      Appended(st.stock.log, [head], rest);
      BackTotals(head, rest, out, outs[1..]);
      assert outs == [out] + outs[1..];
    }
  }

  lemma {:induction false} BackRow(cfg: Config, st: State, out: Movement, doc: nat) returns (row: Movement)
    ensures Append(cfg, st, BackPosting(out, doc)).stock.log == st.stock.log + [row]
    ensures OfDocument(row, doc) && row.direction == In
    ensures row.key == out.key && row.lot == out.lot && row.qty == -out.qty && row.unitCost == out.unitCost
  {
    AppendRow(cfg, st, out.key, out.lot, -out.qty, out.unitCost, In, GoodsIssue, doc);
    row := Movement(out.key, out.lot, -out.qty, out.unitCost, In, GoodsIssue, doc, cfg.stamps(|st.stock.log|));
    hide Append;
  }

  lemma {:induction false} BackTotals(head: Movement, rest: seq<Movement>, out: Movement, outs: seq<Movement>)
    requires head.key == out.key && head.qty == -out.qty && head.unitCost == out.unitCost
    requires ValueSum(rest) == -ValueSum(outs)
    requires forall key :: NetQty(rest, key) == -NetQty(outs, key) && NetValue(rest, key) == -NetValue(outs, key)
    ensures ValueSum([head] + rest) == -ValueSum([out] + outs)
    ensures forall key ::
              && NetQty([head] + rest, key) == -NetQty([out] + outs, key)
              && NetValue([head] + rest, key) == -NetValue([out] + outs, key)
  {
    hide Amount, RowsOf;
    assert [head][..0] == [] && [out][..0] == [];
    ValueSumConcat([head], rest);
    ValueSumConcat([out], outs);
    AmountAdd(head.qty, out.qty, out.unitCost);
    forall key
      ensures NetQty([head] + rest, key) == -NetQty([out] + outs, key)
      ensures NetValue([head] + rest, key) == -NetValue([out] + outs, key)
    {
      hide ValueSum, NetQty, NetValue;
      NetQtyConcat([head], rest, key);
      NetQtyConcat([out], outs, key);
      NetQtyOfOne(head, key);
      NetQtyOfOne(out, key);
      NetValueConcat([head], rest, key);
      NetValueConcat([out], outs, key);
      NetValueOfOne(head, key);
      NetValueOfOne(out, key);
    }
  }

  lemma {:induction false} NetQtyOfOne(m: Movement, key: Key)
    ensures NetQty([m], key) == if m.key == key then m.qty else 0
  {
    RowsOfUniform([m], m.key, key);
    assert [m][..|[m]| - 1] == [];
    assert QtySum([]) == 0;
  }

  lemma {:induction false} NetValueOfOne(m: Movement, key: Key)
    ensures NetValue([m], key) == if m.key == key then Amount(m.qty, m.unitCost) else 0
  {
    hide Amount;
    RowsOfUniform([m], m.key, key);
    assert [m][..|[m]| - 1] == [];
    assert ValueSum([]) == 0;
  }

  // --- receiving ----------------------------------------------------------------------------------------

  /** A receipt appends one IN per line, of its quantity at its unit cost. */
  lemma {:induction false} ReceiptRows(cfg: Config, st: State, lines: seq<ReceiptLine>, refId: nat)
    returns (added: seq<Movement>)
    ensures ReceiveLines(cfg, st, lines, refId).stock.log == st.stock.log + added
    ensures |added| == |lines|
    ensures forall i | 0 <= i < |lines| ::
              && OfRef(added[i], GoodsReceipt, refId) && added[i].direction == In
              && added[i].key == Key(lines[i].item, cfg.warehouse) && added[i].lot == Some(lines[i].lotId)
              && added[i].qty == lines[i].qty && added[i].unitCost == lines[i].unitCost
    decreases |lines|
  {
    if lines == [] {
      added := [];
      assert st.stock.log + [] == st.stock.log;
    } else {
      var head := ReceivedRow(cfg, st, lines[0], refId);
      hide ReceiveLine;
      var rest := ReceiptRows(cfg, ReceiveLine(cfg, st, lines[0], refId), lines[1..], refId);
      added := [head] + rest;
      Appended(st.stock.log, [head], rest);
    }
  }

  lemma {:induction false} ReceivedRow(cfg: Config, st: State, line: ReceiptLine, refId: nat) returns (row: Movement)
    ensures ReceiveLine(cfg, st, line, refId).stock.log == st.stock.log + [row]
    ensures row == Movement(Key(line.item, cfg.warehouse), Some(line.lotId), line.qty, line.unitCost, In,
                            GoodsReceipt, refId, cfg.stamps(|st.stock.log|))
  {
    var key := Key(line.item, cfg.warehouse);
    AppendRow(cfg, LotAdded(st, line), key, Some(line.lotId), line.qty, line.unitCost, In, GoodsReceipt, refId);
    row := Movement(key, Some(line.lotId), line.qty, line.unitCost, In, GoodsReceipt, refId,
                    cfg.stamps(|st.stock.log|));
    hide Append;
  }

  // --- everything else stays ----------------------------------------------------------------------------

  /** The operation posts movements of this reference. */
  predicate Writes(op: Op, refType: RefType, ref: nat) {
    match op
    case Issue(_, _, refId) => refType == GoodsIssue && ref == refId
    case Receive(_, refId) => refType == GoodsReceipt && ref == refId
    case AdjustStock(_, refId) => refType == Adjustment && ref == refId
    case Sale(doc, _) => refType == GoodsIssue && ref == doc
    case VoidSale(doc) => refType == GoodsIssue && ref == doc
  }

  lemma {:induction false} IssueElsewhere(cfg: Config, st: State, lines: seq<IssueLine>, allowNegative: bool,
      refId: nat,
                                          refType: RefType, ref: nat)
    requires !(refType == GoodsIssue && ref == refId)
    ensures var posted := IssueLines(cfg, st, lines, allowNegative, refId);
            posted.Some? ==> RefRows(posted.value.stock.log, refType, ref) == RefRows(st.stock.log, refType, ref)
    decreases |lines|
  {
    if lines != [] {
      var key := Key(lines[0].item, cfg.warehouse);
      var added := TakeOutLog(cfg, st, key, lines[0].qty, GoodsIssue, refId);
      hide TakeOut;
      RefRowsGrow(st.stock.log, added, refType, ref, false);
      var after := TakeOut(cfg, st, key, lines[0].qty, GoodsIssue, refId);
      IssueElsewhere(cfg, after, lines[1..], allowNegative, refId, refType, ref);
    }
  }

  lemma {:induction false} ReceiveElsewhere(cfg: Config, st: State, lines: seq<ReceiptLine>, refId: nat,
      refType: RefType, ref: nat)
    requires !(refType == GoodsReceipt && ref == refId)
    ensures RefRows(ReceiveLines(cfg, st, lines, refId).stock.log, refType, ref) == RefRows(st.stock.log, refType, ref)
  {
    var added := ReceiptRows(cfg, st, lines, refId);
    RefRowsGrow(st.stock.log, added, refType, ref, false);
  }

  lemma {:induction false} AdjustElsewhere(cfg: Config, st: State, lines: seq<StockLine>, refId: nat,
      refType: RefType, ref: nat)
    requires !(refType == Adjustment && ref == refId)
    ensures RefRows(AdjustLines(cfg, st, lines, refId).stock.log, refType, ref) == RefRows(st.stock.log, refType, ref)
    decreases |lines|
  {
    if lines != [] {
      var k, avg := lines[0].key, AtHand(st, lines[0].key).avgCost;
      AppendRow(cfg, st, k, None, lines[0].qty, avg, Adjust, Adjustment, refId);
      hide Append;
      var m := Movement(k, None, lines[0].qty, avg, Adjust, Adjustment, refId, cfg.stamps(|st.stock.log|));
      RefRowsGrow(st.stock.log, [m], refType, ref, false);
      AdjustElsewhere(cfg, Append(cfg, st, GridPosting(k, None, lines[0].qty, avg, Adjust, Adjustment, refId)),
                      lines[1..], refId, refType, ref);
    }
  }

  /** An operation leaves the movements of every reference it does not write. */
  lemma {:induction false} StepElsewhere(cfg: Config, st: State, op: Op, refType: RefType, ref: nat)
    requires !Writes(op, refType, ref)
    ensures RefRows(Step(cfg, st, op).stock.log, refType, ref) == RefRows(st.stock.log, refType, ref)
  {
    hide IssueLines, ReceiveLines, AdjustLines, RefRows;
    match op
    case Issue(lines, allowNegative, refId) => IssueElsewhere(cfg, st, lines, allowNegative, refId, refType, ref);
    case Receive(lines, refId) => ReceiveElsewhere(cfg, st, lines, refId, refType, ref);
    case AdjustStock(lines, refId) => AdjustElsewhere(cfg, st, lines, refId, refType, ref);
    case Sale(doc, lines) =>
      var added := IssueRows(cfg, st, lines, GoodsIssue, doc);
      RefRowsGrow(st.stock.log, added, refType, ref, false);
    case VoidSale(doc) =>
      var added := BackRows(cfg, st, OutsOf(st.stock.log, doc), doc);
      RefRowsGrow(st.stock.log, added, refType, ref, false);
  }
}
