/**
 The stock effect of a sales document under redelivered events
 (`apps/api/src/inventory/sales-stock.subscriber.ts`).
 */
module SalesStock {
  import opened Money
  import opened Optional
  import opened Ledger
  import opened Costing
  import opened Inventory
  import opened StockRows
  import W = WorkOrders

  /** The document's movements, in log order. */
  function DocRows(log: seq<Movement>, doc: nat): seq<Movement> {
    RefRows(log, GoodsIssue, doc)
  }

  lemma {:induction false} OutsAreDocRows(log: seq<Movement>, doc: nat)
    requires forall m | m in DocRows(log, doc) :: m.direction == Out
    ensures OutsOf(log, doc) == DocRows(log, doc)
  {
    if log != [] {
      var n := |log| - 1;
      assert forall m | m in DocRows(log[..n], doc) :: m in DocRows(log, doc);
      assert OfDocument(log[n], doc) ==> log[n] in DocRows(log, doc);
      OutsAreDocRows(log[..n], doc);
    }
  }

  /** The document's life as delivered so far: issued, and voided after that. */
  datatype Phase = Pending | Issued | Voided

  /** What one delivery does to the phase. */
  function NextPhase(phase: Phase, e: W.Event, doc: nat): Phase {
    if e.Document? && e.op.Sale? && e.op.doc == doc && phase == Pending then Phase.Issued
    else if e == W.Document(VoidSale(doc)) && phase == Phase.Issued then Voided
    else phase
  }

  function PhaseAfter(events: seq<W.Event>, doc: nat): Phase {
    if events == [] then Pending else NextPhase(PhaseAfter(events[..|events| - 1], doc), events[|events| - 1], doc)
  }

  /** Every delivery of the document carries its lines; a goods issue never shares its id. */
  ghost predicate Wellformed(events: seq<W.Event>, doc: nat, lines: seq<StockLine>) {
    forall e | e in events && e.Document? ::
      && (e.op.Sale? && e.op.doc == doc ==> e.op.sold == lines)
      && (e.op.Issue? ==> e.op.refId != doc)
  }

  ghost predicate PhaseHolds(cfg: Config, rows: seq<Movement>, lines: seq<StockLine>, phase: Phase) {
    match phase
    case Pending => rows == []
    case Issued =>
      && (forall m | m in rows :: m.direction == Out)
      && (forall key :: NetQty(rows, key) == -DemandOf(cfg, lines, key))
      && (rows == [] ==> forall line | line in lines :: Silent(cfg, line))
    case Voided =>
      && (forall key :: NetQty(rows, key) == 0 && NetValue(rows, key) == 0) && ValueSum(rows) == 0
      && (rows == [] ==> forall line | line in lines :: Silent(cfg, line))
      && (rows != [] ==> (exists m | m in rows :: m.direction == Out) && (exists m | m in rows :: m.direction == In))
  }

  lemma {:induction false} HasMovementInRows(log: seq<Movement>, doc: nat, direction: Direction)
    ensures HasMovement(log, doc, direction) <==> exists m | m in DocRows(log, doc) :: m.direction == direction
  {
    forall m: Movement ensures m in DocRows(log, doc) <==> m in log && OfDocument(m, doc) {
      RefRowsMembers(log, GoodsIssue, doc, m);
    }
  }

  lemma {:induction false} SaleDelivered(cfg: Config, st: State, doc: nat, lines: seq<StockLine>, phase: Phase)
    requires PhaseHolds(cfg, DocRows(st.stock.log, doc), lines, phase)
    ensures PhaseHolds(cfg, DocRows(IssueForSale(cfg, st, doc, lines).stock.log, doc), lines,
                       if phase == Pending then Phase.Issued else phase)
  {
    var rows := DocRows(st.stock.log, doc);
    HasMovementInRows(st.stock.log, doc, Out);
    if rows != [] {
      assert rows[0] in rows;
    }
    if !HasMovement(st.stock.log, doc, Out) {
      var added := IssueRows(cfg, st, lines, GoodsIssue, doc);
      RefRowsGrow(st.stock.log, added, GoodsIssue, doc, true);
      assert rows + added == added;
    }
  }

  lemma {:induction false} VoidDelivered(cfg: Config, st: State, doc: nat, lines: seq<StockLine>, phase: Phase)
    requires PhaseHolds(cfg, DocRows(st.stock.log, doc), lines, phase)
    ensures PhaseHolds(cfg, DocRows(Compensate(cfg, st, doc).stock.log, doc), lines,
                       if phase == Phase.Issued then Voided else phase)
  {
    var rows := DocRows(st.stock.log, doc);
    HasMovementInRows(st.stock.log, doc, In);
    hide NetQty, NetValue, ValueSum, HasMovement, DemandOf, Silent, RefRows, OutsOf, Amount;
    if !HasMovement(st.stock.log, doc, In) {
      assert phase == Voided ==> rows == [];
      OutsAreDocRows(st.stock.log, doc);
      var added := BackRows(cfg, st, rows, doc);
      RefRowsGrow(st.stock.log, added, GoodsIssue, doc, true);
      Cancelled(cfg, rows, added, lines, phase);
    }
  }

  lemma {:induction false} Cancelled(cfg: Config, rows: seq<Movement>, added: seq<Movement>, lines: seq<StockLine>,
      phase: Phase)
    requires PhaseHolds(cfg, rows, lines, phase) && (phase != Phase.Issued ==> rows == [])
    requires |added| == |rows| && (forall m | m in added :: m.direction == In)
    requires forall key :: NetQty(added, key) == -NetQty(rows, key) && NetValue(added, key) == -NetValue(rows, key)
    requires ValueSum(added) == -ValueSum(rows)
    ensures PhaseHolds(cfg, rows + added, lines, if phase == Phase.Issued then Voided else phase)
  {
    hide NetQty, NetValue, ValueSum, DemandOf, Silent;
    ValueSumConcat(rows, added);
    forall key ensures NetQty(rows + added, key) == NetValue(rows + added, key) == 0 {
      NetQtyConcat(rows, added, key);
      NetValueConcat(rows, added, key);
    }
    if rows == [] {
      assert rows + added == rows;
    } else {
      assert rows[0] in rows + added && added[0] in rows + added;
    }
  }

  lemma {:induction false} DocumentDelivered(cfg: Config, st: State, op: Op, doc: nat, lines: seq<StockLine>,
      phase: Phase)
    requires PhaseHolds(cfg, DocRows(st.stock.log, doc), lines, phase)
    requires (op.Sale? && op.doc == doc ==> op.sold == lines) && (op.Issue? ==> op.refId != doc)
    ensures PhaseHolds(cfg, DocRows(Step(cfg, st, op).stock.log, doc), lines, NextPhase(phase, W.Document(op), doc))
  {
    hide PhaseHolds, IssueForSale, Compensate, IssueLines, ReceiveLines, AdjustLines, RefRows;
    if !Writes(op, GoodsIssue, doc) {
      StepElsewhere(cfg, st, op, GoodsIssue, doc);
    } else if op.Sale? {
      SaleDelivered(cfg, st, doc, lines, phase);
    } else {
      VoidDelivered(cfg, st, doc, lines, phase);
    }
  }

  lemma {:induction false} EventDelivered(cfg: Config, plant: W.Plant, st: State, e: W.Event, doc: nat,
      lines: seq<StockLine>, phase: Phase)
    requires PhaseHolds(cfg, DocRows(st.stock.log, doc), lines, phase) && Wellformed([e], doc, lines)
    ensures PhaseHolds(cfg, DocRows(W.Next(cfg, plant, st, e).stock.log, doc), lines, NextPhase(phase, e, doc))
  {
    hide PhaseHolds, Step, W.Complete, RefRows;
    assert e in [e];
    match e
    case Completed(c) => W.CompletesElsewhere(cfg, plant, st, c, GoodsIssue, doc);
    case Document(op) => DocumentDelivered(cfg, st, op, doc, lines, phase);
  }

  /**
   Whatever is delivered, how often and in what interleaving, backflushes included: nothing before the first
   issue, exactly minus the lines after it, and exactly zero, in quantity and value of every item in every
   warehouse, from the void on.
   */
  lemma {:induction false} ExactlyOnce(cfg: Config, plant: W.Plant, st: State, events: seq<W.Event>, doc: nat,
      lines: seq<StockLine>)
    requires Wellformed(events, doc, lines) && DocRows(st.stock.log, doc) == []
    ensures PhaseHolds(cfg, DocRows(W.After(cfg, plant, st, events).stock.log, doc), lines, PhaseAfter(events, doc))
  {
    if events != [] {
      var n := |events| - 1;
      assert events[n] in events;
      ExactlyOnce(cfg, plant, st, events[..n], doc, lines);
      hide PhaseHolds, W.Next, DocRows;
      var before := W.After(cfg, plant, st, events[..n]);
      EventDelivered(cfg, plant, before, events[n], doc, lines, PhaseAfter(events[..n], doc));
    }
  }
}
