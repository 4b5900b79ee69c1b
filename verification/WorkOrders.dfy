/**
 Backflush on a completed work order (`apps/api/src/inventory/backflush.service.ts`): the finished goods
 come in at their rolled-up cost and the materials go out, once per work order.
 */
module WorkOrders {
  import opened Money
  import opened Optional
  import opened Ledger
  import opened Costing
  import opened Inventory
  import opened StockRows
  import opened Bom
  import opened UnitConversion

  /** Each produced item's active recipe, and the registered units. */
  datatype Plant = Plant(boms: Recipes, units: Units)

  /** A completed work order as delivered. */
  datatype Completion = Completion(wo: nat, item: nat, warehouse: nat, qtyProduced: int)

  /** What it posts: the finished goods at a unit cost, and the materials in base units. */
  datatype Order = Order(wo: nat, finished: Key, qty: int, unitCost: int, materials: seq<StockLine>)

  /** The average on hand when it is positive, else the standard cost. */
  function FlatCost(items: nat -> Item, balances: map<Key, Balance>, item: nat, warehouse: nat): int {
    var key := Key(item, warehouse);
    if key in balances && balances[key].avgCost > 0 then balances[key].avgCost else items(item).standardCost
  }

  /** Quantity per unit, with scrap, times the quantity produced, rounded once. */
  function Consumed(line: Component, produced: int): int {
    Round((line.qty * (1000000 + line.scrap) * produced) as real / (SCALE6 * SCALE6))
  }

  /** What the recipe's lines need for the quantity produced, each in the line's unit. */
  function Needs(lines: seq<Component>, produced: int): (needs: seq<DocLine>)
    ensures |needs| == |lines|
  {
    seq(|lines|, i requires 0 <= i < |lines| =>
      DocLine(lines[i].item, Some(lines[i].unit), Consumed(lines[i], produced)))
  }

  function InWarehouse(lines: seq<Component>, warehouse: nat, qtys: seq<int>): (materials: seq<StockLine>)
    requires |qtys| == |lines|
    ensures |materials| == |lines|
  {
    seq(|lines|, i requires 0 <= i < |lines| => StockLine(Key(lines[i].item, warehouse), qtys[i]))
  }

  /** The material issues in base units, or the failure of the first line without a conversion. */
  function Materials(units: Units, lines: seq<Component>, c: Completion): Result<seq<StockLine>, Failure> {
    match AllToBase(units, Needs(lines, c.qtyProduced))
    case Err(e) => Err(e)
    case Ok(qtys) => Ok(InWarehouse(lines, c.warehouse, qtys))
  }

  /** With a recipe the finished goods come in at its roll-up, at the costs of the default warehouse. */
  function OrderOf(cfg: Config, plant: Plant, st: State, c: Completion): Result<Order, Failure> {
    var balances := st.stock.balances;
    var key := Key(c.item, c.warehouse);
    if c.item in plant.boms then
      var flat := (item: nat) => FlatCost(cfg.items, balances, item, cfg.warehouse);
      match Materials(plant.units, plant.boms[c.item].lines, c)
      case Err(e) => Err(e)
      case Ok(materials) => Ok(Order(c.wo, key, c.qtyProduced, CostOf(plant.boms, flat, c.item, {}), materials))
    else Ok(Order(c.wo, key, c.qtyProduced, FlatCost(cfg.items, balances, c.item, c.warehouse), []))
  }

  /** Every line of the recipe converts: the one thing, readable beforehand, that a backflush can fail for. */
  predicate Postable(plant: Plant, c: Completion) {
    c.item in plant.boms ==>
      forall need | need in Needs(plant.boms[c.item].lines, c.qtyProduced) :: ToBase(plant.units, need).Ok?
  }

  /** What a line consumes: its quantity with scrap on top, times the quantity produced, rounded once. */
  lemma {:induction false} ConsumedMeans(line: Component, produced: int)
    ensures Nearest(line.qty * (1000000 + line.scrap) * produced, 1000000 * 1000000, Consumed(line, produced))
  {
    RoundIsNearest(line.qty * (1000000 + line.scrap) * produced, 1000000 * 1000000);
    hide Nearest, Round;
  }

  /**
   What a completed work order posts: the quantity produced comes in at the flat cost of an item without a
   recipe - its average when that is positive, else its standard cost - and otherwise at whatever solves the
   cost equations over the default warehouse's flat costs; and each recipe line goes out in base units.
   */
  ghost predicate IsOrderOf(cfg: Config, plant: Plant, st: State, c: Completion, o: Order) {
    && o.wo == c.wo && o.finished == Key(c.item, c.warehouse) && o.qty == c.qtyProduced
    && (c.item !in plant.boms ==> o.materials == [] && IsFlatCost(cfg, st, c.item, c.warehouse, o.unitCost))
    && (c.item in plant.boms ==>
          && (forall i | 0 <= i < |plant.boms[c.item].lines| ::
                |o.materials| == |plant.boms[c.item].lines|
                && IsMaterial(plant.units, plant.boms[c.item].lines[i], c, o.materials[i]))
          && (|plant.boms[c.item].lines| == 0 ==> o.materials == [])
          && (Acyclic(plant.boms) ==>
                forall flat: nat -> int, cost: nat -> int |
                  && (forall item :: IsFlatCost(cfg, st, item, cfg.warehouse, flat(item)))
                  && Solves(plant.boms, flat, cost) ::
                  o.unitCost == cost(c.item)))
  }

  /** The average at the warehouse when it is positive, else the item's standard cost. */
  ghost predicate IsFlatCost(cfg: Config, st: State, item: nat, warehouse: nat, cost: int) {
    var avg := AtHand(st, Key(item, warehouse)).avgCost;
    cost == if avg > 0 then avg else cfg.items(item).standardCost
  }

  ghost predicate IsMaterial(units: Units, line: Component, c: Completion, material: StockLine) {
    && material.key == Key(line.item, c.warehouse)
    && exists consumed ::
         && Nearest(line.qty * (1000000 + line.scrap) * c.qtyProduced, 1000000 * 1000000, consumed)
         && ToBase(units, DocLine(line.item, Some(line.unit), consumed)) == Ok(material.qty)
  }

  lemma {:induction false} MaterialMeans(units: Units, lines: seq<Component>, c: Completion, i: nat)
    requires Materials(units, lines, c).Ok? && i < |lines|
    ensures |Materials(units, lines, c).value| == |lines|
    ensures IsMaterial(units, lines[i], c, Materials(units, lines, c).value[i])
  {
    ConsumedMeans(lines[i], c.qtyProduced);
    hide Nearest, Consumed, ToBase;
    var needs := Needs(lines, c.qtyProduced);
    assert needs[i] == DocLine(lines[i].item, Some(lines[i].unit), Consumed(lines[i], c.qtyProduced));
  }

  lemma {:induction false} FlatCostsAgree(cfg: Config, st: State, flat: nat -> int, mine: nat -> int)
    requires forall item :: IsFlatCost(cfg, st, item, cfg.warehouse, flat(item))
    requires mine == ((item: nat) => FlatCost(cfg.items, st.stock.balances, item, cfg.warehouse))
    ensures forall item :: flat(item) == mine(item)
  {
    forall item: nat ensures flat(item) == mine(item) {
      assert IsFlatCost(cfg, st, item, cfg.warehouse, flat(item));
    }
  }

  /** Equal flat costs give equal equations, so the roll-up is the value of every solution. */
  lemma {:induction false} RollUpIsSolution(boms: Recipes, flat: nat -> int, mine: nat -> int, cost: nat -> int,
      item: nat)
    requires Acyclic(boms) && Solves(boms, flat, cost) && forall i :: flat(i) == mine(i)
    ensures CostOf(boms, mine, item, {}) == cost(item)
  {
    forall i: nat ensures cost(i) == if i in boms then boms[i].conversion + LinesAt(boms[i].lines, cost) else mine(i) {
      assert flat(i) == mine(i);
    }
    assert Solves(boms, mine, cost);
    assert Fresh(boms, item, {});
    GuardIsInert(boms, mine, cost, item, {});
  }

  lemma {:induction false} OrderIsRight(cfg: Config, plant: Plant, st: State, c: Completion)
    requires OrderOf(cfg, plant, st, c).Ok?
    ensures IsOrderOf(cfg, plant, st, c, OrderOf(cfg, plant, st, c).value)
  {
    var o := OrderOf(cfg, plant, st, c).value;
    if c.item in plant.boms {
      var lines := plant.boms[c.item].lines;
      var mine := (item: nat) => FlatCost(cfg.items, st.stock.balances, item, cfg.warehouse);
      assert o.unitCost == CostOf(plant.boms, mine, c.item, {});
      hide CostOf, Acyclic, Solves, IsMaterial, FlatCost;
      forall i | 0 <= i < |lines|
        ensures |o.materials| == |lines| && IsMaterial(plant.units, lines[i], c, o.materials[i])
      {
        MaterialMeans(plant.units, lines, c, i);
      }
      if Acyclic(plant.boms) {
        forall flat: nat -> int, cost: nat -> int |
            (forall item :: IsFlatCost(cfg, st, item, cfg.warehouse, flat(item))) && Solves(plant.boms, flat, cost)
          ensures o.unitCost == cost(c.item)
        {
          FlatCostsAgree(cfg, st, flat, mine);
          RollUpIsSolution(plant.boms, flat, mine, cost, c.item);
        }
      }
    }
  }

  predicate HasBackflush(log: seq<Movement>, wo: nat) {
    exists m | m in log :: OfRef(m, Backflush, wo)
  }

  function FinishedIn(o: Order): Posting {
    GridPosting(o.finished, None, o.qty, o.unitCost, In, Backflush, o.wo)
  }

  function PostOrder(cfg: Config, st: State, o: Order): State {
    TakeOutAll(cfg, Append(cfg, st, FinishedIn(o)), o.materials, Backflush, o.wo)
  }

  /** A redelivery and a failure change nothing. */
  function Complete(cfg: Config, plant: Plant, st: State, c: Completion): State {
    if HasBackflush(st.stock.log, c.wo) then st
    else
      match OrderOf(cfg, plant, st, c)
      case Err(_) => st
      case Ok(o) => PostOrder(cfg, st, o)
  }

  /** The recipe's lines, one by one: convert, cost, post; the first failure is the transaction's. */
  function PostMaterials(cfg: Config, units: Units, st: State, lines: seq<Component>, c: Completion)
    : Result<State, Failure>
    decreases |lines|
  {
    if lines == [] then Ok(st)
    else
      match ToBase(units, DocLine(lines[0].item, Some(lines[0].unit), Consumed(lines[0], c.qtyProduced)))
      case Err(e) => Err(e)
      case Ok(qty) =>
        var after := TakeOut(cfg, st, Key(lines[0].item, c.warehouse), qty, Backflush, c.wo);
        PostMaterials(cfg, units, after, lines[1..], c)
  }

  lemma {:induction false} PostsMaterials(cfg: Config, units: Units, st: State, lines: seq<Component>, c: Completion)
    ensures PostMaterials(cfg, units, st, lines, c)
            == match Materials(units, lines, c)
               case Err(e) => Err(e)
               case Ok(materials) => Ok(TakeOutAll(cfg, st, materials, Backflush, c.wo))
    decreases |lines|
  {
    hide TakeOut, ToBase, Consumed;
    if lines != [] {
      var needs := Needs(lines, c.qtyProduced);
      assert needs[1..] == Needs(lines[1..], c.qtyProduced);
      if ToBase(units, needs[0]).Ok? {
        var qty := ToBase(units, needs[0]).value;
        var after := TakeOut(cfg, st, Key(lines[0].item, c.warehouse), qty, Backflush, c.wo);
        PostsMaterials(cfg, units, after, lines[1..], c);
        var rest := AllToBase(units, needs[1..]);
        if rest.Ok? {
          assert InWarehouse(lines, c.warehouse, [qty] + rest.value)[1..]
                 == InWarehouse(lines[1..], c.warehouse, rest.value);
        }
      }
    }
  }

  /** The material issues; after a failure the caller rolls the tables back. */
  method IssueMaterials(tables: StockTables, units: Units, lines: seq<Component>, c: Completion)
    returns (failure: Option<Failure>)
    modifies tables
    ensures match PostMaterials(tables.cfg, units, old(tables.Snapshot()), lines, c)
            case Ok(after) => failure == None && tables.Snapshot() == after
            case Err(e) => failure == Some(e)
  {
    ghost var target := PostMaterials(tables.cfg, units, tables.Snapshot(), lines, c);
    assert lines[0..] == lines;
    for i := 0 to |lines|
      invariant PostMaterials(tables.cfg, units, tables.Snapshot(), lines[i..], c) == target
    {
      ghost var rest := lines[i..];
      assert rest[0] == lines[i] && rest[1..] == lines[i + 1..];
      var converted := ToBase(units, DocLine(lines[i].item, Some(lines[i].unit), Consumed(lines[i], c.qtyProduced)));
      if converted.Err? {
        return Some(converted.error);
      }
      hide TakeOut, ToBase, Consumed;
      tables.IssueStock(Key(lines[i].item, c.warehouse), converted.value, Backflush, c.wo);
    }
    failure := None;
  }

  /**
   The roll-up, then one IN and the material issues line by line; a redelivery finds them and stops, and a
   line without a conversion rolls everything back.
   */
  method PostBackflush(tables: StockTables, plant: Plant, c: Completion) returns (failure: Option<Failure>)
    modifies tables
    ensures tables.Snapshot() == Complete(tables.cfg, plant, old(tables.Snapshot()), c)
    ensures HasBackflush(old(tables.movements), c.wo) ==> failure == None
    ensures !HasBackflush(old(tables.movements), c.wo) ==>
              failure == match OrderOf(tables.cfg, plant, old(tables.Snapshot()), c)
                         case Err(e) => Some(e)
                         case Ok(_) => None
  {
    if HasBackflush(tables.movements, c.wo) {
      return None;
    }
    var before := (tables.movements, tables.balances, tables.lots);
    var cfg, balances := tables.cfg, tables.balances;
    var unitCost, lines := FlatCost(cfg.items, balances, c.item, c.warehouse), [];
    if c.item in plant.boms {
      var flat := (item: nat) => FlatCost(cfg.items, balances, item, cfg.warehouse);
      unitCost := RollUpItem(plant.boms, flat, c.item, {});
      lines := plant.boms[c.item].lines;
    }
    OrderMeans(cfg, plant, tables.Snapshot(), c, unitCost, lines);
    hide OrderOf, CostOf, FlatCost, PostOrder, PostMaterials;
    var finished := GridPosting(Key(c.item, c.warehouse), None, c.qtyProduced, unitCost, In, Backflush, c.wo);
    var ok := tables.PostMovement(finished);
    failure := IssueMaterials(tables, plant.units, lines, c);
    if failure.Some? {
      tables.movements, tables.balances, tables.lots := before.0, before.1, before.2;
    }
  }

  /** What the method works on is the order, and posting it line by line is posting the order. */
  lemma {:induction false} OrderMeans(cfg: Config, plant: Plant, st: State, c: Completion, unitCost: int,
      lines: seq<Component>)
    requires var balances := st.stock.balances;
             if c.item in plant.boms then
               var flat := (item: nat) => FlatCost(cfg.items, balances, item, cfg.warehouse);
               lines == plant.boms[c.item].lines && unitCost == CostOf(plant.boms, flat, c.item, {})
             else
               lines == [] && unitCost == FlatCost(cfg.items, balances, c.item, c.warehouse)
    ensures var finished := GridPosting(Key(c.item, c.warehouse), None, c.qtyProduced, unitCost, In, Backflush, c.wo);
            var posted := PostMaterials(cfg, plant.units, Append(cfg, st, finished), lines, c);
            posted == match OrderOf(cfg, plant, st, c)
                      case Err(e) => Err(e)
                      case Ok(o) => Ok(PostOrder(cfg, st, o))
  {
    var finished := GridPosting(Key(c.item, c.warehouse), None, c.qtyProduced, unitCost, In, Backflush, c.wo);
    PostsMaterials(cfg, plant.units, Append(cfg, st, finished), lines, c);
    hide CostOf, FlatCost, Append, PostMaterials;
  }

  // --- completions among all the other documents ----------------------------------------------------------

  datatype Event = Document(op: Op) | Completed(completion: Completion)

  function Next(cfg: Config, plant: Plant, st: State, e: Event): State {
    match e
    case Document(op) => Step(cfg, st, op)
    case Completed(c) => Complete(cfg, plant, st, c)
  }

  function After(cfg: Config, plant: Plant, st: State, events: seq<Event>): State {
    if events == [] then st else Next(cfg, plant, After(cfg, plant, st, events[..|events| - 1]), events[|events| - 1])
  }

  lemma {:induction false} PostOrderKeepsCache(cfg: Config, st: State, o: Order)
    requires Cached(st.stock)
    ensures Cached(PostOrder(cfg, st, o).stock)
  {
    GridPostingOnGrid(o.finished, None, o.qty, o.unitCost, In, Backflush, o.wo);
    AppendKeepsCache(cfg, st, FinishedIn(o));
    hide Cached;
    TakeOutAllKeepsCache(cfg, Append(cfg, st, FinishedIn(o)), o.materials, Backflush, o.wo);
  }

  lemma {:induction false} NextKeepsCache(cfg: Config, plant: Plant, st: State, e: Event)
    requires Cached(st.stock)
    ensures Cached(Next(cfg, plant, st, e).stock)
  {
    hide Cached, OrderOf, PostOrder;
    match e
    case Document(op) => StepKeepsCache(cfg, st, op);
    case Completed(c) =>
      if OrderOf(cfg, plant, st, c).Ok? {
        PostOrderKeepsCache(cfg, st, OrderOf(cfg, plant, st, c).value);
      }
  }

  /** Backflushes, too, only post on the grid: the cache stays the replay of the log over every run. */
  lemma {:induction false} EventsKeepCache(cfg: Config, plant: Plant, st: State, events: seq<Event>)
    requires Cached(st.stock)
    ensures Cached(After(cfg, plant, st, events).stock)
  {
    if events != [] {
      hide Cached, Next;
      EventsKeepCache(cfg, plant, st, events[..|events| - 1]);
      NextKeepsCache(cfg, plant, After(cfg, plant, st, events[..|events| - 1]), events[|events| - 1]);
    }
  }

  /** What a completed order moved: its finished goods in, its materials out, and nothing else. */
  ghost predicate Backflushed(cfg: Config, o: Order, rows: seq<Movement>) {
    && rows != [] && rows[0].direction == In && rows[0].key == o.finished && rows[0].unitCost == o.unitCost
    && (forall i | 0 < i < |rows| :: rows[i].direction == Out)
    && forall key :: NetQty(rows, key) == (if key == o.finished then o.qty else 0) - DemandOf(cfg, o.materials, key)
  }

  lemma {:induction false} PostOrderRows(cfg: Config, st: State, o: Order)
    requires RefRows(st.stock.log, Backflush, o.wo) == []
    ensures Backflushed(cfg, o, RefRows(PostOrder(cfg, st, o).stock.log, Backflush, o.wo))
    ensures RefRows(PostOrder(cfg, st, o).stock.log, Backflush, o.wo) != []
  {
    var head, outs := OrderRows(cfg, st, o);
    hide TakeOutAll, Append, Backflushed, RowsIssued, RefRows;
    RefRowsGrow(st.stock.log, [head] + outs, Backflush, o.wo, true);
    assert [] + ([head] + outs) == [head] + outs;
    HeadAndOuts(cfg, o, head, outs);
  }

  lemma {:induction false} OrderRows(cfg: Config, st: State, o: Order) returns (head: Movement, outs: seq<Movement>)
    ensures PostOrder(cfg, st, o).stock.log == st.stock.log + ([head] + outs)
    ensures head == Movement(o.finished, None, o.qty, o.unitCost, In, Backflush, o.wo, cfg.stamps(|st.stock.log|))
    ensures RowsIssued(cfg, o.materials, Backflush, o.wo, outs)
    ensures forall m | m in [head] + outs :: OfRef(m, Backflush, o.wo)
  {
    AppendRow(cfg, st, o.finished, None, o.qty, o.unitCost, In, Backflush, o.wo);
    head := Movement(o.finished, None, o.qty, o.unitCost, In, Backflush, o.wo, cfg.stamps(|st.stock.log|));
    hide Append, TakeOutAll, NetQty, DemandOf, Silent;
    outs := IssueRows(cfg, Append(cfg, st, FinishedIn(o)), o.materials, Backflush, o.wo);
    Appended(st.stock.log, [head], outs);
  }

  lemma {:induction false} HeadAndOuts(cfg: Config, o: Order, head: Movement, outs: seq<Movement>)
    requires head.key == o.finished && head.qty == o.qty && head.unitCost == o.unitCost && head.direction == In
    requires RowsIssued(cfg, o.materials, Backflush, o.wo, outs)
    ensures Backflushed(cfg, o, [head] + outs)
  {
    hide NetQty, DemandOf;
    forall key
      ensures NetQty([head] + outs, key) == (if key == o.finished then o.qty else 0) - DemandOf(cfg, o.materials, key)
    {
      NetQtyConcat([head], outs, key);
      NetQtyOfOne(head, key);
    }
  }

  lemma {:induction false} OrderElsewhere(cfg: Config, st: State, o: Order, refType: RefType, ref: nat)
    requires !(refType == Backflush && ref == o.wo)
    ensures RefRows(PostOrder(cfg, st, o).stock.log, refType, ref) == RefRows(st.stock.log, refType, ref)
  {
    var head, outs := OrderRows(cfg, st, o);
    RefRowsGrow(st.stock.log, [head] + outs, refType, ref, false);
  }

  /** A completion leaves the movements of every document and of every other work order. */
  lemma {:induction false} CompletesElsewhere(cfg: Config, plant: Plant, st: State, c: Completion, refType: RefType,
      ref: nat)
    requires !(refType == Backflush && ref == c.wo)
    ensures RefRows(Complete(cfg, plant, st, c).stock.log, refType, ref) == RefRows(st.stock.log, refType, ref)
  {
    var o := OrderOf(cfg, plant, st, c);
    if o.Ok? {
      assert o.value.wo == c.wo;
      OrderElsewhere(cfg, st, o.value, refType, ref);
    }
    hide PostOrder;
  }

  lemma {:induction false} HasBackflushInRows(log: seq<Movement>, wo: nat)
    ensures HasBackflush(log, wo) <==> RefRows(log, Backflush, wo) != []
  {
    var rows := RefRows(log, Backflush, wo);
    if rows != [] {
      RefRowsMembers(log, Backflush, wo, rows[0]);
    }
    forall m | m in log && OfRef(m, Backflush, wo) ensures m in rows {
      RefRowsMembers(log, Backflush, wo, m);
    }
  }

  /** The rows are the backflush of the completion as the stock stands. */
  ghost predicate BackflushOf(cfg: Config, plant: Plant, st: State, c: Completion, rows: seq<Movement>) {
    var o := OrderOf(cfg, plant, st, c);
    o.Ok? && IsOrderOf(cfg, plant, st, c, o.value) && rows != [] && Backflushed(cfg, o.value, rows)
  }

  lemma {:induction false} OrderMade(cfg: Config, plant: Plant, st: State, c: Completion)
    ensures var o := OrderOf(cfg, plant, st, c);
            (o.Ok? <==> Postable(plant, c)) && (o.Ok? ==> o.value.wo == c.wo)
  {
    hide CostOf, FlatCost, ToBase;
  }

  /** One event moves the order's rows exactly when it is the first completion, of a recipe that converts. */
  lemma {:induction false} EventRows(cfg: Config, plant: Plant, st: State, e: Event, c: Completion)
    requires e.Completed? && e.completion.wo == c.wo ==> e.completion == c
    ensures var rows, after := RefRows(st.stock.log, Backflush, c.wo),
                               RefRows(Next(cfg, plant, st, e).stock.log, Backflush, c.wo);
            if e == Completed(c) && rows == [] && Postable(plant, c)
            then BackflushOf(cfg, plant, st, c, after) else after == rows
  {
    HasBackflushInRows(st.stock.log, c.wo);
    OrderMade(cfg, plant, st, c);
    hide Backflushed, Step, OrderOf, PostOrder, RefRows, HasBackflush, Postable;
    match e
    case Document(op) => StepElsewhere(cfg, st, op, Backflush, c.wo);
    case Completed(d) =>
      if d.wo != c.wo {
        CompletesElsewhere(cfg, plant, st, d, Backflush, c.wo);
      } else if RefRows(st.stock.log, Backflush, c.wo) == [] && Postable(plant, c) {
        PostOrderRows(cfg, st, OrderOf(cfg, plant, st, c).value);
        OrderIsRight(cfg, plant, st, c);
        hide IsOrderOf;
      }
  }

  /** Event `k` is the first delivery, and `rows` is the backflush of its moment. */
  ghost predicate MovedAt(cfg: Config, plant: Plant, st: State, events: seq<Event>, c: Completion, k: nat,
      rows: seq<Movement>) {
    && k < |events| && events[k] == Completed(c) && Completed(c) !in events[..k]
    && BackflushOf(cfg, plant, After(cfg, plant, st, events[..k]), c, rows)
  }

  /** The work order is completed once; its completion may be delivered any number of times. */
  ghost predicate OneCompletion(events: seq<Event>, c: Completion) {
    forall e | e in events && e.Completed? && e.completion.wo == c.wo :: e.completion == c
  }

  /** What the completions among the events have moved. */
  ghost predicate MovedBy(cfg: Config, plant: Plant, st: State, events: seq<Event>, c: Completion, k: nat,
      rows: seq<Movement>) {
    if Completed(c) in events && Postable(plant, c) then MovedAt(cfg, plant, st, events, c, k, rows) else rows == []
  }

  lemma {:induction false} MovedByOneMore(cfg: Config, plant: Plant, st: State, events: seq<Event>, e: Event,
      c: Completion, k: nat, rows: seq<Movement>, after: seq<Movement>)
    returns (first: nat)
    requires MovedBy(cfg, plant, st, events, c, k, rows)
    requires if e == Completed(c) && rows == [] && Postable(plant, c)
             then BackflushOf(cfg, plant, After(cfg, plant, st, events), c, after) else after == rows
    ensures MovedBy(cfg, plant, st, events + [e], c, first, after)
  {
    first := if Completed(c) in events then k else |events|;
    if Completed(c) in events && Postable(plant, c) {
      assert (events + [e])[..k] == events[..k];
      SomethingMoved(cfg, plant, After(cfg, plant, st, events[..k]), c, rows);
    } else {
      assert (events + [e])[..|events|] == events;
    }
    hide BackflushOf, After, Postable;
  }

  lemma {:induction false} SomethingMoved(cfg: Config, plant: Plant, st: State, c: Completion, rows: seq<Movement>)
    requires BackflushOf(cfg, plant, st, c, rows)
    ensures rows != []
  {
  }

  /**
   However often the completion of a work order is delivered, and whatever else is posted in between:
   nothing moves before the first delivery or without a conversion for every recipe line; otherwise, ever
   after, exactly the backflush of that first delivery has moved, at the roll-up and in the quantities of its
   moment.
   */
  lemma {:induction false} BackflushedExactlyOnce(cfg: Config, plant: Plant, st: State, events: seq<Event>,
      c: Completion)
    returns (k: nat)
    requires RefRows(st.stock.log, Backflush, c.wo) == []
    requires OneCompletion(events, c)
    ensures MovedBy(cfg, plant, st, events, c, k, RefRows(After(cfg, plant, st, events).stock.log, Backflush, c.wo))
  {
    hide *;
    k := 0;
    if events == [] {
      NothingMovedYet(cfg, plant, st, c);
    } else {
      var n := |events| - 1;
      var init, e := events[..n], events[n];
      assert events == init + [e];
      OneMoreEvent(cfg, plant, st, init, e, c);
      var before := After(cfg, plant, st, init);
      var earlier := BackflushedExactlyOnce(cfg, plant, st, init, c);
      EventRows(cfg, plant, before, e, c);
      var rows, after := RefRows(before.stock.log, Backflush, c.wo),
                         RefRows(Next(cfg, plant, before, e).stock.log, Backflush, c.wo);
      k := MovedByOneMore(cfg, plant, st, init, e, c, earlier, rows, after);
    }
  }

  lemma {:induction false} NothingMovedYet(cfg: Config, plant: Plant, st: State, c: Completion)
    requires RefRows(st.stock.log, Backflush, c.wo) == []
    ensures MovedBy(cfg, plant, st, [], c, 0, RefRows(After(cfg, plant, st, []).stock.log, Backflush, c.wo))
  {
  }

  lemma {:induction false} OneMoreEvent(cfg: Config, plant: Plant, st: State, init: seq<Event>, e: Event,
      c: Completion)
    requires OneCompletion(init + [e], c)
    ensures OneCompletion(init, c) && (e.Completed? && e.completion.wo == c.wo ==> e.completion == c)
    ensures After(cfg, plant, st, init + [e]) == Next(cfg, plant, After(cfg, plant, st, init), e)
  {
    assert (init + [e])[..|init|] == init && e in init + [e];
    assert forall d | d in init :: d in init + [e];
    hide Next;
  }
}
