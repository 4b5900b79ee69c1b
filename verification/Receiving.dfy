/** Goods receipts: landed cost onto the lines, then lots and INs (`goods-receipt.service.ts`). */
module Receiving {
  import opened Money
  import opened Optional
  import opened Allocation
  import opened Ledger
  import opened Costing
  import opened Inventory
  import opened StockRows
  import opened UnitConversion

  datatype AllocMethod = ByValue | ByQty

  /** A receipt line, its quantity and price per its own unit; `lotId` is the key its lot will be drawn. */
  datatype DraftLine = DraftLine(item: nat, unit: nat, qty: int, unitPrice: int, lotId: nat)

  datatype Status = Draft | Confirmed | Posted

  function Weights(lines: seq<DraftLine>, alloc: AllocMethod): (weights: seq<real>)
    ensures |weights| == |lines|
  {
    seq(|lines|, i requires 0 <= i < |lines| =>
      if alloc == ByValue then LineTotal(lines[i].qty, lines[i].unitPrice) as real else lines[i].qty as real)
  }

  /** What a line carries: its extended price and its share of the landed cost. */
  function LineCost(line: DraftLine, share: int): int {
    LineTotal(line.qty, line.unitPrice) + share
  }

  /** The line as posted at `now`, at its cost per base unit; without base quantity the price stays. */
  function LandedLine(line: DraftLine, share: int, baseQty: int, now: int): ReceiptLine {
    var unitCost := if baseQty == 0 then line.unitPrice else DivideMoney(LineCost(line, share), baseQty);
    ReceiptLine(line.item, baseQty, unitCost, line.lotId, now)
  }

  function Landed(lines: seq<DraftLine>, shares: seq<int>, baseQtys: seq<int>, now: int)
    : (landed: seq<ReceiptLine>)
    requires |shares| == |lines| == |baseQtys|
    ensures |landed| == |lines|
  {
    seq(|lines|, i requires 0 <= i < |lines| => LandedLine(lines[i], shares[i], baseQtys[i], now))
  }

  function Entered(lines: seq<DraftLine>): (entered: seq<DocLine>)
    ensures |entered| == |lines|
  {
    seq(|lines|, i requires 0 <= i < |lines| => DocLine(lines[i].item, Some(lines[i].unit), lines[i].qty))
  }

  /** The lines of a receipt, one by one: convert, cost, insert the lot, post; the first failure is the document's. */
  function PostLines(cfg: Config, units: Units, st: State, lines: seq<DraftLine>, shares: seq<int>, now: int,
                     refId: nat)
    : Result<State, Failure>
    requires |shares| == |lines|
    decreases |lines|
  {
    if lines == [] then Ok(st)
    else
      match ToBase(units, DocLine(lines[0].item, Some(lines[0].unit), lines[0].qty))
      case Err(e) => Err(e)
      case Ok(baseQty) =>
        var after := ReceiveLine(cfg, st, LandedLine(lines[0], shares[0], baseQty, now), refId);
        PostLines(cfg, units, after, lines[1..], shares[1..], now, refId)
  }

  /** A posted receipt is the receipt of its landed lines, the operation every run theorem is about. */
  lemma {:induction false} PostIsReceipt(cfg: Config, units: Units, st: State, lines: seq<DraftLine>,
      shares: seq<int>, now: int, refId: nat)
    requires |shares| == |lines|
    ensures PostLines(cfg, units, st, lines, shares, now, refId)
            == match AllToBase(units, Entered(lines))
               case Err(e) => Err(e)
               case Ok(baseQtys) => Ok(Step(cfg, st, Receive(Landed(lines, shares, baseQtys, now), refId)))
    decreases |lines|
  {
    hide ReceiveLine, ToBase, LandedLine;
    if lines != [] {
      var entered := Entered(lines);
      assert entered[1..] == Entered(lines[1..]);
      if ToBase(units, entered[0]).Ok? {
        var baseQty := ToBase(units, entered[0]).value;
        var after := ReceiveLine(cfg, st, LandedLine(lines[0], shares[0], baseQty, now), refId);
        PostIsReceipt(cfg, units, after, lines[1..], shares[1..], now, refId);
        var rest := AllToBase(units, entered[1..]);
        if rest.Ok? {
          assert Landed(lines, shares, [baseQty] + rest.value, now)[1..]
                 == Landed(lines[1..], shares[1..], rest.value, now);
        }
      }
    }
  }

  /** One receipt document and its lifecycle. */
  class GoodsReceiptDocument {
    const lines: seq<DraftLine>
    const landedTotal: int
    const alloc: AllocMethod
    var status: Status
    var shares: seq<int>

    constructor (lines: seq<DraftLine>, landedTotal: int, alloc: AllocMethod)
      ensures this.lines == lines && this.landedTotal == landedTotal && this.alloc == alloc
      ensures status == Draft && Valid()
    {
      this.lines, this.landedTotal, this.alloc := lines, landedTotal, alloc;
      status, shares := Draft, seq(|lines|, _ => 0);
    }

    ghost predicate Valid()
      reads this
    {
      && |shares| == |lines|
      && (status != Draft ==> shares == Allocated(landedTotal as real, Weights(lines, alloc)))
    }

    /** DRAFT to CONFIRMED, writing every line's share of the landed cost; anything else conflicts. */
    method Confirm() returns (ok: bool)
      requires Valid()
      modifies this
      ensures Valid() && ok == (old(status) == Draft)
      ensures ok ==> status == Confirmed
      ensures !ok ==> status == old(status) && shares == old(shares)
    {
      if status != Draft {
        return false;
      }
      var parts := Allocate(landedTotal as real, Weights(lines, alloc));
      for i := 0 to |lines|
        invariant |shares| == |lines| && shares[..i] == parts[..i] && status == Draft
      {
        shares := shares[i := parts[i]];
        assert shares[..i + 1] == shares[..i] + [parts[i]];
      }
      assert shares[..|lines|] == shares && parts[..|lines|] == parts;
      status := Confirmed;
      ok := true;
    }

    /** CONFIRMED to POSTED, once and wholly: any failure leaves tables and status as they were. */
    method Post(tables: StockTables, units: Units, now: int, refId: nat) returns (failure: Option<Failure>)
      requires Valid()
      modifies this, tables
      ensures Valid() && shares == old(shares)
      ensures old(status) != Confirmed ==>
                failure == Some(StateConflict) && status == old(status) && tables.Snapshot() == old(tables.Snapshot())
      ensures old(status) == Confirmed ==>
                match PostLines(tables.cfg, units, old(tables.Snapshot()), lines, shares, now, refId)
                case Ok(after) => failure == None && status == Posted && tables.Snapshot() == after
                case Err(e) => failure == Some(e) && status == Confirmed && tables.Snapshot() == old(tables.Snapshot())
    {
      if status != Confirmed {
        return Some(StateConflict);
      }
      var before := (tables.movements, tables.balances, tables.lots);
      ghost var target := PostLines(tables.cfg, units, tables.Snapshot(), lines, shares, now, refId);
      assert lines[0..] == lines && shares[0..] == shares;
      for i := 0 to |lines|
        invariant status == Confirmed && shares == old(shares)
        invariant PostLines(tables.cfg, units, tables.Snapshot(), lines[i..], shares[i..], now, refId) == target
      {
        ghost var rest, left := lines[i..], shares[i..];
        assert rest[0] == lines[i] && rest[1..] == lines[i + 1..];
        assert left[0] == shares[i] && left[1..] == shares[i + 1..];
        var line := lines[i];
        var converted := ToBase(units, DocLine(line.item, Some(line.unit), line.qty));
        if converted.Err? {
          tables.movements, tables.balances, tables.lots := before.0, before.1, before.2;
          return Some(converted.error);
        }
        var landed := LandedLine(line, shares[i], converted.value, now);
        ReceivesOne(tables.cfg, tables.Snapshot(), landed, refId);
        hide ToBase, LandedLine, ReceiveLine;
        tables.PostReceipt([landed], refId);
      }
      status := Posted;
      failure := None;
    }
  }

  lemma {:induction false} ReceivesOne(cfg: Config, st: State, line: ReceiptLine, refId: nat)
    ensures Step(cfg, st, Receive([line], refId)) == ReceiveLine(cfg, st, line, refId)
  {
    hide ReceiveLine;
    assert [line][1..] == [];
    var after := ReceiveLine(cfg, st, line, refId);
    assert ReceiveLines(cfg, after, [], refId) == after;
  }

  // --- what the lines are worth -------------------------------------------------------------------------

  /** A landed line carries its price and its share per base unit, nearest; without base quantity its price. */
  lemma {:induction false} LandedLineMeans(line: DraftLine, share: int, baseQty: int, now: int)
    ensures var landed := LandedLine(line, share, baseQty, now);
            && landed.item == line.item && landed.qty == baseQty && landed.lotId == line.lotId
            && landed.receivedAt == now
            && (baseQty == 0 ==> landed.unitCost == line.unitPrice)
            && exists total ::
                 && Nearest(line.qty * line.unitPrice, 1000000, total)
                 && (baseQty > 0 ==> Nearest((total + share) * 1000000, baseQty, landed.unitCost))
                 && (baseQty < 0 ==> Nearest(-(total + share) * 1000000, -baseQty, landed.unitCost))
  {
    var total := LineTotal(line.qty, line.unitPrice);
    LineTotalIsNearest(line.qty, line.unitPrice);
    if baseQty != 0 {
      assert (total + share) as real * SCALE6 == ((total + share) * 1000000) as real;
      RoundIsNearest((total + share) * 1000000, baseQty);
      assert -((total + share) * 1000000) == -(total + share) * 1000000;
    }
    hide Nearest, Round, LineTotal, Quotient;
  }

  /** A line's part of the allocation's basis: its extended price, or its quantity. */
  ghost predicate IsBasis(line: DraftLine, alloc: AllocMethod, basis: int) {
    match alloc
    case ByValue => Nearest(line.qty * line.unitPrice, 1000000, basis)
    case ByQty => basis == line.qty
  }

  lemma {:induction false} WeightsMean(lines: seq<DraftLine>, alloc: AllocMethod) returns (basis: seq<int>)
    ensures |basis| == |lines|
    ensures forall i | 0 <= i < |lines| ::
              Weights(lines, alloc)[i] == basis[i] as real && IsBasis(lines[i], alloc, basis[i])
  {
    basis := seq(|lines|, k requires 0 <= k < |lines| =>
      if alloc == ByValue then LineTotal(lines[k].qty, lines[k].unitPrice) else lines[k].qty);
    forall i | 0 <= i < |lines| ensures IsBasis(lines[i], alloc, basis[i]) {
      LineTotalIsNearest(lines[i].qty, lines[i].unitPrice);
    }
    hide IsBasis, LineTotal;
  }

  lemma {:induction false} BasisSum(basis: seq<int>, weights: seq<real>)
    requires |weights| == |basis| && forall i | 0 <= i < |basis| :: weights[i] == basis[i] as real
    ensures SumReal(weights) == Sum(basis) as real
  {
    if basis != [] {
      BasisSum(basis[..|basis| - 1], weights[..|basis| - 1]);
    }
  }

  /** The first of the largest. */
  predicate FirstLargest(basis: seq<int>, i: nat)
    requires i < |basis|
  {
    (forall j | 0 <= j < |basis| :: basis[j] <= basis[i]) && (forall j | 0 <= j < i :: basis[j] < basis[i])
  }

  lemma {:induction false} FirstMaxIsFirstLargest(basis: seq<int>, weights: seq<real>, i: nat)
    requires |weights| == |basis| && (forall k | 0 <= k < |basis| :: weights[k] == basis[k] as real) && i < |basis|
    ensures i == FirstMax(weights) <==> FirstLargest(basis, i)
  {
    var t := FirstMax(weights);
    assert weights[t] == basis[t] as real && weights[i] == basis[i] as real;
  }

  /** The exact share: the line's part of the landed total, or an even part when the basis sums to zero. */
  ghost predicate IsExactShare(basis: seq<int>, landedTotal: int, i: nat, exact: real)
    requires i < |basis|
  {
    if Sum(basis) == 0 then exact * |basis| as real == landedTotal as real
    else exact * Sum(basis) as real == landedTotal as real * basis[i] as real
  }

  lemma {:induction false} SharesAreExact(basis: seq<int>, weights: seq<real>, landedTotal: int, i: nat)
    requires |weights| == |basis| && (forall k | 0 <= k < |basis| :: weights[k] == basis[k] as real) && i < |basis|
    ensures IsExactShare(basis, landedTotal, i, Shares(landedTotal as real, weights)[i])
  {
    BasisSum(basis, weights);
    hide Sum, SumReal;
  }

  /**
   Each line's share follows the basis: it is within half a money unit of its exact part of the landed total -
   but for the first line of largest basis, which also takes what rounding left over.
   */
  lemma {:induction false} SharesFollowBasis(lines: seq<DraftLine>, landedTotal: int, alloc: AllocMethod, i: nat)
    returns (basis: seq<int>, exact: real)
    requires i < |lines|
    ensures |basis| == |lines| && forall k | 0 <= k < |lines| :: IsBasis(lines[k], alloc, basis[k])
    ensures IsExactShare(basis, landedTotal, i, exact)
    ensures var off := Allocated(landedTotal as real, Weights(lines, alloc))[i] as real - exact;
            var half := (|lines| - 1) as real / 2.0;
            if FirstLargest(basis, i) then -half <= off <= half else -0.5 <= off <= 0.5
  {
    basis := WeightsMean(lines, alloc);
    var weights := Weights(lines, alloc);
    hide *;
    exact := Shares(landedTotal as real, weights)[i];
    SharesAreExact(basis, weights, landedTotal, i);
    FirstMaxIsFirstLargest(basis, weights, i);
    AllocatedDeviation(landedTotal as real, weights, i);
    RoundOnGrid(landedTotal);
  }

  // --- the posted value is the goods value plus the landed cost ----------------------------------------

  function GoodsValue(lines: seq<DraftLine>): int {
    if lines == [] then 0
    else
      var last := lines[|lines| - 1];
      GoodsValue(lines[..|lines| - 1]) + LineTotal(last.qty, last.unitPrice)
  }

  function TotalQty(baseQtys: seq<int>): int {
    if baseQtys == [] then 0
    else
      var q := baseQtys[|baseQtys| - 1];
      TotalQty(baseQtys[..|baseQtys| - 1]) + if q > 0 then q else -q
  }

  /** What the lines of base quantity zero carry: their goods value and their share of the landed cost. */
  function Lost(lines: seq<DraftLine>, shares: seq<int>, baseQtys: seq<int>): int
    requires |shares| == |lines| == |baseQtys|
  {
    if lines == [] then 0
    else
      var n := |lines| - 1;
      Lost(lines[..n], shares[..n], baseQtys[..n]) + if baseQtys[n] == 0 then LineCost(lines[n], shares[n]) else 0
  }

  /** The movements are the INs of these lines. */
  ghost predicate RowsOfReceipt(landed: seq<ReceiptLine>, rows: seq<Movement>) {
    && |rows| == |landed|
    && forall i | 0 <= i < |rows| :: rows[i].qty == landed[i].qty && rows[i].unitCost == landed[i].unitCost
  }

  /** One line's movement is worth what the line carries, up to half a money unit per base unit. */
  lemma {:induction false} LineValueError(line: DraftLine, share: int, baseQty: int, now: int)
    ensures var landed := LandedLine(line, share, baseQty, now);
            var due := if baseQty == 0 then 0 else LineCost(line, share);
            var off := Amount(landed.qty, landed.unitCost) - 1000000 * due;
            -TotalQty([baseQty]) <= 2 * off <= TotalQty([baseQty])
  {
    assert [baseQty][..0] == [];
    if baseQty == 0 {
      AmountAdd(0, 0, line.unitPrice);
    } else {
      DivideMoneyError(LineCost(line, share), baseQty);
    }
    hide Amount, DivideMoney, LineCost;
  }

  lemma {:induction false} ReceiptRowsValue(lines: seq<DraftLine>, shares: seq<int>, baseQtys: seq<int>,
      now: int, rows: seq<Movement>)
    requires |shares| == |lines| == |baseQtys| && RowsOfReceipt(Landed(lines, shares, baseQtys, now), rows)
    ensures var due := GoodsValue(lines) + Sum(shares) - Lost(lines, shares, baseQtys);
            var off := ValueSum(rows) - 1000000 * due;
            -TotalQty(baseQtys) <= 2 * off <= TotalQty(baseQtys)
  {
    hide Amount, LandedLine, LineTotal;
    if lines != [] {
      var n := |lines| - 1;
      assert Landed(lines, shares, baseQtys, now)[..n] == Landed(lines[..n], shares[..n], baseQtys[..n], now);
      ReceiptRowsValue(lines[..n], shares[..n], baseQtys[..n], now, rows[..n]);
      LineValueError(lines[n], shares[n], baseQtys[n], now);
      assert [baseQtys[n]][..0] == [];
    }
  }

  /**
   The movements a confirmed receipt appends to the ledger, at their rounded unit costs, are worth the goods
   value plus the whole landed cost, less what lines of base quantity zero carry, up to half a money unit per
   base unit received. Values count millionths of money units.
   */
  lemma {:induction false} ReceiptValueBound(cfg: Config, units: Units, st: State, lines: seq<DraftLine>,
      landedTotal: int, alloc: AllocMethod, now: int, refId: nat)
    returns (rows: seq<Movement>)
    requires lines != [] && AllToBase(units, Entered(lines)).Ok?
    ensures var shares := Allocated(landedTotal as real, Weights(lines, alloc));
            var posted := PostLines(cfg, units, st, lines, shares, now, refId);
            posted.Ok? && posted.value.stock.log == st.stock.log + rows
    ensures forall m | m in rows :: OfRef(m, GoodsReceipt, refId) && m.direction == In
    ensures var shares := Allocated(landedTotal as real, Weights(lines, alloc));
            var baseQtys := AllToBase(units, Entered(lines)).value;
            var due := GoodsValue(lines) + landedTotal - Lost(lines, shares, baseQtys);
            var off := ValueSum(rows) - 1000000 * due;
            -TotalQty(baseQtys) <= 2 * off <= TotalQty(baseQtys)
  {
    var weights := Weights(lines, alloc);
    AllocatedSum(landedTotal as real, weights);
    RoundOnGrid(landedTotal);
    var shares := Allocated(landedTotal as real, weights);
    var baseQtys := AllToBase(units, Entered(lines)).value;
    PostIsReceipt(cfg, units, st, lines, shares, now, refId);
    rows := ReceiptRows(cfg, st, Landed(lines, shares, baseQtys, now), refId);
    ReceiptRowsValue(lines, shares, baseQtys, now, rows);
    hide Allocated, Weights, Landed, AllToBase, PostLines, ReceiveLines, GoodsValue, Lost, TotalQty, ValueSum;
  }

  predicate NonNegative(lines: seq<DraftLine>, shares: seq<int>)
    requires |shares| == |lines|
  {
    forall i | 0 <= i < |lines| :: LineTotal(lines[i].qty, lines[i].unitPrice) >= 0 && shares[i] >= 0
  }

  /** With nothing negative, value is lost exactly when some line of base quantity zero has a price or a share. */
  lemma {:induction false} NothingLostExactlyWhen(lines: seq<DraftLine>, shares: seq<int>, baseQtys: seq<int>)
    requires |shares| == |lines| == |baseQtys| && NonNegative(lines, shares)
    ensures Lost(lines, shares, baseQtys) >= 0
    ensures Lost(lines, shares, baseQtys) == 0 <==>
              forall i | 0 <= i < |lines| && baseQtys[i] == 0 ::
                LineTotal(lines[i].qty, lines[i].unitPrice) == 0 && shares[i] == 0
  {
    hide LineTotal;
    if lines != [] {
      var n := |lines| - 1;
      NothingLostExactlyWhen(lines[..n], shares[..n], baseQtys[..n]);
      assert forall i | 0 <= i < n ::
          lines[..n][i] == lines[i] && shares[..n][i] == shares[i] && baseQtys[..n][i] == baseQtys[i];
    }
  }

  /** A receipt of one line without quantity posts a movement worth nothing, whatever the landed cost. */
  lemma {:induction false} ZeroQuantityLosesLandedCost(cfg: Config, units: Units, st: State, line: DraftLine,
      landedTotal: int, alloc: AllocMethod, now: int, refId: nat)
    returns (row: Movement)
    requires line.qty == 0 && AllToBase(units, Entered([line])).Ok?
    ensures var shares := Allocated(landedTotal as real, Weights([line], alloc));
            var posted := PostLines(cfg, units, st, [line], shares, now, refId);
            && posted.Ok? && posted.value.stock.log == st.stock.log + [row]
            && ValueSum([row]) == 0 && GoodsValue([line]) == 0 && shares == [landedTotal]
  {
    var shares, landed := [landedTotal], Landed([line], [landedTotal], [0], now);
    ZeroConverts(units, line);
    WholeShare(line, landedTotal, alloc);
    PostIsReceipt(cfg, units, st, [line], shares, now, refId);
    var rows := ReceiptRows(cfg, st, landed, refId);
    hide Allocated, ReceiveLines, PostLines, AllToBase;
    row := rows[0];
    assert rows == [row] && [row][..0] == [] && [line][..0] == [];
    AmountAdd(0, 0, row.unitCost);
  }

  lemma {:induction false} ZeroConverts(units: Units, line: DraftLine)
    requires line.qty == 0 && AllToBase(units, Entered([line])).Ok?
    ensures AllToBase(units, Entered([line])) == Ok([0])
  {
    var entered := Entered([line]);
    var baseQtys := AllToBase(units, entered).value;
    assert ToBase(units, entered[0]) == Ok(baseQtys[0]);
    RoundOnGrid(0);
    assert baseQtys[0] == 0;
    assert baseQtys == [0];
  }

  lemma {:induction false} WholeShare(line: DraftLine, landedTotal: int, alloc: AllocMethod)
    ensures Allocated(landedTotal as real, Weights([line], alloc)) == [landedTotal]
  {
    var weights := Weights([line], alloc);
    AllocatedSum(landedTotal as real, weights);
    RoundOnGrid(landedTotal);
    var shares := Allocated(landedTotal as real, weights);
    assert shares[..0] == [];
    hide Allocated;
  }
}
