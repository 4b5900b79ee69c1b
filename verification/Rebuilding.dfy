/**
 When a rebuild reproduces the live cache: `rebuildBalance` of `apps/api/src/inventory/ledger.service.ts`
 replays in `(at, id)` order what was posted in another.
 */
module Rebuilding {
  import opened Money
  import opened Optional
  import opened Ledger
  import opened Costing
  import opened Inventory
  import opened StockRows
  import W = WorkOrders

  function Stamps(rows: seq<Movement>): (stamps: seq<Stamp>)
    ensures |stamps| == |rows| && forall i | 0 <= i < |rows| :: stamps[i] == rows[i].stamp
  {
    seq(|rows|, i requires 0 <= i < |rows| => rows[i].stamp)
  }

  /** The stamps of a key's movements, in posting order, ascend. */
  ghost predicate Ascending(stamps: seq<Stamp>) {
    forall i, j | 0 <= i < j < |stamps| :: Precedes(stamps[i], stamps[j])
  }

  // --- adjustments of nothing -----------------------------------------------------------------------------

  predicate Idle(m: Movement) {
    m.direction == Adjust && m.qty == 0
  }

  /** The movements that change a balance, in order. */
  function Working(rows: seq<Movement>): seq<Movement> {
    if rows == [] then []
    else
      var last := rows[|rows| - 1];
      Working(rows[..|rows| - 1]) + if Idle(last) then [] else [last]
  }

  lemma {:induction false} WorkingAppend(rows: seq<Movement>, m: Movement)
    ensures Working(rows + [m]) == Working(rows) + if Idle(m) then [] else [m]
  {
    assert (rows + [m])[..|rows|] == rows;
  }

  lemma {:induction false} WorkingWithin(rows: seq<Movement>, m: Movement)
    ensures m in Working(rows) ==> m in rows
  {
    if rows != [] {
      WorkingWithin(rows[..|rows| - 1], m);
      assert rows == rows[..|rows| - 1] + [rows[|rows| - 1]];
    }
  }

  lemma {:induction false} FoldSkipsIdle(rows: seq<Movement>)
    ensures Fold(rows) == Fold(Working(rows))
  {
    if rows != [] {
      var init, last := rows[..|rows| - 1], rows[|rows| - 1];
      FoldSkipsIdle(init);
      if Idle(last) {
        RoundOnGrid(Fold(init).onHand);
        assert Working(rows) == Working(init);
      } else {
        FoldAppend(Working(init), last);
      }
    }
  }

  lemma {:induction false} InsertUnfolds(rows: seq<Movement>, m: Movement)
    ensures rows == [] || Precedes(rows[|rows| - 1].stamp, m.stamp) ==> Insert(rows, m) == rows + [m]
    ensures rows != [] && !Precedes(rows[|rows| - 1].stamp, m.stamp) ==>
              Insert(rows, m) == Insert(rows[..|rows| - 1], m) + [rows[|rows| - 1]]
  {
  }

  lemma {:induction false} LastWorkingPrecedes(rows: seq<Movement>, m: Movement)
    requires rows != [] && Chronological(rows) && Precedes(rows[|rows| - 1].stamp, m.stamp)
    ensures var working := Working(rows); working == [] || Precedes(working[|working| - 1].stamp, m.stamp)
  {
    var working := Working(rows);
    if working != [] {
      var x := working[|working| - 1];
      WorkingWithin(rows, x);
      var i :| 0 <= i < |rows| && rows[i] == x;
      assert i < |rows| - 1 ==> Precedes(rows[i].stamp, rows[|rows| - 1].stamp);
    }
  }

  lemma {:induction false} InsertAtEnd(rows: seq<Movement>, m: Movement)
    requires Chronological(rows) && !Idle(m)
    requires rows == [] || Precedes(rows[|rows| - 1].stamp, m.stamp)
    ensures Working(Insert(rows, m)) == Insert(Working(rows), m)
  {
    InsertUnfolds(rows, m);
    InsertUnfolds(Working(rows), m);
    WorkingAppend(rows, m);
    if rows != [] {
      LastWorkingPrecedes(rows, m);
    }
    hide Working, Insert, Chronological, Precedes;
  }

  lemma {:induction false} InsertBefore(init: seq<Movement>, last: Movement, m: Movement)
    requires !Precedes(last.stamp, m.stamp)
    requires Working(Insert(init, m)) == Insert(Working(init), m)
    ensures Working(Insert(init + [last], m)) == Insert(Working(init + [last]), m)
  {
    InsertUnfolds(init + [last], m);
    InsertUnfolds(Working(init) + [last], m);
    WorkingAppend(init, last);
    WorkingAppend(Insert(init, m), last);
    hide Working, Insert, Precedes, Idle;
    assert (init + [last])[..|init|] == init && (Working(init) + [last])[..|Working(init)|] == Working(init);
    assert Working(init) + [] == Working(init) && Insert(Working(init), m) + [] == Insert(Working(init), m);
  }

  lemma {:induction false} InsertAmongWorking(rows: seq<Movement>, m: Movement)
    requires Chronological(rows) && !Idle(m)
    ensures Working(Insert(rows, m)) == Insert(Working(rows), m)
  {
    if rows == [] || Precedes(rows[|rows| - 1].stamp, m.stamp) {
      InsertAtEnd(rows, m);
    } else {
      var init, last := rows[..|rows| - 1], rows[|rows| - 1];
      assert Chronological(init) && init + [last] == rows;
      hide Working, Insert, Chronological, Precedes;
      InsertAmongWorking(init, m);
      InsertBefore(init, last, m);
    }
  }

  lemma {:induction false} InsertIdle(rows: seq<Movement>, m: Movement)
    requires Idle(m)
    ensures Working(Insert(rows, m)) == Working(rows)
  {
    if rows == [] || Precedes(rows[|rows| - 1].stamp, m.stamp) {
      WorkingAppend(rows, m);
    } else {
      InsertIdle(rows[..|rows| - 1], m);
      WorkingAppend(Insert(rows[..|rows| - 1], m), rows[|rows| - 1]);
    }
  }

  /** Sorting moves the working rows as if the idle ones were not there. */
  lemma {:induction false} OrderAmongWorking(rows: seq<Movement>)
    ensures Working(OrderByAtId(rows)) == OrderByAtId(Working(rows))
  {
    if rows != [] {
      var init, last := rows[..|rows| - 1], rows[|rows| - 1];
      OrderAmongWorking(init);
      OrderIsChronological(init);
      if Idle(last) {
        InsertIdle(OrderByAtId(init), last);
        assert Working(rows) == Working(init);
      } else {
        InsertAmongWorking(OrderByAtId(init), last);
        assert Working(rows)[..|Working(rows)| - 1] == Working(init);
      }
    }
  }

  // --- the exact condition --------------------------------------------------------------------------------

  /** One unit adjusted in at `i`, one received at cost 4 at `j`, nothing anywhere else. */
  function Swapped(key: Key, stamps: seq<Stamp>, i: nat, j: nat): (rows: seq<Movement>)
    ensures |rows| == |stamps|
  {
    seq(|stamps|, k requires 0 <= k < |stamps| =>
      if k == i then Movement(key, None, 1, 0, Adjust, Adjustment, 0, stamps[k])
      else if k == j then Movement(key, None, 1, 4, In, GoodsReceipt, 0, stamps[k])
      else Movement(key, None, 0, 0, Adjust, Adjustment, 0, stamps[k]))
  }

  lemma {:induction false} SwappedWorking(key: Key, stamps: seq<Stamp>, i: nat, j: nat, n: nat)
    requires i < j < |stamps| && n <= |stamps|
    ensures var rows := Swapped(key, stamps, i, j);
            Working(rows[..n]) == if n <= i then [] else if n <= j then [rows[i]] else [rows[i], rows[j]]
  {
    var rows := Swapped(key, stamps, i, j);
    if n > 0 {
      SwappedWorking(key, stamps, i, j, n - 1);
      assert rows[..n] == rows[..n - 1] + [rows[n - 1]];
      WorkingAppend(rows[..n - 1], rows[n - 1]);
    }
  }

  lemma {:induction false} AverageSteps()
    ensures MovingAverage(0, 0, 1.0, 4.0) == 4 && MovingAverage(1, 0, 1.0, 4.0) == 2
    ensures MovingAverage(0, 0, 1.0, 0.0) == 0 && MovingAverage(1, 0, 1.0, 1.0) == 1
    ensures MovingAverage(1, 0, 1.0, 0.0) == 0 && MovingAverage(2, 1, 1.0, 0.0) == 1
    ensures MovingAverage(2, 0, 1.0, 1.0) == 0
  {
  }

  lemma {:induction false} FoldOfTwo(a: Movement, b: Movement)
    ensures Fold([a, b]) == ApplyRow(ApplyRow(ZERO_BALANCE, a), b)
  {
    hide ApplyRow;
    assert [a, b][..1] == [a] && [a][..0] == [];
    assert Fold([a]) == ApplyRow(ZERO_BALANCE, a);
  }

  lemma {:induction false} SwapSteps(a: Movement, b: Movement)
    requires a.direction == Adjust && a.qty == 1 && b.direction == In && b.qty == 1 && b.unitCost == 4
    ensures ApplyRow(Balance(0, 0), a) == Balance(1, 0) && ApplyRow(Balance(1, 0), b) == Balance(2, 2)
    ensures ApplyRow(Balance(0, 0), b) == Balance(1, 4) && ApplyRow(Balance(1, 4), a) == Balance(2, 4)
  {
    AverageSteps();
    hide MovingAverage;
  }

  lemma {:induction false} SwapMatters(a: Movement, b: Movement)
    requires a.direction == Adjust && a.qty == 1 && b.direction == In && b.qty == 1 && b.unitCost == 4
    requires !Precedes(a.stamp, b.stamp)
    ensures OrderByAtId([a, b]) == [b, a]
    ensures Fold([a, b]) == Balance(2, 2) && Fold([b, a]) == Balance(2, 4)
  {
    hide Fold, OrderByAtId, ApplyRow, Precedes;
    SortOfTwo(a, b);
    FoldOfTwo(a, b);
    FoldOfTwo(b, a);
    SwapSteps(a, b);
  }

  lemma {:induction false} SortOfTwo(a: Movement, b: Movement)
    requires !Precedes(a.stamp, b.stamp)
    ensures OrderByAtId([a, b]) == [b, a]
  {
    assert [a, b][..1] == [a] && [a][..0] == [];
    assert OrderByAtId([a]) == [a];
  }

  lemma {:induction false} RowsOfOneKey(rows: seq<Movement>, key: Key)
    requires forall m | m in rows :: m.key == key
    ensures RowsOf(rows, key) == rows
  {
    RowsOfUniform(rows, key, key);
  }

  /** With two stamps out of order some log's rebuild differs from its live balance. */
  lemma {:induction false} DescendingDiverges(key: Key, stamps: seq<Stamp>, i: nat, j: nat) returns (log: seq<Movement>)
    requires i < j < |stamps| && !Precedes(stamps[i], stamps[j])
    ensures Stamps(RowsOf(log, key)) == stamps
    ensures Rebuilt(log, key) != Fold(RowsOf(log, key))
  {
    log := Swapped(key, stamps, i, j);
    var a, b := log[i], log[j];
    assert a.direction == Adjust && a.qty == 1 && b.direction == In && b.qty == 1 && b.unitCost == 4;
    assert a.stamp == stamps[i] && b.stamp == stamps[j] && Stamps(log) == stamps;
    hide Working, Fold, OrderByAtId, Precedes, RowsOf, Swapped;
    RowsOfOneKey(log, key);
    assert log[..|log|] == log;
    SwappedWorking(key, stamps, i, j, |log|);
    OrderAmongWorking(log);
    FoldSkipsIdle(log);
    FoldSkipsIdle(OrderByAtId(log));
    SwapMatters(a, b);
  }

  /**
   Whatever is posted, a rebuild returns the live balance if and only if the stamps of the key's movements
   ascend in posting order; the quantities and costs do not matter.
   */
  lemma {:induction false} RebuildExactlyWhen(key: Key, stamps: seq<Stamp>)
    ensures (forall log | Stamps(RowsOf(log, key)) == stamps :: Rebuilt(log, key) == Fold(RowsOf(log, key)))
       <==> Ascending(stamps)
  {
    if Ascending(stamps) {
      forall log | Stamps(RowsOf(log, key)) == stamps ensures Rebuilt(log, key) == Fold(RowsOf(log, key)) {
        var rows := RowsOf(log, key);
        forall i, j | 0 <= i < j < |rows| ensures Precedes(rows[i].stamp, rows[j].stamp) {
          assert Precedes(stamps[i], stamps[j]);
        }
        OrderOfChronological(rows);
      }
    } else {
      var i, j :| 0 <= i < j < |stamps| && !Precedes(stamps[i], stamps[j]);
      var log := DescendingDiverges(key, stamps, i, j);
    }
  }

  /** Over every run the stored cache is what a rebuild writes, as soon as the stamps ascend. */
  lemma {:induction false} RunRebuilds(cfg: Config, plant: W.Plant, st: State, events: seq<W.Event>, key: Key)
    requires Cached(st.stock)
    ensures var end := W.After(cfg, plant, st, events);
            Ascending(Stamps(RowsOf(end.stock.log, key))) ==> Rebuilt(end.stock.log, key) == AtHand(end, key)
  {
    W.EventsKeepCache(cfg, plant, st, events);
    var log := W.After(cfg, plant, st, events).stock.log;
    RebuildExactlyWhen(key, Stamps(RowsOf(log, key)));
  }

  // --- one posted receipt is enough -----------------------------------------------------------------------

  lemma {:induction false} ThirdSortsSecond(a: Movement, b: Movement, c: Movement)
    requires a.stamp == Stamp(5, 1) && b.stamp == Stamp(5, 3) && c.stamp == Stamp(5, 2)
    ensures OrderByAtId([a, b, c]) == [a, c, b]
  {
    assert [a, b, c][..2] == [a, b] && [a, b][..1] == [a] && [a][..0] == [];
    assert OrderByAtId([a]) == [a] && OrderByAtId([a, b]) == [a, b];
    assert Insert([a, b], c) == Insert([a], c) + [b] == [a, c, b];
  }

  lemma {:induction false} AverageOfThree(a: Movement, b: Movement, c: Movement)
    requires a.direction == b.direction == c.direction == In && a.qty == b.qty == c.qty == 1
    requires a.unitCost == 0 && b.unitCost == 1 && c.unitCost == 0
    ensures Fold([a, b, c]) == Balance(3, 1) && Fold([a, c, b]) == Balance(3, 0)
  {
    AverageSteps();
    hide MovingAverage;
    FoldAppend([], a);
    FoldAppend([a], b);
    FoldAppend([a, b], c);
    FoldAppend([a], c);
    FoldAppend([a, c], b);
    assert [] + [a] == [a] && [a] + [b] == [a, b] && [a, b] + [c] == [a, b, c];
    assert [a] + [c] == [a, c] && [a, c] + [b] == [a, c, b];
  }

  /**
   The movements of one transaction share `at`, and their random ids may sort otherwise. One receipt of
   three lines of one item then leaves a cache of 1 that a rebuild rewrites to 0.
   */
  lemma {:induction false} ReceiptRebuildsOtherwise(cfg: Config, item: nat, refId: nat)
    requires cfg.stamps(0) == Stamp(5, 1) && cfg.stamps(1) == Stamp(5, 3) && cfg.stamps(2) == Stamp(5, 2)
    ensures var key := Key(item, cfg.warehouse);
            var lines := [ReceiptLine(item, 1, 0, 0, 0), ReceiptLine(item, 1, 1, 1, 1), ReceiptLine(item, 1, 0, 2, 2)];
            var posted := Step(cfg, State(Stock([], map[]), map[]), Receive(lines, refId));
            AtHand(posted, key) == Balance(3, 1) && Rebuilt(posted.stock.log, key) == Balance(3, 0)
  {
    var empty, key := State(Stock([], map[]), map[]), Key(item, cfg.warehouse);
    var lines := [ReceiptLine(item, 1, 0, 0, 0), ReceiptLine(item, 1, 1, 1, 1), ReceiptLine(item, 1, 0, 2, 2)];
    var a := Movement(key, Some(0), 1, 0, In, GoodsReceipt, refId, Stamp(5, 1));
    var b := Movement(key, Some(1), 1, 1, In, GoodsReceipt, refId, Stamp(5, 3));
    var c := Movement(key, Some(2), 1, 0, In, GoodsReceipt, refId, Stamp(5, 2));
    var one := ReceiveLine(cfg, empty, lines[0], refId);
    var _ := ReceivedRow(cfg, empty, lines[0], refId);
    var two := ReceiveLine(cfg, one, lines[1], refId);
    var _ := ReceivedRow(cfg, one, lines[1], refId);
    var three := ReceiveLine(cfg, two, lines[2], refId);
    var _ := ReceivedRow(cfg, two, lines[2], refId);
    hide ReceiveLine;
    assert one.stock.log == [a] && two.stock.log == [a, b] && three.stock.log == [a, b, c];
    assert lines[1..] == [lines[1], lines[2]] && [lines[1], lines[2]][1..] == [lines[2]] && [lines[2]][1..] == [];
    assert ReceiveLines(cfg, two, [lines[2]], refId) == three;
    assert ReceiveLines(cfg, one, [lines[1], lines[2]], refId) == three;
    assert ReceiveLines(cfg, empty, lines, refId) == three;
    EmptyIsCached(empty);
    StepKeepsCache(cfg, empty, Receive(lines, refId));
    RowsOfOneKey([a, b, c], key);
    ThirdSortsSecond(a, b, c);
    AverageOfThree(a, b, c);
  }

  lemma {:induction false} EmptyIsCached(st: State)
    requires st == State(Stock([], map[]), map[])
    ensures Cached(st.stock)
  {
  }
}
