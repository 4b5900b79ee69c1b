/** The append-only stock ledger and its balance cache (`apps/api/src/inventory/ledger.service.ts`). */
module Ledger {
  import opened Money
  import opened Optional

  datatype Direction = In | Out | Adjust

  datatype RefType = GoodsReceipt | GoodsIssue | Backflush | Adjustment | StockCount

  datatype Key = Key(item: nat, warehouse: nat)

  datatype Balance = Balance(onHand: int, avgCost: int)

  /** The time and the random id a movement is stored under. */
  datatype Stamp = Stamp(at: int, id: int)

  datatype Movement = Movement(key: Key, lot: Option<nat>, qty: int, unitCost: int, direction: Direction,
                               refType: RefType, refId: nat, stamp: Stamp)

  /** A posting as the caller hands it over: `qty` and `unitCost` are raw, possibly off the grid. */
  datatype Posting = Posting(key: Key, lot: Option<nat>, qty: real, unitCost: real, direction: Direction,
                             refType: RefType, refId: nat, allowNegative: bool)

  datatype Stock = Stock(log: seq<Movement>, balances: map<Key, Balance>)

  const ZERO_BALANCE := Balance(0, 0)

  function BalanceOf(stock: Stock, key: Key): Balance {
    if key in stock.balances then stock.balances[key] else ZERO_BALANCE
  }

  /** How one movement changes a balance; only an IN moves the average. */
  function Apply(before: Balance, direction: Direction, qty: real, unitCost: real): Balance {
    Balance(Round(before.onHand as real + qty),
            if direction == In then MovingAverage(before.onHand, before.avgCost, qty, unitCost) else before.avgCost)
  }

  /** Append a movement, stamped `stamp`, and refresh the cache; an OUT below zero may be refused. */
  function Post(stock: Stock, p: Posting, stamp: Stamp): Option<Stock> {
    var after := Apply(BalanceOf(stock, p.key), p.direction, p.qty, p.unitCost);
    if !p.allowNegative && p.direction == Out && after.onHand < 0 then None
    else
      var m := Movement(p.key, p.lot, Round(p.qty), Round(p.unitCost), p.direction, p.refType, p.refId, stamp);
      Some(Stock(stock.log + [m], stock.balances[p.key := after]))
  }

  // --- replay -----------------------------------------------------------------------------------

  function RowsOf(log: seq<Movement>, key: Key): seq<Movement> {
    if log == [] then []
    else
      var last := log[|log| - 1];
      RowsOf(log[..|log| - 1], key) + if last.key == key then [last] else []
  }

  function ApplyRow(before: Balance, m: Movement): Balance {
    Apply(before, m.direction, m.qty as real, m.unitCost as real)
  }

  function Fold(rows: seq<Movement>): Balance {
    if rows == [] then ZERO_BALANCE else ApplyRow(Fold(rows[..|rows| - 1]), rows[|rows| - 1])
  }

  predicate Precedes(a: Stamp, b: Stamp) {
    a.at < b.at || (a.at == b.at && a.id <= b.id)
  }

  ghost predicate Chronological(rows: seq<Movement>) {
    forall i, j | 0 <= i < j < |rows| :: Precedes(rows[i].stamp, rows[j].stamp)
  }

  /** `m` after every row that does not follow it. */
  function Insert(rows: seq<Movement>, m: Movement): (r: seq<Movement>)
    ensures multiset(r) == multiset(rows) + multiset{m}
  {
    if rows == [] || Precedes(rows[|rows| - 1].stamp, m.stamp) then rows + [m]
    else
      assert rows == rows[..|rows| - 1] + [rows[|rows| - 1]];
      Insert(rows[..|rows| - 1], m) + [rows[|rows| - 1]]
  }

  /** `ORDER BY at, id`. */
  function OrderByAtId(rows: seq<Movement>): (r: seq<Movement>)
    ensures multiset(r) == multiset(rows)
  {
    if rows == [] then []
    else
      assert rows == rows[..|rows| - 1] + [rows[|rows| - 1]];
      Insert(OrderByAtId(rows[..|rows| - 1]), rows[|rows| - 1])
  }

  lemma {:induction false} InsertIsChronological(rows: seq<Movement>, m: Movement)
    requires Chronological(rows)
    ensures Chronological(Insert(rows, m))
  {
    if rows != [] && !Precedes(rows[|rows| - 1].stamp, m.stamp) {
      var init, last := rows[..|rows| - 1], rows[|rows| - 1];
      InsertIsChronological(init, m);
      forall x | x in Insert(init, m) ensures Precedes(x.stamp, last.stamp) {
        assert x in multiset(Insert(init, m));
        assert x in init || x == m;
      }
    }
  }

  lemma {:induction false} OrderIsChronological(rows: seq<Movement>)
    ensures Chronological(OrderByAtId(rows))
    ensures var ordered := OrderByAtId(rows);
            forall i, j | 0 <= i < j < |ordered| ::
              || ordered[i].stamp.at < ordered[j].stamp.at
              || (ordered[i].stamp.at == ordered[j].stamp.at && ordered[i].stamp.id <= ordered[j].stamp.id)
  {
    if rows != [] {
      OrderIsChronological(rows[..|rows| - 1]);
      InsertIsChronological(OrderByAtId(rows[..|rows| - 1]), rows[|rows| - 1]);
    }
  }

  /** Rows already in `(at, id)` order are left alone. */
  lemma {:induction false} OrderOfChronological(rows: seq<Movement>)
    requires Chronological(rows)
    ensures OrderByAtId(rows) == rows
  {
    if rows != [] {
      var init, last := rows[..|rows| - 1], rows[|rows| - 1];
      InsertInPlace(rows);
      hide Chronological, Insert;
      OrderOfChronological(init);
      assert init + [last] == rows;
    }
  }

  lemma {:induction false} InsertInPlace(rows: seq<Movement>)
    requires rows != [] && Chronological(rows)
    ensures Chronological(rows[..|rows| - 1])
    ensures Insert(rows[..|rows| - 1], rows[|rows| - 1]) == rows[..|rows| - 1] + [rows[|rows| - 1]]
  {
  }

  /** The balance `rebuildBalance` writes back. */
  function Rebuilt(log: seq<Movement>, key: Key): Balance {
    Fold(OrderByAtId(RowsOf(log, key)))
  }

  // --- the cache agrees with the log --------------------------------------------------------------

  /** Every cached balance is the fold of its key's movements in posting order. */
  ghost predicate Cached(stock: Stock) {
    forall key :: BalanceOf(stock, key) == Fold(RowsOf(stock.log, key))
  }

  predicate OnGrid(p: Posting) {
    Round(p.qty) as real == p.qty && Round(p.unitCost) as real == p.unitCost
  }

  lemma {:induction false} RowsOfAppend(log: seq<Movement>, m: Movement, key: Key)
    ensures RowsOf(log + [m], key) == RowsOf(log, key) + if m.key == key then [m] else []
  {
  }

  lemma {:induction false} FoldAppend(rows: seq<Movement>, m: Movement)
    ensures Fold(rows + [m]) == ApplyRow(Fold(rows), m)
  {
  }

  lemma {:induction false} PostKeepsKey(stock: Stock, p: Posting, stamp: Stamp, key: Key)
    requires OnGrid(p) && Post(stock, p, stamp).Some?
    requires BalanceOf(stock, key) == Fold(RowsOf(stock.log, key))
    ensures var after := Post(stock, p, stamp).value;
            BalanceOf(after, key) == Fold(RowsOf(after.log, key))
  {
    var after := Post(stock, p, stamp).value;
    var m := Movement(p.key, p.lot, Round(p.qty), Round(p.unitCost), p.direction, p.refType, p.refId, stamp);
    assert m.qty as real == p.qty && m.unitCost as real == p.unitCost;
    hide Round, MovingAverage, RowsOf, Fold;
    assert after.log == stock.log + [m];
    RowsOfAppend(stock.log, m, key);
    FoldAppend(RowsOf(stock.log, key), m);
    assert RowsOf(stock.log, key) + [] == RowsOf(stock.log, key);
  }

  lemma {:induction false} PostKeepsCache(stock: Stock, p: Posting, stamp: Stamp)
    requires Cached(stock) && OnGrid(p) && Post(stock, p, stamp).Some?
    ensures Cached(Post(stock, p, stamp).value)
  {
    hide OnGrid, Post, BalanceOf, Fold, RowsOf;
    forall key ensures var after := Post(stock, p, stamp).value; BalanceOf(after, key) == Fold(RowsOf(after.log, key)) {
      PostKeepsKey(stock, p, stamp, key);
    }
  }

  /** Any number of postings, for any keys; a refused one changes nothing. */
  function PostAll(stock: Stock, ps: seq<Posting>, stamps: nat -> Stamp): Stock {
    if ps == [] then stock
    else
      var before := PostAll(stock, ps[..|ps| - 1], stamps);
      var posted := Post(before, ps[|ps| - 1], stamps(|before.log|));
      if posted.Some? then posted.value else before
  }

  /** However postings interleave over items and warehouses, the cache is the replay of the log. */
  lemma {:induction false} ReplayAgrees(stock: Stock, ps: seq<Posting>, stamps: nat -> Stamp)
    requires Cached(stock) && forall p | p in ps :: OnGrid(p)
    ensures Cached(PostAll(stock, ps, stamps))
  {
    if ps != [] {
      var n := |ps| - 1;
      ReplayAgrees(stock, ps[..n], stamps);
      var before := PostAll(stock, ps[..n], stamps);
      if Post(before, ps[n], stamps(|before.log|)).Some? {
        PostKeepsCache(before, ps[n], stamps(|before.log|));
      }
    }
  }

  /** Off the grid it fails: the cache averages the raw cost, the log keeps the rounded one. */
  lemma {:induction false} OffGridPostingDiverges(key: Key, m: Movement, stamp: Stamp)
    requires m.key == key && m.qty == 1 && m.unitCost == 0 && m.direction == In
    ensures var p := Posting(key, None, 1.0, 0.8, In, GoodsReceipt, 1, false);
            var stock := Stock([m], map[key := Balance(1, 0)]);
            && Cached(stock)
            && Post(stock, p, stamp).Some?
            && BalanceOf(Post(stock, p, stamp).value, key) == Balance(2, 0)
            && Fold(RowsOf(Post(stock, p, stamp).value.log, key)) == Balance(2, 1)
  {
  }

  // --- rebuilding -------------------------------------------------------------------------------

  function QtySum(rows: seq<Movement>): int {
    if rows == [] then 0 else QtySum(rows[..|rows| - 1]) + rows[|rows| - 1].qty
  }

  lemma {:induction false} OnHandIsQtySum(rows: seq<Movement>)
    ensures Fold(rows).onHand == QtySum(rows)
  {
    if rows != [] {
      OnHandIsQtySum(rows[..|rows| - 1]);
      RoundOnGrid(QtySum(rows));
    }
  }

  lemma {:induction false} QtySumConcat(a: seq<Movement>, b: seq<Movement>)
    ensures QtySum(a + b) == QtySum(a) + QtySum(b)
  {
    if b == [] {
      assert a + b == a;
    } else {
      QtySumConcat(a, b[..|b| - 1]);
      assert (a + b)[..|a + b| - 1] == a + b[..|b| - 1];
    }
  }

  lemma {:induction false} QtySumRemoveAt(b: seq<Movement>, k: nat)
    requires k < |b|
    ensures QtySum(b) == QtySum(b[..k] + b[k + 1..]) + b[k].qty
    ensures multiset(b) == multiset(b[..k] + b[k + 1..]) + multiset{b[k]}
  {
    assert b == b[..k] + [b[k]] + b[k + 1..];
    QtySumConcat(b[..k] + [b[k]], b[k + 1..]);
    QtySumConcat(b[..k], [b[k]]);
    QtySumConcat(b[..k], b[k + 1..]);
    assert [b[k]][..0] == [];
  }

  lemma {:induction false} QtySumPermuted(a: seq<Movement>, b: seq<Movement>)
    requires multiset(a) == multiset(b)
    ensures QtySum(a) == QtySum(b)
  {
    if a == [] {
      assert |multiset(b)| == 0;
    } else {
      var n := |a| - 1;
      assert a[n] in multiset(b);
      var k :| 0 <= k < |b| && b[k] == a[n];
      QtySumRemoveAt(b, k);
      assert a == a[..n] + [a[n]];
      assert multiset(a[..n]) == multiset(a) - multiset{a[n]};
      assert multiset(b[..k] + b[k + 1..]) == multiset(b) - multiset{a[n]};
      QtySumPermuted(a[..n], b[..k] + b[k + 1..]);
    }
  }

  /** The on-hand part of a balance does not depend on the order of the log at all. */
  lemma {:induction false} OnHandOfAnyOrder(a: seq<Movement>, b: seq<Movement>)
    requires multiset(a) == multiset(b)
    ensures Fold(a).onHand == Fold(b).onHand
  {
    QtySumPermuted(a, b);
    OnHandIsQtySum(a);
    OnHandIsQtySum(b);
  }

  /**
   Rebuilding never changes the on-hand quantity; it changes nothing at all when `(at, id)` order
   agrees with posting order.
   */
  lemma {:induction false} RebuildAgrees(stock: Stock, key: Key)
    requires Cached(stock)
    ensures Rebuilt(stock.log, key).onHand == BalanceOf(stock, key).onHand
    ensures Chronological(RowsOf(stock.log, key)) ==> Rebuilt(stock.log, key) == BalanceOf(stock, key)
  {
    OnHandOfAnyOrder(OrderByAtId(RowsOf(stock.log, key)), RowsOf(stock.log, key));
    if Chronological(RowsOf(stock.log, key)) {
      OrderOfChronological(RowsOf(stock.log, key));
    }
  }

  // --- the movements of one reference ---------------------------------------------------------------

  predicate OfRef(m: Movement, refType: RefType, refId: nat) {
    m.refType == refType && m.refId == refId
  }

  /** The movements posted for one document or work order, in log order. */
  function RefRows(log: seq<Movement>, refType: RefType, refId: nat): seq<Movement> {
    if log == [] then []
    else
      var last := log[|log| - 1];
      RefRows(log[..|log| - 1], refType, refId) + if OfRef(last, refType, refId) then [last] else []
  }

  lemma {:induction false} RefRowsConcat(a: seq<Movement>, b: seq<Movement>, refType: RefType, refId: nat)
    ensures RefRows(a + b, refType, refId) == RefRows(a, refType, refId) + RefRows(b, refType, refId)
  {
    if b == [] {
      assert a + b == a;
    } else {
      RefRowsConcat(a, b[..|b| - 1], refType, refId);
      assert (a + b)[..|a + b| - 1] == a + b[..|b| - 1];
    }
  }

  lemma {:induction false} RefRowsUniform(rows: seq<Movement>, refType: RefType, refId: nat, mine: bool)
    requires forall m | m in rows :: OfRef(m, refType, refId) == mine
    ensures RefRows(rows, refType, refId) == if mine then rows else []
  {
    if rows != [] {
      RefRowsUniform(rows[..|rows| - 1], refType, refId, mine);
      assert rows == rows[..|rows| - 1] + [rows[|rows| - 1]];
    }
  }

  lemma {:induction false} RefRowsGrow(log: seq<Movement>, added: seq<Movement>, refType: RefType, refId: nat,
      mine: bool)
    requires forall m | m in added :: OfRef(m, refType, refId) == mine
    ensures RefRows(log + added, refType, refId)
            == if mine then RefRows(log, refType, refId) + added else RefRows(log, refType, refId)
  {
    RefRowsConcat(log, added, refType, refId);
    RefRowsUniform(added, refType, refId, mine);
    assert RefRows(log, refType, refId) + [] == RefRows(log, refType, refId);
  }

  lemma {:induction false} RefRowsMembers(log: seq<Movement>, refType: RefType, refId: nat, m: Movement)
    ensures m in RefRows(log, refType, refId) <==> m in log && OfRef(m, refType, refId)
  {
    if log != [] {
      RefRowsMembers(log[..|log| - 1], refType, refId, m);
      assert log == log[..|log| - 1] + [log[|log| - 1]];
    }
  }

  // --- value under the moving average -------------------------------------------------------------

  function ValueSum(rows: seq<Movement>): int {
    if rows == [] then 0
    else ValueSum(rows[..|rows| - 1]) + Amount(rows[|rows| - 1].qty, rows[|rows| - 1].unitCost)
  }

  lemma {:induction false} ValueSumConcat(a: seq<Movement>, b: seq<Movement>)
    ensures ValueSum(a + b) == ValueSum(a) + ValueSum(b)
  {
    if b == [] {
      assert a + b == a;
    } else {
      hide Amount;
      ValueSumConcat(a, b[..|b| - 1]);
      assert (a + b)[..|a + b| - 1] == a + b[..|b| - 1];
    }
  }

  lemma {:induction false} RowsOfConcat(a: seq<Movement>, b: seq<Movement>, key: Key)
    ensures RowsOf(a + b, key) == RowsOf(a, key) + RowsOf(b, key)
  {
    if b == [] {
      assert a + b == a;
    } else {
      RowsOfConcat(a, b[..|b| - 1], key);
      assert (a + b)[..|a + b| - 1] == a + b[..|b| - 1];
    }
  }

  lemma {:induction false} RowsOfUniform(rows: seq<Movement>, key: Key, k: Key)
    requires forall m | m in rows :: m.key == key
    ensures RowsOf(rows, k) == if k == key then rows else []
  {
    if rows != [] {
      RowsOfUniform(rows[..|rows| - 1], key, k);
      assert rows == rows[..|rows| - 1] + [rows[|rows| - 1]];
    }
  }

  /** OUT and ADJUST movements go at the average of the moment. */
  ghost predicate OutsAtAverage(rows: seq<Movement>) {
    forall i | 0 <= i < |rows| && rows[i].direction != In :: rows[i].unitCost == Fold(rows[..i]).avgCost
  }

  /** Every IN brings a quantity that is not negative into a stock that is not negative. */
  ghost predicate InsOnStock(rows: seq<Movement>) {
    forall i | 0 <= i < |rows| && rows[i].direction == In :: rows[i].qty >= 0 && Fold(rows[..i]).onHand >= 0
  }

  /** The on-hand quantities right after each IN, added up. */
  function OnHandAfterIns(rows: seq<Movement>): int {
    if rows == [] then 0
    else
      OnHandAfterIns(rows[..|rows| - 1]) + if rows[|rows| - 1].direction == In then Fold(rows).onHand else 0
  }

  lemma {:induction false} DriftOfOne(before: Balance, m: Movement)
    requires m.direction == In ==> m.qty >= 0 && before.onHand >= 0
    requires m.direction != In ==> m.unitCost == before.avgCost
    ensures var after := ApplyRow(before, m);
            var drift := Amount(after.onHand, after.avgCost) - Amount(before.onHand, before.avgCost)
                         - Amount(m.qty, m.unitCost);
            && after.onHand == before.onHand + m.qty
            && (m.direction != In ==> drift == 0)
            && (m.direction == In ==> -after.onHand <= 2 * drift <= after.onHand)
  {
    RoundOnGrid(before.onHand + m.qty);
    hide MovingAverage, Round;
    if m.direction == In {
      MovingAverageError(before.onHand, before.avgCost, m.qty, m.unitCost);
    } else {
      AmountAdd(before.onHand, m.qty, before.avgCost);
    }
  }

  /**
   The cached value never drifts further from the exact ledger value than half a money unit per unit
   on hand after each IN: issues and adjustments at the average add no error.
   */
  lemma {:induction false} ValueDrift(rows: seq<Movement>)
    requires OutsAtAverage(rows) && InsOnStock(rows)
    ensures var drift := Amount(Fold(rows).onHand, Fold(rows).avgCost) - ValueSum(rows);
            -OnHandAfterIns(rows) <= 2 * drift <= OnHandAfterIns(rows)
  {
    if rows != [] {
      var n := |rows| - 1;
      var init, m := rows[..n], rows[n];
      assert forall i | 0 <= i < n :: rows[..i] == init[..i];
      ValueDrift(init);
      DriftOfOne(Fold(init), m);
      hide ApplyRow, Amount;
    }
  }
}
