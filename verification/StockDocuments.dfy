/**
 The goods issue and the stock adjustment with their lifecycles (`goods-issue.service.ts`,
 `stock-adjustment.service.ts` under `apps/api/src/inventory/`).
 */
module StockDocuments {
  import opened Money
  import opened Optional
  import opened Ledger
  import opened Costing
  import opened Inventory
  import opened UnitConversion

  // --- goods issues ---------------------------------------------------------------------------------------

  /** The lines of an issue, one by one: convert, check the stock, post; the first failure is the document's. */
  function PostLines(cfg: Config, units: Units, st: State, lines: seq<DocLine>, allowNegative: bool, refId: nat)
    : Result<State, Failure>
    decreases |lines|
  {
    if lines == [] then Ok(st)
    else
      match ToBase(units, lines[0])
      case Err(e) => Err(e)
      case Ok(qty) =>
        var key := Key(lines[0].item, cfg.warehouse);
        if !allowNegative && AtHand(st, key).onHand < qty then Err(InsufficientStock)
        else PostLines(cfg, units, TakeOut(cfg, st, key, qty, GoodsIssue, refId), lines[1..], allowNegative, refId)
  }

  /** The lines in base units. */
  function Issued(lines: seq<DocLine>, qtys: seq<int>): seq<IssueLine>
    requires |qtys| == |lines|
  {
    seq(|lines|, i requires 0 <= i < |lines| => IssueLine(lines[i].item, qtys[i]))
  }

  /** A posted document is the issue of its converted lines, the operation every run theorem is about. */
  lemma {:induction false} PostIsIssue(cfg: Config, units: Units, st: State, lines: seq<DocLine>, allowNegative: bool,
                                       refId: nat)
    ensures var posted := PostLines(cfg, units, st, lines, allowNegative, refId);
            match AllToBase(units, lines)
            case Err(e) => posted == Err(e) || posted == Err(InsufficientStock)
            case Ok(qtys) =>
              match IssueLines(cfg, st, Issued(lines, qtys), allowNegative, refId)
              case Some(after) => posted == Ok(after)
              case None => posted == Err(InsufficientStock)
    decreases |lines|
  {
    hide TakeOut, ToBase;
    if lines != [] && ToBase(units, lines[0]).Ok? {
      var qty := ToBase(units, lines[0]).value;
      var next := TakeOut(cfg, st, Key(lines[0].item, cfg.warehouse), qty, GoodsIssue, refId);
      PostIsIssue(cfg, units, next, lines[1..], allowNegative, refId);
      var rest := AllToBase(units, lines[1..]);
      if rest.Ok? {
        assert Issued(lines, [qty] + rest.value)[1..] == Issued(lines[1..], rest.value);
      }
    }
  }

  datatype IssueStatus = IssueDraft | IssuePosted

  class GoodsIssueDocument {
    const id: nat
    const lines: seq<DocLine>
    var status: IssueStatus

    constructor (id: nat, lines: seq<DocLine>)
      ensures this.id == id && this.lines == lines && status == IssueDraft
    {
      this.id, this.lines, status := id, lines, IssueDraft;
    }

    /** DRAFT to POSTED, once and wholly: any failure leaves tables and status as they were. */
    method Post(tables: StockTables, units: Units, allowNegative: bool) returns (failure: Option<Failure>)
      modifies this, tables
      ensures old(status) == IssuePosted ==>
                failure == Some(StateConflict) && status == IssuePosted && tables.Snapshot() == old(tables.Snapshot())
      ensures old(status) == IssueDraft ==>
                match PostLines(tables.cfg, units, old(tables.Snapshot()), lines, allowNegative, id)
                case Ok(after) => failure == None && status == IssuePosted && tables.Snapshot() == after
                case Err(e) => failure == Some(e) && status == IssueDraft && tables.Snapshot() == old(tables.Snapshot())
    {
      if status != IssueDraft {
        return Some(StateConflict);
      }
      var before := (tables.movements, tables.balances, tables.lots);
      ghost var target := PostLines(tables.cfg, units, tables.Snapshot(), lines, allowNegative, id);
      assert lines[0..] == lines;
      for i := 0 to |lines|
        invariant status == IssueDraft
        invariant PostLines(tables.cfg, units, tables.Snapshot(), lines[i..], allowNegative, id) == target
      {
        ghost var rest := lines[i..];
        assert rest[0] == lines[i] && rest[1..] == lines[i + 1..];
        var converted := ToBase(units, lines[i]);
        if converted.Err? {
          tables.movements, tables.balances, tables.lots := before.0, before.1, before.2;
          return Some(converted.error);
        }
        var key := Key(lines[i].item, tables.cfg.warehouse);
        var balance := tables.LoadBalance(key);
        if !allowNegative && balance.onHand < converted.value {
          tables.movements, tables.balances, tables.lots := before.0, before.1, before.2;
          return Some(InsufficientStock);
        }
        hide ToBase, TakeOut;
        tables.IssueStock(key, converted.value, GoodsIssue, id);
      }
      status := IssuePosted;
      failure := None;
    }
  }

  // --- stock adjustments -----------------------------------------------------------------------------------

  datatype AdjustmentStatus = AdjustmentDraft | AdjustmentApproved | AdjustmentPosted

  /** The audit's quantities on hand, by item and warehouse. */
  datatype Audit = Audit(before: map<Key, int>, after: map<Key, int>)

  function AdjustOne(cfg: Config, st: State, line: StockLine, refId: nat): State {
    AdjustLines(cfg, st, [line], refId)
  }

  function Audited(cfg: Config, st: State, lines: seq<StockLine>, refId: nat, audit: Audit): Audit
    decreases |lines|
  {
    if lines == [] then audit
    else
      var next, key := AdjustOne(cfg, st, lines[0], refId), lines[0].key;
      Audited(cfg, next, lines[1..], refId,
              Audit(audit.before[key := AtHand(st, key).onHand], audit.after[key := AtHand(next, key).onHand]))
  }

  lemma {:induction false} AdjustUnfolds(cfg: Config, st: State, lines: seq<StockLine>, refId: nat)
    requires lines != []
    ensures AdjustLines(cfg, st, lines, refId)
            == AdjustLines(cfg, AdjustOne(cfg, st, lines[0], refId), lines[1..], refId)
  {
    var p := GridPosting(lines[0].key, None, lines[0].qty, AtHand(st, lines[0].key).avgCost, Adjust, Adjustment, refId);
    assert [lines[0]][1..] == [];
    assert AdjustLines(cfg, Append(cfg, st, p), [], refId) == Append(cfg, st, p);
    hide Append;
  }

  /** A line as requested; no warehouse means the default one. */
  datatype DeltaLine = DeltaLine(item: nat, warehouse: Option<nat>, qty: int)

  function StoredLines(cfg: Config, input: seq<DeltaLine>): (lines: seq<StockLine>)
    ensures |lines| == |input|
  {
    seq(|input|, i requires 0 <= i < |input| =>
      var warehouse := if input[i].warehouse.Some? then input[i].warehouse.value else cfg.warehouse;
      StockLine(Key(input[i].item, warehouse), input[i].qty))
  }

  /** The primary key of the line table: one line per document, item and warehouse. */
  predicate DistinctKeys(lines: seq<StockLine>) {
    forall i, j | 0 <= i < j < |lines| :: lines[i].key != lines[j].key
  }

  /** A draft of the requested lines, unless there are none or the key rejects a second line. */
  method CreateDraft(cfg: Config, id: nat, input: seq<DeltaLine>) returns (draft: Option<StockAdjustmentDocument>)
    ensures draft.Some? <==> input != [] && DistinctKeys(StoredLines(cfg, input))
    ensures draft.Some? ==>
              && fresh(draft.value) && draft.value.Valid() && draft.value.status == AdjustmentDraft
              && draft.value.id == id && draft.value.lines == StoredLines(cfg, input)
              && |draft.value.lines| == |input|
              && forall i | 0 <= i < |input| ::
                   && draft.value.lines[i].key.item == input[i].item && draft.value.lines[i].qty == input[i].qty
                   && draft.value.lines[i].key.warehouse
                      == if input[i].warehouse.Some? then input[i].warehouse.value else cfg.warehouse
  {
    var lines, keys := StoredLines(cfg, input), {};
    for i := 0 to |lines|
      invariant DistinctKeys(lines[..i])
      invariant forall key :: key in keys <==> exists j | 0 <= j < i :: lines[j].key == key
    {
      if lines[i].key in keys {
        return None;
      }
      keys := keys + {lines[i].key};
    }
    if lines == [] {
      return None;
    }
    assert lines[..|lines|] == lines;
    var document := new StockAdjustmentDocument(id, lines);
    draft := Some(document);
  }

  class StockAdjustmentDocument {
    const id: nat
    const lines: seq<StockLine>
    var status: AdjustmentStatus

    constructor (id: nat, lines: seq<StockLine>)
      requires DistinctKeys(lines)
      ensures this.id == id && this.lines == lines && status == AdjustmentDraft && Valid()
    {
      this.id, this.lines, status := id, lines, AdjustmentDraft;
    }

    ghost predicate Valid() {
      DistinctKeys(lines)
    }

    method Approve() returns (ok: bool)
      requires Valid()
      modifies this
      ensures Valid() && ok == (old(status) == AdjustmentDraft)
      ensures status == if ok then AdjustmentApproved else old(status)
    {
      ok := status == AdjustmentDraft;
      if ok {
        status := AdjustmentApproved;
      }
    }

    /** APPROVED to POSTED, once: an ADJUST per line, and the audit of what was on hand before and after. */
    method Post(tables: StockTables) returns (audit: Option<Audit>)
      requires Valid()
      modifies this, tables
      ensures Valid() && audit.Some? == (old(status) == AdjustmentApproved)
      ensures audit.None? ==> status == old(status) && tables.Snapshot() == old(tables.Snapshot())
      ensures audit.Some? ==>
                && status == AdjustmentPosted
                && tables.Snapshot() == Step(tables.cfg, old(tables.Snapshot()), AdjustStock(lines, id))
                && audit.value == Audited(tables.cfg, old(tables.Snapshot()), lines, id, Audit(map[], map[]))
                && AuditIsOf(old(tables.Snapshot()), tables.Snapshot(), lines, audit.value)
    {
      if status != AdjustmentApproved {
        return None;
      }
      hide AuditIsOf, DistinctKeys;
      var maps := Audit(map[], map[]);
      ghost var target := Audited(tables.cfg, tables.Snapshot(), lines, id, maps);
      ghost var posted := AdjustLines(tables.cfg, tables.Snapshot(), lines, id);
      assert lines[0..] == lines;
      for i := 0 to |lines|
        invariant status == AdjustmentApproved
        invariant Audited(tables.cfg, tables.Snapshot(), lines[i..], id, maps) == target
        invariant AdjustLines(tables.cfg, tables.Snapshot(), lines[i..], id) == posted
      {
        ghost var rest, was := lines[i..], tables.Snapshot();
        assert rest[0] == lines[i] && rest[1..] == lines[i + 1..];
        AdjustUnfolds(tables.cfg, was, rest, id);
        hide Audited, AdjustLines, Append;
        var key := lines[i].key;
        var balance := tables.LoadBalance(key);
        AuditedUnfolds(tables.cfg, was, rest, id, maps);
        tables.PostAdjustment([lines[i]], id);
        var after := tables.LoadBalance(key);
        maps := Audit(maps.before[key := balance.onHand], maps.after[key := after.onHand]);
      }
      AuditIsRight(tables.cfg, old(tables.Snapshot()), lines, id);
      status := AdjustmentPosted;
      audit := Some(maps);
    }
  }

  lemma {:induction false} AuditedUnfolds(cfg: Config, st: State, lines: seq<StockLine>, refId: nat, audit: Audit)
    requires lines != []
    ensures var next, key := AdjustOne(cfg, st, lines[0], refId), lines[0].key;
            Audited(cfg, st, lines, refId, audit)
            == Audited(cfg, next, lines[1..], refId,
                       Audit(audit.before[key := AtHand(st, key).onHand], audit.after[key := AtHand(next, key).onHand]))
  {
  }

  // --- what the audit says -----------------------------------------------------------------------------------

  function Deltas(lines: seq<StockLine>, key: Key): int {
    if lines == [] then 0 else (if lines[0].key == key then lines[0].qty else 0) + Deltas(lines[1..], key)
  }

  predicate Touches(lines: seq<StockLine>, key: Key) {
    exists line | line in lines :: line.key == key
  }

  /** The deltas of the key's lines before its last one. */
  function EarlierDeltas(lines: seq<StockLine>, key: Key): int {
    if lines == [] then 0
    else (if lines[0].key == key && Touches(lines[1..], key) then lines[0].qty else 0) + EarlierDeltas(lines[1..], key)
  }

  lemma {:induction false} AdjustOneAddsDelta(cfg: Config, st: State, line: StockLine, refId: nat, key: Key)
    ensures AtHand(AdjustOne(cfg, st, line, refId), key).onHand
            == AtHand(st, key).onHand + if line.key == key then line.qty else 0
  {
    var p := GridPosting(line.key, None, line.qty, AtHand(st, line.key).avgCost, Adjust, Adjustment, refId);
    assert [line][1..] == [];
    assert AdjustLines(cfg, Append(cfg, st, p), [], refId) == Append(cfg, st, p);
    RoundOnGrid(AtHand(st, line.key).onHand + line.qty);
  }

  /** What adjusting and auditing lines means for one key, from any audit so far. */
  ghost predicate AuditOfKeyHolds(cfg: Config, st: State, lines: seq<StockLine>, refId: nat, audit: Audit, key: Key) {
    var end, result := AdjustLines(cfg, st, lines, refId), Audited(cfg, st, lines, refId, audit);
    && AtHand(end, key).onHand == AtHand(st, key).onHand + Deltas(lines, key)
    && (Touches(lines, key) ==>
          && key in result.before && result.before[key] == AtHand(st, key).onHand + EarlierDeltas(lines, key)
          && key in result.after && result.after[key] == AtHand(end, key).onHand)
    && (!Touches(lines, key) ==>
          && Deltas(lines, key) == EarlierDeltas(lines, key) == 0
          && (key in result.before <==> key in audit.before) && (key in result.after <==> key in audit.after)
          && (key in audit.before ==> result.before[key] == audit.before[key])
          && (key in audit.after ==> result.after[key] == audit.after[key]))
  }

  lemma {:induction false} AuditOfKey(cfg: Config, st: State, lines: seq<StockLine>, refId: nat, audit: Audit, key: Key)
    ensures AuditOfKeyHolds(cfg, st, lines, refId, audit, key)
    decreases |lines|
  {
    if lines != [] {
      var next, k := AdjustOne(cfg, st, lines[0], refId), lines[0].key;
      assert Touches(lines, key) <==> k == key || Touches(lines[1..], key) by {
        assert lines == [lines[0]] + lines[1..];
      }
      AdjustUnfolds(cfg, st, lines, refId);
      AuditedUnfolds(cfg, st, lines, refId, audit);
      AdjustOneAddsDelta(cfg, st, lines[0], refId, key);
      hide AdjustOne, AdjustLines, Touches, AtHand, Audited;
      AuditOfKey(cfg, next, lines[1..], refId,
                 Audit(audit.before[k := AtHand(st, k).onHand], audit.after[k := AtHand(next, k).onHand]), key);
    }
  }

  lemma {:induction false} OneLinePerKey(lines: seq<StockLine>, i: nat)
    requires DistinctKeys(lines) && i < |lines|
    ensures Deltas(lines, lines[i].key) == lines[i].qty && EarlierDeltas(lines, lines[i].key) == 0
    decreases |lines|
  {
    var rest := lines[1..];
    if i == 0 {
      UntouchedKey(rest, lines[0].key);
    } else {
      assert rest[i - 1] == lines[i] && lines[0].key != lines[i].key;
      OneLinePerKey(rest, i - 1);
    }
  }

  lemma {:induction false} UntouchedKey(lines: seq<StockLine>, key: Key)
    requires forall line | line in lines :: line.key != key
    ensures !Touches(lines, key) && Deltas(lines, key) == EarlierDeltas(lines, key) == 0
    decreases |lines|
  {
    if lines != [] {
      UntouchedKey(lines[1..], key);
    }
  }

  /** The audit says, of exactly the touched items and warehouses, what was on hand and what is. */
  ghost predicate AuditIsOf(was: State, now: State, lines: seq<StockLine>, audit: Audit) {
    && (forall key :: key in audit.before <==> Touches(lines, key))
    && (forall key :: key in audit.after <==> Touches(lines, key))
    && (forall line | line in lines ::
          && audit.before[line.key] == AtHand(was, line.key).onHand
          && audit.after[line.key] == AtHand(now, line.key).onHand == AtHand(was, line.key).onHand + line.qty)
  }

  /** With one line per item and warehouse, as the line table has it, the audit of an adjustment is right. */
  lemma {:induction false} AuditIsRight(cfg: Config, st: State, lines: seq<StockLine>, refId: nat)
    requires DistinctKeys(lines)
    ensures AuditIsOf(st, Step(cfg, st, AdjustStock(lines, refId)), lines,
                      Audited(cfg, st, lines, refId, Audit(map[], map[])))
  {
    var audit := Audited(cfg, st, lines, refId, Audit(map[], map[]));
    var now := Step(cfg, st, AdjustStock(lines, refId));
    forall key
      ensures (key in audit.before <==> Touches(lines, key)) && (key in audit.after <==> Touches(lines, key))
    {
      AuditOfKey(cfg, st, lines, refId, Audit(map[], map[]), key);
    }
    hide Audited, AdjustLines, AtHand, Deltas, EarlierDeltas;
    forall i | 0 <= i < |lines|
      ensures Touches(lines, lines[i].key) && audit.before[lines[i].key] == AtHand(st, lines[i].key).onHand
      ensures audit.after[lines[i].key] == AtHand(now, lines[i].key).onHand
      ensures AtHand(now, lines[i].key).onHand == AtHand(st, lines[i].key).onHand + lines[i].qty
    {
      AuditOfKey(cfg, st, lines, refId, Audit(map[], map[]), lines[i].key);
      OneLinePerKey(lines, i);
    }
  }
}
