/**
 The rows of the tenant tables and the two statements the purges run on them: delete one tenant's
 rows of one table, and null a foreign-key column of one tenant.
 */
module TenantRows {
  import opened Optional
  import opened TenantTables

  type Column = string

  /** A foreign key from one tenant table to another (or to itself). */
  datatype Fk = Fk(table: Name, column: Column, references: Name)

  /** What the lead capture reads: identity and user rows; every other row is opaque. */
  datatype Info = Identity(google: bool, email: Option<string>) | Guest(superAdmin: bool, address: string) | Other

  datatype Row = Row(id: nat, tenant: nat, table: Name, refs: map<Column, Option<nat>>, info: Info)

  /** `target` is the row that column `c` of `r` points at; a reference never leaves its tenant. */
  ghost predicate Points(fks: set<Fk>, r: Row, c: Column, target: Row)
    requires c in r.refs && r.refs[c].Some?
  {
    target.id == r.refs[c].value && target.tenant == r.tenant && Fk(r.table, c, target.table) in fks
  }

  /** Referential integrity: no foreign-key column dangles. */
  ghost predicate Integral(fks: set<Fk>, rows: seq<Row>) {
    forall r, c | r in rows && c in r.refs && r.refs[c].Some? ::
      exists target :: target in rows && Points(fks, r, c, target)
  }

  /** `DELETE FROM table WHERE tenant_id = tenant`. */
  function Delete(rows: seq<Row>, tenant: nat, table: Name): (left: seq<Row>)
    ensures forall r :: r in left <==> r in rows && !(r.tenant == tenant && r.table == table)
  {
    if rows == [] then []
    else
      var rest := Delete(rows[1..], tenant, table);
      if rows[0].tenant == tenant && rows[0].table == table then rest else [rows[0]] + rest
  }

  function DetachRow(r: Row, tenant: nat, columns: set<(Name, Column)>): Row {
    if r.tenant != tenant then r
    else r.(refs := map c | c in r.refs :: if (r.table, c) in columns then None else r.refs[c])
  }

  /** `UPDATE table SET column = NULL WHERE tenant_id = tenant`, for every listed column. */
  function Detach(rows: seq<Row>, tenant: nat, columns: set<(Name, Column)>): (left: seq<Row>)
    ensures |left| == |rows|
    ensures forall i | 0 <= i < |rows| :: left[i] == DetachRow(rows[i], tenant, columns)
  {
    seq(|rows|, i requires 0 <= i < |rows| => DetachRow(rows[i], tenant, columns))
  }

  /** The listed columns of the tenant's rows are null. */
  ghost predicate Detached(rows: seq<Row>, tenant: nat, columns: set<(Name, Column)>) {
    forall r, c | r in rows && r.tenant == tenant && c in r.refs && (r.table, c) in columns :: r.refs[c].None?
  }

  lemma {:induction false} DetachIsIntegral(fks: set<Fk>, rows: seq<Row>, tenant: nat, columns: set<(Name, Column)>)
    requires Integral(fks, rows)
    ensures Integral(fks, Detach(rows, tenant, columns))
    ensures Detached(Detach(rows, tenant, columns), tenant, columns)
  {
    var left := Detach(rows, tenant, columns);
    forall r, c | r in left && c in r.refs && r.refs[c].Some?
      ensures exists target :: target in left && Points(fks, r, c, target)
    {
      var i :| 0 <= i < |left| && left[i] == r;
      var target :| target in rows && Points(fks, rows[i], c, target);
      var j :| 0 <= j < |rows| && rows[j] == target;
      assert left[j] in left && Points(fks, r, c, left[j]);
    }
  }

  /** `b` is deleted after `a` in the sequence `s`. */
  ghost predicate Later(s: seq<Name>, a: Name, b: Name) {
    exists i, j :: 0 <= i < j < |s| && s[i] == a && s[j] == b
  }

  /** No table still to be deleted references one already deleted, save through a nulled column. */
  ghost predicate ChildrenFirst(s: seq<Name>, fks: set<Fk>, columns: set<(Name, Column)>) {
    forall fk | fk in fks && Later(s, fk.references, fk.table) :: (fk.table, fk.column) in columns
  }

  /** The tenant's rows all sit in tables of `s`, none of them among the first `k`. */
  ghost predicate DeletedUpTo(rows: seq<Row>, tenant: nat, s: seq<Name>, k: nat)
    requires k <= |s|
  {
    forall r | r in rows && r.tenant == tenant :: r.table in s && r.table !in s[..k]
  }

  /** One delete of a children-first sequence leaves no dangling reference behind. */
  lemma {:induction false} DeleteIsIntegral(fks: set<Fk>, rows: seq<Row>, tenant: nat, s: seq<Name>, k: nat,
      columns: set<(Name, Column)>)
    requires Integral(fks, rows) && Detached(rows, tenant, columns)
    requires k < |s| && DeletedUpTo(rows, tenant, s, k) && ChildrenFirst(s, fks, columns)
    ensures var left := Delete(rows, tenant, s[k]);
            && Integral(fks, left) && Detached(left, tenant, columns)
            && DeletedUpTo(left, tenant, s, k + 1)
  {
  }

  ghost function DeletePrefix(rows: seq<Row>, tenant: nat, s: seq<Name>, k: nat): seq<Row>
    requires k <= |s|
  {
    if k == 0 then rows else Delete(DeletePrefix(rows, tenant, s, k - 1), tenant, s[k - 1])
  }

  /** Every purge of every tenant of every sound database stays sound after each single delete. */
  ghost predicate AlwaysSafe(s: seq<Name>, fks: set<Fk>, columns: set<(Name, Column)>) {
    forall rows, tenant: nat, k: nat | k <= |s| && Integral(fks, rows) && DeletedUpTo(rows, tenant, s, 0) ::
      Integral(fks, DeletePrefix(Detach(rows, tenant, columns), tenant, s, k))
  }

  lemma {:induction false} PrefixIsIntegral(fks: set<Fk>, rows: seq<Row>, tenant: nat, s: seq<Name>, k: nat,
                                            columns: set<(Name, Column)>)
    requires k <= |s| && Integral(fks, rows) && Detached(rows, tenant, columns)
    requires DeletedUpTo(rows, tenant, s, 0) && ChildrenFirst(s, fks, columns)
    ensures var left := DeletePrefix(rows, tenant, s, k);
            Integral(fks, left) && Detached(left, tenant, columns) && DeletedUpTo(left, tenant, s, k)
  {
    if k > 0 {
      PrefixIsIntegral(fks, rows, tenant, s, k - 1, columns);
      var before := DeletePrefix(rows, tenant, s, k - 1);
      hide Integral, Detached, ChildrenFirst, DeletedUpTo;
      DeleteIsIntegral(fks, before, tenant, s, k - 1, columns);
      assert DeletePrefix(rows, tenant, s, k) == Delete(before, tenant, s[k - 1]);
    }
  }

  lemma {:induction false} PrefixKeeps(rows: seq<Row>, tenant: nat, s: seq<Name>, k: nat, r: Row)
    requires k <= |s|
    ensures r in DeletePrefix(rows, tenant, s, k) <==> r in rows && !(r.tenant == tenant && r.table in s[..k])
  {
    if k > 0 {
      PrefixKeeps(rows, tenant, s, k - 1, r);
      assert s[..k] == s[..k - 1] + [s[k - 1]];
    }
  }

  /** A delete order is safe for every database exactly when it is children-first. */
  lemma {:induction false} SafeExactlyWhenChildrenFirst(s: seq<Name>, fks: set<Fk>, columns: set<(Name, Column)>)
    requires Distinct(s)
    ensures AlwaysSafe(s, fks, columns) <==> ChildrenFirst(s, fks, columns)
  {
    if ChildrenFirst(s, fks, columns) {
      forall rows, tenant: nat, k: nat | k <= |s| && Integral(fks, rows) && DeletedUpTo(rows, tenant, s, 0)
        ensures Integral(fks, DeletePrefix(Detach(rows, tenant, columns), tenant, s, k))
      {
        DetachIsIntegral(fks, rows, tenant, columns);
        PrefixIsIntegral(fks, Detach(rows, tenant, columns), tenant, s, k, columns);
      }
    } else {
      var fk :| fk in fks && Later(s, fk.references, fk.table) && (fk.table, fk.column) !in columns;
      var i, j :| 0 <= i < j < |s| && s[i] == fk.references && s[j] == fk.table;
      UnsafeExample(s, fks, columns, fk, i, j);
    }
  }

  lemma {:induction false} UnsafeRows(s: seq<Name>, fks: set<Fk>, fk: Fk, i: nat, j: nat, rows: seq<Row>)
    requires Distinct(s) && i < j < |s| && s[i] == fk.references && s[j] == fk.table && fk in fks
    requires rows == [Row(0, 0, s[i], map[], Other), Row(1, 0, s[j], map[fk.column := Some(0)], Other)]
    ensures Integral(fks, rows) && DeletedUpTo(rows, 0, s, 0)
  {
    assert Points(fks, rows[1], fk.column, rows[0]);
  }

  lemma {:induction false} UnsafePrefix(s: seq<Name>, fks: set<Fk>, fk: Fk, i: nat, j: nat, rows: seq<Row>)
    requires Distinct(s) && i < j < |s| && s[i] == fk.references && s[j] == fk.table
    requires rows == [Row(0, 0, s[i], map[], Other), Row(1, 0, s[j], map[fk.column := Some(0)], Other)]
    ensures !Integral(fks, DeletePrefix(rows, 0, s, i + 1))
  {
    hide DeletePrefix;
    var left, child := DeletePrefix(rows, 0, s, i + 1), rows[1];
    PrefixKeeps(rows, 0, s, i + 1, child);
    forall target | target in left ensures !Points(fks, child, fk.column, target) {
      PrefixKeeps(rows, 0, s, i + 1, target);
      assert s[i] in s[..i + 1];
    }
    Dangles(fks, left, child, fk.column);
  }

  lemma {:induction false} Dangles(fks: set<Fk>, rows: seq<Row>, r: Row, c: Column)
    requires r in rows && c in r.refs && r.refs[c].Some?
    requires forall target | target in rows :: !Points(fks, r, c, target)
    ensures !Integral(fks, rows)
  {
  }

  /** Two rows suffice: the child outlives its parent by the deletes between the two tables. */
  lemma {:induction false} UnsafeExample(s: seq<Name>, fks: set<Fk>, columns: set<(Name, Column)>, fk: Fk, i: nat,
      j: nat)
    requires Distinct(s) && i < j < |s| && s[i] == fk.references && s[j] == fk.table
    requires fk in fks && (fk.table, fk.column) !in columns
    ensures !AlwaysSafe(s, fks, columns)
  {
    var rows := [Row(0, 0, s[i], map[], Other), Row(1, 0, s[j], map[fk.column := Some(0)], Other)];
    UnsafeRows(s, fks, fk, i, j, rows);
    UnsafePrefix(s, fks, fk, i, j, rows);
    assert DetachRow(rows[1], 0, columns).refs == rows[1].refs;
    assert Detach(rows, 0, columns) == rows;
    hide Integral, DeletedUpTo, DeletePrefix;
  }
}
