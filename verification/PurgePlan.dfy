/** The delete orders of the two purges (`demo-purge-plan.ts`, `tenant-data.service.ts`). */
module PurgePlan {
  import opened Optional
  import opened TenantTables
  import opened TenantRows

  /** Deleted last, in this order. */
  const TAIL: seq<Name> := ["auth_identity", "user"]

  /** The tail columns nulled before the bulk phase. */
  const DETACHED: set<(Name, Column)> := {("user", "employee_id")}

  datatype Plan = Plan(bulk: seq<Name>, tail: seq<Name>)

  function Reverse(s: seq<Name>): (r: seq<Name>)
    ensures |r| == |s| && forall i | 0 <= i < |s| :: r[i] == s[|s| - 1 - i]
  {
    seq(|s|, i requires 0 <= i < |s| => s[|s| - 1 - i])
  }

  /** `s` without the tail tables, the others in their order. */
  function Bulk(s: seq<Name>): (bulk: seq<Name>)
    ensures forall n :: n in bulk <==> n in s && n !in TAIL
    ensures forall a, b :: Later(bulk, a, b) ==> Later(s, a, b)
    ensures Distinct(s) ==> Distinct(bulk)
  {
    if s == [] then []
    else
      var rest := Bulk(s[..|s| - 1]);
      var last := s[|s| - 1];
      assert forall a, b :: Later(rest, a, b) ==> Later(s, a, b) by {
        forall a, b | Later(rest, a, b) ensures Later(s, a, b) {
          var i, j :| 0 <= i < j < |s| - 1 && s[..|s| - 1][i] == a && s[..|s| - 1][j] == b;
          assert s[i] == a && s[j] == b;
        }
      }
      if last in TAIL then rest
      else
        assert forall a, b :: Later(rest + [last], a, b) ==> Later(s, a, b) by {
          forall a, b | Later(rest + [last], a, b) ensures Later(s, a, b) {
            var i, j :| 0 <= i < j <= |rest| && (rest + [last])[i] == a && (rest + [last])[j] == b;
            if j < |rest| {
              assert rest[i] == a && rest[j] == b;
              assert Later(rest, a, b);
            } else {
              assert a in rest;
              var k :| 0 <= k < |s| - 1 && s[k] == a;
              assert s[|s| - 1] == b;
            }
          }
        }
        rest + [last]
  }

  /** The tail split off the reversed foreign-key order; a tail table that is missing throws. */
  function DemoPurgePlan(ordered: seq<Name>): Result<Plan, Name> {
    if TAIL[0] !in ordered then Err(TAIL[0])
    else if TAIL[1] !in ordered then Err(TAIL[1])
    else Ok(Plan(Bulk(Reverse(ordered)), TAIL))
  }

  /** The foreign keys are the ones the graph was built from. */
  ghost predicate FksOf(schema: Schema, fks: set<Fk>) {
    forall fk | fk in fks && fk.table in schema && fk.references in schema && fk.table != fk.references ::
      fk.references in schema[fk.table]
  }

  lemma {:induction false} ReverseIsChildrenFirst(schema: Schema, ordered: seq<Name>, a: Name, b: Name)
    requires IsFkOrder(schema, ordered) && Later(Reverse(ordered), a, b)
    ensures a in schema && b in schema && a != b && !Edge(schema, b, a)
  {
  }

  /** The plain purge, in reversed foreign-key order, needs no column nulled. */
  lemma {:induction false} PlainPurgeSafe(schema: Schema, ordered: seq<Name>, fks: set<Fk>)
    requires IsFkOrder(schema, ordered) && FksOf(schema, fks)
    ensures Distinct(Reverse(ordered)) && (forall n :: n in Reverse(ordered) <==> n in schema)
    ensures AlwaysSafe(Reverse(ordered), fks, {})
  {
    var s := Reverse(ordered);
    forall n ensures n in s <==> n in schema {
      if n in ordered {
        var i :| 0 <= i < |ordered| && ordered[i] == n;
        assert s[|s| - 1 - i] == n;
      }
    }
    forall fk | fk in fks ensures !Later(s, fk.references, fk.table) {
      if Later(s, fk.references, fk.table) {
        ReverseIsChildrenFirst(schema, ordered, fk.references, fk.table);
      }
    }
    SafeExactlyWhenChildrenFirst(s, fks, {});
  }

  /**
   What the schema must satisfy: every foreign key from a tail table to a bulk table, and any from
   `user` to `auth_identity`, is nulled first.
   */
  ghost predicate TailDetached(plan: Plan, fks: set<Fk>, columns: set<(Name, Column)>) {
    forall fk | fk in fks && fk.table in plan.tail ::
      fk.references in plan.bulk || (fk.table == "user" && fk.references == "auth_identity") ==>
        (fk.table, fk.column) in columns
  }

  /** Each tenant table is deleted exactly once, the tail last. */
  lemma {:induction false} PlanCoversEachTableOnce(schema: Schema, ordered: seq<Name>)
    requires IsFkOrder(schema, ordered)
    ensures DemoPurgePlan(ordered).Ok? <==> "auth_identity" in schema && "user" in schema
    ensures DemoPurgePlan(ordered).Ok? ==>
      var plan := DemoPurgePlan(ordered).value;
      && plan.tail == TAIL
      && Distinct(plan.bulk + plan.tail)
      && (forall n :: n in plan.bulk + plan.tail <==> n in schema)
  {
    var s := Reverse(ordered);
    forall n ensures n in s <==> n in schema {
      if n in ordered {
        var i :| 0 <= i < |ordered| && ordered[i] == n;
        assert s[|s| - 1 - i] == n;
      }
    }
    assert TAIL[0] == "auth_identity" && TAIL[1] == "user";
    assert Distinct(s);
    if DemoPurgePlan(ordered).Ok? {
      var bulk := Bulk(s);
      assert TAIL[0][0] != TAIL[1][0];
      forall i, j | 0 <= i < j < |bulk + TAIL| ensures (bulk + TAIL)[i] != (bulk + TAIL)[j] {
        assert i < |bulk| ==> bulk[i] in bulk;
      }
    }
  }

  /**
   The demo purge's order is safe for every database exactly when the schema detaches the tail:
   the condition `demo-purge-plan.spec.ts` checks is both sufficient and necessary.
   */
  lemma {:induction false} DemoPurgeSafeExactlyWhen(schema: Schema, ordered: seq<Name>, fks: set<Fk>,
      columns: set<(Name, Column)>)
    requires IsFkOrder(schema, ordered) && FksOf(schema, fks) && DemoPurgePlan(ordered).Ok?
    ensures var plan := DemoPurgePlan(ordered).value;
            && (ChildrenFirst(plan.bulk + plan.tail, fks, columns) <==> TailDetached(plan, fks, columns))
            && (AlwaysSafe(plan.bulk + plan.tail, fks, columns) <==> TailDetached(plan, fks, columns))
  {
    var plan := DemoPurgePlan(ordered).value;
    var s := plan.bulk + plan.tail;
    PlanCoversEachTableOnce(schema, ordered);
    SafeExactlyWhenChildrenFirst(s, fks, columns);
    if ChildrenFirst(s, fks, columns) {
      forall fk | fk in fks && fk.table in plan.tail &&
                  (fk.references in plan.bulk || (fk.table == "user" && fk.references == "auth_identity"))
        ensures (fk.table, fk.column) in columns
      {
        TailIsLater(plan, fk.references, fk.table);
      }
    }
    if TailDetached(plan, fks, columns) {
      forall fk | fk in fks && Later(s, fk.references, fk.table) ensures (fk.table, fk.column) in columns {
        LaterInPlan(plan, fk.references, fk.table);
        if fk.table in plan.bulk {
          ReverseIsChildrenFirst(schema, ordered, fk.references, fk.table);
        }
      }
    }
  }

  lemma {:induction false} TailIsLater(plan: Plan, a: Name, b: Name)
    requires plan.tail == TAIL && b in TAIL
    requires a in plan.bulk || (b == "user" && a == "auth_identity")
    ensures Later(plan.bulk + plan.tail, a, b)
  {
    var s, n := plan.bulk + plan.tail, |plan.bulk|;
    assert s[n] == "auth_identity" && s[n + 1] == "user";
    if a in plan.bulk {
      var i :| 0 <= i < n && plan.bulk[i] == a;
      assert s[i] == a;
    }
  }

  lemma {:induction false} LaterInPlan(plan: Plan, a: Name, b: Name)
    requires plan.tail == TAIL && Distinct(plan.bulk + plan.tail) && Later(plan.bulk + plan.tail, a, b)
    ensures b in plan.bulk ==> Later(plan.bulk, a, b)
    ensures b in plan.bulk || (b in plan.tail && (a in plan.bulk || (a == "auth_identity" && b == "user")))
  {
    var s, n := plan.bulk + plan.tail, |plan.bulk|;
    var i, j :| 0 <= i < j < |s| && s[i] == a && s[j] == b;
    if j < n {
      assert plan.bulk[i] == a && plan.bulk[j] == b;
    } else {
      assert b == plan.tail[j - n];
      assert forall k | 0 <= k < n :: plan.bulk[k] == s[k] != s[j];
      if i < n {
        assert a == plan.bulk[i];
      }
    }
  }
}
