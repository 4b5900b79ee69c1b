/**
 The foreign-key order of the tenant tables (`apps/api/src/platform/tenant-tables.ts`): a depth-first
 topological sort that throws on a cycle between distinct tables.
 */
module TenantTables {
  import opened Optional

  type Name = string

  /** For each tenant table, the tables its foreign keys reference, in the order they are visited. */
  type Schema = map<Name, seq<Name>>

  datatype Mark = Visiting | Done

  /** `child` holds a foreign key to another tenant table `parent`; self-references are ignored. */
  ghost predicate Edge(schema: Schema, child: Name, parent: Name) {
    child in schema && parent in schema && parent != child && parent in schema[child]
  }

  ghost predicate Walk(schema: Schema, path: seq<Name>) {
    forall i | 0 < i < |path| :: Edge(schema, path[i - 1], path[i])
  }

  ghost predicate IsCycle(schema: Schema, path: seq<Name>) {
    |path| >= 2 && path[0] == path[|path| - 1] && Walk(schema, path)
  }

  ghost predicate Cyclic(schema: Schema) {
    exists path :: IsCycle(schema, path)
  }

  ghost predicate Distinct(names: seq<Name>) {
    forall i, j | 0 <= i < j < |names| :: names[i] != names[j]
  }

  /** Every referenced tenant table stands before the table that references it. */
  ghost predicate ParentsFirst(schema: Schema, ordered: seq<Name>) {
    forall i, p | 0 <= i < |ordered| && Edge(schema, ordered[i], p) :: p in ordered[..i]
  }

  /** `ordered` lists every tenant table exactly once, parents before children. */
  ghost predicate IsFkOrder(schema: Schema, ordered: seq<Name>) {
    && Distinct(ordered)
    && (forall n :: n in ordered <==> n in schema)
    && ParentsFirst(schema, ordered)
  }

  lemma {:induction false} WalkDescends(schema: Schema, ordered: seq<Name>, path: seq<Name>, k: nat)
    returns (at: nat, from: nat)
    requires IsFkOrder(schema, ordered) && Walk(schema, path) && k < |path| && path[0] in schema
    ensures from < |ordered| && ordered[from] == path[0]
    ensures at < |ordered| && ordered[at] == path[k]
    ensures at <= from && (k > 0 ==> at < from)
  {
    if k == 0 {
      from :| 0 <= from < |ordered| && ordered[from] == path[0];
      at := from;
    } else {
      var mid;
      mid, from := WalkDescends(schema, ordered, path, k - 1);
      assert Edge(schema, path[k - 1], path[k]);
      at :| 0 <= at < mid && ordered[at] == path[k];
    }
  }

  /** A foreign-key order exists only for a graph without cycles. */
  lemma {:induction false} OrderExcludesCycles(schema: Schema, ordered: seq<Name>)
    requires IsFkOrder(schema, ordered)
    ensures !Cyclic(schema)
  {
    forall path | IsCycle(schema, path) ensures false {
      assert Edge(schema, path[0], path[1]);
      var at, from := WalkDescends(schema, ordered, path, |path| - 1);
    }
  }

  lemma {:induction false} WalkExtends(schema: Schema, path: seq<Name>, name: Name)
    requires Walk(schema, path)
    requires path != [] ==> Edge(schema, path[|path| - 1], name)
    ensures Walk(schema, path + [name])
  {
  }

  lemma {:induction false} ClosesCycle(schema: Schema, path: seq<Name>, name: Name)
    requires Walk(schema, path + [name]) && name in path
    ensures exists k | 0 <= k < |path + [name]| :: IsCycle(schema, (path + [name])[k..])
  {
    var longer := path + [name];
    var k :| 0 <= k < |path| && path[k] == name;
    var cycle := longer[k..];
    forall i | 0 < i < |cycle| ensures Edge(schema, cycle[i - 1], cycle[i]) {
      assert Edge(schema, longer[k + i - 1], longer[k + i]);
    }
    assert IsCycle(schema, longer[k..]);
  }

  lemma {:induction false} ParentsFirstExtends(schema: Schema, ordered: seq<Name>, name: Name)
    requires ParentsFirst(schema, ordered)
    requires forall p | Edge(schema, name, p) :: p in ordered
    ensures ParentsFirst(schema, ordered + [name])
  {
    var longer := ordered + [name];
    forall i, p | 0 <= i < |longer| && Edge(schema, longer[i], p) ensures p in longer[..i] {
      assert i < |ordered| ==> longer[..i] == ordered[..i];
      assert i == |ordered| ==> longer[..i] == ordered;
    }
  }

  /** `path` is the chain of tables being visited; everything listed is done, with its parents. */
  ghost predicate Consistent(schema: Schema, state: map<Name, Mark>, ordered: seq<Name>, path: seq<Name>) {
    && state.Keys <= schema.Keys
    && (forall n :: n in ordered <==> n in state && state[n] == Done)
    && (forall n :: n in path <==> n in state && state[n] == Visiting)
    && Distinct(ordered) && ParentsFirst(schema, ordered)
    && Distinct(path) && Walk(schema, path)
  }

  lemma {:induction false} Enter(schema: Schema, state: map<Name, Mark>, ordered: seq<Name>, path: seq<Name>,
      name: Name)
    requires Consistent(schema, state, ordered, path) && name in schema && name !in state
    requires path != [] ==> Edge(schema, path[|path| - 1], name)
    ensures Consistent(schema, state[name := Visiting], ordered, path + [name])
  {
  }

  lemma {:induction false} Leave(schema: Schema, state: map<Name, Mark>, ordered: seq<Name>, path: seq<Name>,
      name: Name)
    requires Consistent(schema, state, ordered, path + [name])
    requires forall p | Edge(schema, name, p) :: p in ordered
    ensures Consistent(schema, state[name := Done], ordered + [name], path)
  {
    var longer := path + [name];
    assert longer[|path|] == name && longer[..|path|] == path;
    ParentsFirstExtends(schema, ordered, name);
    forall i | 0 < i < |path| ensures Edge(schema, path[i - 1], path[i]) {
      assert Edge(schema, longer[i - 1], longer[i]);
    }
    forall i, j | 0 <= i < j < |path| ensures path[i] != path[j] {
      assert longer[i] != longer[j];
    }
    forall i | 0 <= i < |path| ensures path[i] != name {
      assert longer[i] != longer[|path|];
    }
    assert Walk(schema, path) && Distinct(path) && name !in path && name !in ordered;
    assert forall n :: n in longer <==> n in path || n == name;
    assert forall n :: n in ordered + [name] <==> n in ordered || n == name;
    assert Distinct(ordered + [name]);
    hide Walk, ParentsFirst, Distinct;
  }

  /** One run of the sort: the visit marks and the output list its recursion mutates. */
  class FkSort {
    const schema: Schema
    var state: map<Name, Mark>
    var ordered: seq<Name>

    constructor (schema: Schema)
      ensures this.schema == schema && state == map[] && ordered == []
    {
      this.schema := schema;
      state, ordered := map[], [];
    }

    ghost predicate Valid(path: seq<Name>)
      reads this
    {
      Consistent(schema, state, ordered, path)
    }

    /** Visit one table. `thrown` is the path a detected cycle is reported with. */
    method Visit(name: Name, path: seq<Name>) returns (thrown: Option<seq<Name>>)
      requires Valid(path) && name in schema
      requires path != [] ==> Edge(schema, path[|path| - 1], name)
      modifies this
      ensures thrown.None? ==> Valid(path) && name in ordered && old(ordered) <= ordered
      ensures thrown.None? ==> old(state.Keys) <= state.Keys
      ensures thrown.Some? ==> exists k | 0 <= k < |thrown.value| :: IsCycle(schema, thrown.value[k..])
      decreases schema.Keys - state.Keys
    {
      if name in state && state[name] == Done {
        return None;
      }
      var longer := path + [name];
      if name in state {
        WalkExtends(schema, path, name);
        ClosesCycle(schema, path, name);
        return Some(longer);
      }
      Enter(schema, state, ordered, path, name);
      hide Consistent, IsCycle;
      state := state[name := Visiting];
      var parents := schema[name];
      for i := 0 to |parents|
        invariant Valid(longer) && old(ordered) <= ordered
        invariant old(state.Keys) + {name} <= state.Keys
        invariant forall j | 0 <= j < i && Edge(schema, name, parents[j]) :: parents[j] in ordered
      {
        if parents[i] != name && parents[i] in schema {
          thrown := Visit(parents[i], longer);
          if thrown.Some? {
            return;
          }
        }
      }
      Leave(schema, state, ordered, path, name);
      state := state[name := Done];
      ordered := ordered + [name];
      return None;
    }

    /**
     Sort all the tables. `names` is the order the outer loop visits them in. The sort is sound and
     complete: it returns exactly when there is no cycle between distinct tables, and then lists
     every table once with parents first; otherwise the path it throws ends in a cycle.
     */
    method TenantTablesInFkOrder(names: seq<Name>) returns (result: Result<seq<Name>, seq<Name>>)
      requires state == map[] && ordered == []
      requires forall n :: n in names <==> n in schema
      modifies this
      ensures result.Ok? <==> !Cyclic(schema)
      ensures result.Ok? ==> IsFkOrder(schema, result.value)
      ensures result.Err? ==> exists k | 0 <= k < |result.error| :: IsCycle(schema, result.error[k..])
    {
      for i := 0 to |names|
        invariant Valid([])
        invariant forall j | 0 <= j < i :: names[j] in ordered
      {
        var thrown := Visit(names[i], []);
        if thrown.Some? {
          return Err(thrown.value);
        }
      }
      OrderExcludesCycles(schema, ordered);
      return Ok(ordered);
    }
  }
}
