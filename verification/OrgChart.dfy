/**
 The two org forests, departments and reporting lines, and the upward walk that guards their edits
 (`apps/api/src/hr/employee.service.ts`).
 */
module OrgChart {
  import opened Optional

  /** Each row's parent; a missing row has none, like a null one. */
  type Parents = map<nat, Option<nat>>

  const CYCLE_HOP_LIMIT: nat := 256

  datatype Verdict = Accepted | OwnAncestor | TooDeep

  function ParentOf(parents: Parents, id: nat): Option<nat> {
    if id in parents then parents[id] else None
  }

  /** The `k`-th ancestor. */
  function Up(parents: Parents, start: Option<nat>, k: nat): Option<nat>
    decreases k
  {
    if k == 0 || start.None? then start else Up(parents, ParentOf(parents, start.value), k - 1)
  }

  ghost predicate Acyclic(parents: Parents) {
    forall id: nat, k: nat | k > 0 :: Up(parents, Some(id), k) != Some(id)
  }

  /** The walk from a proposed parent: stop at `id`, at the root, or after the hop limit. */
  function WalkFrom(parents: Parents, id: nat, cursor: Option<nat>, hop: nat): Verdict
    decreases CYCLE_HOP_LIMIT + 1 - hop
  {
    if cursor.None? then Accepted
    else if cursor.value == id then OwnAncestor
    else if hop >= CYCLE_HOP_LIMIT then TooDeep
    else WalkFrom(parents, id, ParentOf(parents, cursor.value), hop + 1)
  }

  function Guard(parents: Parents, id: nat, newParent: nat): Verdict {
    WalkFrom(parents, id, Some(newParent), 0)
  }

  method AssertNoCycle(parents: Parents, id: nat, newParent: nat) returns (verdict: Verdict)
    ensures verdict == Guard(parents, id, newParent)
  {
    var cursor, hop := Some(newParent), 0;
    while cursor.Some?
      invariant hop <= CYCLE_HOP_LIMIT
      invariant WalkFrom(parents, id, cursor, hop) == Guard(parents, id, newParent)
      decreases CYCLE_HOP_LIMIT - hop, if cursor.Some? then 1 else 0
    {
      if cursor.value == id {
        return OwnAncestor;
      }
      if hop >= CYCLE_HOP_LIMIT {
        return TooDeep;
      }
      cursor := ParentOf(parents, cursor.value);
      hop := hop + 1;
    }
    verdict := Accepted;
  }

  // --- walks ------------------------------------------------------------------------------------------

  lemma {:induction false} UpCompose(parents: Parents, start: Option<nat>, a: nat, b: nat)
    ensures Up(parents, start, a + b) == Up(parents, Up(parents, start, a), b)
    decreases a
  {
    if a > 0 && start.Some? {
      UpCompose(parents, ParentOf(parents, start.value), a - 1, b);
    }
  }

  /** What the walk decides, on every map, corrupt ones included: a chain of at most 256 nodes, without `id`. */
  lemma {:induction false} WalkMeaning(parents: Parents, id: nat, cursor: Option<nat>, hop: nat)
    requires hop <= CYCLE_HOP_LIMIT
    ensures WalkFrom(parents, id, cursor, hop) == Accepted <==>
              Up(parents, cursor, CYCLE_HOP_LIMIT - hop).None? && forall k: nat :: Up(parents, cursor, k) != Some(id)
    decreases CYCLE_HOP_LIMIT - hop
  {
    assert Up(parents, cursor, 0) == cursor;
    if cursor.None? {
      assert forall k: nat :: Up(parents, cursor, k).None?;
    } else if cursor.value == id {
      assert cursor == Some(id);
      assert exists k: nat :: Up(parents, cursor, k) == Some(id);
    } else if hop == CYCLE_HOP_LIMIT {
      assert WalkFrom(parents, id, cursor, hop) != Accepted;
    } else {
      var next := ParentOf(parents, cursor.value);
      WalkMeaning(parents, id, next, hop + 1);
      assert Up(parents, cursor, CYCLE_HOP_LIMIT - hop) == Up(parents, next, CYCLE_HOP_LIMIT - (hop + 1));
      StepAvoids(parents, id, cursor.value);
    }
  }

  lemma {:induction false} StepAvoids(parents: Parents, id: nat, node: nat)
    requires node != id
    ensures (forall k: nat :: Up(parents, Some(node), k) != Some(id))
       <==> (forall k: nat :: Up(parents, ParentOf(parents, node), k) != Some(id))
  {
    var next := ParentOf(parents, node);
    if k: nat :| Up(parents, next, k) == Some(id) {
      assert Up(parents, Some(node), k + 1) == Some(id);
      assert exists m: nat :: Up(parents, Some(node), m) == Some(id);
      assert exists m: nat :: Up(parents, next, m) == Some(id);
    } else {
      forall k: nat ensures Up(parents, Some(node), k) != Some(id) {
        if k > 0 {
          assert Up(parents, Some(node), k) == Up(parents, next, k - 1);
        }
      }
    }
  }

  /** Until a walk meets `id`, changing `id`'s parent does not change it. */
  lemma {:induction false} SameUntil(parents: Parents, id: nat, to: Option<nat>, start: Option<nat>, k: nat)
    requires forall j: nat | j < k :: Up(parents, start, j) != Some(id)
    ensures Up(parents[id := to], start, k) == Up(parents, start, k)
    decreases k
  {
    if k > 0 && start.Some? {
      assert Up(parents, start, 0) == start;
      forall j: nat | j < k - 1 ensures Up(parents, ParentOf(parents, start.value), j) != Some(id) {
        assert Up(parents, start, j + 1) != Some(id);
      }
      SameUntil(parents, id, to, ParentOf(parents, start.value), k - 1);
    }
  }

  /** A walk that meets `id` at all meets it a first time. */
  lemma {:induction false} FirstMeeting(parents: Parents, id: nat, start: Option<nat>, k: nat) returns (first: nat)
    requires Up(parents, start, k) == Some(id)
    ensures first <= k && Up(parents, start, first) == Some(id)
    ensures forall j: nat | j < first :: Up(parents, start, j) != Some(id)
  {
    first := 0;
    while Up(parents, start, first) != Some(id)
      invariant first <= k && forall j: nat | j < first :: Up(parents, start, j) != Some(id)
      decreases k - first
    {
      first := first + 1;
    }
  }

  /** A cycle of the edited map passes through the edited node. */
  lemma {:induction false} CycleThroughEdit(parents: Parents, id: nat, to: Option<nat>, x: nat, k: nat)
    requires Acyclic(parents) && k > 0 && Up(parents[id := to], Some(x), k) == Some(x)
    ensures Up(parents[id := to], Some(id), k) == Some(id)
  {
    var edited := parents[id := to];
    if forall j: nat | j < k :: Up(parents, Some(x), j) != Some(id) {
      SameUntil(parents, id, to, Some(x), k);
      assert false;
    } else {
      var m: nat :| m < k && Up(parents, Some(x), m) == Some(id);
      var j := FirstMeeting(parents, id, Some(x), m);
      SameUntil(parents, id, to, Some(x), j);
      UpCompose(edited, Some(x), j, k);
      UpCompose(edited, Some(x), k, j);
    }
  }

  lemma {:induction false} EmptyIsAcyclic()
    ensures Acyclic(map[])
  {
  }

  /** Linking `id` under a parent that does not descend from it keeps the forest acyclic. */
  lemma {:induction false} LinkKeepsAcyclic(parents: Parents, id: nat, newParent: nat)
    requires Acyclic(parents) && forall k: nat :: Up(parents, Some(newParent), k) != Some(id)
    ensures Acyclic(parents[id := Some(newParent)])
  {
    var edited := parents[id := Some(newParent)];
    forall x: nat, k: nat | k > 0 && Up(edited, Some(x), k) == Some(x) ensures false {
      SameUntil(parents, id, Some(newParent), Some(newParent), k - 1);
      assert Up(edited, Some(id), k) == Up(edited, Some(newParent), k - 1);
      CycleThroughEdit(parents, id, Some(newParent), x, k);
    }
  }

  lemma {:induction false} UnlinkKeepsAcyclic(parents: Parents, id: nat)
    requires Acyclic(parents)
    ensures Acyclic(parents[id := None])
  {
    var edited := parents[id := None];
    forall x: nat, k: nat | k > 0 && Up(edited, Some(x), k) == Some(x) ensures false {
      assert Up(edited, Some(id), k) == Up(edited, None, k - 1) == None;
      CycleThroughEdit(parents, id, None, x, k);
    }
  }

  /**
   On an acyclic forest the guard accepts exactly the edits that keep it acyclic, among those whose
   new ancestor chain has at most 256 nodes; deeper chains are refused whatever they contain.
   */
  lemma {:induction false} GuardIsExact(parents: Parents, id: nat, newParent: nat)
    requires Acyclic(parents)
    ensures Guard(parents, id, newParent) == Accepted <==>
              Up(parents, Some(newParent), 256).None? && Acyclic(parents[id := Some(newParent)])
  {
    var edited := parents[id := Some(newParent)];
    WalkMeaning(parents, id, Some(newParent), 0);
    if forall k: nat :: Up(parents, Some(newParent), k) != Some(id) {
      LinkKeepsAcyclic(parents, id, newParent);
    } else {
      var k: nat :| Up(parents, Some(newParent), k) == Some(id);
      var first := FirstMeeting(parents, id, Some(newParent), k);
      SameUntil(parents, id, Some(newParent), Some(newParent), first);
      assert Up(edited, Some(id), first + 1) == Up(edited, Some(newParent), first) == Some(id);
    }
  }

  /** A node nobody points at is met by no other walk, so a new department closes no loop. */
  lemma {:induction false} NewNodeKeepsAcyclic(parents: Parents, id: nat, parent: Option<nat>)
    requires Acyclic(parents) && id !in parents && parent != Some(id)
    requires forall x | x in parents :: parents[x] != Some(id)
    ensures Acyclic(parents[id := parent])
  {
    if parent.None? {
      UnlinkKeepsAcyclic(parents, id);
    } else {
      forall k: nat ensures Up(parents, parent, k) != Some(id) {
        NeverMeets(parents, id, parent, k);
      }
      LinkKeepsAcyclic(parents, id, parent.value);
    }
  }

  lemma {:induction false} NeverMeets(parents: Parents, id: nat, start: Option<nat>, k: nat)
    requires start != Some(id) && forall x | x in parents :: parents[x] != Some(id)
    ensures Up(parents, start, k) != Some(id)
    decreases k
  {
    if k > 0 && start.Some? {
      NeverMeets(parents, id, ParentOf(parents, start.value), k - 1);
    }
  }

  // --- the services over mutable tables -----------------------------------------------------------------

  datatype Outcome = Done | NotFound | Refused(verdict: Verdict) | StillUsed

  class OrgTables {
    var departments: Parents
    var deletedDepartments: set<nat>
    /** Each live position's department. */
    var positions: map<nat, nat>
    /** Each live employee's position. */
    const employees: map<nat, Option<nat>>
    var managers: Parents

    constructor (employees: map<nat, Option<nat>>)
      ensures Valid() && Connected() && this.employees == employees
      ensures departments == map[] && deletedDepartments == {} && positions == map[] && managers == map[]
    {
      departments, deletedDepartments, positions, managers := map[], {}, map[], map[];
      this.employees := employees;
      new;
      EmptyIsAcyclic();
    }

    /** Both graphs are forests, and a department's parent and a position's department are stored rows. */
    ghost predicate Valid()
      reads this
    {
      && Acyclic(departments) && Acyclic(managers)
      && (forall d | d in departments && departments[d].Some? :: departments[d].value in departments)
      && (forall p | p in positions :: positions[p] in departments)
    }

    predicate LiveDepartment(id: nat)
      reads this
    {
      id in departments && id !in deletedDepartments
    }

    /** No live department or position hangs under a deleted department. */
    ghost predicate Connected()
      reads this
    {
      && (forall d | LiveDepartment(d) && departments[d].Some? :: LiveDepartment(departments[d].value))
      && (forall p | p in positions :: LiveDepartment(positions[p]))
    }

    predicate HasLiveChild(id: nat)
      reads this
    {
      exists d | d in departments :: d !in deletedDepartments && departments[d] == Some(id)
    }

    predicate HasPosition(id: nat)
      reads this
    {
      exists p | p in positions :: positions[p] == id
    }

    /**
     `id` is the row's freshly drawn key; a parent that is no stored row violates the foreign key. Nothing
     asks whether the parent is live: the insert is what can disconnect a department.
     */
    method CreateDepartment(id: nat, parent: Option<nat>) returns (outcome: Outcome)
      requires Valid() && id !in departments && id !in deletedDepartments
      modifies this`departments
      ensures Valid()
      ensures outcome == if parent.None? || parent.value in old(departments) then Done else NotFound
      ensures departments == if outcome == Done then old(departments)[id := parent] else old(departments)
      ensures old(Connected()) ==>
                (Connected() <==> outcome == NotFound || parent.None? || old(LiveDepartment(parent.value)))
    {
      if parent.Some? && parent.value !in departments {
        return NotFound;
      }
      NewNodeKeepsAcyclic(departments, id, parent);
      departments := departments[id := parent];
      assert LiveDepartment(id);
      outcome := Done;
    }

    /** Re-parent (or unparent) a live department; the same parent again is not even checked. */
    method UpdateDepartment(id: nat, parent: Option<nat>) returns (outcome: Outcome)
      requires Valid()
      modifies this`departments
      ensures Valid()
      ensures outcome == NotFound <==>
                old(!LiveDepartment(id) || (parent != departments[id] && parent.Some? && !LiveDepartment(parent.value)))
      ensures old(LiveDepartment(id) && (parent == departments[id] || parent.None?)) ==> outcome == Done
      ensures outcome.Refused? ==>
                parent.Some? && outcome.verdict == Guard(old(departments), id, parent.value) != Accepted
      ensures outcome == Done && parent.Some? && old(LiveDepartment(id) && parent != departments[id]) ==>
                Guard(old(departments), id, parent.value) == Accepted
      ensures outcome != StillUsed
      ensures departments == if outcome == Done then old(departments)[id := parent] else old(departments)
      ensures old(Connected()) ==> Connected()
    {
      if !LiveDepartment(id) {
        return NotFound;
      }
      if parent != departments[id] {
        if parent.Some? {
          if !LiveDepartment(parent.value) {
            return NotFound;
          }
          var verdict := AssertNoCycle(departments, id, parent.value);
          if verdict != Accepted {
            return Refused(verdict);
          }
          GuardIsExact(departments, id, parent.value);
        } else {
          UnlinkKeepsAcyclic(departments, id);
        }
      }
      assert departments[id := departments[id]] == departments;
      departments := departments[id := parent];
      outcome := Done;
    }

    /** Hide a live department, unless a live department or position still hangs under it. */
    method DeleteDepartment(id: nat) returns (outcome: Outcome)
      requires Valid()
      modifies this`deletedDepartments
      ensures Valid()
      ensures outcome == if !old(LiveDepartment(id)) then NotFound
                         else if old(HasLiveChild(id) || HasPosition(id)) then StillUsed else Done
      ensures deletedDepartments == if outcome == Done then old(deletedDepartments) + {id} else old(deletedDepartments)
      ensures old(Connected()) ==> Connected()
    {
      if !LiveDepartment(id) {
        return NotFound;
      }
      if HasLiveChild(id) || HasPosition(id) {
        return StillUsed;
      }
      deletedDepartments := deletedDepartments + {id};
      outcome := Done;
    }

    /** A new position under a stored department, which, again, need not be live. */
    method CreatePosition(id: nat, under: nat) returns (outcome: Outcome)
      requires Valid() && id !in positions
      modifies this`positions
      ensures Valid()
      ensures outcome == if under in departments then Done else NotFound
      ensures positions == if outcome == Done then old(positions)[id := under] else old(positions)
      ensures old(Connected()) ==> (Connected() <==> outcome == NotFound || LiveDepartment(under))
    {
      if under !in departments {
        return NotFound;
      }
      positions := positions[id := under];
      assert positions[id] == under;
      outcome := Done;
    }

    /** Move a live position to a live department; its own department again is not even checked. */
    method UpdatePosition(id: nat, under: nat) returns (outcome: Outcome)
      requires Valid()
      modifies this`positions
      ensures Valid()
      ensures outcome == if id in old(positions) && (under == old(positions)[id] || LiveDepartment(under))
                         then Done else NotFound
      ensures positions == if outcome == Done then old(positions)[id := under] else old(positions)
      ensures old(Connected()) ==> Connected()
    {
      if id !in positions || (under != positions[id] && !LiveDepartment(under)) {
        return NotFound;
      }
      assert positions[id := positions[id]] == positions;
      positions := positions[id := under];
      outcome := Done;
    }

    /** Hide a live position nobody holds. */
    method DeletePosition(id: nat) returns (outcome: Outcome)
      requires Valid()
      modifies this`positions
      ensures Valid()
      ensures outcome == if id !in old(positions) then NotFound
                         else if exists e | e in employees :: employees[e] == Some(id) then StillUsed else Done
      ensures positions == if outcome == Done then old(positions) - {id} else old(positions)
      ensures old(Connected()) ==> Connected()
    {
      if id !in positions {
        return NotFound;
      }
      if exists e | e in employees :: employees[e] == Some(id) {
        return StillUsed;
      }
      positions := positions - {id};
      outcome := Done;
    }

    /** Upsert an employee's manager; clearing it is never refused. */
    method SetReportingLine(id: nat, manager: Option<nat>) returns (outcome: Outcome)
      requires Valid()
      modifies this`managers
      ensures Valid()
      ensures outcome == NotFound <==> id !in employees || (manager.Some? && manager.value !in employees)
      ensures outcome.Refused? ==>
                manager.Some? && outcome.verdict == Guard(old(managers), id, manager.value) != Accepted
      ensures outcome == Done && manager.Some? ==> Guard(old(managers), id, manager.value) == Accepted
      ensures outcome != StillUsed
      ensures managers == if outcome == Done then old(managers)[id := manager] else old(managers)
    {
      if id !in employees {
        return NotFound;
      }
      if manager.Some? {
        if manager.value !in employees {
          return NotFound;
        }
        var verdict := AssertNoCycle(managers, id, manager.value);
        if verdict != Accepted {
          return Refused(verdict);
        }
        GuardIsExact(managers, id, manager.value);
      } else {
        UnlinkKeepsAcyclic(managers, id);
      }
      managers := managers[id := manager];
      outcome := Done;
    }
  }
}
