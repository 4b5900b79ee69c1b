/**
 One tenant's users, roles and grants, every transaction that changes them, and the seat cap
 (`seat.service.ts` under `apps/api/src/platform/`; `role.service.ts`, `user.service.ts`,
 `import.service.ts` under `apps/api/src/iam/`).
 */
module Seats {
  import opened Optional

  type Code = string

  const SCAN_ONLY: set<Code> := {"production.scan"}

  datatype Status = Pending | Active | Disabled

  /** A user row with its `user_role` rows and the version its tokens must carry. */
  datatype User = User(username: string, email: string, status: Status, version: nat, superAdmin: bool, deleted: bool,
                       roles: set<nat>)

  datatype Role = Role(name: string, grants: set<Code>, system: bool, clonedFrom: Option<nat>)

  /** The counters stand for freshly drawn keys; a cap of `None` is a tenant without a plan. */
  datatype Tables = Tables(users: map<nat, User>, roles: map<nat, Role>, catalog: set<Code>, cap: Option<int>,
                           nextUser: nat, nextRole: nat)

  datatype Error = NotFound | Conflict | Invalid | Forbidden | SeatLimit

  datatype ImportRow = ImportRow(name: string, codes: seq<Code>)

  datatype Op =
    | CreateUser(username: string, email: string, roleIds: seq<nat>)
    | SignUp(allowSelfSignup: bool, address: string)
    | SetRoles(id: nat, roleIds: seq<nat>)
    | SetStatus(id: nat, status: Status)
    | ForceLogout(id: nat)
    | CreateRole(name: string, codes: seq<Code>)
    | UpdateRole(id: nat, newName: Option<string>, newCodes: Option<seq<Code>>)
    | CloneRole(id: nat, name: string)
    | DeleteRole(id: nat, reauthenticated: bool)
    | Import(rows: seq<ImportRow>)
    | SetCap(newCap: Option<int>)

  // --- what a user may do, and who occupies a seat ------------------------------------------------------

  /** The union of the grants of the user's roles. */
  function Effective(db: Tables, id: nat): set<Code>
    requires id in db.users
  {
    set r, c | r in db.users[id].roles && r in db.roles && c in db.roles[r].grants :: c
  }

  predicate Occupies(db: Tables, id: nat)
    requires id in db.users
  {
    var u := db.users[id];
    !u.deleted && u.status != Disabled && (u.superAdmin || !(Effective(db, id) <= SCAN_ONLY))
  }

  function Counted(db: Tables): set<nat> {
    set id | id in db.users && Occupies(db, id)
  }

  /** The cap refuses a mutation that newly counts someone and ends above the cap. */
  predicate OverCap(cap: Option<int>, before: set<nat>, after: set<nat>) {
    cap.Some? && after - before != {} && |after| > cap.value
  }

  // --- the transactions ---------------------------------------------------------------------------------

  function ToSet<T>(s: seq<T>): set<T> {
    set x | x in s
  }

  predicate Distinct<T(==)>(s: seq<T>) {
    forall i, j | 0 <= i < j < |s| :: s[i] != s[j]
  }

  function SeatChecked(before: Tables, after: Tables): Result<Tables, Error> {
    if OverCap(before.cap, Counted(before), Counted(after)) then Err(SeatLimit) else Ok(after)
  }

  predicate NameTaken(db: Tables, name: string, holder: Option<nat>) {
    exists r | r in db.roles :: holder != Some(r) && db.roles[r].name == name
  }

  function Bumped(u: User): User {
    u.(version := u.version + 1)
  }

  /** Every user bound to the role moves to the next version. */
  function BumpBound(users: map<nat, User>, role: nat): map<nat, User> {
    map id | id in users :: if role in users[id].roles then Bumped(users[id]) else users[id]
  }

  /** User names and emails are unique over all rows, deleted ones too. */
  predicate LoginTaken(db: Tables, username: string, email: string) {
    exists id | id in db.users :: db.users[id].username == username || db.users[id].email == email
  }

  function NewUser(username: string, email: string, roleIds: seq<nat>): User {
    User(username, email, Active, 1, false, false, ToSet(roleIds))
  }

  function AddUser(db: Tables, username: string, email: string, roleIds: seq<nat>): Result<Tables, Error> {
    if LoginTaken(db, username, email) then Err(Conflict)
    else if !(ToSet(roleIds) <= db.roles.Keys) then Err(NotFound)
    else
      SeatChecked(db, db.(users := db.users[db.nextUser := NewUser(username, email, roleIds)],
                          nextUser := db.nextUser + 1))
  }

  function AddRole(db: Tables, name: string, codes: set<Code>, clonedFrom: Option<nat>): Result<Tables, Error> {
    if NameTaken(db, name, None) then Err(Conflict)
    else if !(codes <= db.catalog) then Err(Invalid)
    else Ok(db.(roles := db.roles[db.nextRole := Role(name, codes, false, clonedFrom)], nextRole := db.nextRole + 1))
  }

  /** Replace a role's grants under the seat check, then log out everyone bound to it. */
  function Regrant(db: Tables, id: nat, codes: set<Code>): Result<Tables, Error>
    requires id in db.roles
  {
    if !(codes <= db.catalog) then Err(Invalid)
    else
      match SeatChecked(db, db.(roles := db.roles[id := db.roles[id].(grants := codes)]))
      case Err(e) => Err(e)
      case Ok(after) => Ok(after.(users := BumpBound(after.users, id)))
  }

  ghost function RoleNamed(db: Tables, name: string): Option<nat> {
    if r :| r in db.roles && db.roles[r].name == name then Some(r) else None
  }

  /** One import row: find or create the role, replace its grants (a repeated code breaks the key), bump. */
  ghost function ImportOne(db: Tables, row: ImportRow): Result<Tables, Error> {
    if !Distinct(row.codes) then Err(Conflict)
    else
      match RoleNamed(db, row.name)
      case Some(r) =>
        Ok(db.(roles := db.roles[r := db.roles[r].(grants := ToSet(row.codes))], users := BumpBound(db.users, r)))
      case None =>
        Ok(db.(roles := db.roles[db.nextRole := Role(row.name, ToSet(row.codes), false, None)],
               nextRole := db.nextRole + 1, users := BumpBound(db.users, db.nextRole)))
  }

  ghost function ImportAll(db: Tables, rows: seq<ImportRow>): Result<Tables, Error>
    decreases |rows|
  {
    if rows == [] then Ok(db)
    else
      match ImportOne(db, rows[0])
      case Err(e) => Err(e)
      case Ok(next) => ImportAll(next, rows[1..])
  }

  predicate KnownCodes(db: Tables, rows: seq<ImportRow>) {
    forall i | 0 <= i < |rows| :: ToSet(rows[i].codes) <= db.catalog
  }

  /** A whole transaction: the tables it commits, or the error that rolls it back. */
  ghost function Apply(db: Tables, op: Op): Result<Tables, Error> {
    match op
    case CreateUser(username, email, roleIds) => AddUser(db, username, email, roleIds)
    case SignUp(allowed, address) => if allowed then AddUser(db, address, address, []) else Err(Forbidden)
    case SetRoles(id, roleIds) =>
      if id !in db.users || !(ToSet(roleIds) <= db.roles.Keys) then Err(NotFound)
      else
        (match SeatChecked(db, db.(users := db.users[id := db.users[id].(roles := ToSet(roleIds))]))
         case Err(e) => Err(e)
         case Ok(after) => Ok(after.(users := after.users[id := Bumped(after.users[id])])))
    case SetStatus(id, status) =>
      if id !in db.users then Err(NotFound)
      else SeatChecked(db, db.(users := db.users[id := db.users[id].(status := status)]))
    case ForceLogout(id) =>
      if id !in db.users then Err(NotFound) else Ok(db.(users := db.users[id := Bumped(db.users[id])]))
    case CreateRole(name, codes) => AddRole(db, name, ToSet(codes), None)
    case UpdateRole(id, newName, newCodes) =>
      if id !in db.roles then Err(NotFound)
      else
        var name := if newName.Some? then newName.value else db.roles[id].name;
        if NameTaken(db, name, Some(id)) then Err(Conflict)
        else
          var renamed := db.(roles := db.roles[id := db.roles[id].(name := name)]);
          if newCodes.Some? then Regrant(renamed, id, ToSet(newCodes.value)) else Ok(renamed)
    case CloneRole(id, name) =>
      if id !in db.roles then Err(NotFound) else AddRole(db, name, db.roles[id].grants, Some(id))
    case DeleteRole(id, reauthenticated) =>
      if !reauthenticated then Err(Forbidden)
      else if id !in db.roles then Err(NotFound)
      else if db.roles[id].system || Bound(db, id) || Cloned(db, id) then Err(Conflict)
      else Ok(db.(roles := db.roles - {id}))
    case Import(rows) =>
      if !KnownCodes(db, rows) then Err(Invalid)
      else
        (match ImportAll(db, rows)
         case Err(e) => Err(e)
         case Ok(after) => SeatChecked(db, after))
    case SetCap(newCap) => Ok(db.(cap := newCap))
  }

  predicate Bound(db: Tables, role: nat) {
    exists id | id in db.users :: role in db.users[id].roles
  }

  predicate Cloned(db: Tables, role: nat) {
    exists r | r in db.roles :: db.roles[r].clonedFrom == Some(role)
  }

  ghost function Step(db: Tables, op: Op): Tables {
    match Apply(db, op)
    case Ok(after) => after
    case Err(_) => db
  }

  ghost function Run(db: Tables, ops: seq<Op>): Tables
    decreases |ops|
  {
    if ops == [] then db else Step(Run(db, ops[..|ops| - 1]), ops[|ops| - 1])
  }

  // --- what every transaction keeps -----------------------------------------------------------------------

  ghost predicate UniqueNames(roles: map<nat, Role>) {
    forall r, q | r in roles && q in roles && roles[r].name == roles[q].name :: r == q
  }

  /** Foreign keys, unique role names, and keys below the next fresh one. */
  ghost predicate Valid(db: Tables) {
    && (forall id | id in db.users :: id < db.nextUser && db.users[id].roles <= db.roles.Keys)
    && (forall r | r in db.roles :: r < db.nextRole && db.roles[r].grants <= db.catalog)
    && UniqueNames(db.roles)
  }

  /** The version pins the permissions: it only rises, and while it stands still so does the effective set. */
  ghost predicate Pinned(before: Tables, after: Tables) {
    forall id | id in before.users ::
      && id in after.users && after.users[id].superAdmin == before.users[id].superAdmin
      && before.users[id].version <= after.users[id].version
      && (before.users[id].version == after.users[id].version ==> Effective(after, id) == Effective(before, id))
  }

  lemma {:induction false} SameGrants(a: Tables, b: Tables, id: nat)
    requires id in a.users && id in b.users && a.users[id].roles == b.users[id].roles
    requires forall r | r in a.users[id].roles :: r in a.roles && r in b.roles && a.roles[r].grants == b.roles[r].grants
    ensures Effective(a, id) == Effective(b, id)
  {
  }

  /** Changing a role, or adding one, is felt only by the users bound to it. */
  lemma {:induction false} RoleChange(db: Tables, id: nat, role: Role, users: map<nat, User>)
    requires Valid(db) && users == BumpBound(db.users, id)
    requires role.grants <= db.catalog && !NameTaken(db, role.name, Some(id))
    ensures var after := db.(roles := db.roles[id := role], users := users,
                             nextRole := if id < db.nextRole then db.nextRole else id + 1);
            Valid(after) && Pinned(db, after)
  {
    var after := db.(roles := db.roles[id := role], users := users,
                     nextRole := if id < db.nextRole then db.nextRole else id + 1);
    forall u | u in db.users && after.users[u].version == db.users[u].version
      ensures Effective(after, u) == Effective(db, u)
    {
      SameGrants(after, db, u);
    }
  }

  lemma {:induction false} ImportOneIsSound(db: Tables, row: ImportRow)
    requires Valid(db) && ToSet(row.codes) <= db.catalog && ImportOne(db, row).Ok?
    ensures var after := ImportOne(db, row).value;
            Valid(after) && Pinned(db, after) && after.catalog == db.catalog && after.cap == db.cap
  {
    match RoleNamed(db, row.name)
    case Some(r) =>
      RoleChange(db, r, db.roles[r].(grants := ToSet(row.codes)), BumpBound(db.users, r));
    case None =>
      RoleChange(db, db.nextRole, Role(row.name, ToSet(row.codes), false, None), BumpBound(db.users, db.nextRole));
  }

  lemma {:induction false} PinnedTransitive(a: Tables, b: Tables, c: Tables)
    requires Pinned(a, b) && Pinned(b, c)
    ensures Pinned(a, c)
  {
  }

  lemma {:induction false} ImportIsSound(db: Tables, rows: seq<ImportRow>)
    requires Valid(db) && KnownCodes(db, rows) && ImportAll(db, rows).Ok?
    ensures var after := ImportAll(db, rows).value;
            Valid(after) && Pinned(db, after) && after.catalog == db.catalog && after.cap == db.cap
    decreases |rows|
  {
    if rows != [] {
      ImportOneIsSound(db, rows[0]);
      var next := ImportOne(db, rows[0]).value;
      assert KnownCodes(next, rows[1..]);
      ImportIsSound(next, rows[1..]);
      PinnedTransitive(db, next, ImportAll(db, rows).value);
    }
  }

  lemma {:induction false} UserChange(db: Tables, id: nat, user: User)
    requires Valid(db) && user.roles <= db.roles.Keys && id <= db.nextUser
    requires id in db.users ==>
               && user.superAdmin == db.users[id].superAdmin
               && (user.version > db.users[id].version
                   || (user.version == db.users[id].version && user.roles == db.users[id].roles))
    ensures var next := if id < db.nextUser then db.nextUser else id + 1;
            var after := db.(users := db.users[id := user], nextUser := next);
            Valid(after) && Pinned(db, after)
  {
  }

  lemma {:induction false} UserStepIsSound(db: Tables, op: Op)
    requires Valid(db) && Apply(db, op).Ok?
    requires op.CreateUser? || op.SignUp? || op.SetRoles? || op.SetStatus? || op.ForceLogout?
    ensures Valid(Step(db, op)) && Pinned(db, Step(db, op))
  {
    hide Pinned, Effective, Occupies, Counted, LoginTaken;
    match op
    case CreateUser(username, email, roleIds) => UserChange(db, db.nextUser, NewUser(username, email, roleIds));
    case SignUp(_, address) => UserChange(db, db.nextUser, NewUser(address, address, []));
    case SetRoles(id, roleIds) =>
      var user := Bumped(db.users[id].(roles := ToSet(roleIds)));
      UserChange(db, id, user);
      assert Step(db, op).users == db.users[id := user];
    case SetStatus(id, status) => UserChange(db, id, db.users[id].(status := status));
    case ForceLogout(id) => UserChange(db, id, Bumped(db.users[id]));
  }

  /** Every transaction keeps the tables well formed and moves the version of whoever it affects. */
  lemma {:induction false} StepIsSound(db: Tables, op: Op)
    requires Valid(db)
    ensures Valid(Step(db, op)) && Pinned(db, Step(db, op))
  {
    if Apply(db, op).Err? {
      return;
    }
    match op
    case Import(rows) => ImportIsSound(db, rows);
    case SetCap(_) => SameEverywhere(db, Step(db, op));
    case CreateRole(_, _) => RoleStepIsSound(db, op);
    case CloneRole(_, _) => RoleStepIsSound(db, op);
    case UpdateRole(_, _, _) => RoleStepIsSound(db, op);
    case DeleteRole(_, _) => RoleStepIsSound(db, op);
    case _ => UserStepIsSound(db, op);
  }

  lemma {:induction false} SameEverywhere(a: Tables, b: Tables)
    requires Valid(a) && a.users == b.users
    requires forall r | r in a.roles && Bound(a, r) :: r in b.roles && a.roles[r].grants == b.roles[r].grants
    ensures Pinned(a, b) && Counted(b) == Counted(a)
  {
  }

  lemma {:induction false} RoleStepIsSound(db: Tables, op: Op)
    requires Valid(db) && Apply(db, op).Ok?
    requires op.CreateRole? || op.UpdateRole? || op.CloneRole? || op.DeleteRole?
    ensures Valid(Step(db, op)) && Pinned(db, Step(db, op))
  {
    match op
    case CreateRole(name, codes) => AddRoleIsSound(db, name, ToSet(codes), None);
    case CloneRole(id, name) => AddRoleIsSound(db, name, db.roles[id].grants, Some(id));
    case DeleteRole(id, _) => SameEverywhere(db, Step(db, op));
    case UpdateRole(id, newName, newCodes) =>
      var name := if newName.Some? then newName.value else db.roles[id].name;
      RenameIsSound(db, id, name);
      if newCodes.Some? {
        RegrantIsSound(db.(roles := db.roles[id := db.roles[id].(name := name)]), id, ToSet(newCodes.value));
      }
  }

  lemma {:induction false} RenameIsSound(db: Tables, id: nat, name: string)
    requires Valid(db) && id in db.roles && !NameTaken(db, name, Some(id))
    ensures var renamed := db.(roles := db.roles[id := db.roles[id].(name := name)]);
            Valid(renamed) && Pinned(db, renamed)
  {
  }

  lemma {:induction false} RegrantIsSound(db: Tables, id: nat, codes: set<Code>)
    requires Valid(db) && id in db.roles && Regrant(db, id, codes).Ok?
    ensures Valid(Regrant(db, id, codes).value) && Pinned(db, Regrant(db, id, codes).value)
  {
  }

  lemma {:induction false} AddRoleIsSound(db: Tables, name: string, codes: set<Code>, clonedFrom: Option<nat>)
    requires Valid(db) && AddRole(db, name, codes, clonedFrom).Ok?
    ensures var after := AddRole(db, name, codes, clonedFrom).value;
            Valid(after) && Pinned(db, after) && Counted(after) == Counted(db)
  {
  }

  // --- the seat cap over whole runs -----------------------------------------------------------------------

  /** No seat above the cap is newly taken: nobody new is counted, or the count fits. */
  ghost predicate SeatsHeld(before: Tables, after: Tables) {
    Counted(after) <= Counted(before) || after.cap.None? || |Counted(after)| <= after.cap.value
  }

  lemma {:induction false} VersionsDoNotCount(a: Tables, b: Tables)
    requires a.roles == b.roles && a.users.Keys == b.users.Keys
    requires forall id | id in a.users :: b.users[id] == a.users[id].(version := b.users[id].version)
    ensures Counted(a) == Counted(b)
  {
  }

  lemma {:induction false} SeatCheckHolds(before: Tables, checked: Tables, after: Tables)
    requires SeatChecked(before, checked) == Ok(checked)
    requires after.cap == before.cap && Counted(after) == Counted(checked)
    ensures SeatsHeld(before, after)
  {
    if Counted(after) - Counted(before) == {} {
      forall id | id in Counted(after) ensures id in Counted(before) {
        assert id !in Counted(after) - Counted(before);
      }
    }
  }

  /** Role creation, cloning, deletion and renaming run without the check, and move no seat. */
  lemma {:induction false} UncheckedIsNeutral(db: Tables, op: Op)
    requires Valid(db)
    requires op.CreateRole? || op.CloneRole? || op.DeleteRole? || op.ForceLogout?
             || (op.UpdateRole? && op.newCodes.None?)
    ensures Counted(Step(db, op)) == Counted(db) && Step(db, op).cap == db.cap
  {
    if Apply(db, op).Ok? {
      match op
      case CreateRole(name, codes) => AddRoleIsSound(db, name, ToSet(codes), None);
      case CloneRole(id, name) => AddRoleIsSound(db, name, db.roles[id].grants, Some(id));
      case ForceLogout(_) => VersionsDoNotCount(db, Step(db, op));
      case _ => SameEverywhere(db, Step(db, op));
    }
  }

  lemma {:induction false} RegrantHoldsSeats(db: Tables, id: nat, codes: set<Code>)
    requires id in db.roles && Regrant(db, id, codes).Ok?
    ensures SeatsHeld(db, Regrant(db, id, codes).value) && Regrant(db, id, codes).value.cap == db.cap
  {
    var checked := db.(roles := db.roles[id := db.roles[id].(grants := codes)]);
    var after := Regrant(db, id, codes).value;
    VersionsDoNotCount(checked, after);
    SeatCheckHolds(db, checked, after);
  }

  /** One transaction of any kind but a change of plan. */
  lemma {:induction false} StepHoldsSeats(db: Tables, op: Op)
    requires Valid(db) && !op.SetCap?
    ensures SeatsHeld(db, Step(db, op)) && Step(db, op).cap == db.cap
  {
    if Apply(db, op).Ok? {
      var after := Step(db, op);
      match op
      case CreateUser(_, _, _) => SeatCheckHolds(db, after, after);
      case SignUp(_, _) => SeatCheckHolds(db, after, after);
      case SetStatus(_, _) => SeatCheckHolds(db, after, after);
      case SetRoles(id, roleIds) =>
        var checked := db.(users := db.users[id := db.users[id].(roles := ToSet(roleIds))]);
        VersionsDoNotCount(checked, after);
        SeatCheckHolds(db, checked, after);
      case Import(rows) =>
        ImportIsSound(db, rows);
        SeatCheckHolds(db, after, after);
      case UpdateRole(id, newName, newCodes) =>
        if newCodes.None? {
          UncheckedIsNeutral(db, op);
        } else {
          var renaming := UpdateRole(id, newName, None);
          UncheckedIsNeutral(db, renaming);
          RegrantHoldsSeats(Step(db, renaming), id, ToSet(newCodes.value));
        }
      case _ => UncheckedIsNeutral(db, op);
    }
  }

  lemma {:induction false} RunIsSound(db: Tables, ops: seq<Op>)
    requires Valid(db)
    ensures Valid(Run(db, ops)) && Pinned(db, Run(db, ops))
    decreases |ops|
  {
    if ops != [] {
      var before := Run(db, ops[..|ops| - 1]);
      RunIsSound(db, ops[..|ops| - 1]);
      StepIsSound(before, ops[|ops| - 1]);
      PinnedTransitive(db, before, Run(db, ops));
    }
  }

  /**
   Over every run with the plan unchanged: the counted seats end within the cap, or nobody is counted
   who was not counted at the start.
   */
  lemma {:induction false} RunHoldsSeats(db: Tables, ops: seq<Op>)
    requires Valid(db) && forall op | op in ops :: !op.SetCap?
    ensures SeatsHeld(db, Run(db, ops)) && Run(db, ops).cap == db.cap
    decreases |ops|
  {
    if ops != [] {
      var most, last := ops[..|ops| - 1], ops[|ops| - 1];
      RunHoldsSeats(db, most);
      RunIsSound(db, most);
      StepHoldsSeats(Run(db, most), last);
      var middle, final := Counted(Run(db, most)), Counted(Run(db, ops));
      if final <= middle {
        SubsetSize(final, middle);
      }
    }
  }

  lemma {:induction false} SubsetSize<T>(a: set<T>, b: set<T>)
    requires a <= b
    ensures |a| <= |b|
  {
    assert b == a + (b - a);
  }

  /** A tenant within its cap stays within it, whatever its administrators do. */
  lemma {:induction false} WithinCapStaysWithin(db: Tables, ops: seq<Op>)
    requires Valid(db) && (forall op | op in ops :: !op.SetCap?)
    requires db.cap.Some? && |Counted(db)| <= db.cap.value
    ensures |Counted(Run(db, ops))| <= db.cap.value
  {
    RunHoldsSeats(db, ops);
    if Counted(Run(db, ops)) <= Counted(db) {
      SubsetSize(Counted(Run(db, ops)), Counted(db));
    }
  }

  /** After a downgrade below usage, the counted set only shrinks for as long as it is over the cap. */
  lemma {:induction false} OverCapOnlyShrinks(db: Tables, ops: seq<Op>, earlier: nat)
    requires Valid(db) && (forall op | op in ops :: !op.SetCap?) && earlier <= |ops| && db.cap.Some?
    requires |Counted(Run(db, ops))| > db.cap.value
    ensures Counted(Run(db, ops)) <= Counted(Run(db, ops[..earlier]))
  {
    var middle := Run(db, ops[..earlier]);
    RunHoldsSeats(db, ops[..earlier]);
    RunIsSound(db, ops[..earlier]);
    RunSplits(db, ops[..earlier], ops[earlier..]);
    assert ops[..earlier] + ops[earlier..] == ops;
    RunHoldsSeats(middle, ops[earlier..]);
  }

  lemma {:induction false} RunSplits(db: Tables, first: seq<Op>, second: seq<Op>)
    ensures Run(db, first + second) == Run(Run(db, first), second)
    decreases |second|
  {
    if second == [] {
      assert first + second == first;
    } else {
      var n := |second| - 1;
      RunSplits(db, first, second[..n]);
      assert (first + second)[..|first + second| - 1] == first + second[..n];
    }
  }

  /** Disabling a user, or narrowing a role, is never refused for seats, however far over the cap. */
  lemma {:induction false} ShrinkingIsNeverRefused(db: Tables, op: Op)
    requires Valid(db)
    requires match op
             case SetStatus(id, status) => id in db.users && status == Disabled
             case UpdateRole(id, _, newCodes) =>
               id in db.roles && newCodes.Some? && ToSet(newCodes.value) <= db.roles[id].grants
             case _ => false
    ensures Apply(db, op) != Err(SeatLimit)
  {
  }

  /** A self-service account starts without roles: it takes no seat, and only a taken email turns it away. */
  lemma {:induction false} SignUpTakesNoSeat(db: Tables, address: string)
    requires Valid(db)
    ensures Apply(db, SignUp(true, address)).Ok? <==> !LoginTaken(db, address, address)
    ensures Counted(Step(db, SignUp(true, address))) == Counted(db)
  {
    var after := db.(users := db.users[db.nextUser := NewUser(address, address, [])], nextUser := db.nextUser + 1);
    assert Effective(after, db.nextUser) == {};
    forall u | u in db.users ensures Effective(after, u) == Effective(db, u) {
      SameGrants(after, db, u);
    }
    assert Counted(after) == Counted(db);
    assert Counted(after) - Counted(db) == {};
  }
}
