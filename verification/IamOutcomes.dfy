/**
 What each IAM transaction leaves behind, and exactly when it is refused, said of the stored rows
 (`role.service.ts`, `user.service.ts`, `import.service.ts` under `apps/api/src/iam/`; `seat.service.ts` under
 `apps/api/src/platform/`).
 */
module IamOutcomes {
  import opened Optional
  import opened Seats

  // --- who occupies a seat --------------------------------------------------------------------------------

  /** Some of these roles grants more than scanning. */
  ghost predicate BeyondScanning(db: Tables, roles: set<nat>) {
    exists r, c :: r in roles && r in db.roles && c in db.roles[r].grants && c != "production.scan"
  }

  /**
   A seat is taken by every user, pending ones too, who is neither deleted nor disabled and is a super-admin
   or has a role that grants more than scanning.
   */
  lemma {:induction false} SeatsAreTakenBy(db: Tables, id: nat)
    ensures id in Counted(db) <==>
              && id in db.users && !db.users[id].deleted && db.users[id].status in {Pending, Active}
              && (db.users[id].superAdmin || BeyondScanning(db, db.users[id].roles))
  {
    if id in db.users {
      var effective := Effective(db, id);
      if r, c :| r in db.users[id].roles && r in db.roles && c in db.roles[r].grants && c != "production.scan" {
        assert c in effective;
      } else {
        assert effective <= SCAN_ONLY;
      }
    }
  }

  lemma {:induction false} OneMoreSeat(db: Tables, after: Tables, id: nat)
    requires id !in Counted(db) || id in Counted(after)
    requires forall u | u != id :: u in Counted(after) <==> u in Counted(db)
    ensures OverCap(db.cap, Counted(db), Counted(after)) <==>
              id in Counted(after) && id !in Counted(db) && db.cap.Some? && |Counted(db)| + 1 > db.cap.value
  {
    if id in Counted(after) && id !in Counted(db) {
      assert Counted(after) == Counted(db) + {id};
      assert id in Counted(after) - Counted(db);
    } else {
      assert Counted(after) == Counted(db);
      assert Counted(after) - Counted(db) == {};
    }
  }

  /** Somebody is newly seated, and more users than the cap are. */
  ghost predicate Crowds(db: Tables, after: Tables) {
    db.cap.Some? && |Counted(after)| > db.cap.value && exists u | u in Counted(after) :: u !in Counted(db)
  }

  lemma {:induction false} OverCapIsCrowding(db: Tables, after: Tables)
    ensures OverCap(db.cap, Counted(db), Counted(after)) <==> Crowds(db, after)
  {
    var seated, before := Counted(after), Counted(db);
    hide Counted;
    if u :| u in seated && u !in before {
      assert u in seated - before;
    } else {
      assert seated - before == {};
    }
  }

  // --- frames ---------------------------------------------------------------------------------------------

  /** Nothing but the rows of one user changes. */
  ghost predicate OnlyUser(db: Tables, after: Tables, id: nat) {
    && after.roles == db.roles && after.catalog == db.catalog && after.cap == db.cap && after.nextRole == db.nextRole
    && id in after.users
    && forall u | u != id :: (u in after.users <==> u in db.users) && (u in db.users ==> after.users[u] == db.users[u])
  }

  /** Nothing but one role changes, and the versions of the users bound to it. */
  ghost predicate OnlyRole(db: Tables, after: Tables, id: nat) {
    && after.catalog == db.catalog && after.cap == db.cap && after.nextUser == db.nextUser
    && (forall r | r != id ::
          (r in after.roles <==> r in db.roles) && (r in db.roles ==> after.roles[r] == db.roles[r]))
    && after.users.Keys == db.users.Keys
    && (forall u | u in db.users ::
          after.users[u] == db.users[u].(version := after.users[u].version)
          && (id !in db.users[u].roles ==> after.users[u].version == db.users[u].version))
  }

  // --- users ----------------------------------------------------------------------------------------------

  /** The new user can do exactly what the given roles grant. */
  lemma {:induction false} CreateUserLeaves(db: Tables, username: string, email: string, roleIds: seq<nat>)
    requires Valid(db) && Apply(db, CreateUser(username, email, roleIds)).Ok?
    ensures var after, id := Step(db, CreateUser(username, email, roleIds)), db.nextUser;
            && id !in db.users && after.nextUser == id + 1 && OnlyUser(db, after, id)
            && after.users[id].username == username && after.users[id].email == email
            && after.users[id].status == Active && after.users[id].version == 1
            && !after.users[id].superAdmin && !after.users[id].deleted
            && (forall r :: r in after.users[id].roles <==> r in roleIds)
            && Effective(after, id) == set r, c | r in roleIds && r in db.roles && c in db.roles[r].grants :: c
  {
    hide Counted;
  }

  lemma {:induction false} CountedWithNew(db: Tables, user: User)
    requires Valid(db)
    ensures var after := db.(users := db.users[db.nextUser := user], nextUser := db.nextUser + 1);
            && db.nextUser !in Counted(db)
            && forall u | u != db.nextUser :: u in Counted(after) <==> u in Counted(db)
  {
    var after := db.(users := db.users[db.nextUser := user], nextUser := db.nextUser + 1);
    forall u | u in db.users ensures Effective(after, u) == Effective(db, u) {
      SameGrants(after, db, u);
    }
  }

  /** Refused exactly for a taken login, an unknown role, or a seat above the cap. */
  lemma {:induction false} CreateUserRefusedExactlyWhen(db: Tables, username: string, email: string,
      roleIds: seq<nat>)
    requires Valid(db)
    ensures var taken := exists u | u in db.users :: db.users[u].username == username || db.users[u].email == email;
            var unknown := exists r | r in roleIds :: r !in db.roles;
            var full := && db.cap.Some? && |Counted(db)| + 1 > db.cap.value
                        && BeyondScanning(db, set r | r in roleIds);
            match Apply(db, CreateUser(username, email, roleIds))
            case Err(e) => e == (if taken then Conflict else if unknown then NotFound else SeatLimit)
                           && (taken || unknown || full)
            case Ok(_) => !taken && !unknown && !full
  {
    var user := NewUser(username, email, roleIds);
    var after := db.(users := db.users[db.nextUser := user], nextUser := db.nextUser + 1);
    CountedWithNew(db, user);
    SeatsAreTakenBy(after, db.nextUser);
    OneMoreSeat(db, after, db.nextUser);
    assert BeyondScanning(after, user.roles) <==> BeyondScanning(db, set r | r in roleIds);
    hide Counted, OverCap, BeyondScanning;
  }

  /** The user can do exactly what the given roles grant, and must sign in again. */
  lemma {:induction false} SetRolesLeaves(db: Tables, id: nat, roleIds: seq<nat>)
    requires Apply(db, SetRoles(id, roleIds)).Ok?
    ensures var after := Step(db, SetRoles(id, roleIds));
            && id in db.users && OnlyUser(db, after, id) && after.nextUser == db.nextUser
            && after.users[id].version == db.users[id].version + 1
            && after.users[id] == db.users[id].(roles := after.users[id].roles, version := after.users[id].version)
            && (forall r :: r in after.users[id].roles <==> r in roleIds)
            && Effective(after, id) == set r, c | r in roleIds && r in db.roles && c in db.roles[r].grants :: c
  {
    hide Counted;
  }

  lemma {:induction false} CountedWithChanged(db: Tables, id: nat, user: User)
    ensures var after := db.(users := db.users[id := user]);
            forall u | u != id :: u in Counted(after) <==> u in Counted(db)
  {
    var after := db.(users := db.users[id := user]);
    forall u | u in db.users && u != id ensures Effective(after, u) == Effective(db, u) {
      assert after.users[u] == db.users[u];
      forall c ensures c in Effective(after, u) <==> c in Effective(db, u) {
      }
    }
  }

  /** Refused exactly for an unknown user or role, or a seat above the cap that the user did not hold before. */
  lemma {:induction false} SetRolesRefusedExactlyWhen(db: Tables, id: nat, roleIds: seq<nat>)
    ensures var unknown := id !in db.users || exists r | r in roleIds :: r !in db.roles;
            var full := && id in db.users && id !in Counted(db) && db.cap.Some? && |Counted(db)| + 1 > db.cap.value
                        && !db.users[id].deleted && db.users[id].status != Disabled
                        && BeyondScanning(db, set r | r in roleIds);
            match Apply(db, SetRoles(id, roleIds))
            case Err(e) => e == (if unknown then NotFound else SeatLimit) && (unknown || full)
            case Ok(_) => !unknown && !full
  {
    if id in db.users {
      var user := db.users[id].(roles := ToSet(roleIds));
      var after := db.(users := db.users[id := user]);
      CountedWithChanged(db, id, user);
      SeatsAreTakenBy(db, id);
      SeatsAreTakenBy(after, id);
      assert BeyondScanning(after, user.roles) <==> BeyondScanning(db, set r | r in roleIds);
      hide Counted, BeyondScanning;
      ChangedSeat(db, after, id);
    }
  }

  /** The seat check when at most one user's seat changes, either way. */
  lemma {:induction false} ChangedSeat(db: Tables, after: Tables, id: nat)
    requires forall u | u != id :: u in Counted(after) <==> u in Counted(db)
    ensures OverCap(db.cap, Counted(db), Counted(after)) <==>
              id in Counted(after) && id !in Counted(db) && db.cap.Some? && |Counted(db)| + 1 > db.cap.value
  {
    hide Counted;
    if id in Counted(db) && id !in Counted(after) {
      assert Counted(after) - Counted(db) == {};
    } else {
      OneMoreSeat(db, after, id);
    }
  }

  lemma {:induction false} SetStatusLeaves(db: Tables, id: nat, status: Status)
    requires Apply(db, SetStatus(id, status)).Ok?
    ensures var after := Step(db, SetStatus(id, status));
            && id in db.users && OnlyUser(db, after, id) && after.nextUser == db.nextUser
            && after.users[id] == db.users[id].(status := status) && Effective(after, id) == Effective(db, id)
  {
    hide Counted;
  }

  /** Refused exactly for an unknown user, or a seat above the cap that the user did not hold before. */
  lemma {:induction false} SetStatusRefusedExactlyWhen(db: Tables, id: nat, status: Status)
    ensures var full := && id in db.users && id !in Counted(db) && db.cap.Some? && |Counted(db)| + 1 > db.cap.value
                        && !db.users[id].deleted && status != Disabled
                        && (db.users[id].superAdmin || BeyondScanning(db, db.users[id].roles));
            match Apply(db, SetStatus(id, status))
            case Err(e) => e == (if id !in db.users then NotFound else SeatLimit) && (id !in db.users || full)
            case Ok(_) => id in db.users && !full
  {
    if id in db.users {
      var user := db.users[id].(status := status);
      var after := db.(users := db.users[id := user]);
      CountedWithChanged(db, id, user);
      SeatsAreTakenBy(after, id);
      assert BeyondScanning(after, user.roles) <==> BeyondScanning(db, db.users[id].roles);
      hide Counted, BeyondScanning;
      ChangedSeat(db, after, id);
    }
  }

  lemma {:induction false} ForceLogoutLeaves(db: Tables, id: nat)
    ensures var after := Step(db, ForceLogout(id));
            && (Apply(db, ForceLogout(id)).Ok? <==> id in db.users)
            && (id in db.users ==>
                  && OnlyUser(db, after, id) && after.nextUser == db.nextUser
                  && after.users[id] == db.users[id].(version := db.users[id].version + 1))
  {
  }

  /** Self-service sign-up is a user without roles whose username is the email, where the tenant allows it. */
  lemma {:induction false} SignUpIsCreateUser(db: Tables, address: string)
    ensures Apply(db, SignUp(true, address)) == Apply(db, CreateUser(address, address, []))
    ensures Apply(db, SignUp(false, address)) == Err(Forbidden)
  {
  }

  /** No two users ever share a username or an email. */
  ghost predicate UniqueLogins(db: Tables) {
    forall u, v | u in db.users && v in db.users && u != v ::
      db.users[u].username != db.users[v].username && db.users[u].email != db.users[v].email
  }

  lemma {:induction false} LoginsStayUnique(db: Tables, op: Op)
    requires Valid(db) && UniqueLogins(db)
    ensures UniqueLogins(Step(db, op))
  {
    if Apply(db, op).Ok? {
      match op
      case CreateUser(username, email, roleIds) => LoginIsNew(db, NewUser(username, email, roleIds));
      case SignUp(_, address) => LoginIsNew(db, NewUser(address, address, []));
      case _ => LoginsAreKept(db, op);
    }
  }

  lemma {:induction false} LoginsAreKept(db: Tables, op: Op)
    requires UniqueLogins(db) && !op.CreateUser? && !op.SignUp?
    ensures UniqueLogins(Step(db, op))
  {
    hide Counted, ImportAll, RoleNamed, Bound, Cloned, UniqueLogins;
    var after := Step(db, op);
    assert SameLogins(db, after) by {
      if op.Import? && ImportAll(db, op.rows).Ok? {
        ImportSparesUsers(db, op.rows);
      }
    }
    SameLoginsUnique(db, after);
  }

  ghost predicate SameLogins(db: Tables, after: Tables) {
    && after.users.Keys == db.users.Keys
    && forall u | u in db.users ::
         after.users[u].username == db.users[u].username && after.users[u].email == db.users[u].email
  }

  lemma {:induction false} SameLoginsUnique(db: Tables, after: Tables)
    requires UniqueLogins(db) && SameLogins(db, after)
    ensures UniqueLogins(after)
  {
  }

  lemma {:induction false} LoginIsNew(db: Tables, user: User)
    requires Valid(db) && UniqueLogins(db) && !LoginTaken(db, user.username, user.email)
    ensures UniqueLogins(db.(users := db.users[db.nextUser := user], nextUser := db.nextUser + 1))
  {
  }

  lemma {:induction false} ImportSparesUsers(db: Tables, rows: seq<ImportRow>)
    requires ImportAll(db, rows).Ok?
    ensures var after := ImportAll(db, rows).value;
            && after.users.Keys == db.users.Keys
            && forall u | u in db.users :: after.users[u] == db.users[u].(version := after.users[u].version)
    decreases |rows|
  {
    if rows != [] {
      var next := ImportOne(db, rows[0]).value;
      RowSparesUsers(db, rows[0]);
      hide ImportOne;
      ImportSparesUsers(next, rows[1..]);
    }
  }

  lemma {:induction false} RowSparesUsers(db: Tables, row: ImportRow)
    requires ImportOne(db, row).Ok?
    ensures var next := ImportOne(db, row).value;
            && next.users.Keys == db.users.Keys
            && forall u | u in db.users :: next.users[u] == db.users[u].(version := next.users[u].version)
  {
    hide RoleNamed;
  }

  // --- roles ----------------------------------------------------------------------------------------------

  /** A new role grants exactly the codes, and nobody has it yet. */
  lemma {:induction false} CreateRoleLeaves(db: Tables, name: string, codes: seq<Code>)
    requires Valid(db) && Apply(db, CreateRole(name, codes)).Ok?
    ensures var after, id := Step(db, CreateRole(name, codes)), db.nextRole;
            && id !in db.roles && id in after.roles && after.nextRole == id + 1
            && OnlyRole(db, after, id) && after.users == db.users
            && after.roles[id].name == name && !after.roles[id].system && after.roles[id].clonedFrom == None
            && (forall c :: c in after.roles[id].grants <==> c in codes)
  {
  }

  /** A clone grants exactly what its source grants. */
  lemma {:induction false} CloneRoleLeaves(db: Tables, id: nat, name: string)
    requires Valid(db) && Apply(db, CloneRole(id, name)).Ok?
    ensures var after, clone := Step(db, CloneRole(id, name)), db.nextRole;
            && id in db.roles && clone !in db.roles && clone in after.roles && after.nextRole == clone + 1
            && OnlyRole(db, after, clone) && after.users == db.users
            && after.roles[clone].name == name && !after.roles[clone].system
            && after.roles[clone].clonedFrom == Some(id) && after.roles[clone].grants == db.roles[id].grants
  {
  }

  /** New and cloned roles are refused exactly for a taken name, an unknown source or an unknown code. */
  lemma {:induction false} NewRoleRefusedExactlyWhen(db: Tables, name: string, codes: seq<Code>, source: nat)
    requires Valid(db)
    ensures var taken := exists r | r in db.roles :: db.roles[r].name == name;
            var unknown := exists c | c in codes :: c !in db.catalog;
            && (match Apply(db, CreateRole(name, codes))
                case Err(e) => e == (if taken then Conflict else Invalid) && (taken || unknown)
                case Ok(_) => !taken && !unknown)
            && (match Apply(db, CloneRole(source, name))
                case Err(e) => e == (if source !in db.roles then NotFound else Conflict)
                               && (source !in db.roles || taken)
                case Ok(_) => source in db.roles && !taken)
  {
  }

  /** A regranted role grants exactly the new codes, and everyone bound to it must sign in again. */
  lemma {:induction false} UpdateRoleLeaves(db: Tables, id: nat, newName: Option<string>, newCodes: Option<seq<Code>>)
    requires Apply(db, UpdateRole(id, newName, newCodes)).Ok?
    ensures var after := Step(db, UpdateRole(id, newName, newCodes));
            && id in db.roles && id in after.roles && OnlyRole(db, after, id) && after.nextRole == db.nextRole
            && after.roles[id] == db.roles[id].(name := after.roles[id].name, grants := after.roles[id].grants)
            && after.roles[id].name == (if newName.Some? then newName.value else db.roles[id].name)
            && (newCodes.None? ==> after.roles[id].grants == db.roles[id].grants && after.users == db.users)
            && (newCodes.Some? ==>
                  && (forall c :: c in after.roles[id].grants <==> c in newCodes.value)
                  && forall u | u in db.users && id in db.users[u].roles ::
                       after.users[u].version == db.users[u].version + 1)
  {
    hide Counted;
  }

  /** The tables with the role's name and grants replaced. */
  function Regranted(db: Tables, id: nat, name: string, codes: set<Code>): Tables
    requires id in db.roles
  {
    db.(roles := db.roles[id := db.roles[id].(name := name, grants := codes)])
  }

  lemma {:induction false} NamesDoNotCount(db: Tables, id: nat, name: string)
    requires id in db.roles
    ensures Counted(Regranted(db, id, name, db.roles[id].grants)) == Counted(db)
  {
    var renamed := Regranted(db, id, name, db.roles[id].grants);
    forall u ensures u in Counted(renamed) <==> u in Counted(db) {
      SeatsAreTakenBy(renamed, u);
      SeatsAreTakenBy(db, u);
      if u in db.users {
        var roles := db.users[u].roles;
        forall r, c ensures r in roles && r in renamed.roles && c in renamed.roles[r].grants
                       <==> r in roles && r in db.roles && c in db.roles[r].grants {
        }
        assert BeyondScanning(renamed, roles) <==> BeyondScanning(db, roles);
      }
    }
  }

  /**
   Refused exactly for an unknown role, a name another role has, an unknown code, or grants that seat someone
   new while more users than the cap would be seated.
   */
  lemma {:induction false} UpdateRoleRefusedExactlyWhen(db: Tables, id: nat, newName: Option<string>,
      newCodes: Option<seq<Code>>)
    requires id in db.roles
    ensures var name := if newName.Some? then newName.value else db.roles[id].name;
            var taken := exists r | r in db.roles :: r != id && db.roles[r].name == name;
            var unknown := newCodes.Some? && exists c | c in newCodes.value :: c !in db.catalog;
            var full := newCodes.Some? && Crowds(db, Regranted(db, id, name, set c | c in newCodes.value));
            match Apply(db, UpdateRole(id, newName, newCodes))
            case Err(e) => e == (if taken then Conflict else if unknown then Invalid else SeatLimit)
                           && (taken || unknown || full)
            case Ok(_) => !taken && !unknown && !full
  {
    var name := if newName.Some? then newName.value else db.roles[id].name;
    NamesDoNotCount(db, id, name);
    assert NameTaken(db, name, Some(id)) <==> exists r | r in db.roles :: r != id && db.roles[r].name == name;
    if newCodes.Some? {
      var codes := ToSet(newCodes.value);
      assert codes == set c | c in newCodes.value;
      var renamed := Regranted(db, id, name, db.roles[id].grants);
      assert Regranted(renamed, id, name, codes) == Regranted(db, id, name, codes);
      hide Counted, NameTaken, OverCap, Crowds;
      OverCapIsCrowding(db, Regranted(db, id, name, codes));
      RegrantChecks(db, renamed, id, name, codes);
    }
  }

  lemma {:induction false} RegrantChecks(db: Tables, renamed: Tables, id: nat, name: string, codes: set<Code>)
    requires id in db.roles && renamed == Regranted(db, id, name, db.roles[id].grants)
    requires Counted(renamed) == Counted(db)
    ensures Regrant(renamed, id, codes).Ok? <==>
              codes <= db.catalog && !OverCap(db.cap, Counted(db), Counted(Regranted(db, id, name, codes)))
    ensures Regrant(renamed, id, codes).Err? ==>
              Regrant(renamed, id, codes).error == if codes <= db.catalog then SeatLimit else Invalid
  {
    hide Counted, OverCap;
    assert Regranted(renamed, id, name, codes) == Regranted(db, id, name, codes);
  }

  /** A deleted role had nobody bound, no clone and no system flag, and nothing else goes. */
  lemma {:induction false} DeleteRoleLeaves(db: Tables, id: nat, reauthenticated: bool)
    ensures var after := Step(db, DeleteRole(id, reauthenticated));
            && (Apply(db, DeleteRole(id, reauthenticated)).Ok? <==>
                  && reauthenticated && id in db.roles && !db.roles[id].system
                  && (forall u | u in db.users :: id !in db.users[u].roles)
                  && (forall r | r in db.roles :: db.roles[r].clonedFrom != Some(id)))
            && (Apply(db, DeleteRole(id, reauthenticated)).Ok? ==>
                  OnlyRole(db, after, id) && after.users == db.users && id !in after.roles)
  {
  }

  // --- import ---------------------------------------------------------------------------------------------

  /** A role no row names stays as it is. */
  lemma {:induction false} ImportSparesRole(db: Tables, rows: seq<ImportRow>, r: nat)
    requires Valid(db) && KnownCodes(db, rows) && ImportAll(db, rows).Ok?
    requires r in db.roles && forall row | row in rows :: row.name != db.roles[r].name
    ensures var after := ImportAll(db, rows).value; r in after.roles && after.roles[r] == db.roles[r]
    decreases |rows|
  {
    if rows != [] {
      var next := ImportOne(db, rows[0]).value;
      ImportOneIsSound(db, rows[0]);
      assert r < db.nextRole && rows[0] in rows;
      ImportSparesRole(next, rows[1..], r);
    }
  }

  /** The last row of a name decides: one role of that name, granting exactly the row's codes. */
  lemma {:induction false} ImportLeaves(db: Tables, rows: seq<ImportRow>, i: nat) returns (r: nat)
    requires Valid(db) && KnownCodes(db, rows) && ImportAll(db, rows).Ok? && i < |rows|
    requires forall j | i < j < |rows| :: rows[j].name != rows[i].name
    ensures var after := ImportAll(db, rows).value;
            && r in after.roles && after.roles[r].name == rows[i].name
            && (forall c :: c in after.roles[r].grants <==> c in rows[i].codes)
            && (forall q | q in after.roles && q != r :: after.roles[q].name != rows[i].name)
    decreases |rows|
  {
    var next := ImportOne(db, rows[0]).value;
    ImportOneIsSound(db, rows[0]);
    ImportIsSound(db, rows);
    if i == 0 {
      r := ImportedRole(db, rows[0]);
      forall row | row in rows[1..] ensures row.name != rows[0].name {
        var j :| 0 <= j < |rows[1..]| && rows[1..][j] == row;
        assert rows[j + 1] == row;
      }
      ImportSparesRole(next, rows[1..], r);
    } else {
      assert rows[1..][i - 1] == rows[i];
      assert forall j | i - 1 < j < |rows[1..]| :: rows[1..][j] == rows[j + 1];
      r := ImportLeaves(next, rows[1..], i - 1);
    }
  }

  lemma {:induction false} ImportedRole(db: Tables, row: ImportRow) returns (r: nat)
    requires Valid(db) && ImportOne(db, row).Ok?
    ensures var next := ImportOne(db, row).value;
            && r in next.roles && next.roles[r].name == row.name
            && (forall c :: c in next.roles[r].grants <==> c in row.codes)
  {
    r := match RoleNamed(db, row.name) case Some(found) => found case None => db.nextRole;
  }

  /** Everyone bound to a role that a row names must sign in again. */
  lemma {:induction false} ImportBumps(db: Tables, rows: seq<ImportRow>, i: nat, r: nat, u: nat)
    requires Valid(db) && KnownCodes(db, rows) && ImportAll(db, rows).Ok? && i < |rows|
    requires r in db.roles && db.roles[r].name == rows[i].name && u in db.users && r in db.users[u].roles
    ensures u in ImportAll(db, rows).value.users
    ensures ImportAll(db, rows).value.users[u].version > db.users[u].version
    decreases |rows|
  {
    var next := ImportOne(db, rows[0]).value;
    ImportOneIsSound(db, rows[0]);
    RowSparesUsers(db, rows[0]);
    if i == 0 {
      RowBumps(db, rows[0], r, u);
      ImportKeepsVersion(next, rows[1..], u);
    } else {
      assert rows[1..][i - 1] == rows[i];
      RowSparesNames(db, rows[0], r);
      assert next.users[u].version >= db.users[u].version;
      hide ImportOne, Effective, Pinned, Valid;
      ImportBumps(next, rows[1..], i - 1, r, u);
    }
  }

  lemma {:induction false} ImportKeepsVersion(db: Tables, rows: seq<ImportRow>, u: nat)
    requires Valid(db) && KnownCodes(db, rows) && ImportAll(db, rows).Ok? && u in db.users
    ensures u in ImportAll(db, rows).value.users
    ensures ImportAll(db, rows).value.users[u].version >= db.users[u].version
  {
    ImportIsSound(db, rows);
    hide ImportAll, Effective, Valid;
  }

  lemma {:induction false} RowBumps(db: Tables, row: ImportRow, r: nat, u: nat)
    requires Valid(db) && ImportOne(db, row).Ok?
    requires r in db.roles && db.roles[r].name == row.name && u in db.users && r in db.users[u].roles
    ensures u in ImportOne(db, row).value.users
    ensures ImportOne(db, row).value.users[u].version == db.users[u].version + 1
  {
    assert RoleNamed(db, row.name) == Some(r);
    hide RoleNamed;
  }

  lemma {:induction false} RowSparesNames(db: Tables, row: ImportRow, r: nat)
    requires Valid(db) && ImportOne(db, row).Ok? && r in db.roles
    ensures r in ImportOne(db, row).value.roles && ImportOne(db, row).value.roles[r].name == db.roles[r].name
  {
  }

  /** An import fails exactly for an unknown code, a repeated code, or somebody newly seated above the cap. */
  lemma {:induction false} ImportRefusedExactlyWhen(db: Tables, rows: seq<ImportRow>)
    ensures var unknown := exists row, c :: row in rows && c in row.codes && c !in db.catalog;
            var repeated := exists row | row in rows :: !Distinct(row.codes);
            var all := ImportAll(db, rows);
            && (all.Ok? <==> !repeated)
            && match Apply(db, Import(rows))
               case Err(e) => e == (if unknown then Invalid else if repeated then Conflict else SeatLimit)
                              && (unknown || repeated || Crowds(db, all.value))
               case Ok(after) => !unknown && !repeated && after == all.value && !Crowds(db, all.value)
  {
    AllDistinct(db, rows);
    assert KnownCodes(db, rows) <==> forall row, c :: row in rows && c in row.codes ==> c in db.catalog by {
      if KnownCodes(db, rows) {
        forall row, c | row in rows && c in row.codes ensures c in db.catalog {
          var i :| 0 <= i < |rows| && rows[i] == row;
          assert c in ToSet(rows[i].codes);
        }
      } else {
        var i :| 0 <= i < |rows| && !(ToSet(rows[i].codes) <= db.catalog);
        var c :| c in ToSet(rows[i].codes) && c !in db.catalog;
        assert rows[i] in rows && c in rows[i].codes;
      }
    }
    hide ImportAll, KnownCodes, Distinct, Counted, OverCap, Crowds;
    if ImportAll(db, rows).Ok? {
      OverCapIsCrowding(db, ImportAll(db, rows).value);
    }
  }

  lemma {:induction false} AllDistinct(db: Tables, rows: seq<ImportRow>)
    ensures ImportAll(db, rows).Ok? <==> forall row | row in rows :: Distinct(row.codes)
    ensures ImportAll(db, rows).Err? ==> ImportAll(db, rows).error == Conflict
    decreases |rows|
  {
    if rows != [] {
      assert rows == [rows[0]] + rows[1..];
      if Distinct(rows[0].codes) {
        AllDistinct(ImportOne(db, rows[0]).value, rows[1..]);
      }
    }
  }
}
