/**
 The IAM services as they run: each transaction edits the tables statement by statement, re-counts the
 seats where it must, and puts everything back when it fails.
 */
module IamService {
  import opened Optional
  import opened Seats
  import opened Tokens

  /** What a transaction left behind is what it should: its commit, or the untouched tables and its error. */
  ghost predicate Performed(before: Tables, op: Op, after: Tables, failure: Option<Error>) {
    match Apply(before, op)
    case Ok(committed) => failure.None? && after == committed
    case Err(e) => failure == Some(e) && after == before
  }

  class IamTables {
    const catalog: set<Code>
    var cap: Option<int>
    var users: map<nat, User>
    var roles: map<nat, Role>
    var nextUser: nat
    var nextRole: nat
    var sessions: map<nat, Session>
    var nextSession: nat

    constructor (catalog: set<Code>, cap: Option<int>)
      ensures Valid(Db()) && Db() == Tables(map[], map[], catalog, cap, 0, 0) && sessions == map[]
    {
      this.catalog, this.cap := catalog, cap;
      users, roles, sessions := map[], map[], map[];
      nextUser, nextRole, nextSession := 0, 0, 0;
    }

    function Db(): Tables
      reads this
    {
      Tables(users, roles, catalog, cap, nextUser, nextRole)
    }

    // --- seats -------------------------------------------------------------------------------------------

    method AssertCapacity(countedBefore: set<nat>) returns (failure: Option<Error>)
      ensures failure == if OverCap(cap, countedBefore, Counted(Db())) then Some(SeatLimit) else None
    {
      if cap.None? {
        return None;
      }
      var counted := Counted(Db());
      var promoted := counted - countedBefore;
      if |promoted| == 0 || |counted| <= cap.value {
        return None;
      }
      failure := Some(SeatLimit);
    }

    // --- roles -------------------------------------------------------------------------------------------

    method ReplacePermissions(id: nat, codes: set<Code>) returns (failure: Option<Error>)
      requires id in roles
      modifies this`roles
      ensures failure == if codes <= catalog then None else Some(Invalid)
      ensures failure.None? ==> roles == old(roles)[id := old(roles)[id].(grants := codes)]
    {
      roles := roles[id := roles[id].(grants := {})];
      if codes == {} {
        return None;
      }
      if !(codes <= catalog) {
        return Some(Invalid);
      }
      roles := roles[id := roles[id].(grants := codes)];
      failure := None;
    }

    method BumpBoundUsers(role: nat)
      modifies this`users
      ensures users == BumpBound(old(users), role)
    {
      users := BumpBound(users, role);
    }

    method InsertRole(name: string, clonedFrom: Option<nat>) returns (id: nat, failure: Option<Error>)
      modifies this`roles, this`nextRole
      ensures id == old(nextRole)
      ensures failure == if NameTaken(old(Db()), name, None) then Some(Conflict) else None
      ensures nextRole == if failure.None? then id + 1 else id
      ensures roles == if failure.None? then old(roles)[id := Role(name, {}, false, clonedFrom)] else old(roles)
    {
      id := nextRole;
      if NameTaken(Db(), name, None) {
        return id, Some(Conflict);
      }
      roles, nextRole := roles[id := Role(name, {}, false, clonedFrom)], id + 1;
      failure := None;
    }

    method InsertGranted(name: string, codes: set<Code>, clonedFrom: Option<nat>) returns (failure: Option<Error>)
      modifies this`roles, this`nextRole
      ensures match AddRole(old(Db()), name, codes, clonedFrom)
              case Ok(committed) => failure.None? && Db() == committed
              case Err(e) => failure == Some(e) && Db() == old(Db())
    {
      var savedRoles, savedNext := roles, nextRole;
      var id;
      id, failure := InsertRole(name, clonedFrom);
      if failure.None? {
        failure := ReplacePermissions(id, codes);
        if failure.Some? {
          roles, nextRole := savedRoles, savedNext;
        }
      }
    }

    method CreateRole(name: string, codes: seq<Code>) returns (failure: Option<Error>)
      modifies this`roles, this`nextRole
      ensures Performed(old(Db()), Op.CreateRole(name, codes), Db(), failure)
    {
      failure := InsertGranted(name, ToSet(codes), None);
    }

    method CloneRole(id: nat, name: string) returns (failure: Option<Error>)
      modifies this`roles, this`nextRole
      ensures Performed(old(Db()), Op.CloneRole(id, name), Db(), failure)
    {
      if id !in roles {
        return Some(NotFound);
      }
      failure := InsertGranted(name, roles[id].grants, Some(id));
    }

    method UpdateRole(id: nat, newName: Option<string>, newCodes: Option<seq<Code>>) returns (failure: Option<Error>)
      modifies this`roles, this`users
      ensures Performed(old(Db()), Op.UpdateRole(id, newName, newCodes), Db(), failure)
    {
      if id !in roles {
        return Some(NotFound);
      }
      var savedRoles := roles;
      var name := if newName.Some? then newName.value else roles[id].name;
      if NameTaken(Db(), name, Some(id)) {
        return Some(Conflict);
      }
      roles := roles[id := roles[id].(name := name)];
      if newCodes.Some? {
        var countedBefore := Counted(Db());
        failure := ReplacePermissions(id, ToSet(newCodes.value));
        if failure.None? {
          failure := AssertCapacity(countedBefore);
        }
        if failure.Some? {
          roles := savedRoles;
          return;
        }
        BumpBoundUsers(id);
      }
      failure := None;
    }

    method DeleteRole(id: nat, reauthenticated: bool) returns (failure: Option<Error>)
      modifies this`roles
      ensures Performed(old(Db()), Op.DeleteRole(id, reauthenticated), Db(), failure)
    {
      if !reauthenticated {
        return Some(Forbidden);
      }
      if id !in roles {
        return Some(NotFound);
      }
      if roles[id].system || Bound(Db(), id) || Cloned(Db(), id) {
        return Some(Conflict);
      }
      roles := roles - {id};
      failure := None;
    }

    // --- users -------------------------------------------------------------------------------------------

    method AssignRoles(id: nat, roleIds: seq<nat>) returns (failure: Option<Error>)
      requires id in users
      modifies this`users
      ensures failure == if ToSet(roleIds) <= roles.Keys then None else Some(NotFound)
      ensures failure.None? ==>
                users == old(users)[id := old(users)[id].(roles := old(users)[id].roles + ToSet(roleIds))]
    {
      if !(ToSet(roleIds) <= roles.Keys) {
        return Some(NotFound);
      }
      users := users[id := users[id].(roles := users[id].roles + ToSet(roleIds))];
      failure := None;
    }

    method CreateUser(username: string, email: string, roleIds: seq<nat>) returns (failure: Option<Error>)
      modifies this`users, this`nextUser
      ensures Performed(old(Db()), Op.CreateUser(username, email, roleIds), Db(), failure)
    {
      if LoginTaken(Db(), username, email) {
        return Some(Conflict);
      }
      var savedUsers, savedNext := users, nextUser;
      var countedBefore := Counted(Db());
      var id := nextUser;
      users, nextUser := users[id := User(username, email, Active, 1, false, false, {})], id + 1;
      failure := AssignRoles(id, roleIds);
      if failure.None? {
        assert {} + ToSet(roleIds) == ToSet(roleIds);
        assert users == savedUsers[id := NewUser(username, email, roleIds)];
        failure := AssertCapacity(countedBefore);
      }
      if failure.Some? {
        users, nextUser := savedUsers, savedNext;
      }
    }

    /** Self-service sign-up with a verified Google identity, where the tenant allows it. */
    method SignUp(allowSelfSignup: bool, address: string) returns (failure: Option<Error>)
      modifies this`users, this`nextUser
      ensures Performed(old(Db()), Op.SignUp(allowSelfSignup, address), Db(), failure)
    {
      if !allowSelfSignup {
        return Some(Forbidden);
      }
      if LoginTaken(Db(), address, address) {
        return Some(Conflict);
      }
      var countedBefore := Counted(Db());
      users, nextUser := users[nextUser := NewUser(address, address, [])], nextUser + 1;
      // Without roles the account counts for no seat, so the check passes and nothing is rolled back.
      failure := AssertCapacity(countedBefore);
    }

    method SetRoles(id: nat, roleIds: seq<nat>) returns (failure: Option<Error>)
      modifies this`users
      ensures Performed(old(Db()), Op.SetRoles(id, roleIds), Db(), failure)
    {
      if id !in users {
        return Some(NotFound);
      }
      var savedUsers := users;
      var countedBefore := Counted(Db());
      users := users[id := users[id].(roles := {})];
      failure := AssignRoles(id, roleIds);
      if failure.None? {
        assert {} + ToSet(roleIds) == ToSet(roleIds);
        assert users == savedUsers[id := savedUsers[id].(roles := ToSet(roleIds))];
        failure := AssertCapacity(countedBefore);
      }
      if failure.Some? {
        users := savedUsers;
        return;
      }
      users := users[id := Bumped(users[id])];
    }

    method SetStatus(id: nat, status: Status) returns (failure: Option<Error>)
      modifies this`users
      ensures Performed(old(Db()), Op.SetStatus(id, status), Db(), failure)
    {
      if id !in users {
        return Some(NotFound);
      }
      var savedUsers := users;
      var countedBefore := Counted(Db());
      users := users[id := users[id].(status := status)];
      failure := AssertCapacity(countedBefore);
      if failure.Some? {
        users := savedUsers;
      }
    }

    method ForceLogout(id: nat) returns (failure: Option<Error>)
      modifies this`users, this`sessions
      ensures Performed(old(Db()), Op.ForceLogout(id), Db(), failure)
      ensures sessions == if failure.None? then RevokeAll(old(sessions), id) else old(sessions)
    {
      if id !in users {
        return Some(NotFound);
      }
      sessions := RevokeAll(sessions, id);
      users := users[id := Bumped(users[id])];
      failure := None;
    }

    // --- import ------------------------------------------------------------------------------------------

    method UpsertRole(name: string) returns (id: nat)
      requires Valid(Db())
      modifies this`roles, this`nextRole
      ensures match RoleNamed(old(Db()), name)
              case Some(r) => id == r && Db() == old(Db())
              case None =>
                && id == old(nextRole)
                && Db() == old(Db()).(roles := old(roles)[id := Role(name, {}, false, None)], nextRole := id + 1)
    {
      if r :| r in roles && roles[r].name == name {
        return r;
      }
      id := nextRole;
      roles, nextRole := roles[id := Role(name, {}, false, None)], id + 1;
    }

    method ApplyRow(row: ImportRow) returns (failure: Option<Error>)
      requires Valid(Db())
      modifies this`users, this`roles, this`nextRole
      ensures match ImportOne(old(Db()), row)
              case Ok(committed) => failure.None? && Db() == committed
              case Err(e) => failure == Some(e)
    {
      ghost var was := roles;
      var id := UpsertRole(row.name);
      roles := roles[id := roles[id].(grants := {})];
      if !Distinct(row.codes) {
        return Some(Conflict);
      }
      roles := roles[id := roles[id].(grants := ToSet(row.codes))];
      assert id in was ==> roles == was[id := was[id].(grants := ToSet(row.codes))];
      BumpBoundUsers(id);
      failure := None;
    }

    /** All or nothing: codes are checked first, then the rows applied in order under one seat check. */
    method ImportMatrix(rows: seq<ImportRow>) returns (imported: nat, failure: Option<Error>)
      requires Valid(Db())
      modifies this`users, this`roles, this`nextRole
      ensures Performed(old(Db()), Import(rows), Db(), failure)
      ensures failure.None? ==> imported == |rows|
    {
      if !KnownCodes(Db(), rows) {
        return 0, Some(Invalid);
      }
      var savedUsers, savedRoles, savedNext := users, roles, nextRole;
      var countedBefore := Counted(Db());
      imported, failure := 0, None;
      assert rows[0..] == rows;
      while imported < |rows| && failure.None?
        invariant imported <= |rows|
        invariant failure.None? ==>
                    && Valid(Db()) && KnownCodes(Db(), rows)
                    && ImportAll(Db(), rows[imported..]) == ImportAll(old(Db()), rows)
        invariant failure.Some? ==> ImportAll(old(Db()), rows) == Err(failure.value)
        decreases |rows| - imported, failure.None?
      {
        ghost var rest := rows[imported..];
        assert rest[0] == rows[imported] && rest[1..] == rows[imported + 1..];
        if ImportOne(Db(), rows[imported]).Ok? {
          ImportOneIsSound(Db(), rows[imported]);
        }
        failure := ApplyRow(rows[imported]);
        if failure.None? {
          imported := imported + 1;
        }
      }
      if failure.None? {
        assert rows[imported..] == [];
        failure := AssertCapacity(countedBefore);
      }
      if failure.Some? {
        users, roles, nextRole := savedUsers, savedRoles, savedNext;
      }
    }

    // --- sessions ----------------------------------------------------------------------------------------

    /** The tables seen as a world in which nothing else is signed. */
    ghost function Seen(tenant: nat, now: int): World
      reads this
    {
      World(Db(), tenant, sessions, nextSession, now, {}, {}, {})
    }

    method IssueSession(tenant: nat, user: nat, version: nat, now: int, ttl: int)
      returns (access: Access, refreshing: Refreshing)
      modifies this`sessions, this`nextSession
      ensures var after := Tokens.IssueSession(old(Seen(tenant, now)), user, version, ttl);
              sessions == after.sessions && nextSession == after.nextSession
              && after.access == {access} && after.refreshing == {refreshing}
    {
      var sid := nextSession;
      sessions, nextSession := sessions[sid := Session(user, tenant, version, false, now + ttl)], sid + 1;
      access, refreshing := Access(user, sid, version, tenant), Refreshing(user, sid, tenant);
    }

    method Refresh(claims: Refreshing, now: int) returns (access: Option<Access>)
      ensures access == if CanRefresh(Seen(claims.tenant, now), claims)
                        then Some(Access(claims.sub, claims.sid, sessions[claims.sid].version, claims.tenant)) else None
      ensures access.Some? <==>
                && claims.sid in sessions && sessions[claims.sid].tenant == claims.tenant
                && !sessions[claims.sid].revoked && now < sessions[claims.sid].expiresAt
                && claims.sub in users && users[claims.sub].status == Active
                && users[claims.sub].version == sessions[claims.sid].version
    {
      if claims.sid !in sessions {
        return None;
      }
      var found := sessions[claims.sid];
      if found.tenant != claims.tenant || found.revoked || found.expiresAt <= now {
        return None;
      }
      if claims.sub !in users {
        return None;
      }
      var u := users[claims.sub];
      if u.status != Active || u.version != found.version {
        return None;
      }
      access := Some(Access(claims.sub, claims.sid, found.version, claims.tenant));
    }

    /** The ordinary-user path of the request guard: the permissions it attaches, or a refusal. */
    method CanActivate(claims: Access, now: int) returns (permissions: Option<set<Code>>)
      ensures var w := Seen(claims.tenant, now);
              permissions == if Accepts(w, claims) then Some(Principal(w, claims)) else None
      ensures permissions.Some? <==>
                && claims.sid in sessions && sessions[claims.sid].tenant == claims.tenant
                && !sessions[claims.sid].revoked && now < sessions[claims.sid].expiresAt
                && claims.sub in users && users[claims.sub].status == Active
                && users[claims.sub].version == claims.version
    {
      if claims.sid !in sessions {
        return None;
      }
      var found := sessions[claims.sid];
      if found.tenant != claims.tenant || found.revoked || found.expiresAt <= now {
        return None;
      }
      if claims.sub !in users || users[claims.sub].status != Active {
        return None;
      }
      if users[claims.sub].version != claims.version {
        return None;
      }
      permissions := Some(if users[claims.sub].superAdmin then {} else Effective(Db(), claims.sub));
    }

    method Logout(sid: nat)
      modifies this`sessions
      ensures forall tenant, now :: sessions == Next(old(Seen(tenant, now)), Event.Logout(sid)).sessions
      ensures sid in sessions ==> sessions[sid].revoked
      ensures forall other | other != sid ::
                (other in sessions <==> other in old(sessions))
                && (other in sessions ==> sessions[other] == old(sessions)[other])
    {
      if sid in sessions {
        sessions := sessions[sid := sessions[sid].(revoked := true)];
      }
    }
  }
}
