/**
 Sessions and access tokens over the permission tables: sign-in, refresh, logout and the request guard
 (`auth/jwt.guard.ts`, `iam/auth.service.ts`, `iam/user.service.ts` under `apps/api/src/`).
 */
module Tokens {
  import opened Optional
  import opened Seats

  datatype Session = Session(user: nat, tenant: nat, version: nat, revoked: bool, expiresAt: int)

  datatype Access = Access(sub: nat, sid: nat, version: nat, tenant: nat)

  datatype Refreshing = Refreshing(sub: nat, sid: nat, tenant: nat)

  /** What a password sign-in carries from the transaction that read the user to the one that issues. */
  datatype Ticket = Ticket(user: nat, version: nat)

  /** The tables, everything signed so far, and the sign-ins under way. */
  datatype World = World(db: Tables, tenant: nat, sessions: map<nat, Session>, nextSession: nat, now: int,
                         tickets: set<Ticket>, access: set<Access>, refreshing: set<Refreshing>)

  datatype Event =
    | Iam(op: Op)
    | ReadForLogin(user: nat)
    | FinishLogin(ticket: Ticket, ttl: int)
    | SignInWithIdentity(user: nat, ttl: int)
    | SignUpWithGoogle(allowSelfSignup: bool, address: string, ttl: int)
    | RefreshAccess(token: Refreshing)
    | Logout(sid: nat)
    | Tick(now: int)

  // --- the guard -----------------------------------------------------------------------------------------

  predicate SessionLive(w: World, sid: nat, tenant: nat) {
    && sid in w.sessions && w.sessions[sid].tenant == tenant
    && !w.sessions[sid].revoked && w.sessions[sid].expiresAt > w.now
  }

  /** The request guard: a live session of the tenant, an ACTIVE user, and the user's current version. */
  predicate Accepts(w: World, c: Access) {
    && SessionLive(w, c.sid, c.tenant)
    && c.sub in w.db.users && w.db.users[c.sub].status == Active && w.db.users[c.sub].version == c.version
  }

  /** The permissions the guard attaches to an accepted request; a super-admin needs none. */
  function Principal(w: World, c: Access): set<Code>
    requires Accepts(w, c)
  {
    if w.db.users[c.sub].superAdmin then {} else Effective(w.db, c.sub)
  }

  predicate CanRefresh(w: World, r: Refreshing) {
    && SessionLive(w, r.sid, r.tenant)
    && r.sub in w.db.users && w.db.users[r.sub].status == Active
    && w.db.users[r.sub].version == w.sessions[r.sid].version
  }

  // --- events --------------------------------------------------------------------------------------------

  function IssueSession(w: World, user: nat, version: nat, ttl: int): World {
    var sid := w.nextSession;
    w.(sessions := w.sessions[sid := Session(user, w.tenant, version, false, w.now + ttl)],
       nextSession := sid + 1,
       access := w.access + {Access(user, sid, version, w.tenant)},
       refreshing := w.refreshing + {Refreshing(user, sid, w.tenant)})
  }

  function RevokeAll(sessions: map<nat, Session>, user: nat): map<nat, Session> {
    map sid | sid in sessions ::
      if sessions[sid].user == user then sessions[sid].(revoked := true) else sessions[sid]
  }

  ghost function Next(w: World, e: Event): World {
    match e
    case Iam(op) =>
      var sessions := if op.ForceLogout? && op.id in w.db.users then RevokeAll(w.sessions, op.id) else w.sessions;
      w.(db := Step(w.db, op), sessions := sessions)
    case ReadForLogin(user) =>
      if user in w.db.users && w.db.users[user].status == Active
      then w.(tickets := w.tickets + {Ticket(user, w.db.users[user].version)}) else w
    case FinishLogin(ticket, ttl) =>
      if ticket in w.tickets then IssueSession(w, ticket.user, ticket.version, ttl) else w
    case SignInWithIdentity(user, ttl) =>
      if user in w.db.users && w.db.users[user].status == Active
      then IssueSession(w, user, w.db.users[user].version, ttl) else w
    case SignUpWithGoogle(allowed, address, ttl) =>
      if Apply(w.db, SignUp(allowed, address)).Ok?
      then IssueSession(w.(db := Step(w.db, SignUp(allowed, address))), w.db.nextUser, 1, ttl) else w
    case RefreshAccess(r) =>
      if r in w.refreshing && CanRefresh(w, r)
      then w.(access := w.access + {Access(r.sub, r.sid, w.sessions[r.sid].version, r.tenant)}) else w
    case Logout(sid) =>
      if sid in w.sessions then w.(sessions := w.sessions[sid := w.sessions[sid].(revoked := true)]) else w
    case Tick(now) => if now >= w.now then w.(now := now) else w
  }

  ghost function After(w: World, events: seq<Event>): World
    decreases |events|
  {
    if events == [] then w else Next(After(w, events[..|events| - 1]), events[|events| - 1])
  }

  // --- what every event keeps ------------------------------------------------------------------------------

  /** Every version a ticket, session or token carries was, at the time, its user's own. */
  ghost predicate Reached(db: Tables, user: nat, version: nat) {
    user in db.users && version <= db.users[user].version
  }

  ghost predicate Inv(w: World) {
    && Valid(w.db)
    && (forall t | t in w.tickets :: Reached(w.db, t.user, t.version))
    && (forall sid | sid in w.sessions ::
          sid < w.nextSession && Reached(w.db, w.sessions[sid].user, w.sessions[sid].version))
    && (forall c | c in w.access ::
          && c.sid in w.sessions && w.sessions[c.sid].user == c.sub && w.sessions[c.sid].version == c.version)
    && (forall r | r in w.refreshing :: r.sid in w.sessions && w.sessions[r.sid].user == r.sub)
  }

  lemma {:induction false} NextDb(w: World, e: Event)
    requires Valid(w.db)
    ensures Next(w, e).db == match e
                             case Iam(op) => Step(w.db, op)
                             case SignUpWithGoogle(allowed, address, _) => Step(w.db, SignUp(allowed, address))
                             case _ => w.db
    ensures Valid(Next(w, e).db) && Pinned(w.db, Next(w, e).db)
  {
    hide Apply, Effective, Occupies, Counted;
    match e
    case Iam(op) => StepIsSound(w.db, op);
    case SignUpWithGoogle(allowed, address, _) => StepIsSound(w.db, SignUp(allowed, address));
    case _ =>
  }

  lemma {:induction false} StillReached(w: World, db: Tables)
    requires Inv(w) && Valid(db) && Pinned(w.db, db)
    ensures Inv(w.(db := db))
  {
  }

  lemma {:induction false} IssueKeepsInv(w: World, user: nat, version: nat, ttl: int)
    requires Inv(w) && Reached(w.db, user, version)
    ensures Inv(IssueSession(w, user, version, ttl))
  {
  }

  lemma {:induction false} RevokingKeepsInv(w: World, sessions: map<nat, Session>)
    requires Inv(w) && sessions.Keys == w.sessions.Keys
    requires forall sid | sid in w.sessions :: sessions[sid] == w.sessions[sid].(revoked := sessions[sid].revoked)
    ensures Inv(w.(sessions := sessions))
  {
  }

  lemma {:induction false} SignedUp(db: Tables, address: string)
    requires Apply(db, SignUp(true, address)).Ok?
    ensures var after := Step(db, SignUp(true, address));
            Reached(after, db.nextUser, 1) && after.users[db.nextUser].version == 1
  {
  }

  lemma {:induction false} NextKeepsInv(w: World, e: Event)
    requires Inv(w)
    ensures Inv(Next(w, e)) && Pinned(w.db, Next(w, e).db)
  {
    NextDb(w, e);
    StillReached(w, Next(w, e).db);
    hide Inv, Effective, Occupies, Counted, Pinned, IssueSession, Valid;
    match e
    case Iam(op) => RevokingKeepsInv(w.(db := Step(w.db, op)), Next(w, e).sessions);
    case ReadForLogin(user) => TicketKeepsInv(w, user);
    case FinishLogin(t, ttl) =>
      if t in w.tickets {
        assert Reached(w.db, t.user, t.version) by { TicketReached(w, t); }
        IssueKeepsInv(w, t.user, t.version, ttl);
      }
    case SignInWithIdentity(user, ttl) =>
      if user in w.db.users && w.db.users[user].status == Active {
        IssueKeepsInv(w, user, w.db.users[user].version, ttl);
      }
    case SignUpWithGoogle(allowed, address, ttl) =>
      if Apply(w.db, SignUp(allowed, address)).Ok? {
        SignedUp(w.db, address);
        IssueKeepsInv(w.(db := Step(w.db, SignUp(allowed, address))), w.db.nextUser, 1, ttl);
      }
    case RefreshAccess(r) => RefreshKeepsInv(w, r);
    case Logout(sid) =>
      if sid in w.sessions {
        RevokingKeepsInv(w, w.sessions[sid := w.sessions[sid].(revoked := true)]);
      }
    case Tick(now) => TickKeepsInv(w, now);
  }

  lemma {:induction false} TicketReached(w: World, t: Ticket)
    requires Inv(w) && t in w.tickets
    ensures Reached(w.db, t.user, t.version)
  {
  }

  lemma {:induction false} TicketKeepsInv(w: World, user: nat)
    requires Inv(w)
    ensures Inv(Next(w, ReadForLogin(user)))
  {
  }

  lemma {:induction false} RefreshKeepsInv(w: World, r: Refreshing)
    requires Inv(w)
    ensures Inv(Next(w, RefreshAccess(r)))
  {
  }

  lemma {:induction false} TickKeepsInv(w: World, now: int)
    requires Inv(w)
    ensures Inv(Next(w, Tick(now)))
  {
  }

  lemma {:induction false} AfterKeepsInv(w: World, events: seq<Event>)
    requires Inv(w)
    ensures Inv(After(w, events)) && Pinned(w.db, After(w, events).db)
    decreases |events|
  {
    if events != [] {
      var before := After(w, events[..|events| - 1]);
      AfterKeepsInv(w, events[..|events| - 1]);
      NextKeepsInv(before, events[|events| - 1]);
      PinnedTransitive(w.db, before.db, After(w, events).db);
    }
  }

  lemma {:induction false} AfterSplits(w: World, first: seq<Event>, second: seq<Event>)
    ensures After(w, first + second) == After(After(w, first), second)
    decreases |second|
  {
    if second == [] {
      assert first + second == first;
    } else {
      var n := |second| - 1;
      AfterSplits(w, first, second[..n]);
      assert (first + second)[..|first + second| - 1] == first + second[..n];
    }
  }

  // --- freshness -------------------------------------------------------------------------------------------

  /** At some point of the run the user was there, at exactly this version. */
  ghost predicate Origin(w: World, events: seq<Event>, user: nat, version: nat) {
    exists k: nat :: k <= |events| && HeldAt(w, events, k, user, version)
  }

  ghost predicate HeldAt(w: World, events: seq<Event>, k: nat, user: nat, version: nat)
    requires k <= |events|
  {
    var moment := After(w, events[..k]);
    user in moment.db.users && moment.db.users[user].version == version
  }

  ghost predicate AllHaveOrigin(w: World, events: seq<Event>) {
    var end := After(w, events);
    && (forall t | t in end.tickets :: Origin(w, events, t.user, t.version))
    && (forall sid | sid in end.sessions :: Origin(w, events, end.sessions[sid].user, end.sessions[sid].version))
  }

  ghost predicate NothingSigned(w: World) {
    w.sessions == map[] && w.tickets == {} && w.access == {} && w.refreshing == {}
  }

  lemma {:induction false} OriginExtends(w: World, events: seq<Event>, e: Event, user: nat, version: nat)
    requires Origin(w, events, user, version)
    ensures Origin(w, events + [e], user, version)
  {
    var k: nat :| k <= |events| && HeldAt(w, events, k, user, version);
    assert (events + [e])[..k] == events[..k];
    assert HeldAt(w, events + [e], k, user, version);
  }

  lemma {:induction false} OriginNow(w: World, events: seq<Event>, user: nat, version: nat)
    requires user in After(w, events).db.users && After(w, events).db.users[user].version == version
    ensures Origin(w, events, user, version)
  {
    assert events[..|events|] == events;
    assert HeldAt(w, events, |events|, user, version);
  }

  lemma {:induction false} SessionsHaveOrigin(w: World, events: seq<Event>)
    requires Inv(w) && NothingSigned(w)
    ensures AllHaveOrigin(w, events)
    decreases |events|
  {
    if events != [] {
      var n := |events| - 1;
      SessionsHaveOrigin(w, events[..n]);
      assert events == events[..n] + [events[n]];
      OriginsExtend(w, events[..n], events[n]);
    }
  }

  lemma {:induction false} OriginsExtend(w: World, events: seq<Event>, e: Event)
    requires Inv(w) && AllHaveOrigin(w, events)
    ensures AllHaveOrigin(w, events + [e])
  {
    var before, end := After(w, events), After(w, events + [e]);
    assert (events + [e])[..|events|] == events;
    AfterKeepsInv(w, events);
    forall t | t in end.tickets ensures Origin(w, events + [e], t.user, t.version) {
      if t !in before.tickets {
        OriginNow(w, events, t.user, t.version);
      }
      OriginExtends(w, events, e, t.user, t.version);
    }
    forall sid | sid in end.sessions
      ensures Origin(w, events + [e], end.sessions[sid].user, end.sessions[sid].version)
    {
      SessionOriginExtends(w, events, e, sid);
    }
  }

  /** Where a session's user and version come from: an earlier session, a ticket, or the user's row. */
  lemma {:induction false} SessionSource(w: World, e: Event, sid: nat)
    requires Inv(w) && sid in Next(w, e).sessions
    ensures var s := Next(w, e).sessions[sid];
            || (sid in w.sessions && s.user == w.sessions[sid].user && s.version == w.sessions[sid].version)
            || Ticket(s.user, s.version) in w.tickets
            || (s.user in w.db.users && s.version == w.db.users[s.user].version)
            || (s.user in Next(w, e).db.users && s.version == Next(w, e).db.users[s.user].version)
  {
    if e.SignUpWithGoogle? && Apply(w.db, SignUp(e.allowSelfSignup, e.address)).Ok? {
      SignedUp(w.db, e.address);
    }
    hide Apply, Step, Effective, Occupies, Counted, Valid, Reached;
  }

  lemma {:induction false} SessionOriginExtends(w: World, events: seq<Event>, e: Event, sid: nat)
    requires AllHaveOrigin(w, events) && Inv(After(w, events)) && sid in Next(After(w, events), e).sessions
    ensures var s := Next(After(w, events), e).sessions[sid]; Origin(w, events + [e], s.user, s.version)
  {
    var before := After(w, events);
    var s := Next(before, e).sessions[sid];
    assert (events + [e])[..|events|] == events;
    SessionSource(before, e, sid);
    hide Origin, Inv, Next;
    if s.user in before.db.users && s.version == before.db.users[s.user].version {
      OriginNow(w, events, s.user, s.version);
    }
    if Origin(w, events, s.user, s.version) {
      OriginExtends(w, events, e, s.user, s.version);
    } else {
      OriginNow(w, events + [e], s.user, s.version);
    }
  }

  /**
   In every reachable state, a signed token the guard accepts was minted from a version its user held at
   some point of the run, and what the user could do then is exactly what the user can do now.
   */
  lemma {:induction false} AcceptedTokenIsFresh(w: World, events: seq<Event>, c: Access) returns (k: nat)
    requires Inv(w) && NothingSigned(w)
    requires c in After(w, events).access && Accepts(After(w, events), c)
    ensures k <= |events| && HeldAt(w, events, k, c.sub, c.version)
    ensures Effective(After(w, events[..k]).db, c.sub) == Effective(After(w, events).db, c.sub)
  {
    AfterKeepsInv(w, events);
    SessionsHaveOrigin(w, events);
    hide After, Effective, Valid, NothingSigned;
    var s := After(w, events).sessions[c.sid];
    assert s.user == c.sub && s.version == c.version;
    assert Origin(w, events, s.user, s.version);
    k :| k <= |events| && HeldAt(w, events, k, c.sub, c.version);
    PinnedBetween(w, events, k);
  }

  lemma {:induction false} PinnedBetween(w: World, events: seq<Event>, k: nat)
    requires Inv(w) && k <= |events|
    ensures Pinned(After(w, events[..k]).db, After(w, events).db)
  {
    AfterKeepsInv(w, events[..k]);
    AfterKeepsInv(After(w, events[..k]), events[k..]);
    AfterSplits(w, events[..k], events[k..]);
    assert events[..k] + events[k..] == events;
  }

  /** A completed sign-in is good at once, with the permissions of the moment. */
  lemma {:induction false} SignInIsAccepted(w: World, user: nat, ttl: int)
    requires Inv(w) && user in w.db.users && w.db.users[user].status == Active && ttl > 0
    ensures var after := Next(w, SignInWithIdentity(user, ttl));
            var c := Access(user, w.nextSession, w.db.users[user].version, w.tenant);
            && c in after.access && Accepts(after, c) && CanRefresh(after, Refreshing(user, w.nextSession, w.tenant))
            && (!w.db.users[user].superAdmin ==> Principal(after, c) == Effective(w.db, user))
  {
  }

  /** So is a password sign-in whose user was read in this very state. */
  lemma {:induction false} PasswordSignInIsAccepted(w: World, user: nat, ttl: int)
    requires Inv(w) && user in w.db.users && w.db.users[user].status == Active && ttl > 0
    ensures var read := Next(w, ReadForLogin(user));
            var after := Next(read, FinishLogin(Ticket(user, w.db.users[user].version), ttl));
            var c := Access(user, w.nextSession, w.db.users[user].version, w.tenant);
            c in after.access && Accepts(after, c) && CanRefresh(after, Refreshing(user, w.nextSession, w.tenant))
  {
  }

  /** And a refreshed token: it carries the user's current version, and is accepted. */
  lemma {:induction false} RefreshedIsAccepted(w: World, r: Refreshing)
    requires r in w.refreshing && CanRefresh(w, r)
    ensures var after := Next(w, RefreshAccess(r));
            var c := Access(r.sub, r.sid, w.db.users[r.sub].version, r.tenant);
            c in after.access && Accepts(after, c)
  {
  }

  // --- one session ---------------------------------------------------------------------------------------

  /** No claim of this session, whoever it names, opens a request or a refresh. */
  ghost predicate Closed(w: World, sid: nat) {
    && (forall c: Access | c.sid == sid :: !Accepts(w, c))
    && (forall r: Refreshing | r.sid == sid :: !CanRefresh(w, r))
  }

  /** The session has been revoked, or its time is over. */
  predicate Over(w: World, sid: nat) {
    sid in w.sessions && (w.sessions[sid].revoked || w.now >= w.sessions[sid].expiresAt)
  }

  lemma {:induction false} NextKeepsOver(w: World, e: Event, sid: nat)
    requires Inv(w) && Over(w, sid)
    ensures Over(Next(w, e), sid)
  {
    hide Apply, Effective, Occupies, Counted, Valid, Step, Reached;
  }

  lemma {:induction false} AfterKeepsOver(w: World, events: seq<Event>, sid: nat)
    requires Inv(w) && Over(w, sid)
    ensures Over(After(w, events), sid)
    decreases |events|
  {
    if events != [] {
      var n := |events| - 1;
      AfterKeepsOver(w, events[..n], sid);
      AfterKeepsInv(w, events[..n]);
      hide Inv, Over, Next;
      NextKeepsOver(After(w, events[..n]), events[n], sid);
    }
  }

  /** A session that is over stays over, in every later state of every run. */
  lemma {:induction false} OverIsForGood(w: World, events: seq<Event>, sid: nat)
    requires Inv(w) && Over(w, sid)
    ensures Closed(After(w, events), sid)
  {
    AfterKeepsOver(w, events, sid);
    hide After, Inv;
  }

  /** A logout closes its session for good, and no other. */
  lemma {:induction false} LogoutEndsSession(w: World, sid: nat, events: seq<Event>)
    requires Inv(w) && sid in w.sessions
    ensures Closed(After(Next(w, Logout(sid)), events), sid)
    ensures forall c: Access | c.sid != sid :: Accepts(Next(w, Logout(sid)), c) <==> Accepts(w, c)
    ensures forall r: Refreshing | r.sid != sid :: CanRefresh(Next(w, Logout(sid)), r) <==> CanRefresh(w, r)
  {
    NextKeepsInv(w, Logout(sid));
    OverIsForGood(Next(w, Logout(sid)), events, sid);
    hide After, Inv, Closed;
  }

  /** Once the clock has reached its end, a session is closed for good. */
  lemma {:induction false} ExpiryEndsSession(w: World, sid: nat, now: int, events: seq<Event>)
    requires Inv(w) && sid in w.sessions && now >= w.now && now >= w.sessions[sid].expiresAt
    ensures Closed(After(Next(w, Tick(now)), events), sid)
  {
    NextKeepsInv(w, Tick(now));
    OverIsForGood(Next(w, Tick(now)), events, sid);
    hide After, Inv, Closed;
  }

  /**
   Whoever presents whatever, signed or not: a claim of a session that does not exist or belongs to another
   tenant, and a claim of a user who does not exist or is not ACTIVE, opens nothing.
   */
  lemma {:induction false} StrangersAreRefused(w: World)
    ensures forall c: Access ::
              (c.sid !in w.sessions || w.sessions[c.sid].tenant != c.tenant
               || c.sub !in w.db.users || w.db.users[c.sub].status != Active) ==> !Accepts(w, c)
    ensures forall r: Refreshing ::
              (r.sid !in w.sessions || w.sessions[r.sid].tenant != r.tenant
               || r.sub !in w.db.users || w.db.users[r.sub].status != Active) ==> !CanRefresh(w, r)
  {
  }

  lemma {:induction false} NextKeepsTenant(w: World, e: Event)
    requires Inv(w)
    ensures Next(w, e).tenant == w.tenant
    ensures forall sid | sid in w.sessions :: Next(w, e).sessions[sid].tenant == w.sessions[sid].tenant
  {
    hide Apply, Effective, Occupies, Counted, Valid, Step, Reached;
  }

  /** A session never changes hands: a claim of another tenant is refused in every later state. */
  lemma {:induction false} ForeignClaimsAreRefused(w: World, events: seq<Event>, sid: nat)
    requires Inv(w) && sid in w.sessions
    ensures var end := After(w, events);
            && sid in end.sessions && end.sessions[sid].tenant == w.sessions[sid].tenant
            && (forall c: Access | c.sid == sid && c.tenant != w.sessions[sid].tenant :: !Accepts(end, c))
            && (forall r: Refreshing | r.sid == sid && r.tenant != w.sessions[sid].tenant :: !CanRefresh(end, r))
    decreases |events|
  {
    StrangersAreRefused(After(w, events));
    if events != [] {
      var n := |events| - 1;
      ForeignClaimsAreRefused(w, events[..n], sid);
      AfterKeepsInv(w, events[..n]);
      var before := After(w, events[..n]);
      NextKeepsTenant(before, events[n]);
      NextKeepsSessions(before, events[n]);
      hide Next, Inv, Accepts, CanRefresh;
    }
  }

  // --- revocation ------------------------------------------------------------------------------------------

  /** Nothing signed for the user by `w`, nor any sign-in then under way, opens a request or a refresh in `end`. */
  ghost predicate Ended(w: World, end: World, user: nat) {
    && (forall c | c in w.access && c.sub == user :: !Accepts(end, c))
    && (forall r | r in w.refreshing && r.sub == user :: !CanRefresh(end, r))
    && (forall t, c: Access | t in w.tickets && t.user == user && c.sub == user && c.version == t.version ::
          !Accepts(end, c))
  }

  lemma {:induction false} NextKeepsSessions(w: World, e: Event)
    requires Inv(w)
    ensures w.sessions.Keys <= Next(w, e).sessions.Keys
    ensures forall sid | sid in w.sessions ::
              && Next(w, e).sessions[sid].user == w.sessions[sid].user
              && Next(w, e).sessions[sid].version == w.sessions[sid].version
  {
    hide Apply, Effective, Occupies, Counted, Valid, Step;
  }

  lemma {:induction false} AfterKeepsSessions(w: World, events: seq<Event>)
    requires Inv(w)
    ensures w.sessions.Keys <= After(w, events).sessions.Keys
    ensures forall sid | sid in w.sessions ::
              && After(w, events).sessions[sid].user == w.sessions[sid].user
              && After(w, events).sessions[sid].version == w.sessions[sid].version
    decreases |events|
  {
    if events != [] {
      AfterKeepsSessions(w, events[..|events| - 1]);
      AfterKeepsInv(w, events[..|events| - 1]);
      NextKeepsSessions(After(w, events[..|events| - 1]), events[|events| - 1]);
      hide Next, Inv;
    }
  }

  lemma {:induction false} StaleIsRefused(next: World, end: World, user: nat, version: nat)
    requires Pinned(next.db, end.db) && user in next.db.users && version < next.db.users[user].version
    ensures forall c: Access | c.sub == user && c.version == version :: !Accepts(end, c)
    ensures forall r: Refreshing | r.sub == user && r.sid in end.sessions && end.sessions[r.sid].version == version ::
              !CanRefresh(end, r)
  {
    hide Effective, SessionLive;
  }

  /** Once a user's version has moved, everything older is dead for the rest of every run. */
  lemma {:induction false} NewVersionEndsEverything(w: World, e: Event, user: nat, events: seq<Event>)
    requires Inv(w) && user in w.db.users && user in Next(w, e).db.users
    requires w.db.users[user].version < Next(w, e).db.users[user].version
    ensures Ended(w, After(Next(w, e), events), user)
  {
    var next := Next(w, e);
    var end := After(next, events);
    NextKeepsInv(w, e);
    NextKeepsSessions(w, e);
    AfterKeepsInv(next, events);
    AfterKeepsSessions(next, events);
    hide Next, After, Valid, Pinned, Accepts, CanRefresh;
    forall c | c in w.access && c.sub == user ensures !Accepts(end, c) {
      StaleIsRefused(next, end, user, c.version);
    }
    forall r | r in w.refreshing && r.sub == user ensures !CanRefresh(end, r) {
      StaleIsRefused(next, end, user, w.sessions[r.sid].version);
    }
    forall t, c: Access | t in w.tickets && t.user == user && c.sub == user && c.version == t.version
      ensures !Accepts(end, c)
    {
      StaleIsRefused(next, end, user, t.version);
    }
  }

  lemma {:induction false} ForceLogoutEndsEverything(w: World, user: nat, events: seq<Event>)
    requires Inv(w) && user in w.db.users
    ensures Ended(w, After(Next(w, Iam(ForceLogout(user))), events), user)
  {
    NewVersionEndsEverything(w, Iam(ForceLogout(user)), user, events);
  }

  /** A forced logout touches nobody else. */
  lemma {:induction false} ForceLogoutSparesOthers(w: World, user: nat)
    requires Inv(w)
    ensures var next := Next(w, Iam(ForceLogout(user)));
            && (forall c | c in w.access && c.sub != user :: Accepts(next, c) <==> Accepts(w, c))
            && (forall r | r in w.refreshing && r.sub != user :: CanRefresh(next, r) <==> CanRefresh(w, r))
  {
    hide Effective, Occupies, Counted, Valid, Reached;
  }

  lemma {:induction false} PermissionChangeEndsEverything(w: World, e: Event, user: nat, events: seq<Event>)
    requires Inv(w) && user in w.db.users && user in Next(w, e).db.users
    requires Effective(Next(w, e).db, user) != Effective(w.db, user)
    ensures Ended(w, After(Next(w, e), events), user)
  {
    NextKeepsInv(w, e);
    NewVersionEndsEverything(w, e, user, events);
  }

  /** Re-activating a disabled user is refused exactly when the user would take a seat above the cap. */
  lemma {:induction false} ReactivationRefusedExactlyWhen(db: Tables, id: nat)
    requires Valid(db) && id in db.users && db.users[id].status == Active
    ensures var disabled := db.(users := db.users[id := db.users[id].(status := Disabled)]);
            Apply(disabled, SetStatus(id, Active)).Ok? <==>
              db.cap.None? || !Occupies(db, id) || |Counted(db)| <= db.cap.value
  {
    var disabled := db.(users := db.users[id := db.users[id].(status := Disabled)]);
    var again := disabled.(users := disabled.users[id := disabled.users[id].(status := Active)]);
    assert again == db;
    forall u | u in db.users && u != id ensures Occupies(disabled, u) == Occupies(db, u) {
      SameGrants(disabled, db, u);
    }
    assert id !in Counted(disabled);
    assert Counted(db) - Counted(disabled) == if Occupies(db, id) then {id} else {};
  }

  /**
   Disabling a user only suspends: it moves no version, so re-activation makes the same tokens good again,
   unless it is refused, which happens exactly when the user occupied a seat above the cap.
   */
  lemma {:induction false} ReactivationRevives(w: World, c: Access)
    requires Inv(w) && Accepts(w, c)
    ensures var disabled := Next(w, Iam(SetStatus(c.sub, Disabled)));
            var again := Next(disabled, Iam(SetStatus(c.sub, Active)));
            && !Accepts(disabled, c)
            && (Accepts(again, c) <==>
                  w.db.cap.None? || !Occupies(w.db, c.sub) || |Counted(w.db)| <= w.db.cap.value)
  {
    ShrinkingIsNeverRefused(w.db, SetStatus(c.sub, Disabled));
    ReactivationRefusedExactlyWhen(w.db, c.sub);
    hide Effective, Occupies, Counted;
  }
}
