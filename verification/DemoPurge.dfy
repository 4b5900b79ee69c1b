/**
 The sandbox teardown (`apps/api/src/demo/demo-purge.service.ts`): a job of single transactions that
 may crash between any two of them and starts again from the top.
 */
module DemoPurge {
  import opened Optional
  import opened TenantTables
  import opened TenantRows
  import opened PurgePlan

  datatype Kind = Customer | DemoTemplate | DemoSandbox

  datatype Status = Active | ReadOnly | Suspended | Purging

  /** `guestName` is the trimmed display name, empty when there is none. */
  datatype Tenant = Tenant(kind: Kind, status: Status, consentedAt: Option<int>, guestName: string)

  /** A `demo_lead` row. `tenant` only records whose capture wrote it; the table has no such column. */
  datatype Lead = Lead(tenant: nat, email: string, name: string, consentedAt: int)

  /** `completed` holds the completion audit rows: the tenant and the `lead_captured` they report. */
  datatype Db = Db(tenants: map<nat, Tenant>, rows: seq<Row>, objects: set<(nat, string)>,
                   leads: seq<Lead>, completed: seq<(nat, bool)>)

  datatype Task = DetachFks | DeleteTable(table: Name) | DeleteObjects | CaptureLead | DeleteTenant

  function DeleteTasks(tables: seq<Name>): (tasks: seq<Task>)
    ensures |tasks| == |tables| && forall i | 0 <= i < |tables| :: tasks[i] == DeleteTable(tables[i])
  {
    seq(|tables|, i requires 0 <= i < |tables| => DeleteTable(tables[i]))
  }

  /** The transactions of one run, in order. */
  function Tasks(plan: Plan): seq<Task> {
    [DetachFks] + DeleteTasks(plan.bulk) + [DeleteObjects, CaptureLead] + DeleteTasks(plan.tail) + [DeleteTenant]
  }

  // --- one transaction ------------------------------------------------------------------------

  predicate IsGoogleIdentity(r: Row, tenant: nat) {
    r.tenant == tenant && r.table == "auth_identity" && r.info.Identity? && r.info.google
  }

  predicate IsSuperAdmin(r: Row, tenant: nat) {
    r.tenant == tenant && r.table == "user" && r.info.Guest? && r.info.superAdmin
  }

  function GoogleEmail(rows: seq<Row>, tenant: nat): Option<string> {
    if rows == [] then None
    else if IsGoogleIdentity(rows[0], tenant) then rows[0].info.email
    else GoogleEmail(rows[1..], tenant)
  }

  function GuestUserEmail(rows: seq<Row>, tenant: nat): Option<string> {
    if rows == [] then None
    else if IsSuperAdmin(rows[0], tenant) then Some(rows[0].info.address)
    else GuestUserEmail(rows[1..], tenant)
  }

  /** The first Google identity's email, else the super-admin user's. */
  function GuestEmail(rows: seq<Row>, tenant: nat): Option<string> {
    var google := GoogleEmail(rows, tenant);
    if google.Some? then google else GuestUserEmail(rows, tenant)
  }

  /** Copy the consenting guest into the leads and spend the consent; an empty email writes no lead. */
  function Capture(db: Db, tenant: nat): (Db, bool) {
    if tenant !in db.tenants || db.tenants[tenant].consentedAt.None? then (db, false)
    else
      var t := db.tenants[tenant];
      var email := GuestEmail(db.rows, tenant);
      var captured := if email.Some? && email.value != "" then [LeadOf(tenant, t, email.value)] else [];
      (db.(leads := db.leads + captured, tenants := db.tenants[tenant := t.(consentedAt := None)]), email.Some?)
  }

  function LeadOf(tenant: nat, t: Tenant, email: string): Lead
    requires t.consentedAt.Some?
  {
    Lead(tenant, email, if t.guestName != "" then t.guestName else email, t.consentedAt.value)
  }

  // --- the lead, field by field -----------------------------------------------------------------

  /** Row `i` is the first Google identity of the tenant. */
  ghost predicate FirstGoogle(rows: seq<Row>, tenant: nat, i: nat) {
    && i < |rows| && rows[i].tenant == tenant && rows[i].table == "auth_identity"
    && rows[i].info.Identity? && rows[i].info.google
    && forall j | 0 <= j < i :: !(rows[j].tenant == tenant && rows[j].table == "auth_identity"
                                  && rows[j].info.Identity? && rows[j].info.google)
  }

  /** Row `i` is the first super-admin user of the tenant. */
  ghost predicate FirstSuperAdmin(rows: seq<Row>, tenant: nat, i: nat) {
    && i < |rows| && rows[i].tenant == tenant && rows[i].table == "user"
    && rows[i].info.Guest? && rows[i].info.superAdmin
    && forall j | 0 <= j < i :: !(rows[j].tenant == tenant && rows[j].table == "user"
                                  && rows[j].info.Guest? && rows[j].info.superAdmin)
  }

  /** The email of the first Google identity, or, when there is none or it has none, of the super-admin user. */
  ghost predicate IsGuestEmail(rows: seq<Row>, tenant: nat, email: string) {
    || (exists i: nat :: FirstGoogle(rows, tenant, i) && rows[i].info.email == Some(email))
    || ((forall i: nat | FirstGoogle(rows, tenant, i) :: rows[i].info.email == None)
        && exists i: nat :: FirstSuperAdmin(rows, tenant, i) && rows[i].info.address == email)
  }

  /** The lead the tenant's rows give: it needs consent and an email that is not empty. */
  ghost predicate IsLeadOf(db: Db, tenant: nat, lead: Lead) {
    && tenant in db.tenants && db.tenants[tenant].consentedAt == Some(lead.consentedAt)
    && lead.tenant == tenant
    && lead.email != "" && IsGuestEmail(db.rows, tenant, lead.email)
    && lead.name == (if db.tenants[tenant].guestName != "" then db.tenants[tenant].guestName else lead.email)
  }

  lemma {:induction false} FirstOfTail(rows: seq<Row>, tenant: nat, i: nat)
    requires rows != []
    ensures !IsGoogleIdentity(rows[0], tenant) ==>
              (FirstGoogle(rows, tenant, i) <==> i > 0 && FirstGoogle(rows[1..], tenant, i - 1))
    ensures !IsSuperAdmin(rows[0], tenant) ==>
              (FirstSuperAdmin(rows, tenant, i) <==> i > 0 && FirstSuperAdmin(rows[1..], tenant, i - 1))
  {
    assert forall j | 0 < j < |rows| :: rows[j] == rows[1..][j - 1];
    assert forall j | 0 <= j < |rows| - 1 :: rows[1..][j] == rows[j + 1];
  }

  lemma {:induction false} GoogleEmailMeans(rows: seq<Row>, tenant: nat)
    ensures forall i: nat | FirstGoogle(rows, tenant, i) :: rows[i].info.email == GoogleEmail(rows, tenant)
    ensures GoogleEmail(rows, tenant).Some? ==> exists i: nat :: FirstGoogle(rows, tenant, i)
  {
    if rows != [] {
      if IsGoogleIdentity(rows[0], tenant) {
        assert FirstGoogle(rows, tenant, 0);
      } else {
        GoogleEmailMeans(rows[1..], tenant);
        forall i: nat | FirstGoogle(rows, tenant, i) ensures rows[i].info.email == GoogleEmail(rows, tenant) {
          FirstOfTail(rows, tenant, i);
        }
        if i: nat :| FirstGoogle(rows[1..], tenant, i) {
          FirstOfTail(rows, tenant, i + 1);
        }
      }
    }
  }

  lemma {:induction false} GuestUserEmailMeans(rows: seq<Row>, tenant: nat)
    ensures forall i: nat | FirstSuperAdmin(rows, tenant, i) ::
              GuestUserEmail(rows, tenant) == Some(rows[i].info.address)
    ensures GuestUserEmail(rows, tenant).Some? ==> exists i: nat :: FirstSuperAdmin(rows, tenant, i)
  {
    if rows != [] {
      if IsSuperAdmin(rows[0], tenant) {
        assert FirstSuperAdmin(rows, tenant, 0);
      } else {
        GuestUserEmailMeans(rows[1..], tenant);
        forall i: nat | FirstSuperAdmin(rows, tenant, i)
          ensures GuestUserEmail(rows, tenant) == Some(rows[i].info.address)
        {
          FirstOfTail(rows, tenant, i);
        }
        if i: nat :| FirstSuperAdmin(rows[1..], tenant, i) {
          FirstOfTail(rows, tenant, i + 1);
        }
      }
    }
  }

  lemma {:induction false} GuestEmailMeans(rows: seq<Row>, tenant: nat, email: string)
    ensures GuestEmail(rows, tenant) == Some(email) <==> IsGuestEmail(rows, tenant, email)
  {
    GoogleEmailMeans(rows, tenant);
    GuestUserEmailMeans(rows, tenant);
    hide FirstGoogle, FirstSuperAdmin, GoogleEmail, GuestUserEmail;
  }

  /** The capture writes the tenant's lead, if it has one, and spends the consent either way. */
  lemma {:induction false} CaptureMeans(db: Db, tenant: nat)
    ensures var (after, captured) := Capture(db, tenant);
            && after == db.(leads := after.leads, tenants := after.tenants)
            && (tenant !in db.tenants ==> after == db && !captured)
            && (tenant in db.tenants ==>
                  && after.tenants == db.tenants[tenant := db.tenants[tenant].(consentedAt := None)]
                  && (captured <==>
                        db.tenants[tenant].consentedAt.Some? && exists email :: IsGuestEmail(db.rows, tenant, email)))
            && if exists lead :: IsLeadOf(db, tenant, lead)
               then exists lead :: IsLeadOf(db, tenant, lead) && after.leads == db.leads + [lead]
               else after.leads == db.leads
  {
    forall email ensures GuestEmail(db.rows, tenant) == Some(email) <==> IsGuestEmail(db.rows, tenant, email) {
      GuestEmailMeans(db.rows, tenant, email);
    }
    hide GuestEmail, IsGuestEmail;
    if tenant in db.tenants {
      var t := db.tenants[tenant];
      assert t.consentedAt.None? ==> db.tenants[tenant := t.(consentedAt := None)] == db.tenants;
      var email := GuestEmail(db.rows, tenant);
      if t.consentedAt.Some? && email.Some? && email.value != "" {
        assert IsLeadOf(db, tenant, LeadOf(tenant, t, email.value));
      } else {
        assert db.leads + [] == db.leads;
      }
    }
  }

  /** What one transaction commits; `captured` is the flag the run has computed so far. */
  function Execute(db: Db, tenant: nat, task: Task, captured: bool): (Db, bool) {
    match task
    case DetachFks => (db.(rows := Detach(db.rows, tenant, DETACHED)), captured)
    case DeleteTable(table) => (db.(rows := Delete(db.rows, tenant, table)), captured)
    case DeleteObjects => (db.(objects := set o | o in db.objects && o.0 != tenant), captured)
    case CaptureLead => Capture(db, tenant)
    case DeleteTenant =>
      var gone := Startable(db, tenant);
      (db.(tenants := if gone then db.tenants - {tenant} else db.tenants,
           completed := db.completed + [(tenant, captured)]), captured)
  }

  /** The first transaction nulls the employee reference of the tenant's users, and nothing else. */
  lemma {:induction false} DetachStepMeans(db: Db, tenant: nat, captured: bool, i: nat)
    requires i < |db.rows|
    ensures var after := Execute(db, tenant, DetachFks, captured).0;
            && after == db.(rows := after.rows) && |after.rows| == |db.rows|
            && var (was, now) := (db.rows[i], after.rows[i]);
               && now == was.(refs := now.refs) && now.refs.Keys == was.refs.Keys
               && forall c | c in was.refs ::
                    now.refs[c] == if was.tenant == tenant && was.table == "user" && c == "employee_id" then None
                                   else was.refs[c]
  {
  }

  /** Every purge transaction re-asserts the kind; the object deletion is not a transaction. */
  predicate Permitted(db: Db, tenant: nat, task: Task) {
    task.DeleteObjects? || tenant !in db.tenants || db.tenants[tenant].kind == DemoSandbox
  }

  // --- the system: purge jobs that start, advance and crash ------------------------------------

  datatype Job = Job(pc: nat, captured: bool)

  /** At most one purge job per tenant is alive: the queue's job id deduplicates. */
  datatype State = State(db: Db, jobs: map<nat, Job>)

  /** `Rekind` is the anomaly the repeated kind assertion guards against. */
  datatype Event = Begin(tenant: nat) | Start(tenant: nat) | Advance(tenant: nat) | Crash(tenant: nat)
                 | Rekind(tenant: nat, kind: Kind)

  predicate Startable(db: Db, tenant: nat) {
    tenant in db.tenants && db.tenants[tenant].kind == DemoSandbox && db.tenants[tenant].status == Purging
  }

  function AdvanceJob(plan: Plan, s: State, tenant: nat): State
    requires tenant in s.jobs && s.jobs[tenant].pc < |Tasks(plan)|
  {
    var job := s.jobs[tenant];
    var task := Tasks(plan)[job.pc];
    if !Permitted(s.db, tenant, task) then s.(jobs := s.jobs - {tenant})
    else
      var (db, captured) := Execute(s.db, tenant, task, job.captured);
      if job.pc + 1 == |Tasks(plan)| then State(db, s.jobs - {tenant})
      else State(db, s.jobs[tenant := Job(job.pc + 1, captured)])
  }

  function Next(plan: Plan, s: State, e: Event): State {
    match e
    case Begin(t) =>
      if t in s.db.tenants && s.db.tenants[t].kind == DemoSandbox && s.db.tenants[t].status == Active
      then s.(db := s.db.(tenants := s.db.tenants[t := s.db.tenants[t].(status := Purging)])) else s
    case Start(t) =>
      if t !in s.jobs && Startable(s.db, t) then s.(jobs := s.jobs[t := Job(0, false)]) else s
    case Advance(t) =>
      if t in s.jobs && s.jobs[t].pc < |Tasks(plan)| then AdvanceJob(plan, s, t) else s
    case Crash(t) => s.(jobs := s.jobs - {t})
    case Rekind(t, kind) =>
      if t in s.db.tenants
      then s.(db := s.db.(tenants := s.db.tenants[t := s.db.tenants[t].(kind := kind)])) else s
  }

  function Run(plan: Plan, s: State, events: seq<Event>): State {
    if events == [] then s
    else Next(plan, Run(plan, s, events[..|events| - 1]), events[|events| - 1])
  }

  // --- the invariant ----------------------------------------------------------------------------

  function Tables(plan: Plan): seq<Name> {
    plan.bulk + plan.tail
  }

  /** How many tables the first `pc` transactions delete. */
  function TablesDone(plan: Plan, pc: nat): (k: nat)
    ensures pc <= |Tasks(plan)| ==> k <= |Tables(plan)|
  {
    var b := |plan.bulk|;
    if pc == 0 then 0
    else if pc <= b + 1 then pc - 1
    else if pc <= b + 3 then b
    else if pc <= b + 3 + |plan.tail| then pc - 3
    else b + |plan.tail|
  }

  lemma {:induction false} TaskAt(plan: Plan, pc: nat)
    requires pc < |Tasks(plan)|
    ensures Tasks(plan)[pc].DeleteTable? ==>
      && TablesDone(plan, pc) < |Tables(plan)|
      && Tasks(plan)[pc].table == Tables(plan)[TablesDone(plan, pc)]
      && TablesDone(plan, pc + 1) == TablesDone(plan, pc) + 1
    ensures !Tasks(plan)[pc].DeleteTable? ==> TablesDone(plan, pc + 1) == TablesDone(plan, pc)
    ensures Tasks(plan)[pc] == DetachFks <==> pc == 0
    ensures Tasks(plan)[pc] == DeleteObjects <==> pc == |plan.bulk| + 1
    ensures Tasks(plan)[pc] == CaptureLead <==> pc == |plan.bulk| + 2
    ensures Tasks(plan)[pc] == DeleteTenant <==> pc == |Tasks(plan)| - 1
    ensures Tasks(plan)[pc].DeleteTable? ==> (pc <= |plan.bulk| <==> TablesDone(plan, pc) < |plan.bulk|)
  {
  }

  /** The plan of `DemoPurgePlan`, for a schema that detaches the tail. */
  ghost predicate SoundPlan(plan: Plan, fks: set<Fk>) {
    plan.tail == TAIL && Distinct(Tables(plan)) && ChildrenFirst(Tables(plan), fks, DETACHED)
  }

  ghost predicate JobOk(plan: Plan, db: Db, tenant: nat, pc: nat) {
    && tenant in db.tenants && db.tenants[tenant].status == Purging
    && pc < |Tasks(plan)|
    && (pc > 0 ==> Detached(db.rows, tenant, DETACHED))
    && DeletedUpTo(db.rows, tenant, Tables(plan), TablesDone(plan, pc))
    && (pc > |plan.bulk| + 1 ==> forall o | o in db.objects :: o.0 != tenant)
  }

  /** No dangling reference, no row without its tenant, and each job is as far as its counter says. */
  ghost predicate Inv(plan: Plan, fks: set<Fk>, s: State) {
    && Integral(fks, s.db.rows)
    && (forall r | r in s.db.rows :: r.tenant in s.db.tenants && r.table in Tables(plan))
    && (forall t | t in s.jobs :: JobOk(plan, s.db, t, s.jobs[t].pc))
  }

  /** Rows, tenant and objects of every tenant but `tenant` are the same in both states. */
  ghost predicate SameElsewhere(a: Db, b: Db, tenant: nat) {
    && (forall r: Row | r.tenant != tenant :: r in a.rows <==> r in b.rows)
    && (forall t | t != tenant :: t in a.tenants <==> t in b.tenants)
    && (forall t | t != tenant && t in a.tenants :: a.tenants[t] == b.tenants[t])
    && (forall o | o in a.objects + b.objects && o.0 != tenant :: o in a.objects && o in b.objects)
  }

  lemma {:induction false} ExecuteElsewhere(db: Db, tenant: nat, task: Task, captured: bool)
    ensures SameElsewhere(db, Execute(db, tenant, task, captured).0, tenant)
  {
  }

  lemma {:induction false} OtherJobOk(plan: Plan, a: Db, b: Db, tenant: nat, t: nat, pc: nat)
    requires SameElsewhere(a, b, tenant) && t != tenant && JobOk(plan, a, t, pc)
    ensures JobOk(plan, b, t, pc)
  {
  }

  lemma {:induction false} DetachKeeps(rows: seq<Row>, tenant: nat, columns: set<(Name, Column)>, r: Row)
    requires r in Detach(rows, tenant, columns)
    ensures exists was :: was in rows && was.tenant == r.tenant && was.table == r.table
  {
  }

  /** One transaction keeps every reference sound and takes its own job one step further. */
  lemma {:induction false} ExecuteKeepsInv(plan: Plan, fks: set<Fk>, s: State, tenant: nat, captured: bool)
    requires SoundPlan(plan, fks) && Inv(plan, fks, s) && tenant in s.jobs
    ensures var pc := s.jobs[tenant].pc;
            var task := Tasks(plan)[pc];
            var db := Execute(s.db, tenant, task, captured).0;
            && Integral(fks, db.rows)
            && (forall r | r in db.rows :: r.tenant in s.db.tenants && r.table in Tables(plan))
            && (task != DeleteTenant ==> JobOk(plan, db, tenant, pc + 1))
            && (task == DeleteTenant ==> forall r | r in db.rows :: r.tenant != tenant)
            && (task == DeleteTenant ==> forall o | o in db.objects :: o.0 != tenant)
  {
    var pc := s.jobs[tenant].pc;
    var task := Tasks(plan)[pc];
    TaskAt(plan, pc);
    match task
    case DetachFks =>
      DetachIsIntegral(fks, s.db.rows, tenant, DETACHED);
      forall r | r in Detach(s.db.rows, tenant, DETACHED)
        ensures exists was :: was in s.db.rows && was.tenant == r.tenant && was.table == r.table
      {
        DetachKeeps(s.db.rows, tenant, DETACHED, r);
      }
    case DeleteTable(table) =>
      DeleteIsIntegral(fks, s.db.rows, tenant, Tables(plan), TablesDone(plan, pc), DETACHED);
    case DeleteObjects =>
    case CaptureLead =>
    case DeleteTenant =>
      assert Tables(plan)[..|Tables(plan)|] == Tables(plan);
  }

  /** What `ExecuteKeepsInv` and `ExecuteElsewhere` say of a step is enough for the invariant after it. */
  lemma {:induction false} InvAfter(plan: Plan, fks: set<Fk>, s: State, t: nat, db: Db, jobs: map<nat, Job>)
    requires Inv(plan, fks, s) && SameElsewhere(s.db, db, t) && Integral(fks, db.rows)
    requires forall r | r in db.rows :: r.tenant in s.db.tenants && r.table in Tables(plan)
    requires t in db.tenants || forall r | r in db.rows :: r.tenant != t
    requires forall u | u in jobs ::
               if u == t then JobOk(plan, db, t, jobs[t].pc) else u in s.jobs && jobs[u] == s.jobs[u]
    ensures Inv(plan, fks, State(db, jobs))
  {
    forall u | u in jobs && u != t ensures JobOk(plan, db, u, jobs[u].pc) {
      OtherJobOk(plan, s.db, db, t, u, jobs[u].pc);
    }
    forall r | r in db.rows ensures r.tenant in db.tenants {
      assert r.tenant in s.db.tenants;
    }
    hide JobOk, Integral, Tables, SameElsewhere;
  }

  lemma {:induction false} ExecuteKeepsTenant(db: Db, tenant: nat, task: Task, captured: bool)
    requires tenant in db.tenants && task != DeleteTenant
    ensures tenant in Execute(db, tenant, task, captured).0.tenants
  {
  }

  lemma {:induction false} AdvanceIs(plan: Plan, s: State, t: nat)
    requires t in s.jobs && s.jobs[t].pc < |Tasks(plan)|
    ensures var (job, task) := (s.jobs[t], Tasks(plan)[s.jobs[t].pc]);
            var (db, captured) := Execute(s.db, t, task, job.captured);
            Next(plan, s, Advance(t)) ==
              if !Permitted(s.db, t, task) then s.(jobs := s.jobs - {t})
              else State(db, if task == DeleteTenant then s.jobs - {t} else s.jobs[t := Job(job.pc + 1, captured)])
  {
    TaskAt(plan, s.jobs[t].pc);
    hide Execute, Tasks, TablesDone, Tables;
  }

  lemma {:induction false} AdvanceKeepsInv(plan: Plan, fks: set<Fk>, s: State, t: nat)
    requires SoundPlan(plan, fks) && Inv(plan, fks, s)
    ensures Inv(plan, fks, Next(plan, s, Advance(t)))
  {
    if t in s.jobs {
      JobInRange(plan, fks, s, t);
      hide *;
      AdvanceIs(plan, s, t);
      DroppedJob(plan, fks, s, t);
      CommitKeepsInv(plan, fks, s, t);
    }
  }

  lemma {:induction false} JobInRange(plan: Plan, fks: set<Fk>, s: State, t: nat)
    requires Inv(plan, fks, s) && t in s.jobs
    ensures t in s.db.tenants && s.jobs[t].pc < |Tasks(plan)| && JobOk(plan, s.db, t, s.jobs[t].pc)
  {
  }

  lemma {:induction false} CommitKeepsInv(plan: Plan, fks: set<Fk>, s: State, t: nat)
    requires SoundPlan(plan, fks) && Inv(plan, fks, s) && t in s.jobs && s.jobs[t].pc < |Tasks(plan)|
    ensures var (job, task) := (s.jobs[t], Tasks(plan)[s.jobs[t].pc]);
            var (db, captured) := Execute(s.db, t, task, job.captured);
            var jobs := if task == DeleteTenant then s.jobs - {t} else s.jobs[t := Job(job.pc + 1, captured)];
            Inv(plan, fks, State(db, jobs))
  {
    JobInRange(plan, fks, s, t);
    hide Inv, SoundPlan, SameElsewhere, Integral, Execute, Tables, TablesDone, JobOk, Tasks;
    var (job, task) := (s.jobs[t], Tasks(plan)[s.jobs[t].pc]);
    var (db, captured) := Execute(s.db, t, task, job.captured);
    ExecuteKeepsInv(plan, fks, s, t, job.captured);
    ExecuteElsewhere(s.db, t, task, job.captured);
    if task == DeleteTenant {
      InvAfter(plan, fks, s, t, db, s.jobs - {t});
    } else {
      ExecuteKeepsTenant(s.db, t, task, job.captured);
      InvAfter(plan, fks, s, t, db, s.jobs[t := Job(job.pc + 1, captured)]);
    }
  }

  lemma {:induction false} DroppedJob(plan: Plan, fks: set<Fk>, s: State, t: nat)
    requires Inv(plan, fks, s)
    ensures Inv(plan, fks, s.(jobs := s.jobs - {t}))
  {
    hide JobOk, Integral, Tables;
  }

  /** Referential integrity and the progress of every job survive every event, crashes included. */
  lemma {:induction false} NextKeepsInv(plan: Plan, fks: set<Fk>, s: State, e: Event)
    requires SoundPlan(plan, fks) && Inv(plan, fks, s)
    ensures Inv(plan, fks, Next(plan, s, e))
  {
    if e.Advance? {
      AdvanceKeepsInv(plan, fks, s, e.tenant);
    }
  }

  lemma {:induction false} RunKeepsInv(plan: Plan, fks: set<Fk>, s: State, events: seq<Event>)
    requires SoundPlan(plan, fks) && Inv(plan, fks, s)
    ensures Inv(plan, fks, Run(plan, s, events))
  {
    if events != [] {
      RunKeepsInv(plan, fks, s, events[..|events| - 1]);
      NextKeepsInv(plan, fks, Run(plan, s, events[..|events| - 1]), events[|events| - 1]);
    }
  }

  // --- safety -----------------------------------------------------------------------------------

  /** The tenant is a sandbox marked for teardown: nothing else is ever purged. */
  predicate Doomed(s: State, tenant: nat) {
    Startable(s.db, tenant)
  }

  /** Each row survives an event, unless the event is a purge step of a sandbox that is PURGING. */
  lemma {:induction false} RowSurvives(plan: Plan, fks: set<Fk>, s: State, e: Event, r: Row)
    requires Inv(plan, fks, s) && r in s.db.rows
    ensures r in Next(plan, s, e).db.rows || (e == Advance(r.tenant) && Doomed(s, r.tenant))
  {
  }

  /** Over a whole run, a tenant that is never a PURGING sandbox never loses or changes a row. */
  lemma {:induction false} OtherTenantsKeepRows(plan: Plan, fks: set<Fk>, s: State, events: seq<Event>, r: Row)
    requires SoundPlan(plan, fks) && Inv(plan, fks, s) && r in s.db.rows
    requires forall k | 0 <= k < |events| :: !Doomed(Run(plan, s, events[..k]), r.tenant)
    ensures r in Run(plan, s, events).db.rows
  {
    if events != [] {
      var n := |events| - 1;
      forall k | 0 <= k < n ensures !Doomed(Run(plan, s, events[..n][..k]), r.tenant) {
        assert events[..n][..k] == events[..k];
      }
      var before := Run(plan, s, events[..n]);
      assert Run(plan, s, events) == Next(plan, before, events[n]);
      hide *;
      OtherTenantsKeepRows(plan, fks, s, events[..n], r);
      RunKeepsInv(plan, fks, s, events[..n]);
      RowSurvives(plan, fks, before, events[n], r);
    }
  }

  /** The event is the object step of the tenant's job; it looks at no kind and no status. */
  predicate DeletesObjects(plan: Plan, s: State, e: Event, tenant: nat) {
    e == Advance(tenant) && tenant in s.jobs && s.jobs[tenant].pc == |plan.bulk| + 1
  }

  /** A stored object is lost exactly at the object step of its tenant's job. */
  lemma {:induction false} ObjectLostExactlyWhen(plan: Plan, fks: set<Fk>, s: State, e: Event, o: (nat, string))
    requires Inv(plan, fks, s) && o in s.db.objects
    ensures o !in Next(plan, s, e).db.objects <==> DeletesObjects(plan, s, e, o.0)
  {
    if e.Advance? && e.tenant in s.jobs {
      assert JobOk(plan, s.db, e.tenant, s.jobs[e.tenant].pc);
      TaskAt(plan, s.jobs[e.tenant].pc);
      hide Inv, JobOk, Tasks;
    }
  }

  lemma {:induction false} NoNewObjects(plan: Plan, s: State, e: Event, o: (nat, string))
    ensures o in Next(plan, s, e).db.objects ==> o in s.db.objects
  {
    hide Tasks, Detach, Delete, GuestEmail, LeadOf;
  }

  /** No event of the run was the object step of the tenant's job. */
  ghost predicate ObjectsLeftAlone(plan: Plan, s: State, events: seq<Event>, tenant: nat) {
    forall k | 0 <= k < |events| :: !DeletesObjects(plan, Run(plan, s, events[..k]), events[k], tenant)
  }

  lemma {:induction false} LeftAloneUnfolds(plan: Plan, s: State, events: seq<Event>, tenant: nat)
    requires events != []
    ensures var n := |events| - 1;
            ObjectsLeftAlone(plan, s, events, tenant)
            <==> ObjectsLeftAlone(plan, s, events[..n], tenant)
                 && !DeletesObjects(plan, Run(plan, s, events[..n]), events[n], tenant)
  {
    hide Run, DeletesObjects;
    var n := |events| - 1;
    forall k | 0 <= k < n ensures events[..n][..k] == events[..k] && events[..n][k] == events[k] {
    }
    if ObjectsLeftAlone(plan, s, events, tenant) {
      forall k | 0 <= k < n ensures !DeletesObjects(plan, Run(plan, s, events[..n][..k]), events[..n][k], tenant) {
        assert !DeletesObjects(plan, Run(plan, s, events[..k]), events[k], tenant);
      }
    }
    if ObjectsLeftAlone(plan, s, events[..n], tenant) {
      forall k | 0 <= k < n ensures !DeletesObjects(plan, Run(plan, s, events[..k]), events[k], tenant) {
        assert !DeletesObjects(plan, Run(plan, s, events[..n][..k]), events[..n][k], tenant);
      }
    }
  }

  /** And over a whole run: it survives if and only if no event was that step. */
  lemma {:induction false} ObjectSurvivesExactlyWhen(plan: Plan, fks: set<Fk>, s: State, events: seq<Event>, o: (nat,
      string))
    requires SoundPlan(plan, fks) && Inv(plan, fks, s) && o in s.db.objects
    ensures o in Run(plan, s, events).db.objects <==> ObjectsLeftAlone(plan, s, events, o.0)
  {
    if events != [] {
      hide Inv, SoundPlan, Next, DeletesObjects, ObjectsLeftAlone;
      var n := |events| - 1;
      var before := Run(plan, s, events[..n]);
      ObjectSurvivesExactlyWhen(plan, fks, s, events[..n], o);
      RunKeepsInv(plan, fks, s, events[..n]);
      LeftAloneUnfolds(plan, s, events, o.0);
      NoNewObjects(plan, before, events[n], o);
      if o in before.db.objects {
        ObjectLostExactlyWhen(plan, fks, before, events[n], o);
      }
    }
  }

  lemma {:induction false} NoJobAppears(plan: Plan, s: State, e: Event, t: nat)
    requires t !in s.jobs && !Doomed(s, t)
    ensures t !in Next(plan, s, e).jobs && !DeletesObjects(plan, s, e, t)
  {
    hide Execute, Tasks;
  }

  /** A tenant without a job that is never a PURGING sandbox gets none, and keeps its objects. */
  lemma {:induction false} OtherTenantsKeepObjects(plan: Plan, fks: set<Fk>, s: State, events: seq<Event>, o: (nat,
      string))
    requires SoundPlan(plan, fks) && Inv(plan, fks, s) && o in s.db.objects && o.0 !in s.jobs
    requires forall k | 0 <= k < |events| :: !Doomed(Run(plan, s, events[..k]), o.0)
    ensures o in Run(plan, s, events).db.objects && o.0 !in Run(plan, s, events).jobs
  {
    if events != [] {
      var n := |events| - 1;
      forall k | 0 <= k < n ensures !Doomed(Run(plan, s, events[..n][..k]), o.0) {
        assert events[..n][..k] == events[..k];
      }
      var before := Run(plan, s, events[..n]);
      assert Run(plan, s, events) == Next(plan, before, events[n]);
      hide *;
      OtherTenantsKeepObjects(plan, fks, s, events[..n], o);
      RunKeepsInv(plan, fks, s, events[..n]);
      ObjectLostExactlyWhen(plan, fks, before, events[n], o);
      NoJobAppears(plan, before, events[n], o.0);
    }
  }

  /**
   The rows' guarantee is stronger: a job that is under way when its tenant stops being a sandbox touches
   no more rows, but still deletes the objects.
   */
  lemma {:induction false} ObjectsAreUnguarded(plan: Plan, fks: set<Fk>, s: State, o: (nat, string), kind: Kind)
    requires SoundPlan(plan, fks) && Inv(plan, fks, s) && o in s.db.objects && kind != DemoSandbox
    requires o.0 in s.jobs && s.jobs[o.0].pc == |plan.bulk| + 1
    ensures var end := Run(plan, s, [Rekind(o.0, kind), Advance(o.0)]);
            && o.0 in end.db.tenants && end.db.tenants[o.0].kind == kind
            && o !in end.db.objects && end.db.rows == s.db.rows
  {
    assert JobOk(plan, s.db, o.0, s.jobs[o.0].pc);
    TaskAt(plan, s.jobs[o.0].pc);
    var events := [Rekind(o.0, kind), Advance(o.0)];
    assert events[..1] == [Rekind(o.0, kind)] && events[..1][..0] == [];
    assert Run(plan, s, events[..1]) == Next(plan, s, Rekind(o.0, kind));
    hide Inv, SoundPlan, JobOk, Tasks;
  }

  // --- an uninterrupted run completes -----------------------------------------------------------

  /** The database an uninterrupted run leaves, from transaction `pc` on. */
  function Finish(plan: Plan, db: Db, tenant: nat, pc: nat, captured: bool): Db
    decreases |Tasks(plan)| - pc
  {
    if pc >= |Tasks(plan)| || !Permitted(db, tenant, Tasks(plan)[pc]) then db
    else
      var (after, flag) := Execute(db, tenant, Tasks(plan)[pc], captured);
      Finish(plan, after, tenant, pc + 1, flag)
  }

  ghost predicate Purged(db: Db, tenant: nat) {
    && tenant !in db.tenants
    && (forall r | r in db.rows :: r.tenant != tenant)
    && (forall o | o in db.objects :: o.0 != tenant)
  }

  lemma {:induction false} FinishUnfolds(plan: Plan, s: State, tenant: nat) returns (next: State)
    requires tenant in s.jobs && Startable(s.db, tenant) && s.jobs[tenant].pc + 1 < |Tasks(plan)|
    ensures next == Next(plan, s, Advance(tenant)) && tenant in next.jobs && Startable(next.db, tenant)
    ensures next.jobs[tenant].pc == s.jobs[tenant].pc + 1 && SameElsewhere(s.db, next.db, tenant)
    ensures Finish(plan, s.db, tenant, s.jobs[tenant].pc, s.jobs[tenant].captured)
            == Finish(plan, next.db, tenant, next.jobs[tenant].pc, next.jobs[tenant].captured)
  {
    var job := s.jobs[tenant];
    TaskAt(plan, job.pc);
    var task := Tasks(plan)[job.pc];
    ExecuteElsewhere(s.db, tenant, task, job.captured);
    var (db, captured) := Execute(s.db, tenant, task, job.captured);
    next := State(db, s.jobs[tenant := Job(job.pc + 1, captured)]);
    assert Startable(db, tenant);
    hide SameElsewhere, Execute, Tasks, Startable;
  }

  lemma {:induction false} FinishStep(plan: Plan, fks: set<Fk>, s: State, tenant: nat) returns (next: State)
    requires SoundPlan(plan, fks) && Inv(plan, fks, s)
    requires tenant in s.jobs && Startable(s.db, tenant) && s.jobs[tenant].pc + 1 < |Tasks(plan)|
    ensures next == Next(plan, s, Advance(tenant))
    ensures Inv(plan, fks, next) && tenant in next.jobs && Startable(next.db, tenant)
    ensures next.jobs[tenant].pc == s.jobs[tenant].pc + 1 && SameElsewhere(s.db, next.db, tenant)
    ensures Finish(plan, s.db, tenant, s.jobs[tenant].pc, s.jobs[tenant].captured)
            == Finish(plan, next.db, tenant, next.jobs[tenant].pc, next.jobs[tenant].captured)
  {
    hide *;
    next := FinishUnfolds(plan, s, tenant);
    NextKeepsInv(plan, fks, s, Advance(tenant));
  }

  lemma {:induction false} FinishLast(plan: Plan, fks: set<Fk>, s: State, tenant: nat)
    requires SoundPlan(plan, fks) && Inv(plan, fks, s)
    requires tenant in s.jobs && Startable(s.db, tenant) && s.jobs[tenant].pc + 1 == |Tasks(plan)|
    ensures var db := Finish(plan, s.db, tenant, s.jobs[tenant].pc, s.jobs[tenant].captured);
            Purged(db, tenant) && SameElsewhere(s.db, db, tenant)
  {
  }

  /** From every intermediate PURGING state an uninterrupted run removes every trace, and only of its tenant. */
  lemma {:induction false} FinishPurges(plan: Plan, fks: set<Fk>, s: State, tenant: nat)
    requires SoundPlan(plan, fks) && Inv(plan, fks, s)
    requires tenant in s.jobs && Startable(s.db, tenant)
    ensures var db := Finish(plan, s.db, tenant, s.jobs[tenant].pc, s.jobs[tenant].captured);
            Purged(db, tenant) && SameElsewhere(s.db, db, tenant)
    decreases |Tasks(plan)| - s.jobs[tenant].pc
  {
    assert s.jobs[tenant].pc < |Tasks(plan)|;
    if s.jobs[tenant].pc + 1 == |Tasks(plan)| {
      FinishLast(plan, fks, s, tenant);
    } else {
      var next := FinishStep(plan, fks, s, tenant);
      hide *;
      FinishPurges(plan, fks, next, tenant);
      ElsewhereTransitive(s.db, next.db,
                          Finish(plan, next.db, tenant, next.jobs[tenant].pc, next.jobs[tenant].captured), tenant);
    }
  }

  lemma {:induction false} ElsewhereTransitive(a: Db, b: Db, c: Db, tenant: nat)
    requires SameElsewhere(a, b, tenant) && SameElsewhere(b, c, tenant)
    ensures SameElsewhere(a, c, tenant)
  {
  }

  lemma {:induction false} RunFromFirst(plan: Plan, s: State, e: Event, events: seq<Event>)
    ensures Run(plan, s, [e] + events) == Run(plan, Next(plan, s, e), events)
  {
    hide Next;
    if events == [] {
      assert [e] + events == [e] && [e][..0] == [];
      assert Run(plan, s, []) == s;
    } else {
      var n := |events| - 1;
      RunFromFirst(plan, s, e, events[..n]);
      assert ([e] + events)[..n + 1] == [e] + events[..n];
    }
  }

  /** The uninterrupted job is one of the runs of the system: it starts, then only advances. */
  lemma {:induction false} FinishIsARun(plan: Plan, s: State, tenant: nat) returns (events: seq<Event>)
    requires tenant in s.jobs && s.jobs[tenant].pc < |Tasks(plan)|
    ensures Run(plan, s, events).db == Finish(plan, s.db, tenant, s.jobs[tenant].pc, s.jobs[tenant].captured)
    ensures forall e | e in events :: e == Advance(tenant)
    decreases |Tasks(plan)| - s.jobs[tenant].pc
  {
    var pc := s.jobs[tenant].pc;
    var next := Next(plan, s, Advance(tenant));
    if !Permitted(s.db, tenant, Tasks(plan)[pc]) {
      events := [];
    } else if pc + 1 == |Tasks(plan)| {
      events := [Advance(tenant)];
      assert events[..0] == [];
      assert Run(plan, s, []) == s;
    } else {
      var rest := FinishIsARun(plan, next, tenant);
      events := [Advance(tenant)] + rest;
      RunFromFirst(plan, s, Advance(tenant), rest);
    }
  }

  /** The plan computed from the schema is the sound one, whenever the schema detaches the tail. */
  lemma {:induction false} ComputedPlanIsSound(schema: Schema, ordered: seq<Name>, fks: set<Fk>)
    requires IsFkOrder(schema, ordered) && FksOf(schema, fks) && DemoPurgePlan(ordered).Ok?
    ensures SoundPlan(DemoPurgePlan(ordered).value, fks) <==> TailDetached(DemoPurgePlan(ordered).value, fks, DETACHED)
  {
    PlanCoversEachTableOnce(schema, ordered);
    DemoPurgeSafeExactlyWhen(schema, ordered, fks, DETACHED);
  }

  // --- the job body over mutable tables -----------------------------------------------------------

  datatype Outcome = Noop | Refused | NotPurging | Completed

  /** The database the job body works on, its tables updated in place. */
  class PurgeJob {
    const plan: Plan
    var tenants: map<nat, Tenant>
    var rows: seq<Row>
    var objects: set<(nat, string)>
    var leads: seq<Lead>
    var completed: seq<(nat, bool)>

    constructor (plan: Plan, db: Db)
      ensures this.plan == plan && Tables() == db
    {
      this.plan := plan;
      tenants, rows, objects, leads, completed := db.tenants, db.rows, db.objects, db.leads, db.completed;
    }

    ghost function Tables(): Db
      reads this
    {
      Db(tenants, rows, objects, leads, completed)
    }

    /** One guarded transaction; a refusal rolls it back. */
    method InPurgeTx(tenant: nat, task: Task, captured: bool) returns (permitted: bool, flag: bool)
      modifies this
      ensures permitted == Permitted(old(Tables()), tenant, task)
      ensures permitted ==> (Tables(), flag) == Execute(old(Tables()), tenant, task, captured)
      ensures !permitted ==> Tables() == old(Tables())
    {
      flag := captured;
      if !task.DeleteObjects? && tenant in tenants && tenants[tenant].kind != DemoSandbox {
        return false, flag;
      }
      match task {
      case DetachFks => rows := Detach(rows, tenant, DETACHED);
      case DeleteTable(table) => rows := Delete(rows, tenant, table);
      case DeleteObjects => objects := set o | o in objects && o.0 != tenant;
      case CaptureLead => flag := CaptureConsentedLead(tenant);
      case DeleteTenant =>
        if tenant in tenants && tenants[tenant].status == Purging {
          tenants := tenants - {tenant};
        }
        completed := completed + [(tenant, captured)];
      }
      permitted := true;
    }

    method CaptureConsentedLead(tenant: nat) returns (captured: bool)
      modifies this
      ensures (Tables(), captured) == Capture(old(Tables()), tenant)
      ensures var before := old(Tables());
              && rows == before.rows && objects == before.objects && completed == before.completed
              && tenants == (if tenant in before.tenants
                             then before.tenants[tenant := before.tenants[tenant].(consentedAt := None)]
                             else before.tenants)
              && (captured ==> exists email :: IsGuestEmail(before.rows, tenant, email))
              && if exists lead :: IsLeadOf(before, tenant, lead)
                 then exists lead :: IsLeadOf(before, tenant, lead) && leads == before.leads + [lead]
                 else leads == before.leads
    {
      CaptureMeans(Tables(), tenant);
      hide IsLeadOf, GuestEmail, IsGuestEmail;
      if tenant !in tenants || tenants[tenant].consentedAt.None? {
        return false;
      }
      var t := tenants[tenant];
      var email := GuestEmail(rows, tenant);
      if email.Some? && email.value != "" {
        leads := leads + [LeadOf(tenant, t, email.value)];
      }
      assert old(leads) + [] == old(leads);
      tenants := tenants[tenant := t.(consentedAt := None)];
      captured := email.Some?;
    }

    /** The whole job: nothing unless the tenant is a PURGING sandbox, otherwise the uninterrupted run. */
    method RunPurge(tenant: nat) returns (outcome: Outcome)
      modifies this
      ensures tenant !in old(tenants) <==> outcome == Noop
      ensures outcome in {Noop, NotPurging} || (outcome == Refused && old(tenants)[tenant].kind != DemoSandbox)
              ==> Tables() == old(Tables())
      ensures outcome == Completed ==> Startable(old(Tables()), tenant)
      ensures tenant in old(tenants) && Startable(old(Tables()), tenant) ==>
                Tables() == Finish(plan, old(Tables()), tenant, 0, false)
    {
      if tenant !in tenants {
        return Noop;
      }
      if tenants[tenant].kind != DemoSandbox {
        return Refused;
      }
      if tenants[tenant].status != Purging {
        return NotPurging;
      }
      var tasks := Tasks(plan);
      var captured, permitted := false, true;
      for pc := 0 to |tasks|
        invariant Finish(plan, Tables(), tenant, pc, captured) == Finish(plan, old(Tables()), tenant, 0, false)
      {
        permitted, captured := InPurgeTx(tenant, tasks[pc], captured);
        if !permitted {
          return Refused;
        }
      }
      outcome := Completed;
    }
  }
}
