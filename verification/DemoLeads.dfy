/**
 The PDPA lead of a purged sandbox (`captureLead` in `apps/api/src/demo/demo-purge.service.ts`): how many
 leads crashes and retries leave, and what the completion audit reports of them.
 */
module DemoLeads {
  import opened Optional
  import opened TenantTables
  import opened TenantRows
  import opened PurgePlan
  import opened DemoPurge

  // --- the lead is captured exactly once --------------------------------------------------------

  function LeadsOf(leads: seq<Lead>, tenant: nat): seq<Lead> {
    if leads == [] then []
    else
      var last := leads[|leads| - 1];
      LeadsOf(leads[..|leads| - 1], tenant) + if last.tenant == tenant then [last] else []
  }

  /** The consent is spent, or was never given. */
  predicate Spent(db: Db, tenant: nat) {
    tenant !in db.tenants || db.tenants[tenant].consentedAt.None?
  }

  /** The lead a purge of `tenant` owes: one iff consent and a non-empty email are there. */
  function OwedLead(db: Db, tenant: nat): seq<Lead> {
    if Spent(db, tenant) then []
    else
      var email := GuestEmail(db.rows, tenant);
      if email.Some? && email.value != "" then [LeadOf(tenant, db.tenants[tenant], email.value)] else []
  }

  lemma {:induction false} EmailAfterDelete(rows: seq<Row>, actor: nat, table: Name, tenant: nat)
    requires actor != tenant || table !in TAIL
    ensures GoogleEmail(Delete(rows, actor, table), tenant) == GoogleEmail(rows, tenant)
    ensures GuestUserEmail(Delete(rows, actor, table), tenant) == GuestUserEmail(rows, tenant)
  {
    assert TAIL[0] == "auth_identity" && TAIL[1] == "user";
    if rows != [] {
      EmailAfterDelete(rows[1..], actor, table, tenant);
    }
  }

  lemma {:induction false} EmailAfterDetach(rows: seq<Row>, actor: nat, columns: set<(Name, Column)>, tenant: nat)
    ensures GoogleEmail(Detach(rows, actor, columns), tenant) == GoogleEmail(rows, tenant)
    ensures GuestUserEmail(Detach(rows, actor, columns), tenant) == GuestUserEmail(rows, tenant)
  {
    if rows != [] {
      assert Detach(rows, actor, columns)[1..] == Detach(rows[1..], actor, columns);
      EmailAfterDetach(rows[1..], actor, columns, tenant);
    }
  }

  lemma {:induction false} LeadsAfterCapture(db: Db, actor: nat, tenant: nat)
    ensures LeadsOf(Capture(db, actor).0.leads, tenant)
            == LeadsOf(db.leads, tenant) + if actor == tenant then OwedLead(db, tenant) else []
  {
    var owed := OwedLead(db, actor);
    assert Capture(db, actor).0.leads == db.leads + owed;
    if owed == [] {
      assert db.leads + owed == db.leads;
    } else {
      assert (db.leads + owed)[..|db.leads|] == db.leads;
    }
  }

  /** The step that may lose a lead still owed: the guest's rows or the tenant itself go. */
  predicate Forgets(actor: nat, task: Task, tenant: nat) {
    actor == tenant && (task == DeleteTenant || (task.DeleteTable? && task.table in TAIL))
  }

  /** A step pays what is owed, or leaves it owed; only a forgetting one must come after the consent is spent. */
  lemma {:induction false} ExecuteKeepsOwed(db: Db, actor: nat, task: Task, captured: bool, tenant: nat)
    requires Forgets(actor, task, tenant) ==> Spent(db, tenant)
    ensures var after := Execute(db, actor, task, captured).0;
            && LeadsOf(after.leads, tenant) + OwedLead(after, tenant)
               == LeadsOf(db.leads, tenant) + OwedLead(db, tenant)
            && (Spent(db, tenant) || (task == CaptureLead && actor == tenant) ==> Spent(after, tenant))
  {
    match task
    case DetachFks => EmailAfterDetach(db.rows, actor, DETACHED, tenant);
    case DeleteTable(table) =>
      if !Forgets(actor, task, tenant) {
        EmailAfterDelete(db.rows, actor, table, tenant);
      }
    case DeleteObjects =>
    case CaptureLead => CaptureKeepsOwed(db, actor, tenant);
    case DeleteTenant =>
  }

  lemma {:induction false} CaptureKeepsOwed(db: Db, actor: nat, tenant: nat)
    ensures var after := Capture(db, actor).0;
            && LeadsOf(after.leads, tenant) + OwedLead(after, tenant)
               == LeadsOf(db.leads, tenant) + OwedLead(db, tenant)
            && (Spent(db, tenant) || actor == tenant ==> Spent(after, tenant))
  {
    LeadsAfterCapture(db, actor, tenant);
    hide LeadsOf, GuestEmail;
    var leads, owed := LeadsOf(db.leads, tenant), OwedLead(db, tenant);
    assert leads + owed + [] == leads + owed && leads + [] + owed == leads + owed;
  }

  /** Captured leads plus the one still owed; before the capture step nothing has been spent. */
  ghost predicate LeadInv(plan: Plan, s: State, tenant: nat, due: seq<Lead>) {
    && LeadsOf(s.db.leads, tenant) + OwedLead(s.db, tenant) == due
    && (tenant in s.jobs && s.jobs[tenant].pc > |plan.bulk| + 2 ==> Spent(s.db, tenant))
  }

  /** Before the capture step no step of a sound plan forgets. */
  lemma {:induction false} NothingForgotten(plan: Plan, fks: set<Fk>, actor: nat, pc: nat, tenant: nat)
    requires SoundPlan(plan, fks) && pc <= |plan.bulk| + 2
    ensures pc < |Tasks(plan)| && !Forgets(actor, Tasks(plan)[pc], tenant)
  {
    TaskAt(plan, pc);
    if Tasks(plan)[pc].DeleteTable? {
      BulkIsNotTail(plan, TablesDone(plan, pc));
    }
  }

  lemma {:induction false} BulkIsNotTail(plan: Plan, i: nat)
    requires plan.tail == TAIL && Distinct(Tables(plan)) && i < |plan.bulk|
    ensures Tables(plan)[i] !in TAIL
  {
    var n := |plan.bulk|;
    assert Tables(plan)[n] == TAIL[0] && Tables(plan)[n + 1] == TAIL[1];
  }

  lemma {:induction false} AdvanceKeepsLeads(plan: Plan, fks: set<Fk>, s: State, actor: nat, tenant: nat,
      due: seq<Lead>)
    requires SoundPlan(plan, fks) && Inv(plan, fks, s) && LeadInv(plan, s, tenant, due) && actor in s.jobs
    ensures LeadInv(plan, Next(plan, s, Advance(actor)), tenant, due)
  {
    var job := s.jobs[actor];
    JobIsOk(plan, fks, s, actor);
    AdvanceIs(plan, s, actor);
    TaskAt(plan, job.pc);
    if job.pc <= |plan.bulk| + 2 {
      NothingForgotten(plan, fks, actor, job.pc, tenant);
    }
    hide Inv, SoundPlan, Tasks, Next, Execute, TablesDone, Tables, OwedLead, LeadsOf, Spent;
    ExecuteKeepsOwed(s.db, actor, Tasks(plan)[job.pc], job.captured, tenant);
  }

  lemma {:induction false} JobIsOk(plan: Plan, fks: set<Fk>, s: State, tenant: nat)
    requires Inv(plan, fks, s) && tenant in s.jobs
    ensures tenant in s.db.tenants && s.db.tenants[tenant].status == Purging && s.jobs[tenant].pc < |Tasks(plan)|
  {
    assert JobOk(plan, s.db, tenant, s.jobs[tenant].pc);
  }

  lemma {:induction false} NextKeepsLeads(plan: Plan, fks: set<Fk>, s: State, e: Event, tenant: nat, due: seq<Lead>)
    requires SoundPlan(plan, fks) && Inv(plan, fks, s) && LeadInv(plan, s, tenant, due)
    ensures LeadInv(plan, Next(plan, s, e), tenant, due)
  {
    hide SoundPlan, Inv, AdvanceJob, LeadsOf, GuestEmail;
    if e.Advance? && e.tenant in s.jobs {
      AdvanceKeepsLeads(plan, fks, s, e.tenant, tenant, due);
    }
  }

  lemma {:induction false} RunKeepsLeads(plan: Plan, fks: set<Fk>, s: State, events: seq<Event>, tenant: nat,
      due: seq<Lead>)
    requires SoundPlan(plan, fks) && Inv(plan, fks, s) && LeadInv(plan, s, tenant, due)
    ensures LeadInv(plan, Run(plan, s, events), tenant, due)
  {
    if events != [] {
      var before := events[..|events| - 1];
      hide SoundPlan, Inv, LeadInv, Next;
      RunKeepsLeads(plan, fks, s, before, tenant, due);
      RunKeepsInv(plan, fks, s, before);
      NextKeepsLeads(plan, fks, Run(plan, s, before), events[|events| - 1], tenant, due);
    }
  }

  /**
   Whatever crashes and retries happen on the way, once the tenant is gone the leads have gained
   exactly the one row that consent, email and name of the start give, field by field, or none.
   */
  lemma {:induction false} LeadCapturedExactlyOnce(plan: Plan, fks: set<Fk>, s: State, events: seq<Event>, tenant: nat)
    requires SoundPlan(plan, fks) && Inv(plan, fks, s) && tenant !in s.jobs
    ensures var end := Run(plan, s, events).db;
            && (tenant !in end.tenants ==>
                  LeadsOf(end.leads, tenant) == LeadsOf(s.db.leads, tenant) + OwedLead(s.db, tenant))
            && (tenant !in end.tenants ==>
                  if exists lead :: IsLeadOf(s.db, tenant, lead)
                  then exists lead :: IsLeadOf(s.db, tenant, lead)
                                      && LeadsOf(end.leads, tenant) == LeadsOf(s.db.leads, tenant) + [lead]
                  else LeadsOf(end.leads, tenant) == LeadsOf(s.db.leads, tenant))
            && |LeadsOf(end.leads, tenant)| <= |LeadsOf(s.db.leads, tenant)| + 1
  {
    RunKeepsLeads(plan, fks, s, events, tenant, LeadsOf(s.db.leads, tenant) + OwedLead(s.db, tenant));
    OwedLeadMeans(s.db, tenant);
    hide Inv, SoundPlan, Run, LeadsOf, IsLeadOf, GuestEmail;
    assert LeadsOf(s.db.leads, tenant) + [] == LeadsOf(s.db.leads, tenant);
  }

  /** What is owed is the tenant's lead, in every field. */
  lemma {:induction false} OwedLeadMeans(db: Db, tenant: nat)
    ensures |OwedLead(db, tenant)| <= 1
    ensures OwedLead(db, tenant) == [] <==> !exists lead :: IsLeadOf(db, tenant, lead)
    ensures OwedLead(db, tenant) != [] ==> IsLeadOf(db, tenant, OwedLead(db, tenant)[0])
  {
    forall email ensures GuestEmail(db.rows, tenant) == Some(email) <==> IsGuestEmail(db.rows, tenant, email) {
      GuestEmailMeans(db.rows, tenant, email);
    }
    hide GuestEmail, IsGuestEmail;
    if OwedLead(db, tenant) != [] {
      assert IsLeadOf(db, tenant, OwedLead(db, tenant)[0]);
    }
  }

  /**
   A purge job started on a PURGING sandbox and left alone removes the tenant, its rows and its
   objects, leaves everyone else's, and captures the lead that consent and email owe.
   */
  lemma {:induction false} UninterruptedRunPurges(plan: Plan, fks: set<Fk>, s: State, tenant: nat)
    requires SoundPlan(plan, fks) && Inv(plan, fks, s)
    requires tenant !in s.jobs && Startable(s.db, tenant)
    ensures var db := Finish(plan, s.db, tenant, 0, false);
            && Purged(db, tenant) && SameElsewhere(s.db, db, tenant)
            && LeadsOf(db.leads, tenant) == LeadsOf(s.db.leads, tenant) + OwedLead(s.db, tenant)
  {
    var started := Next(plan, s, Start(tenant));
    NextKeepsInv(plan, fks, s, Start(tenant));
    JobIsOk(plan, fks, started, tenant);
    hide Inv, SoundPlan, SameElsewhere, Finish, Tasks, LeadsOf, OwedLead;
    FinishPurges(plan, fks, started, tenant);
    var rest := FinishIsARun(plan, started, tenant);
    RunFromFirst(plan, s, Start(tenant), rest);
    LeadCapturedExactlyOnce(plan, fks, s, [Start(tenant)] + rest, tenant);
  }

  // --- what the completion audit reports ----------------------------------------------------------

  /** What a capture step would report now: consent, and any email at all. */
  predicate Reports(db: Db, tenant: nat) {
    !Spent(db, tenant) && GuestEmail(db.rows, tenant).Some?
  }

  /** The flag the job will write into the completion audit, if nothing interrupts it. */
  predicate FlagAt(plan: Plan, db: Db, tenant: nat, job: Job) {
    if job.pc <= |plan.bulk| + 2 then Reports(db, tenant) else job.captured
  }

  lemma {:induction false} ExecuteKeepsReport(db: Db, tenant: nat, task: Task, captured: bool)
    requires task != DeleteTenant && tenant in db.tenants
    ensures var (after, flag) := Execute(db, tenant, task, captured);
            && after.completed == db.completed
            && (task == CaptureLead ==> flag == Reports(db, tenant))
            && (task != CaptureLead ==> flag == captured)
            && (task != CaptureLead && !Forgets(tenant, task, tenant) ==> Reports(after, tenant) == Reports(db, tenant))
  {
    match task
    case DetachFks => EmailAfterDetach(db.rows, tenant, DETACHED, tenant);
    case DeleteTable(table) =>
      if !Forgets(tenant, task, tenant) {
        EmailAfterDelete(db.rows, tenant, table, tenant);
      }
    case DeleteObjects =>
    case CaptureLead =>
  }

  lemma {:induction false} FlagKept(plan: Plan, fks: set<Fk>, s: State, tenant: nat)
    requires SoundPlan(plan, fks) && Inv(plan, fks, s)
    requires tenant in s.jobs && Startable(s.db, tenant) && s.jobs[tenant].pc + 1 < |Tasks(plan)|
    ensures var next := Next(plan, s, Advance(tenant));
            && tenant in next.jobs && next.db.completed == s.db.completed
            && FlagAt(plan, next.db, tenant, next.jobs[tenant]) == FlagAt(plan, s.db, tenant, s.jobs[tenant])
  {
    var job := s.jobs[tenant];
    AdvanceIs(plan, s, tenant);
    TaskAt(plan, job.pc);
    if job.pc <= |plan.bulk| + 2 {
      NothingForgotten(plan, fks, tenant, job.pc, tenant);
    }
    ExecuteKeepsReport(s.db, tenant, Tasks(plan)[job.pc], job.captured);
    hide Inv, SoundPlan, Tasks, Next, Execute, TablesDone, Tables, Reports, Forgets;
  }

  lemma {:induction false} LastReports(plan: Plan, s: State, tenant: nat)
    requires tenant in s.jobs && Startable(s.db, tenant) && s.jobs[tenant].pc + 1 == |Tasks(plan)|
    ensures var job := s.jobs[tenant];
            Finish(plan, s.db, tenant, job.pc, job.captured).completed == s.db.completed + [(tenant, job.captured)]
  {
    var job := s.jobs[tenant];
    TaskAt(plan, job.pc);
    var db := Execute(s.db, tenant, DeleteTenant, job.captured).0;
    assert Finish(plan, db, tenant, job.pc + 1, job.captured) == db;
  }

  /** From every point of a job, the audit its completion writes: exactly this flag, exactly once. */
  lemma {:induction false} CompletionReports(plan: Plan, fks: set<Fk>, s: State, tenant: nat)
    requires SoundPlan(plan, fks) && Inv(plan, fks, s)
    requires tenant in s.jobs && Startable(s.db, tenant)
    ensures var job := s.jobs[tenant];
            Finish(plan, s.db, tenant, job.pc, job.captured).completed
            == s.db.completed + [(tenant, FlagAt(plan, s.db, tenant, job))]
    decreases |Tasks(plan)| - s.jobs[tenant].pc
  {
    JobIsOk(plan, fks, s, tenant);
    if s.jobs[tenant].pc + 1 == |Tasks(plan)| {
      LastReports(plan, s, tenant);
      LastIsPastCapture(plan, fks);
    } else {
      hide *;
      FlagKept(plan, fks, s, tenant);
      var next := FinishStep(plan, fks, s, tenant);
      CompletionReports(plan, fks, next, tenant);
    }
  }

  lemma {:induction false} LastIsPastCapture(plan: Plan, fks: set<Fk>)
    requires SoundPlan(plan, fks)
    ensures |Tasks(plan)| - 1 > |plan.bulk| + 2
  {
  }

  /**
   A purge that has begun, with whatever attempts before: the attempt that completes it reports a lead or
   not, and that is right - it agrees with whether the purge has left one - if and only if no earlier
   attempt captured the lead, and it is not an empty email that consent is still given for.
   */
  lemma {:induction false} ReportIsRightExactlyWhen(plan: Plan, fks: set<Fk>, start: State, events: seq<Event>,
      tenant: nat)
    requires SoundPlan(plan, fks) && Inv(plan, fks, start) && tenant !in start.jobs
    requires tenant !in Run(plan, start, events).jobs && Startable(Run(plan, start, events).db, tenant)
    ensures var s := Run(plan, start, events);
            var end := Finish(plan, s.db, tenant, 0, false);
            var flag := Reports(s.db, tenant);
            && end.completed == s.db.completed + [(tenant, flag)]
            && ((flag <==> LeadsOf(end.leads, tenant) != LeadsOf(start.db.leads, tenant))
                <==> LeadsOf(s.db.leads, tenant) == LeadsOf(start.db.leads, tenant)
                     && !(!Spent(s.db, tenant) && GuestEmail(s.db.rows, tenant) == Some("")))
  {
    var s := Run(plan, start, events);
    RunKeepsInv(plan, fks, start, events);
    RunKeepsLeads(plan, fks, start, events, tenant, LeadsOf(start.db.leads, tenant) + OwedLead(start.db, tenant));
    var started := Next(plan, s, Start(tenant));
    NextKeepsInv(plan, fks, s, Start(tenant));
    CompletionReports(plan, fks, started, tenant);
    UninterruptedRunPurges(plan, fks, s, tenant);
    RunAddsLeads(plan, start, events, tenant);
    hide Inv, SoundPlan, Finish, Purged, SameElsewhere, Run, LeadsOf, GuestEmail, Tasks;
    var before, gained := LeadsOf(start.db.leads, tenant), LeadsOf(s.db.leads, tenant);
    var extra := gained[|before|..];
    assert gained == before + extra;
    assert extra + OwedLead(s.db, tenant) == (gained + OwedLead(s.db, tenant))[|before|..];
    assert OwedLead(start.db, tenant) == (before + OwedLead(start.db, tenant))[|before|..];
  }

  lemma {:induction false} CaptureAddsLeads(db: Db, actor: nat, tenant: nat)
    ensures var after := Capture(db, actor).0;
            && LeadsOf(db.leads, tenant) <= LeadsOf(after.leads, tenant)
            && (Spent(db, tenant) ==> Spent(after, tenant))
            && (LeadsOf(after.leads, tenant) == LeadsOf(db.leads, tenant) || Spent(after, tenant))
  {
    LeadsAfterCapture(db, actor, tenant);
    hide LeadsOf, GuestEmail;
  }

  lemma {:induction false} ExecuteAddsLeads(db: Db, actor: nat, task: Task, captured: bool, tenant: nat)
    ensures var after := Execute(db, actor, task, captured).0;
            && LeadsOf(db.leads, tenant) <= LeadsOf(after.leads, tenant)
            && (Spent(db, tenant) ==> Spent(after, tenant))
            && (LeadsOf(after.leads, tenant) == LeadsOf(db.leads, tenant) || Spent(after, tenant))
  {
    CaptureAddsLeads(db, actor, tenant);
    hide LeadsOf, GuestEmail, Capture, Delete, Detach;
  }

  lemma {:induction false} NextAddsLeads(plan: Plan, s: State, e: Event, tenant: nat)
    ensures var after := Next(plan, s, e).db;
            && LeadsOf(s.db.leads, tenant) <= LeadsOf(after.leads, tenant)
            && (Spent(s.db, tenant) ==> Spent(after, tenant))
            && (LeadsOf(after.leads, tenant) == LeadsOf(s.db.leads, tenant) || Spent(after, tenant))
  {
    if e.Advance? && e.tenant in s.jobs && s.jobs[e.tenant].pc < |Tasks(plan)| {
      ExecuteAddsLeads(s.db, e.tenant, Tasks(plan)[s.jobs[e.tenant].pc], s.jobs[e.tenant].captured, tenant);
      AdvanceIs(plan, s, e.tenant);
      hide LeadsOf, Tasks, Execute, Next;
    } else {
      hide LeadsOf, Tasks, AdvanceJob;
    }
  }

  /** Leads are only ever added, and a lead is added only by spending the consent for good. */
  lemma {:induction false} RunAddsLeads(plan: Plan, s: State, events: seq<Event>, tenant: nat)
    ensures var after := Run(plan, s, events).db;
            && LeadsOf(s.db.leads, tenant) <= LeadsOf(after.leads, tenant)
            && (Spent(s.db, tenant) ==> Spent(after, tenant))
            && (LeadsOf(after.leads, tenant) == LeadsOf(s.db.leads, tenant) || Spent(after, tenant))
  {
    if events != [] {
      hide LeadsOf, Next, Spent;
      RunAddsLeads(plan, s, events[..|events| - 1], tenant);
      NextAddsLeads(plan, Run(plan, s, events[..|events| - 1]), events[|events| - 1], tenant);
    }
  }

  /**
   The completion audit is not as reliable as the leads: with the consent already spent, a retried
   run reports `lead_captured: false`, whether or not an earlier attempt captured one.
   */
  lemma {:induction false} RetryReportsNoLead(plan: Plan, fks: set<Fk>, s: State, tenant: nat)
    requires SoundPlan(plan, fks) && Inv(plan, fks, s)
    requires tenant in s.jobs && !s.jobs[tenant].captured && Startable(s.db, tenant)
    requires s.db.tenants[tenant].consentedAt.None?
    ensures var db := Finish(plan, s.db, tenant, s.jobs[tenant].pc, false);
            db.completed == s.db.completed + [(tenant, false)] && db.leads == s.db.leads
  {
    CompletionReports(plan, fks, s, tenant);
    SpentAddsNothing(plan, s.db, tenant, s.jobs[tenant].pc, false);
    hide Inv, SoundPlan, Finish, Tasks, GuestEmail;
  }

  lemma {:induction false} SpentAddsNothing(plan: Plan, db: Db, tenant: nat, pc: nat, captured: bool)
    requires Spent(db, tenant)
    ensures Finish(plan, db, tenant, pc, captured).leads == db.leads
    decreases |Tasks(plan)| - pc
  {
    hide Tasks, Delete, Detach, GuestEmail;
    if pc < |Tasks(plan)| && Permitted(db, tenant, Tasks(plan)[pc]) {
      var (after, flag) := Execute(db, tenant, Tasks(plan)[pc], captured);
      SpentAddsNothing(plan, after, tenant, pc + 1, flag);
    }
  }

  // --- a run in which the report is wrong -----------------------------------------------------------

  lemma {:induction false} RunConcat(plan: Plan, s: State, first: seq<Event>, second: seq<Event>)
    ensures Run(plan, s, first + second) == Run(plan, Run(plan, s, first), second)
    decreases |second|
  {
    hide Next;
    if second == [] {
      assert first + second == first;
    } else {
      var n := |second| - 1;
      RunConcat(plan, s, first, second[..n]);
      assert (first + second)[..|first + second| - 1] == first + second[..n];
    }
  }

  /** A job left alone reaches any later step. */
  lemma {:induction false} AdvanceTo(plan: Plan, fks: set<Fk>, s: State, tenant: nat, pc: nat)
    returns (events: seq<Event>)
    requires SoundPlan(plan, fks) && Inv(plan, fks, s) && tenant in s.jobs && Startable(s.db, tenant)
    requires s.jobs[tenant].pc <= pc < |Tasks(plan)|
    ensures var end := Run(plan, s, events);
            tenant in end.jobs && end.jobs[tenant].pc == pc && Startable(end.db, tenant)
    ensures Run(plan, s, events).db.completed == s.db.completed
    decreases pc - s.jobs[tenant].pc
  {
    if s.jobs[tenant].pc == pc {
      events := [];
    } else {
      hide *;
      FlagKept(plan, fks, s, tenant);
      var next := FinishStep(plan, fks, s, tenant);
      var rest := AdvanceTo(plan, fks, next, tenant, pc);
      events := [Advance(tenant)] + rest;
      RunFromFirst(plan, s, Advance(tenant), rest);
    }
  }

  /**
   Every purge that owes a lead has such a run: the first attempt captures the lead and crashes, the second
   completes, and the audit says that no lead was captured.
   */
  lemma {:induction false} CrashMakesReportWrong(plan: Plan, fks: set<Fk>, s: State, tenant: nat)
    returns (events: seq<Event>)
    requires SoundPlan(plan, fks) && Inv(plan, fks, s) && tenant !in s.jobs && Startable(s.db, tenant)
    requires OwedLead(s.db, tenant) != []
    ensures var end := Run(plan, s, events).db;
            && LeadsOf(end.leads, tenant) == LeadsOf(s.db.leads, tenant) + OwedLead(s.db, tenant)
            && end.completed == s.db.completed + [(tenant, false)] && tenant !in end.tenants
  {
    var due := LeadsOf(s.db.leads, tenant) + OwedLead(s.db, tenant);
    var started := Next(plan, s, Start(tenant));
    NextKeepsInv(plan, fks, s, Start(tenant));
    LastIsPastCapture(plan, fks);
    var attempt := AdvanceTo(plan, fks, started, tenant, |plan.bulk| + 3);
    var captured := Run(plan, started, attempt);
    RunKeepsInv(plan, fks, started, attempt);
    RunKeepsLeads(plan, fks, started, attempt, tenant, due);
    assert Spent(captured.db, tenant);
    var crashed := Next(plan, captured, Crash(tenant));
    NextKeepsInv(plan, fks, captured, Crash(tenant));
    var again := Next(plan, crashed, Start(tenant));
    NextKeepsInv(plan, fks, crashed, Start(tenant));
    assert again.db == captured.db && tenant in again.jobs && again.jobs[tenant] == Job(0, false);
    hide Inv, SoundPlan, LeadsOf, GuestEmail, Tasks, Finish;
    RetryReportsNoLead(plan, fks, again, tenant);
    FinishPurges(plan, fks, again, tenant);
    var rest := FinishIsARun(plan, again, tenant);
    assert LeadsOf(captured.db.leads, tenant) + [] == LeadsOf(captured.db.leads, tenant);
    events := [Start(tenant)] + (attempt + ([Crash(tenant)] + ([Start(tenant)] + rest)));
    hide Next;
    RunFromFirst(plan, s, Start(tenant), attempt + ([Crash(tenant)] + ([Start(tenant)] + rest)));
    RunConcat(plan, started, attempt, [Crash(tenant)] + ([Start(tenant)] + rest));
    RunFromFirst(plan, captured, Crash(tenant), [Start(tenant)] + rest);
    RunFromFirst(plan, crashed, Start(tenant), rest);
  }
}
