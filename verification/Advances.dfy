/**
 Cash advances and their repayment through payroll approval (`cash-advance.service.ts`,
 `payroll.service.ts`, `payroll-math.ts` under `apps/api/src/hr/`).
 */
module Advances {
  import opened Money
  import opened Optional

  /** How an advance is repaid; an instalment count that is missing or zero falls back to a lump. */
  datatype Plan = Lump | Installment(installments: nat)

  datatype Status = Submitted | Approved | Rejected | Disbursed | Repaying | Cleared

  datatype Advance = Advance(employee: nat, amount: int, plan: Plan, outstanding: int, status: Status)

  datatype RunStatus = Draft | Calculated | RunApproved

  /** A payslip's totals: gross pay, the deductions other than advances, the advance line and the net. */
  datatype Slip = Slip(employee: nat, gross: int, deductions: int, advance: int, net: int)

  // --- one repayment --------------------------------------------------------------------------------

  /** One period's pull from an outstanding balance. */
  function Repayment(outstanding: int, plan: Plan): int {
    if plan.Installment? && plan.installments > 0 then
      var perPeriod := Round(outstanding as real / plan.installments as real);
      if perPeriod > outstanding then outstanding else perPeriod
    else outstanding
  }

  predicate Due(a: Advance, employee: nat) {
    a.employee == employee && a.status in {Disbursed, Repaying} && a.outstanding > 0
  }

  function Pull(a: Advance): int {
    Repayment(a.outstanding, a.plan)
  }

  function Repay(a: Advance): Advance {
    var remaining := a.outstanding - Pull(a);
    if remaining <= 0 then a.(outstanding := 0, status := Cleared)
    else a.(outstanding := remaining, status := Repaying)
  }

  lemma {:induction false} PullBounds(a: Advance)
    requires a.outstanding > 0
    ensures 0 <= Pull(a) <= a.outstanding
    ensures Repay(a).outstanding == a.outstanding - Pull(a)
    ensures Repay(a).status == Cleared <==> Repay(a).outstanding == 0
  {
  }

  /** A period's pull is everything, or the balance over the instalment count, rounded. */
  lemma {:induction false} RepaymentMeans(outstanding: int, plan: Plan)
    requires outstanding > 0
    ensures plan.Lump? || plan.installments == 0 ==> Repayment(outstanding, plan) == outstanding
    ensures plan.Installment? && plan.installments > 0 ==>
              Nearest(outstanding, plan.installments, Repayment(outstanding, plan))
  {
    if plan.Installment? && plan.installments > 0 {
      RoundIsNearest(outstanding, plan.installments);
      hide Round, Nearest;
      PartIsAtMostWhole(outstanding, plan.installments);
    }
  }

  lemma {:induction false} PartIsAtMostWhole(whole: int, n: int)
    requires whole > 0 && n > 0
    ensures Round(whole as real / n as real) <= whole
  {
    TimesDistance(whole, n);
    MulReal(whole, n);
    hide *;
    QuotientBetween(whole as real, n as real, 0.0, whole as real);
    RoundIsMonotoneAndOdd(whole as real / n as real, whole as real);
    RoundOnGrid(whole);
  }

  // --- does an instalment plan ever clear? ------------------------------------------------------------

  function After(outstanding: int, plan: Plan, periods: nat): int {
    if periods == 0 then outstanding
    else
      var before := After(outstanding, plan, periods - 1);
      if before > 0 then before - Repayment(before, plan) else before
  }

  lemma {:induction false} ThirdLeavesSome(outstanding: int, n: nat)
    requires outstanding > 0 && n >= 3
    ensures Repayment(outstanding, Installment(n)) < outstanding
  {
  }

  lemma {:induction false} HalvesShrink(outstanding: int)
    requires outstanding > 0
    ensures 0 <= outstanding - Repayment(outstanding, Installment(2)) < outstanding
    ensures outstanding - Repayment(outstanding, Installment(1)) == 0
    ensures outstanding - Repayment(outstanding, Lump) == outstanding - Repayment(outstanding, Installment(0)) == 0
  {
  }

  lemma {:induction false} AfterFirst(outstanding: int, plan: Plan, periods: nat)
    requires outstanding > 0
    ensures After(outstanding, plan, periods + 1) == After(outstanding - Repayment(outstanding, plan), plan, periods)
    decreases periods
  {
    if periods > 0 {
      AfterFirst(outstanding, plan, periods - 1);
    } else {
      assert After(outstanding, plan, 0) == outstanding;
    }
  }

  predicate ClearsInTime(plan: Plan) {
    plan.Lump? || plan.installments <= 2
  }

  lemma {:induction false} ShortPlanClears(outstanding: int, plan: Plan) returns (periods: nat)
    requires outstanding >= 0 && ClearsInTime(plan)
    ensures After(outstanding, plan, periods) == 0
    decreases outstanding
  {
    if outstanding == 0 {
      periods := 0;
    } else {
      HalvesShrink(outstanding);
      var rest := ShortPlanClears(outstanding - Repayment(outstanding, plan), plan);
      AfterFirst(outstanding, plan, rest);
      periods := rest + 1;
    }
  }

  lemma {:induction false} LongPlanNeverClears(outstanding: int, n: nat, periods: nat)
    requires outstanding > 0 && n >= 3
    ensures After(outstanding, Installment(n), periods) > 0
    decreases periods
  {
    if periods > 0 {
      LongPlanNeverClears(outstanding, n, periods - 1);
      ThirdLeavesSome(After(outstanding, Installment(n), periods - 1), n);
    }
  }

  /**
   The count is never decremented, so each period divides what is left by the full count again: a plan
   clears, in some number of periods, exactly when it is a lump or has at most two instalments.
   */
  lemma {:induction false} ClearsExactlyWhen(outstanding: int, plan: Plan)
    requires outstanding > 0
    ensures (exists periods :: After(outstanding, plan, periods) == 0) <==> ClearsInTime(plan)
  {
    if ClearsInTime(plan) {
      var periods := ShortPlanClears(outstanding, plan);
    } else {
      forall periods: nat ensures After(outstanding, plan, periods) != 0 {
        LongPlanNeverClears(outstanding, plan.installments, periods);
      }
    }
  }

  // --- a payroll approval -----------------------------------------------------------------------------

  /** Every due advance of the employee pays one period. */
  function PullFor(advances: seq<Advance>, employee: nat): (after: seq<Advance>)
    ensures |after| == |advances|
  {
    seq(|advances|, i requires 0 <= i < |advances| =>
      if Due(advances[i], employee) then Repay(advances[i]) else advances[i])
  }

  /** What has been pulled from each advance so far, when these are pulled too. */
  function PulledFor(advances: seq<Advance>, employee: nat, pulled: seq<int>): (more: seq<int>)
    requires |pulled| == |advances|
    ensures |more| == |advances|
  {
    seq(|advances|, i requires 0 <= i < |advances| =>
      pulled[i] + if Due(advances[i], employee) then Pull(advances[i]) else 0)
  }

  function PullTotal(advances: seq<Advance>, employee: nat): int {
    if advances == [] then 0
    else
      var last := advances[|advances| - 1];
      PullTotal(advances[..|advances| - 1], employee) + if Due(last, employee) then Pull(last) else 0
  }

  lemma {:induction false} PullTotalGrows(advances: seq<Advance>, employee: nat)
    ensures PullTotal(advances[..0], employee) == 0
    ensures forall i | 0 <= i < |advances| ::
              PullTotal(advances[..i + 1], employee)
              == PullTotal(advances[..i], employee) + if Due(advances[i], employee) then Pull(advances[i]) else 0
  {
    hide Due, Pull;
    assert forall i | 0 <= i < |advances| :: advances[..i + 1][..i] == advances[..i];
  }

  function Outstanding(advances: seq<Advance>): int {
    if advances == [] then 0
    else Outstanding(advances[..|advances| - 1]) + advances[|advances| - 1].outstanding
  }

  function SettledSlip(slip: Slip, advance: int): Slip {
    slip.(advance := advance, net := slip.gross - (slip.deductions + advance))
  }

  /** Slip by slip, each employee's due advances are pulled into the advance line. */
  function Settle(advances: seq<Advance>, slips: seq<Slip>): (seq<Advance>, seq<Slip>)
    decreases |slips|
  {
    if slips == [] then (advances, [])
    else
      var slip := SettledSlip(slips[0], PullTotal(advances, slips[0].employee));
      var rest := Settle(PullFor(advances, slips[0].employee), slips[1..]);
      (rest.0, [slip] + rest.1)
  }

  /** The pulls of a settlement, added to those before it. */
  function PulledBy(advances: seq<Advance>, slips: seq<Slip>, pulled: seq<int>): (more: seq<int>)
    requires |pulled| == |advances|
    ensures |more| == |advances|
    decreases |slips|
  {
    if slips == [] then pulled
    else
      var e := slips[0].employee;
      PulledBy(PullFor(advances, e), slips[1..], PulledFor(advances, e, pulled))
  }

  function AdvanceLines(slips: seq<Slip>): int {
    if slips == [] then 0 else slips[0].advance + AdvanceLines(slips[1..])
  }

  lemma {:induction false} PullTotalIsDrop(advances: seq<Advance>, employee: nat)
    ensures PullTotal(advances, employee) == Outstanding(advances) - Outstanding(PullFor(advances, employee))
    ensures PullTotal(advances, employee) >= 0
  {
    if advances != [] {
      var n := |advances| - 1;
      PullTotalIsDrop(advances[..n], employee);
      assert PullFor(advances, employee)[..n] == PullFor(advances[..n], employee);
      if Due(advances[n], employee) {
        PullBounds(advances[n]);
      }
    }
  }

  lemma {:induction false} PullTotalIsPulled(advances: seq<Advance>, employee: nat, pulled: seq<int>)
    requires |pulled| == |advances|
    ensures Sum(PulledFor(advances, employee, pulled)) == Sum(pulled) + PullTotal(advances, employee)
  {
    if advances != [] {
      var n := |advances| - 1;
      PullTotalIsPulled(advances[..n], employee, pulled[..n]);
      assert PulledFor(advances, employee, pulled)[..n] == PulledFor(advances[..n], employee, pulled[..n]);
      hide Pull, Due;
    }
  }

  predicate Undisbursed(a: Advance) {
    a.status in {Submitted, Approved, Rejected}
  }

  /** The state of an advance and what has been pulled from it so far. */
  ghost predicate Accounted(a: Advance, pulled: int) {
    if Undisbursed(a) then a.outstanding == 0 && pulled == 0
    else
      && a.amount == a.outstanding + pulled
      && (a.amount > 0 ==> a.outstanding >= 0 && (a.status == Cleared <==> a.outstanding == 0))
      && (a.amount <= 0 ==> a.status == Disbursed && pulled == 0)
  }

  ghost predicate AllAccounted(advances: seq<Advance>, pulled: seq<int>) {
    |pulled| == |advances| && forall i | 0 <= i < |advances| :: Accounted(advances[i], pulled[i])
  }

  /** Nothing of an advance changes over an approval but a falling balance and its status. */
  ghost predicate Repaid(before: seq<Advance>, after: seq<Advance>) {
    && |after| == |before|
    && (forall i | 0 <= i < |before| ::
          && after[i] == before[i].(outstanding := after[i].outstanding, status := after[i].status)
          && after[i].outstanding <= before[i].outstanding
          && (Undisbursed(before[i]) <==> Undisbursed(after[i])))
  }

  lemma {:induction false} RepayAccounted(a: Advance, pulled: int)
    requires Accounted(a, pulled) && a.outstanding > 0 && !Undisbursed(a)
    ensures Accounted(Repay(a), pulled + Pull(a)) && !Undisbursed(Repay(a))
    ensures Repay(a) == a.(outstanding := Repay(a).outstanding, status := Repay(a).status)
    ensures Repay(a).outstanding <= a.outstanding
  {
    PullBounds(a);
    hide Pull;
  }

  lemma {:induction false} PullForAccounted(advances: seq<Advance>, employee: nat, pulled: seq<int>)
    requires AllAccounted(advances, pulled)
    ensures Repaid(advances, PullFor(advances, employee))
    ensures AllAccounted(PullFor(advances, employee), PulledFor(advances, employee, pulled))
  {
    forall i | 0 <= i < |advances| && Due(advances[i], employee)
      ensures Accounted(Repay(advances[i]), pulled[i] + Pull(advances[i])) && !Undisbursed(Repay(advances[i]))
      ensures Repay(advances[i])
              == advances[i].(outstanding := Repay(advances[i]).outstanding, status := Repay(advances[i]).status)
      ensures Repay(advances[i]).outstanding <= advances[i].outstanding
    {
      RepayAccounted(advances[i], pulled[i]);
    }
    hide Pull, Repay, Accounted;
  }

  lemma {:induction false} RepaidTransitive(before: seq<Advance>, mid: seq<Advance>, after: seq<Advance>)
    requires Repaid(before, mid) && Repaid(mid, after)
    ensures Repaid(before, after)
  {
    forall i | 0 <= i < |before|
      ensures after[i] == before[i].(outstanding := after[i].outstanding, status := after[i].status)
      ensures after[i].outstanding <= before[i].outstanding && (Undisbursed(before[i]) <==> Undisbursed(after[i]))
    {
      assert mid[i] == before[i].(outstanding := mid[i].outstanding, status := mid[i].status);
      assert after[i] == mid[i].(outstanding := after[i].outstanding, status := after[i].status);
    }
  }

  /**
   One approval: with its pulls added, every advance stays accounted for; no balance rises; and the run's
   advance lines add up to exactly the drop in what is outstanding, which is what was pulled.
   */
  lemma {:induction false} SettleConserves(advances: seq<Advance>, slips: seq<Slip>, pulled: seq<int>)
    requires AllAccounted(advances, pulled)
    ensures var (after, settled) := Settle(advances, slips);
            && Repaid(advances, after)
            && AllAccounted(after, PulledBy(advances, slips, pulled))
            && AdvanceLines(settled) == Outstanding(advances) - Outstanding(after) >= 0
            && AdvanceLines(settled) == Sum(PulledBy(advances, slips, pulled)) - Sum(pulled)
    decreases |slips|
  {
    if slips != [] {
      var e := slips[0].employee;
      var slip := SettledSlip(slips[0], PullTotal(advances, e));
      var mid := PullFor(advances, e);
      PullTotalIsDrop(advances, e);
      PullTotalIsPulled(advances, e, pulled);
      PullForAccounted(advances, e, pulled);
      SettleConserves(mid, slips[1..], PulledFor(advances, e, pulled));
      var (after, settled) := Settle(mid, slips[1..]);
      RepaidTransitive(advances, mid, after);
      assert Settle(advances, slips) == (after, [slip] + settled);
      assert PulledBy(advances, slips, pulled) == PulledBy(mid, slips[1..], PulledFor(advances, e, pulled));
      hide PullFor, PullTotal, PulledFor, PulledBy, Accounted, Repaid, Outstanding, Settle, Sum;
      assert ([slip] + settled)[1..] == settled;
    }
  }

  /** Each slip keeps its employee and gets a non-negative advance line, which is what its net falls by. */
  lemma {:induction false} SettledSlips(advances: seq<Advance>, slips: seq<Slip>)
    ensures |Settle(advances, slips).1| == |slips|
    ensures forall i | 0 <= i < |slips| ::
              var settled := Settle(advances, slips).1[i];
              && settled == slips[i].(advance := settled.advance, net := settled.net)
              && settled.advance >= 0 && settled.net == slips[i].gross - slips[i].deductions - settled.advance
    decreases |slips|
  {
    if slips != [] {
      PullTotalIsDrop(advances, slips[0].employee);
      SettledSlips(PullFor(advances, slips[0].employee), slips[1..]);
      hide PullFor, PullTotal;
    }
  }

  // --- who pays, and how often ----------------------------------------------------------------------------

  /** A running advance with something left to pay. */
  predicate Running(a: Advance) {
    (a.status == Disbursed || a.status == Repaying) && a.outstanding > 0
  }

  /** The advance after so many periods have been paid from it. */
  function PaidPeriods(a: Advance, periods: nat): Advance {
    if periods == 0 || !Running(a) then a
    else
      var left := After(a.outstanding, a.plan, periods);
      a.(outstanding := left, status := if left == 0 then Cleared else Repaying)
  }

  /** How many payslips the employee has in a run. */
  function SlipCount(slips: seq<Slip>, employee: nat): nat {
    if slips == [] then 0 else (if slips[0].employee == employee then 1 else 0) + SlipCount(slips[1..], employee)
  }

  /** The advance lines of one employee's payslips. */
  function LinesFor(slips: seq<Slip>, employee: nat): int {
    if slips == [] then 0
    else (if slips[0].employee == employee then slips[0].advance else 0) + LinesFor(slips[1..], employee)
  }

  /** What one employee owes. */
  function Owed(advances: seq<Advance>, employee: nat): int {
    if advances == [] then 0
    else
      var last := advances[|advances| - 1];
      Owed(advances[..|advances| - 1], employee) + if last.employee == employee then last.outstanding else 0
  }

  /**
   What an approval does, employee by employee: every running advance pays one period for each payslip of
   its own employee, every other advance stays as it is, and each employee's advance lines are what that
   employee's debt falls by.
   */
  ghost predicate SettledRight(before: seq<Advance>, slips: seq<Slip>, after: seq<Advance>, settled: seq<Slip>) {
    && |after| == |before| && |settled| == |slips|
    && (forall i | 0 <= i < |before| :: after[i] == PaidPeriods(before[i], SlipCount(slips, before[i].employee)))
    && (forall j | 0 <= j < |slips| :: settled[j] == SettledSlip(slips[j], settled[j].advance))
    && (forall e :: LinesFor(settled, e) == Owed(before, e) - Owed(after, e))
  }

  /** The advances of the slip's employee pay one period; everybody else's stay. */
  lemma {:induction false} PullForMeans(advances: seq<Advance>, employee: nat, i: nat)
    requires i < |advances|
    ensures PullFor(advances, employee)[i]
            == if advances[i].employee == employee then PaidPeriods(advances[i], 1) else advances[i]
  {
    var a := advances[i];
    if Running(a) {
      assert After(a.outstanding, a.plan, 0) == a.outstanding;
      PullBounds(a);
    }
  }

  lemma {:induction false} PullForMeansAll(advances: seq<Advance>, employee: nat)
    ensures forall i | 0 <= i < |advances| ::
              PullFor(advances, employee)[i]
              == if advances[i].employee == employee then PaidPeriods(advances[i], 1) else advances[i]
  {
    hide PullFor, PaidPeriods;
    forall i | 0 <= i < |advances|
      ensures PullFor(advances, employee)[i]
              == if advances[i].employee == employee then PaidPeriods(advances[i], 1) else advances[i]
    {
      PullForMeans(advances, employee, i);
    }
  }

  lemma {:induction false} OwedAfterPull(advances: seq<Advance>, employee: nat, e: nat)
    ensures Owed(PullFor(advances, employee), e)
            == Owed(advances, e) - if e == employee then PullTotal(advances, employee) else 0
  {
    if advances != [] {
      var n := |advances| - 1;
      OwedAfterPull(advances[..n], employee, e);
      assert PullFor(advances, employee)[..n] == PullFor(advances[..n], employee);
      if Due(advances[n], employee) {
        PullBounds(advances[n]);
      }
    }
  }

  lemma {:induction false} MorePeriods(a: Advance, periods: nat)
    ensures PaidPeriods(PaidPeriods(a, 1), periods) == PaidPeriods(a, periods + 1)
  {
    if Running(a) {
      var next := a.outstanding - Repayment(a.outstanding, a.plan);
      PullBounds(a);
      AfterFirst(a.outstanding, a.plan, 0);
      AfterFirst(a.outstanding, a.plan, periods);
      assert After(next, a.plan, 0) == next;
      if next == 0 {
        AfterNothing(a.plan, periods);
      }
    }
  }

  lemma {:induction false} AfterNothing(plan: Plan, periods: nat)
    ensures After(0, plan, periods) == 0
    decreases periods
  {
    if periods > 0 {
      AfterNothing(plan, periods - 1);
    }
  }

  lemma {:induction false} SettleIsRight(advances: seq<Advance>, slips: seq<Slip>)
    ensures SettledRight(advances, slips, Settle(advances, slips).0, Settle(advances, slips).1)
    decreases |slips|
  {
    if slips != [] {
      var e := slips[0].employee;
      var mid, total := PullFor(advances, e), PullTotal(advances, e);
      var (after, settled) := Settle(mid, slips[1..]);
      SettleIsRight(mid, slips[1..]);
      hide Settle;
      SettleOneMore(advances, slips, mid, after, settled);
      assert SettledRight(advances, slips, after, [SettledSlip(slips[0], total)] + settled);
    }
  }

  lemma {:induction false} SettleOneMore(advances: seq<Advance>, slips: seq<Slip>, mid: seq<Advance>,
      after: seq<Advance>, settled: seq<Slip>)
    requires slips != [] && mid == PullFor(advances, slips[0].employee)
    requires SettledRight(mid, slips[1..], after, settled)
    ensures SettledRight(advances, slips, after,
                         [SettledSlip(slips[0], PullTotal(advances, slips[0].employee))] + settled)
  {
    var e := slips[0].employee;
    var first := SettledSlip(slips[0], PullTotal(advances, e));
    assert ([first] + settled)[1..] == settled;
    hide PullTotal;
    forall i | 0 <= i < |advances|
      ensures after[i] == PaidPeriods(advances[i], SlipCount(slips, advances[i].employee))
    {
      hide PullFor, PaidPeriods;
      PullForMeans(advances, e, i);
      PaidKeepsEmployee(advances[i], 1);
      MorePeriods(advances[i], SlipCount(slips[1..], advances[i].employee));
    }
    forall x ensures LinesFor([first] + settled, x) == Owed(advances, x) - Owed(after, x) {
      hide Owed, PullFor;
      OwedAfterPull(advances, e, x);
    }
    hide PullFor, PaidPeriods, Owed, LinesFor, SlipCount;
  }

  lemma {:induction false} PaidKeepsEmployee(a: Advance, periods: nat)
    ensures PaidPeriods(a, periods).employee == a.employee
  {
  }

  /** One payslip per employee and run, the table's unique key. */
  ghost predicate OneSlipEach(slips: seq<Slip>) {
    forall i, j | 0 <= i < j < |slips| :: slips[i].employee != slips[j].employee
  }

  lemma {:induction false} OneSlip(slips: seq<Slip>, j: nat)
    requires OneSlipEach(slips) && j < |slips|
    ensures SlipCount(slips, slips[j].employee) == 1 && LinesFor(slips, slips[j].employee) == slips[j].advance
    decreases |slips|
  {
    if j == 0 {
      NoSlip(slips[1..], slips[0].employee);
    } else {
      assert slips[1..][j - 1] == slips[j];
      OneSlip(slips[1..], j - 1);
    }
  }

  lemma {:induction false} NoSlip(slips: seq<Slip>, employee: nat)
    requires forall s | s in slips :: s.employee != employee
    ensures SlipCount(slips, employee) == 0 && LinesFor(slips, employee) == 0
    decreases |slips|
  {
    if slips != [] {
      NoSlip(slips[1..], employee);
    }
  }

  /**
   With one payslip per employee: a payslip's advance line is what its own employee's debt falls by, each
   running advance of that employee pays exactly one period, and an advance whose employee has no payslip
   stays as it is.
   */
  lemma {:induction false} EachPaysOwn(advances: seq<Advance>, slips: seq<Slip>, i: nat)
    requires OneSlipEach(slips) && i < |advances|
    ensures var (after, settled) := Settle(advances, slips);
            && |after| == |advances| && |settled| == |slips|
            && (forall j | 0 <= j < |slips| ::
                  settled[j].advance == Owed(advances, slips[j].employee) - Owed(after, slips[j].employee))
            && after[i] == if exists s | s in slips :: s.employee == advances[i].employee
                           then PaidPeriods(advances[i], 1) else advances[i]
  {
    var (after, settled) := Settle(advances, slips);
    SettleIsRight(advances, slips);
    hide Settle, Owed, PaidPeriods;
    forall j | 0 <= j < |slips|
      ensures settled[j].advance == Owed(advances, slips[j].employee) - Owed(after, slips[j].employee)
    {
      OneSlip(settled, j);
    }
    if s :| s in slips && s.employee == advances[i].employee {
      var j :| 0 <= j < |slips| && slips[j] == s;
      OneSlip(slips, j);
    } else {
      NoSlip(slips, advances[i].employee);
      NoPeriods(advances[i]);
    }
  }

  lemma {:induction false} NoPeriods(a: Advance)
    ensures PaidPeriods(a, 0) == a
  {
  }

  // --- whole runs: requests, disbursements, calculations and approvals ----------------------------------

  datatype PayRun = PayRun(status: RunStatus, slips: seq<Slip>)

  /**
   The tables, the runs a calculation was ever queued for - a job may be delivered late and more than once -,
   what payroll has pulled from each advance over its whole life, and the advance lines of approved runs that
   a calculation put back to CALCULATED.
   */
  datatype Desk = Desk(advances: seq<Advance>, runs: seq<PayRun>, queued: set<nat>, pulled: seq<int>, reopened: int)

  const NEW_DESK := Desk([], [], {}, [], 0)

  datatype Op =
    | Create(employee: nat, amount: int, plan: Plan, ceiling: int)
    | Decide(id: nat, approve: bool, superAdmin: bool)
    | Disburse(id: nat)
    | OpenRun
    | Calculate(run: nat)
    | ComputeRun(run: nat, newer: seq<Slip>)
    | ApproveRun(run: nat)

  /** Newly computed payslips replace those of the same employees; the others stay. */
  function Upsert(slips: seq<Slip>, newer: seq<Slip>): seq<Slip> {
    if slips == [] then newer
    else
      (if exists f | f in newer :: f.employee == slips[0].employee then [] else [slips[0]]) + Upsert(slips[1..], newer)
  }

  /** The newer payslips are all there, and of the old ones those of other employees. */
  lemma {:induction false} UpsertMeans(slips: seq<Slip>, newer: seq<Slip>, s: Slip)
    ensures s in Upsert(slips, newer) <==>
              s in newer || (s in slips && forall f | f in newer :: f.employee != s.employee)
    decreases |slips|
  {
    if slips != [] {
      UpsertMeans(slips[1..], newer, s);
      assert slips == [slips[0]] + slips[1..];
    }
  }

  lemma {:induction false} UpsertKeepsOneSlipEach(slips: seq<Slip>, newer: seq<Slip>)
    requires OneSlipEach(slips) && OneSlipEach(newer)
    ensures OneSlipEach(Upsert(slips, newer))
    decreases |slips|
  {
    if slips != [] {
      var rest := Upsert(slips[1..], newer);
      UpsertKeepsOneSlipEach(slips[1..], newer);
      if !(exists f | f in newer :: f.employee == slips[0].employee) {
        forall i | 0 <= i < |rest| ensures rest[i].employee != slips[0].employee {
          UpsertMeans(slips[1..], newer, rest[i]);
        }
        var longer := [slips[0]] + rest;
        assert longer[1..] == rest;
        forall i, j | 0 <= i < j < |longer| ensures longer[i].employee != longer[j].employee {
          assert longer[j] == rest[j - 1];
        }
      }
    }
  }

  /** A computed payslip starts without an advance line. */
  function Computed(slip: Slip): Slip {
    SettledSlip(slip, 0)
  }

  function ComputedAll(newer: seq<Slip>): seq<Slip> {
    seq(|newer|, i requires 0 <= i < |newer| => Computed(newer[i]))
  }

  /** A calculation stores its payslips and sets the status, whatever the status was. */
  function Recomputed(run: PayRun, newer: seq<Slip>): PayRun {
    PayRun(Calculated, Upsert(run.slips, ComputedAll(newer)))
  }

  lemma {:induction false} RecomputedMeans(run: PayRun, newer: seq<Slip>)
    ensures forall s :: s in Recomputed(run, newer).slips <==>
              || (exists n | n in newer :: s == n.(advance := 0, net := n.gross - n.deductions))
              || (s in run.slips && forall n | n in newer :: n.employee != s.employee)
  {
    var all := ComputedAll(newer);
    forall i | 0 <= i < |newer| ensures all[i] in all && newer[i] in newer {
    }
    forall s
      ensures s in Upsert(run.slips, all) <==>
                s in all || (s in run.slips && forall f | f in all :: f.employee != s.employee)
    {
      UpsertMeans(run.slips, all, s);
    }
    hide Upsert;
    assert forall n | n in newer :: Computed(n) in all;
  }

  /** The advance lines of an approved run; in any other they are not yet, or no longer, settled. */
  function LinesOf(run: PayRun): int {
    if run.status == RunApproved then AdvanceLines(run.slips) else 0
  }

  /** The status the transition sets, or none when it conflicts. */
  function Decision(a: Advance, approve: bool, superAdmin: bool): Option<Advance> {
    if a.status != Submitted || (approve && !superAdmin) then None
    else Some(a.(status := if approve then Approved else Rejected))
  }

  function Step(d: Desk, op: Op): Desk
    requires |d.pulled| == |d.advances|
  {
    match op
    case Create(employee, amount, plan, ceiling) =>
      if amount > ceiling then d
      else d.(advances := d.advances + [Advance(employee, amount, plan, 0, Submitted)], pulled := d.pulled + [0])
    case Decide(id, approve, superAdmin) =>
      if id < |d.advances| && Decision(d.advances[id], approve, superAdmin).Some?
      then d.(advances := d.advances[id := Decision(d.advances[id], approve, superAdmin).value]) else d
    case Disburse(id) =>
      if id < |d.advances| && d.advances[id].status == Approved
      then d.(advances := d.advances[id := d.advances[id].(status := Disbursed, outstanding := d.advances[id].amount)])
      else d
    case OpenRun => d.(runs := d.runs + [PayRun(Draft, [])])
    case Calculate(run) =>
      if run < |d.runs| && d.runs[run].status != RunApproved then d.(queued := d.queued + {run}) else d
    case ComputeRun(run, newer) =>
      if run < |d.runs| && run in d.queued
      then d.(runs := d.runs[run := Recomputed(d.runs[run], newer)],
              reopened := d.reopened + LinesOf(d.runs[run]))
      else d
    case ApproveRun(run) =>
      if run < |d.runs| && d.runs[run].status == Calculated then
        var (after, settled) := Settle(d.advances, d.runs[run].slips);
        SettleKeepsLength(d.advances, d.runs[run].slips);
        d.(advances := after, runs := d.runs[run := PayRun(RunApproved, settled)],
           pulled := PulledBy(d.advances, d.runs[run].slips, d.pulled))
      else d
  }

  lemma {:induction false} SettleKeepsLength(advances: seq<Advance>, slips: seq<Slip>)
    ensures |Settle(advances, slips).0| == |advances|
    decreases |slips|
  {
    if slips != [] {
      SettleKeepsLength(PullFor(advances, slips[0].employee), slips[1..]);
    }
  }

  /** The advance lines of all approved runs. */
  function ApprovedLines(runs: seq<PayRun>): int {
    if runs == [] then 0 else ApprovedLines(runs[..|runs| - 1]) + LinesOf(runs[|runs| - 1])
  }

  function DisbursedTotal(advances: seq<Advance>): int {
    if advances == [] then 0
    else
      var last := advances[|advances| - 1];
      DisbursedTotal(advances[..|advances| - 1]) + if Undisbursed(last) then 0 else last.amount
  }

  ghost predicate Balanced(d: Desk) {
    && AllAccounted(d.advances, d.pulled)
    && Sum(d.pulled) == ApprovedLines(d.runs) + d.reopened
    && d.reopened >= 0 && forall i | 0 <= i < |d.runs| :: LinesOf(d.runs[i]) >= 0
  }

  lemma {:induction false} ApprovedLinesUpdate(runs: seq<PayRun>, i: nat, run: PayRun)
    requires i < |runs|
    ensures ApprovedLines(runs[i := run]) == ApprovedLines(runs) - LinesOf(runs[i]) + LinesOf(run)
  {
    hide LinesOf;
    var n := |runs| - 1;
    if i == n {
      assert runs[i := run][..n] == runs[..n];
    } else {
      ApprovedLinesUpdate(runs[..n], i, run);
      assert runs[i := run][..n] == runs[..n][i := run];
    }
  }

  lemma {:induction false} StepKeepsBalance(d: Desk, op: Op)
    requires Balanced(d)
    ensures Balanced(Step(d, op))
  {
    hide Balanced, Step;
    match op
    case ComputeRun(run, newer) => ComputeKeepsBalance(d, run, newer);
    case ApproveRun(run) => ApproveKeepsBalance(d, run);
    case OpenRun => RunsKeepBalance(d, op);
    case Calculate(_) => RunsKeepBalance(d, op);
    case _ => AdvancesKeepBalance(d, op);
  }

  lemma {:induction false} RunsKeepBalance(d: Desk, op: Op)
    requires Balanced(d) && (op.OpenRun? || op.Calculate?)
    ensures Balanced(Step(d, op))
  {
    hide AllAccounted, Sum, AdvanceLines;
    assert (d.runs + [PayRun(Draft, [])])[..|d.runs|] == d.runs;
  }

  lemma {:induction false} AdvancesKeepBalance(d: Desk, op: Op)
    requires Balanced(d) && (op.Create? || op.Decide? || op.Disburse?)
    ensures Balanced(Step(d, op))
  {
    hide ApprovedLines, LinesOf;
    assert (d.pulled + [0])[..|d.pulled|] == d.pulled;
  }

  lemma {:induction false} ComputeKeepsBalance(d: Desk, run: nat, newer: seq<Slip>)
    requires Balanced(d)
    ensures Balanced(Step(d, Op.ComputeRun(run, newer)))
  {
    hide AllAccounted, AdvanceLines, Upsert, ComputedAll, Sum;
    if run < |d.runs| && run in d.queued {
      ApprovedLinesUpdate(d.runs, run, Recomputed(d.runs[run], newer));
    }
  }

  lemma {:induction false} ApproveKeepsBalance(d: Desk, run: nat)
    requires Balanced(d)
    ensures Balanced(Step(d, Op.ApproveRun(run)))
  {
    hide Settle, PulledBy, AdvanceLines, Accounted, Repaid, Outstanding, Sum;
    if run < |d.runs| && d.runs[run].status == Calculated {
      SettleConserves(d.advances, d.runs[run].slips, d.pulled);
      ApprovedLinesUpdate(d.runs, run, Step(d, Op.ApproveRun(run)).runs[run]);
    }
  }

  /** The desk after the operations, whichever of them succeed. */
  ghost function Run(d: Desk, ops: seq<Op>): Desk
    requires Balanced(d)
    ensures Balanced(Run(d, ops))
    decreases |ops|
  {
    if ops == [] then d
    else
      var before := Run(d, ops[..|ops| - 1]);
      StepKeepsBalance(before, ops[|ops| - 1]);
      Step(before, ops[|ops| - 1])
  }

  lemma {:induction false} AccountedTotals(advances: seq<Advance>, pulled: seq<int>)
    requires AllAccounted(advances, pulled)
    ensures DisbursedTotal(advances) == Outstanding(advances) + Sum(pulled)
  {
    if advances != [] {
      var n := |advances| - 1;
      assert forall i | 0 <= i < n :: Accounted(advances[..n][i], pulled[..n][i]);
      AccountedTotals(advances[..n], pulled[..n]);
      assert Accounted(advances[n], pulled[n]);
    }
  }

  /**
   Over every sequence of requests, decisions, disbursements, calculations and approvals: what was ever
   disbursed is what is outstanding plus the advance lines of the approved runs and of the reopened ones.
   */
  lemma {:induction false} DisbursedIsOutstandingPlusLines(d: Desk, ops: seq<Op>)
    requires Balanced(d)
    ensures var end := Run(d, ops);
            DisbursedTotal(end.advances) == Outstanding(end.advances) + ApprovedLines(end.runs) + end.reopened
  {
    var end := Run(d, ops);
    AccountedTotals(end.advances, end.pulled);
  }

  /** A calculation is delivered for a run that is already approved. */
  predicate Late(d: Desk, op: Op, run: nat) {
    op.ComputeRun? && op.run == run && run in d.queued && run < |d.runs| && d.runs[run].status == RunApproved
  }

  /** A late calculation of a run that has advance lines. */
  ghost predicate Reopens(d: Desk, op: Op) {
    op.ComputeRun? && Late(d, op, op.run) && LinesOf(d.runs[op.run]) > 0
  }

  ghost predicate ReopensAt(d: Desk, ops: seq<Op>, k: nat)
    requires Balanced(d) && k < |ops|
  {
    Reopens(Run(d, ops[..k]), ops[k])
  }

  lemma {:induction false} StepReopens(d: Desk, op: Op)
    requires Balanced(d)
    ensures Step(d, op).reopened >= d.reopened
    ensures Step(d, op).reopened == d.reopened <==> !Reopens(d, op)
  {
    hide Settle, PulledBy, AdvanceLines, Upsert, ComputedAll, AllAccounted;
  }

  lemma {:induction false} NothingDone(d: Desk, ops: seq<Op>)
    requires Balanced(d)
    ensures Run(d, ops[..0]) == d
  {
  }

  lemma {:induction false} RunOneMore(d: Desk, ops: seq<Op>, k: nat)
    requires Balanced(d) && k < |ops|
    ensures Run(d, ops[..k + 1]) == Step(Run(d, ops[..k]), ops[k])
  {
    assert ops[..k + 1][..k] == ops[..k];
  }

  lemma {:induction false} ReopenedExactlyWhen(d: Desk, ops: seq<Op>, n: nat)
    requires Balanced(d) && d.reopened == 0 && n <= |ops|
    ensures Run(d, ops[..n]).reopened >= 0
    ensures Run(d, ops[..n]).reopened == 0 <==> forall k | 0 <= k < n :: !ReopensAt(d, ops, k)
    decreases n
  {
    hide *;
    if n == 0 {
      NothingDone(d, ops);
    } else {
      ReopenedExactlyWhen(d, ops, n - 1);
      RunOneMore(d, ops, n - 1);
      StepReopens(Run(d, ops[..n - 1]), ops[n - 1]);
      ReopensAtMeans(d, ops, n - 1);
    }
  }

  lemma {:induction false} ReopensAtMeans(d: Desk, ops: seq<Op>, k: nat)
    requires Balanced(d) && k < |ops|
    ensures ReopensAt(d, ops, k) <==> Reopens(Run(d, ops[..k]), ops[k])
  {
  }

  /**
   So what was disbursed is what is outstanding plus the advance lines of the approved runs if and only if
   no calculation was delivered for a run that was approved with advance lines.
   */
  lemma {:induction false} BalancesExactlyWhen(d: Desk, ops: seq<Op>)
    requires Balanced(d) && d.reopened == 0
    ensures var end := Run(d, ops);
            (DisbursedTotal(end.advances) == Outstanding(end.advances) + ApprovedLines(end.runs)
             <==> forall k | 0 <= k < |ops| :: !ReopensAt(d, ops, k))
  {
    DisbursedIsOutstandingPlusLines(d, ops);
    assert ops[..|ops|] == ops;
    ReopenedExactlyWhen(d, ops, |ops|);
  }

  /** A step changes an approved run exactly when it is a late calculation of it; a disbursed balance never rises. */
  lemma {:induction false} StepFreezes(d: Desk, op: Op)
    requires Balanced(d)
    ensures var after := Step(d, op);
            && |after.runs| >= |d.runs| && |after.advances| >= |d.advances|
            && (forall i | 0 <= i < |d.runs| && d.runs[i].status == RunApproved ::
                  after.runs[i] == d.runs[i] <==> !Late(d, op, i))
            && (forall i | 0 <= i < |d.advances| && !Undisbursed(d.advances[i]) ::
                  !Undisbursed(after.advances[i]) && after.advances[i].outstanding <= d.advances[i].outstanding)
  {
    if op.ApproveRun? && op.run < |d.runs| {
      SettleConserves(d.advances, d.runs[op.run].slips, d.pulled);
    }
    hide Settle, PulledBy, AdvanceLines, Upsert, ComputedAll, AllAccounted;
  }

  /** The tables only grow, and no disbursed balance ever rises again. */
  lemma {:induction false} BalancesOnlyFall(d: Desk, ops: seq<Op>)
    requires Balanced(d)
    ensures var end := Run(d, ops);
            && |end.runs| >= |d.runs| && |end.advances| >= |d.advances|
            && (forall i | 0 <= i < |d.advances| && !Undisbursed(d.advances[i]) ::
                  !Undisbursed(end.advances[i]) && end.advances[i].outstanding <= d.advances[i].outstanding)
    decreases |ops|
  {
    if ops != [] {
      BalancesOnlyFall(d, ops[..|ops| - 1]);
      StepFreezes(Run(d, ops[..|ops| - 1]), ops[|ops| - 1]);
      hide Step, Balanced, Late;
    }
  }

  ghost predicate LateAt(d: Desk, ops: seq<Op>, run: nat, k: nat)
    requires Balanced(d) && k < |ops|
  {
    Late(Run(d, ops[..k]), ops[k], run)
  }

  /** After the first `k` operations the run is what it was. */
  ghost predicate SameAt(d: Desk, ops: seq<Op>, run: nat, k: nat)
    requires Balanced(d) && run < |d.runs| && k <= |ops|
  {
    run < |Run(d, ops[..k]).runs| && Run(d, ops[..k]).runs[run] == d.runs[run]
  }

  lemma {:induction false} SameAtStart(d: Desk, ops: seq<Op>, run: nat)
    requires Balanced(d) && run < |d.runs|
    ensures SameAt(d, ops, run, 0)
  {
  }

  lemma {:induction false} SameOneMore(d: Desk, ops: seq<Op>, run: nat, k: nat)
    requires Balanced(d) && run < |d.runs| && d.runs[run].status == RunApproved && k < |ops|
    requires SameAt(d, ops, run, k)
    ensures SameAt(d, ops, run, k + 1) <==> !LateAt(d, ops, run, k)
  {
    RunOneMore(d, ops, k);
    StepFreezes(Run(d, ops[..k]), ops[k]);
    hide Run, Step, Balanced, Late;
  }

  lemma {:induction false} FrozenUpTo(d: Desk, ops: seq<Op>, run: nat, n: nat)
    requires Balanced(d) && run < |d.runs| && d.runs[run].status == RunApproved && n <= |ops|
    ensures (forall k | 0 <= k <= n :: SameAt(d, ops, run, k)) <==> (forall k | 0 <= k < n :: !LateAt(d, ops, run, k))
    decreases n
  {
    hide *;
    if n == 0 {
      SameAtStart(d, ops, run);
    } else {
      FrozenUpTo(d, ops, run, n - 1);
      if SameAt(d, ops, run, n - 1) {
        SameOneMore(d, ops, run, n - 1);
      }
    }
  }

  /**
   An approved run stays what it is, advance lines included, throughout a sequence of operations if and only
   if no calculation of it is delivered in that sequence; and no disbursed balance ever rises.
   */
  lemma {:induction false} RunFreezes(d: Desk, ops: seq<Op>, run: nat)
    requires Balanced(d) && run < |d.runs| && d.runs[run].status == RunApproved
    ensures (forall k | 0 <= k <= |ops| :: SameAt(d, ops, run, k))
       <==> (forall k | 0 <= k < |ops| :: !LateAt(d, ops, run, k))
    ensures var end := Run(d, ops);
            && |end.advances| >= |d.advances|
            && forall i | 0 <= i < |d.advances| && !Undisbursed(d.advances[i]) ::
                 !Undisbursed(end.advances[i]) && end.advances[i].outstanding <= d.advances[i].outstanding
  {
    FrozenUpTo(d, ops, run, |ops|);
    BalancesOnlyFall(d, ops);
  }

  /** An advance that is repaid in a lump, paid by the one slip of the one approved run. */
  lemma {:induction false} LumpIsPulled(a: Advance, slip: Slip)
    requires a.status == Disbursed && a.plan == Lump && a.outstanding > 0 && slip.employee == a.employee
    ensures Settle([a], [slip]) == ([a.(outstanding := 0, status := Cleared)], [SettledSlip(slip, a.outstanding)])
    ensures PulledBy([a], [slip], [0]) == [a.outstanding]
  {
    assert PullFor([a], a.employee) == [Repay(a)] && PulledFor([a], a.employee, [0]) == [a.outstanding];
    assert [a][..0] == [] && [slip][1..] == [];
    assert PullTotal([a], a.employee) == a.outstanding;
    hide Pull, PullFor, PullTotal, PulledFor;
    var settled := SettledSlip(slip, a.outstanding);
    assert Settle([Repay(a)], []) == ([Repay(a)], []);
    assert [settled] + [] == [settled];
  }

  ghost function TwoSteps(d: Desk, a: Op, b: Op): Desk
    requires Balanced(d)
  {
    StepKeepsBalance(d, a);
    Step(Step(d, a), b)
  }

  lemma {:induction false} RunTwoMore(d: Desk, ops: seq<Op>, k: nat)
    requires Balanced(d) && k + 2 <= |ops|
    ensures Run(d, ops[..k + 2]) == TwoSteps(Run(d, ops[..k]), ops[k], ops[k + 1])
  {
    hide Run, Step, Balanced;
    RunOneMore(d, ops, k);
    RunOneMore(d, ops, k + 1);
  }

  function Approval(employee: nat, amount: int): Desk {
    Desk([Advance(employee, amount, Lump, 0, Approved)], [], {}, [0], 0)
  }

  function Disbursal(employee: nat, amount: int): Desk {
    Desk([Advance(employee, amount, Lump, amount, Disbursed)], [PayRun(Draft, [])], {}, [0], 0)
  }

  function Calculation(employee: nat, amount: int, slip: Slip): Desk {
    Disbursal(employee, amount).(runs := [PayRun(Calculated, [Computed(slip)])], queued := {0})
  }

  function Reopening(employee: nat, amount: int, slip: Slip): Desk {
    Desk([Advance(employee, amount, Lump, 0, Cleared)], [PayRun(Calculated, [Computed(slip)])], {0}, [amount], amount)
  }

  lemma {:induction false} Approves(employee: nat, amount: int)
    requires Balanced(NEW_DESK)
    ensures TwoSteps(NEW_DESK, Op.Create(employee, amount, Lump, amount), Op.Decide(0, true, true))
            == Approval(employee, amount)
  {
    hide Balanced;
  }

  lemma {:induction false} Disburses(employee: nat, amount: int)
    requires Balanced(Approval(employee, amount))
    ensures TwoSteps(Approval(employee, amount), Op.Disburse(0), OpenRun) == Disbursal(employee, amount)
  {
    hide Balanced;
  }

  lemma {:induction false} Calculates(employee: nat, amount: int, slip: Slip)
    requires Balanced(Disbursal(employee, amount))
    ensures TwoSteps(Disbursal(employee, amount), Op.Calculate(0), Op.ComputeRun(0, [slip]))
            == Calculation(employee, amount, slip)
  {
    assert Recomputed(PayRun(Draft, []), [slip]) == PayRun(Calculated, [Computed(slip)]);
    hide Balanced;
  }

  /** The approval settles the advance, and the calculation's second delivery reopens the run. */
  lemma {:induction false} Reopened(employee: nat, amount: int, slip: Slip)
    requires Balanced(Calculation(employee, amount, slip)) && amount > 0 && slip.employee == employee
    ensures TwoSteps(Calculation(employee, amount, slip), Op.ApproveRun(0), Op.ComputeRun(0, [slip]))
            == Reopening(employee, amount, slip)
  {
    var d, settled := Calculation(employee, amount, slip), SettledSlip(Computed(slip), amount);
    LumpIsPulled(d.advances[0], Computed(slip));
    var run := PayRun(RunApproved, [settled]);
    assert LinesOf(run) == amount by {
      assert [settled][1..] == [];
      assert AdvanceLines([settled]) == settled.advance + AdvanceLines([]);
    }
    assert Upsert([settled], ComputedAll([slip])) == [Computed(slip)] by {
      assert [settled][1..] == [] && ComputedAll([slip]) == [Computed(slip)];
    }
    hide Balanced, Settle, PulledBy, LinesOf, Upsert, ComputedAll;
    assert Step(d, Op.ApproveRun(0)) == Desk([Advance(employee, amount, Lump, 0, Cleared)], [run], {0}, [amount], 0);
  }

  function LateCalculation(employee: nat, amount: int, slip: Slip): (ops: seq<Op>)
    ensures |ops| == 8
  {
    [Op.Create(employee, amount, Lump, amount), Op.Decide(0, true, true), Op.Disburse(0), OpenRun,
     Op.Calculate(0), Op.ComputeRun(0, [slip]), Op.ApproveRun(0), Op.ComputeRun(0, [slip])]
  }

  /**
   The calculation is delivered a second time when its run is already approved: the advance is repaid in
   full, and no approved run has a line that says so.
   */
  lemma {:induction false} LateCalculationLosesLine(employee: nat, amount: int, slip: Slip)
    requires amount > 0 && slip.employee == employee
    ensures Balanced(NEW_DESK)
    ensures var end := Run(NEW_DESK, LateCalculation(employee, amount, slip));
            DisbursedTotal(end.advances) == amount && Outstanding(end.advances) == 0 && ApprovedLines(end.runs) == 0
  {
    NewDeskIsBalanced();
    LateCalculationRuns(employee, amount, slip);
    var end := Reopening(employee, amount, slip);
    hide Run, LateCalculation;
    assert end.advances[..0] == [] && end.runs[..0] == [];
  }

  lemma {:induction false} NewDeskIsBalanced()
    ensures Balanced(NEW_DESK)
  {
  }

  lemma {:induction false} LateCalculationRuns(employee: nat, amount: int, slip: Slip)
    requires amount > 0 && slip.employee == employee && Balanced(NEW_DESK)
    ensures Run(NEW_DESK, LateCalculation(employee, amount, slip)) == Reopening(employee, amount, slip)
  {
    hide Run, Balanced, TwoSteps, Approval, Disbursal, Calculation, Reopening;
    var ops := LateCalculation(employee, amount, slip);
    NothingDone(NEW_DESK, ops);
    RunTwoMore(NEW_DESK, ops, 0);
    RunTwoMore(NEW_DESK, ops, 2);
    RunTwoMore(NEW_DESK, ops, 4);
    RunTwoMore(NEW_DESK, ops, 6);
    assert ops[..8] == ops;
    Approves(employee, amount);
    Disburses(employee, amount);
    Calculates(employee, amount, slip);
    Reopened(employee, amount, slip);
  }

  /** Every run keeps one payslip per employee, when each calculation computes one per employee. */
  lemma {:induction false} RunKeepsOneSlipEach(d: Desk, ops: seq<Op>, run: nat)
    requires Balanced(d) && forall r | r in d.runs :: OneSlipEach(r.slips)
    requires forall op | op in ops && op.ComputeRun? :: OneSlipEach(op.newer)
    requires run < |Run(d, ops).runs|
    ensures OneSlipEach(Run(d, ops).runs[run].slips)
    decreases |ops|
  {
    if ops != [] {
      var n := |ops| - 1;
      var before := Run(d, ops[..n]);
      assert ops[n] in ops;
      forall i | 0 <= i < |before.runs| ensures OneSlipEach(before.runs[i].slips) {
        RunKeepsOneSlipEach(d, ops[..n], i);
      }
      hide Run, Balanced, OneSlipEach;
      StepKeepsOneSlipEach(before, ops[n], run);
    }
  }

  lemma {:induction false} StepKeepsOneSlipEach(d: Desk, op: Op, run: nat)
    requires Balanced(d) && forall i | 0 <= i < |d.runs| :: OneSlipEach(d.runs[i].slips)
    requires op.ComputeRun? ==> OneSlipEach(op.newer)
    requires run < |Step(d, op).runs|
    ensures OneSlipEach(Step(d, op).runs[run].slips)
  {
    hide Balanced, Settle, Upsert, PulledBy;
    if op.ComputeRun? && op.run < |d.runs| {
      UpsertKeepsOneSlipEach(d.runs[op.run].slips, ComputedAll(op.newer));
    } else if op.ApproveRun? && op.run < |d.runs| {
      SettledSlips(d.advances, d.runs[op.run].slips);
    }
  }

  // --- the services over mutable tables -----------------------------------------------------------------

  class AdvanceDesk {
    var advances: seq<Advance>
    var runs: seq<PayRun>
    /** The runs a calculation was queued for; a job may be delivered more than once. */
    var queued: set<nat>
    /** What payroll has pulled from each advance over its whole life. */
    ghost var pulled: seq<int>
    /** The advance lines of approved runs that a late calculation reopened. */
    ghost var reopened: int

    constructor ()
      ensures Valid() && Contents() == NEW_DESK
    {
      advances, runs, queued, pulled, reopened := [], [], {}, [], 0;
    }

    ghost function Contents(): Desk
      reads this
    {
      Desk(advances, runs, queued, pulled, reopened)
    }

    ghost predicate Valid()
      reads this
    {
      Balanced(Contents())
    }

    /** Submit a request; over the ceiling it is refused. */
    method Create(employee: nat, amount: int, plan: Plan, ceiling: int) returns (ok: bool)
      requires Valid()
      modifies this`advances, this`pulled
      ensures Valid() && ok == (amount <= ceiling)
      ensures Contents() == Step(old(Contents()), Op.Create(employee, amount, plan, ceiling))
      ensures advances == old(advances) + if ok then [Advance(employee, amount, plan, 0, Submitted)] else []
    {
      StepKeepsBalance(Contents(), Op.Create(employee, amount, plan, ceiling));
      if amount > ceiling {
        return false;
      }
      advances := advances + [Advance(employee, amount, plan, 0, Submitted)];
      pulled := pulled + [0];
      ok := true;
    }

    /** Approve or reject a submitted request; approval is for super-admins. */
    method Decide(id: nat, approve: bool, superAdmin: bool) returns (ok: bool)
      requires Valid() && id < |advances|
      modifies this`advances
      ensures Valid() && ok == (old(advances)[id].status == Submitted && (approve ==> superAdmin))
      ensures Contents() == Step(old(Contents()), Op.Decide(id, approve, superAdmin))
      ensures ok ==> advances[id] == old(advances)[id].(status := if approve then Approved else Rejected)
      ensures advances == old(advances)[id := advances[id]] && (!ok ==> advances[id] == old(advances)[id])
    {
      StepKeepsBalance(Contents(), Op.Decide(id, approve, superAdmin));
      if advances[id].status != Submitted || (approve && !superAdmin) {
        return false;
      }
      advances := advances[id := advances[id].(status := if approve then Approved else Rejected)];
      ok := true;
    }

    /** Disburse an approved request: the whole amount becomes outstanding. */
    method Disburse(id: nat) returns (ok: bool)
      requires Valid() && id < |advances|
      modifies this`advances
      ensures Valid() && ok == (old(advances)[id].status == Approved)
      ensures Contents() == Step(old(Contents()), Op.Disburse(id))
      ensures ok ==> advances[id] == old(advances)[id].(status := Disbursed, outstanding := old(advances)[id].amount)
      ensures advances == old(advances)[id := advances[id]] && (!ok ==> advances[id] == old(advances)[id])
    {
      StepKeepsBalance(Contents(), Op.Disburse(id));
      var a := advances[id];
      if a.status != Approved {
        return false;
      }
      advances := advances[id := a.(status := Disbursed, outstanding := a.amount)];
      ok := true;
    }

    method OpenRun() returns (run: nat)
      requires Valid()
      modifies this`runs
      ensures Valid() && run == |old(runs)|
      ensures Contents() == Step(old(Contents()), Op.OpenRun)
      ensures runs == old(runs) + [PayRun(Draft, [])]
    {
      StepKeepsBalance(Contents(), Op.OpenRun);
      run := |runs|;
      runs := runs + [PayRun(Draft, [])];
    }

    /** Queue a calculation; for an approved run it is refused. */
    method Calculate(run: nat) returns (ok: bool)
      requires Valid() && run < |runs|
      modifies this`queued
      ensures Valid() && ok == (runs[run].status != RunApproved)
      ensures Contents() == Step(old(Contents()), Op.Calculate(run))
      ensures queued == old(queued) + if ok then {run} else {}
    {
      StepKeepsBalance(Contents(), Op.Calculate(run));
      ok := runs[run].status != RunApproved;
      if ok {
        queued := queued + {run};
      }
    }

    /** The worker's job: store the computed payslips. It does not look at the status again. */
    method ComputeRun(run: nat, newer: seq<Slip>)
      requires Valid() && run < |runs| && run in queued
      modifies this`runs, this`reopened
      ensures Valid() && |runs| == |old(runs)| && runs[run].status == Calculated
      ensures Contents() == Step(old(Contents()), Op.ComputeRun(run, newer))
      ensures runs == old(runs)[run := runs[run]]
      ensures forall s :: s in runs[run].slips <==>
                || (exists n | n in newer :: s == n.(advance := 0, net := n.gross - n.deductions))
                || (s in old(runs)[run].slips && forall n | n in newer :: n.employee != s.employee)
    {
      StepKeepsBalance(Contents(), Op.ComputeRun(run, newer));
      RecomputedMeans(runs[run], newer);
      reopened := reopened + LinesOf(runs[run]);
      runs := runs[run := PayRun(Calculated, Upsert(runs[run].slips, ComputedAll(newer)))];
    }

    /** Every due advance of one employee, in turn: pull a period and count it. */
    method PullInto(employee: nat) returns (total: int)
      requires |pulled| == |advances|
      modifies this`advances, this`pulled
      ensures advances == PullFor(old(advances), employee) && total == PullTotal(old(advances), employee)
      ensures pulled == PulledFor(old(advances), employee, old(pulled))
      ensures forall i | 0 <= i < |advances| ::
                advances[i] == if old(advances)[i].employee == employee then PaidPeriods(old(advances)[i], 1)
                               else old(advances)[i]
    {
      hide PaidPeriods, PullTotal;
      total := 0;
      assert old(advances)[..0] == [];
      PullTotalGrows(old(advances), employee);
      for i := 0 to |advances|
        invariant |advances| == |old(advances)| == |pulled|
        invariant advances[..i] == PullFor(old(advances), employee)[..i] && advances[i..] == old(advances)[i..]
        invariant pulled[..i] == PulledFor(old(advances), employee, old(pulled))[..i] && pulled[i..] == old(pulled)[i..]
        invariant total == PullTotal(old(advances)[..i], employee)
      {
        var a := advances[i];
        assert a == old(advances)[i..][0] && pulled[i] == old(pulled)[i..][0];
        assert old(advances)[..i + 1][..i] == old(advances)[..i];
        hide Pull, Due, Repay;
        if Due(a, employee) {
          total := total + Pull(a);
          advances := advances[i := Repay(a)];
          pulled := pulled[i := pulled[i] + Pull(a)];
        }
        assert advances[..i + 1] == advances[..i] + [advances[i]];
        assert pulled[..i + 1] == pulled[..i] + [pulled[i]];
      }
      assert old(advances)[..|advances|] == old(advances);
      PullForMeansAll(old(advances), employee);
    }

    method SettleSlips(slips: seq<Slip>) returns (settled: seq<Slip>)
      requires |pulled| == |advances|
      modifies this`advances, this`pulled
      ensures (advances, settled) == Settle(old(advances), slips)
      ensures pulled == PulledBy(old(advances), slips, old(pulled))
    {
      hide PullFor, PullTotal, PulledFor;
      settled := [];
      ghost var whole, all := Settle(advances, slips), PulledBy(advances, slips, pulled);
      assert slips[0..] == slips;
      for i := 0 to |slips|
        invariant |pulled| == |advances| == |old(advances)|
        invariant Settle(advances, slips[i..]).0 == whole.0
        invariant settled + Settle(advances, slips[i..]).1 == whole.1
        invariant PulledBy(advances, slips[i..], pulled) == all
      {
        ghost var rest := slips[i..];
        assert rest[0] == slips[i] && rest[1..] == slips[i + 1..];
        var total := PullInto(slips[i].employee);
        ghost var after := Settle(advances, slips[i + 1..]).1;
        var slip := slips[i].(advance := total, net := slips[i].gross - (slips[i].deductions + total));
        assert settled + ([slip] + after) == (settled + [slip]) + after;
        settled := settled + [slip];
      }
      assert settled + [] == settled;
    }

    /** Approve a calculated run over its payslips; the run leaves CALCULATED, so a second approval fails. */
    method ApproveRun(run: nat) returns (ok: bool)
      requires Valid() && run < |runs|
      modifies this
      ensures Valid() && ok == (old(runs)[run].status == Calculated)
      ensures Contents() == Step(old(Contents()), Op.ApproveRun(run))
      ensures ok ==>
                && runs[run].status == RunApproved && Repaid(old(advances), advances)
                && AdvanceLines(runs[run].slips) == Outstanding(old(advances)) - Outstanding(advances)
                && SettledRight(old(advances), old(runs)[run].slips, advances, runs[run].slips)
    {
      StepKeepsBalance(Contents(), Op.ApproveRun(run));
      if runs[run].status != Calculated {
        return false;
      }
      SettleConserves(advances, runs[run].slips, pulled);
      SettleIsRight(advances, runs[run].slips);
      hide Settle, PulledBy, Balanced, Repaid, Outstanding, SettledRight;
      var settled := SettleSlips(runs[run].slips);
      runs := runs[run := PayRun(RunApproved, settled)];
      ok := true;
    }
  }
}
