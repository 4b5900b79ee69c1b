/** Payroll arithmetic (`apps/api/src/hr/payroll-math.ts`). Rates are in units of 0.000001. */
module PayrollMath {
  import opened Money
  import opened Optional

  /** Income in `[lower, upper)` is taxed at `rate`; no upper bound means the open top band. */
  datatype Band = Band(lower: int, upper: Option<int>, rate: int)

  datatype SsoConfig = SsoConfig(rate: int, wageFloor: int, wageCeiling: int)

  datatype Breakdown = Breakdown(base: int, ot: int, allowances: seq<int>, sso: int, tax: int,
                                 advance: int, deductions: seq<int>)

  // --- progressive tax ------------------------------------------------------------------------

  function Min(a: int, b: int): int {
    if a <= b then a else b
  }

  function Max(a: int, b: int): int {
    if a <= b then b else a
  }

  /** The part of `income` that falls in the band. */
  function Slice(income: int, band: Band): int {
    var cap := if band.upper.None? then income else Min(income, band.upper.value);
    Max(0, cap - band.lower)
  }

  /** Every band's slice times its rate, over all the bands. */
  function Schedule(income: int, bands: seq<Band>): int {
    if bands == [] then 0
    else
      var last := bands[|bands| - 1];
      Schedule(income, bands[..|bands| - 1]) + Slice(income, last) * last.rate
  }

  ghost predicate SortedByLower(bands: seq<Band>) {
    forall i, j | 0 <= i < j < |bands| :: bands[i].lower <= bands[j].lower
  }

  lemma {:induction false} ScheduleAboveIncome(income: int, bands: seq<Band>, k: nat)
    requires k <= |bands|
    requires forall j | k <= j < |bands| :: income <= bands[j].lower
    ensures Schedule(income, bands) == Schedule(income, bands[..k])
    decreases |bands| - k
  {
    if k == |bands| {
      assert bands[..k] == bands;
    } else {
      ScheduleAboveIncome(income, bands[..|bands| - 1], k);
      assert bands[..|bands| - 1][..k] == bands[..k];
    }
  }

  /** The loop stops at the first band above the income, yet taxes what the full schedule does. */
  method AnnualTax(income: int, bands: seq<Band>) returns (tax: int)
    requires SortedByLower(bands)
    ensures tax == AnnualTaxOf(income, bands)
  {
    var acc := 0;
    for i := 0 to |bands|
      invariant acc == Schedule(income, bands[..i])
    {
      var band := bands[i];
      if income <= band.lower {
        ScheduleAboveIncome(income, bands, i);
        return Round(acc as real / SCALE6);
      }
      assert bands[..i + 1][..i] == bands[..i];
      var upper := if band.upper.None? then income else band.upper.value;
      var cap := if income <= upper then income else upper;
      var taxable := cap - band.lower;
      if taxable > 0 {
        acc := acc + taxable * band.rate;
      }
    }
    assert bands[..|bands|] == bands;
    tax := Round(acc as real / SCALE6);
  }

  ghost function AnnualTaxOf(income: int, bands: seq<Band>): int {
    Round(Schedule(income, bands) as real / SCALE6)
  }

  /** Annualise, apply the schedule, spread back over twelve months. */
  ghost function MonthlyTax(monthly: int, bands: seq<Band>): int {
    Round(AnnualTaxOf(monthly * 12, bands) as real / 12.0)
  }

  /** Bands that do not overlap, with rates between zero and `top`. */
  ghost predicate WellFormed(bands: seq<Band>, top: int) {
    && (forall i | 0 <= i < |bands| :: 0 <= bands[i].rate <= top)
    && (forall i | 0 <= i < |bands| && bands[i].upper.Some? :: bands[i].lower <= bands[i].upper.value)
    && (forall i, j | 0 <= i < j < |bands| :: bands[i].upper.Some? && bands[i].upper.value <= bands[j].lower)
  }

  lemma {:induction false} MulLe(k: int, a: int, b: int)
    requires 0 <= k && a <= b
    ensures k * a <= k * b
  {
  }

  lemma {:induction false} BandStep(top: int, rate: int, d: int, sx: int, sy: int, span: int)
    requires 0 <= rate <= top && sx <= sy && d + sy - sx <= span
    ensures 0 <= sy * rate - sx * rate <= top * span - top * d
  {
  }

  /** More income never pays less tax, and below `cap` no more than `top` on the difference. */
  lemma {:induction false} ScheduleLipschitz(x: int, y: int, bands: seq<Band>, top: int, cap: int)
    requires x <= y && 0 <= top && WellFormed(bands, top)
    requires forall i | 0 <= i < |bands| :: bands[i].upper.Some? && bands[i].upper.value <= cap
    ensures 0 <= Schedule(y, bands) - Schedule(x, bands) <= top * (Min(y, cap) - Min(x, cap))
  {
    if bands == [] {
      MulLe(top, 0, Min(y, cap) - Min(x, cap));
    } else {
      var last := bands[|bands| - 1];
      ScheduleLipschitz(x, y, bands[..|bands| - 1], top, last.lower);
      BandStep(top, last.rate, Min(y, last.lower) - Min(x, last.lower), Slice(x, last), Slice(y, last),
               Min(y, cap) - Min(x, cap));
    }
  }

  /** Tax is monotone in income, and the marginal rate never exceeds the top rate. */
  lemma {:induction false} ScheduleGrowth(x: int, y: int, bands: seq<Band>, top: int)
    requires x <= y && 0 <= top && WellFormed(bands, top)
    ensures 0 <= Schedule(y, bands) - Schedule(x, bands) <= top * (y - x)
  {
    if bands == [] {
      MulLe(top, 0, y - x);
    } else {
      var last := bands[|bands| - 1];
      ScheduleLipschitz(x, y, bands[..|bands| - 1], top, last.lower);
      BandStep(top, last.rate, Min(y, last.lower) - Min(x, last.lower), Slice(x, last), Slice(y, last), y - x);
    }
  }

  lemma {:induction false} SliceWithin(x: int, y: int, band: Band)
    requires band.lower <= x <= y && (band.upper.Some? ==> y <= band.upper.value)
    ensures Slice(y, band) - Slice(x, band) == y - x
  {
  }

  lemma {:induction false} TimesDifference(a: int, b: int, rate: int)
    ensures b * rate - a * rate == rate * (b - a)
  {
  }

  lemma {:induction false} SlopeUpTo(x: int, y: int, bands: seq<Band>, top: int, k: nat, n: nat)
    requires WellFormed(bands, top) && k < |bands| && n <= |bands|
    requires bands[k].lower <= x <= y && (bands[k].upper.Some? ==> y <= bands[k].upper.value)
    ensures Schedule(y, bands[..n]) - Schedule(x, bands[..n]) == if k < n then bands[k].rate * (y - x) else 0
    decreases n
  {
    if n > 0 {
      var band := bands[n - 1];
      SlopeUpTo(x, y, bands, top, k, n - 1);
      assert bands[..n][..n - 1] == bands[..n - 1];
      if n - 1 == k {
        SliceWithin(x, y, band);
        TimesDifference(Slice(x, band), Slice(y, band), band.rate);
      } else {
        assert Slice(x, band) == Slice(y, band);
      }
    }
  }

  /** The schedule starts at nothing below every band, and inside a band it rises at exactly the band's rate. */
  lemma {:induction false} ScheduleMeans(x: int, y: int, bands: seq<Band>, top: int, k: nat)
    requires WellFormed(bands, top)
    ensures (forall i | 0 <= i < |bands| :: x <= bands[i].lower) ==> Schedule(x, bands) == 0
    ensures k < |bands| && bands[k].lower <= x <= y && (bands[k].upper.Some? ==> y <= bands[k].upper.value) ==>
              Schedule(y, bands) - Schedule(x, bands) == bands[k].rate * (y - x)
  {
    assert bands[..|bands|] == bands;
    if forall i | 0 <= i < |bands| :: x <= bands[i].lower {
      ScheduleAboveIncome(x, bands, 0);
      assert bands[..0] == [];
    }
    if k < |bands| && bands[k].lower <= x <= y && (bands[k].upper.Some? ==> y <= bands[k].upper.value) {
      SlopeUpTo(x, y, bands, top, k, |bands|);
    }
    hide Schedule, WellFormed;
  }

  /** A month is taxed as a twelfth of twelve such months, each of the two roundings to the nearest. */
  lemma {:induction false} MonthlyTaxMeans(monthly: int, bands: seq<Band>) returns (annual: int)
    ensures Nearest(Schedule(12 * monthly, bands), 1000000, annual) && Nearest(annual, 12, MonthlyTax(monthly, bands))
  {
    annual := AnnualTaxOf(monthly * 12, bands);
    RoundIsNearest(Schedule(12 * monthly, bands), 1000000);
    RoundIsNearest(annual, 12);
    hide Nearest, Round, Schedule;
  }

  // --- SSO and the net formula ----------------------------------------------------------------

  function SsoWage(wage: int, sso: SsoConfig): int {
    Min(Max(wage, sso.wageFloor), sso.wageCeiling)
  }

  function SsoContribution(wage: int, sso: SsoConfig): int {
    Round((SsoWage(wage, sso) * sso.rate) as real / SCALE6)
  }

  /** The contribution is the rate of the wage, held between floor and ceiling, rounded once. */
  lemma {:induction false} SsoMeans(wage: int, sso: SsoConfig) returns (insured: int)
    requires sso.wageFloor <= sso.wageCeiling
    ensures wage < sso.wageFloor ==> insured == sso.wageFloor
    ensures wage > sso.wageCeiling ==> insured == sso.wageCeiling
    ensures sso.wageFloor <= wage <= sso.wageCeiling ==> insured == wage
    ensures Nearest(insured * sso.rate, 1000000, SsoContribution(wage, sso))
  {
    insured := SsoWage(wage, sso);
    RoundIsNearest(insured * sso.rate, 1000000);
    hide Nearest, Round;
  }

  function Gross(b: Breakdown): int {
    b.base + b.ot + Sum(b.allowances)
  }

  function TotalDeductions(b: Breakdown): int {
    b.sso + b.tax + b.advance + Sum(b.deductions)
  }

  function Net(b: Breakdown): int {
    Gross(b) - TotalDeductions(b)
  }

  /** Every earning counts exactly once for the net, and nothing earned and deducted is nothing. */
  lemma {:induction false} EarningsCountOnce(b: Breakdown, d: int)
    ensures b.base == b.ot == b.sso == b.tax == b.advance == 0 && b.allowances == b.deductions == [] ==> Net(b) == 0
    ensures Net(Breakdown(b.base + d, b.ot, b.allowances, b.sso, b.tax, b.advance, b.deductions)) == Net(b) + d
    ensures Net(Breakdown(b.base, b.ot + d, b.allowances, b.sso, b.tax, b.advance, b.deductions)) == Net(b) + d
    ensures Net(Breakdown(b.base, b.ot, b.allowances + [d], b.sso, b.tax, b.advance, b.deductions)) == Net(b) + d
  {
    SumOneMore(b.allowances, d);
    hide Sum;
  }

  /** Every deduction counts exactly once against it. */
  lemma {:induction false} DeductionsCountOnce(b: Breakdown, d: int)
    ensures Net(Breakdown(b.base, b.ot, b.allowances, b.sso + d, b.tax, b.advance, b.deductions)) == Net(b) - d
    ensures Net(Breakdown(b.base, b.ot, b.allowances, b.sso, b.tax + d, b.advance, b.deductions)) == Net(b) - d
    ensures Net(Breakdown(b.base, b.ot, b.allowances, b.sso, b.tax, b.advance + d, b.deductions)) == Net(b) - d
    ensures Net(Breakdown(b.base, b.ot, b.allowances, b.sso, b.tax, b.advance, b.deductions + [d])) == Net(b) - d
  {
    SumOneMore(b.deductions, d);
    hide Sum;
  }

  lemma {:induction false} SumOneMore(s: seq<int>, d: int)
    ensures Sum(s + [d]) == Sum(s) + d && Sum([]) == 0
  {
    assert (s + [d])[..|s|] == s;
  }

  /** The payslip `computeRun` snapshots for a base pay: statutory lines derived from the base alone. */
  ghost function Calculated(base: int, ot: int, allowances: seq<int>, deductions: seq<int>,
                            bands: seq<Band>, sso: SsoConfig): Breakdown {
    Breakdown(base, ot, allowances, SsoContribution(base, sso), MonthlyTax(base, bands), 0, deductions)
  }

  lemma {:induction false} MonthlyTaxGrowth(x: int, y: int, bands: seq<Band>, top: int)
    requires x <= y && 0 <= top && WellFormed(bands, top)
    ensures MonthlyTax(x, bands) <= MonthlyTax(y, bands)
    ensures 12000000 * (MonthlyTax(y, bands) - MonthlyTax(x, bands)) <= 12 * (top * (y - x)) + 13000000
  {
    ScheduleGrowth(x * 12, y * 12, bands, top);
    assert top * (y * 12 - x * 12) == 12 * (top * (y - x));
    var sx, sy := Schedule(x * 12, bands), Schedule(y * 12, bands);
    RoundIsMonotoneAndOdd(sx as real / SCALE6, sy as real / SCALE6);
    var ax, ay := AnnualTaxOf(x * 12, bands), AnnualTaxOf(y * 12, bands);
    RoundIsMonotoneAndOdd(ax as real / 12.0, ay as real / 12.0);
  }

  lemma {:induction false} SsoGrowth(x: int, y: int, sso: SsoConfig)
    requires x <= y && 0 <= sso.rate
    ensures SsoContribution(x, sso) <= SsoContribution(y, sso)
    ensures 1000000 * (SsoContribution(y, sso) - SsoContribution(x, sso)) <= sso.rate * (y - x) + 1000000
  {
    BandStep(sso.rate, sso.rate, 0, SsoWage(x, sso), SsoWage(y, sso), y - x);
    RoundIsMonotoneAndOdd((SsoWage(x, sso) * sso.rate) as real / SCALE6, (SsoWage(y, sso) * sso.rate) as real / SCALE6);
  }

  lemma {:induction false} RaiseArithmetic(d: int, top: int, rate: int, taxRise: int, ssoRise: int)
    requires 0 <= d && top + rate <= 1000000
    requires 12000000 * taxRise <= 12 * (top * d) + 13000000
    requires 1000000 * ssoRise <= rate * d + 1000000
    ensures taxRise + ssoRise <= d + 2
  {
  }

  /**
   When the top tax rate and the SSO rate together stay within 100%, a raise with everything else
   fixed never costs the employee more than 0.0002 of net pay, for all the roundings in between.
   */
  lemma {:induction false} RaiseNeverHurts(base: int, raised: int, ot: int, allowances: seq<int>, deductions: seq<int>,
                        bands: seq<Band>, sso: SsoConfig, top: int)
    requires base <= raised && 0 <= top && WellFormed(bands, top)
    requires 0 <= sso.rate && top + sso.rate <= 1000000
    ensures Net(Calculated(base, ot, allowances, deductions, bands, sso)) - 2
            <= Net(Calculated(raised, ot, allowances, deductions, bands, sso))
  {
    MonthlyTaxGrowth(base, raised, bands, top);
    SsoGrowth(base, raised, sso);
    RaiseArithmetic(raised - base, top, sso.rate,
                    MonthlyTax(raised, bands) - MonthlyTax(base, bands),
                    SsoContribution(raised, sso) - SsoContribution(base, sso));
  }
}
