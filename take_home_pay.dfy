/** The take-home-pay engine: annualises pay, subtracts pre-tax deductions,
    computes federal income tax from piecewise-linear brackets, FICA, a
    simplified child tax credit, state and local tax, and arrives at annual,
    monthly and biweekly take-home pay and an effective tax rate.
    Amounts are exact reals; `parseFloat` and `parseInt` are parameters. */
module TakeHomePay {
  import opened Common

  // ---------------------------------------------------------------------------
  // Constants

  /** Flat or top-marginal state rates; states missing here are taxed at 0. */
  const StateTaxRates: map<string, real> := map[
    "AL" := 0.05, "AK" := 0.0, "AZ" := 0.025, "AR" := 0.055, "CA" := 0.133,
    "CO" := 0.0425, "CT" := 0.0699, "DE" := 0.066, "FL" := 0.0, "GA" := 0.0549,
    "HI" := 0.11, "ID" := 0.058, "IL" := 0.0495, "IN" := 0.0315, "IA" := 0.039,
    "KS" := 0.057, "KY" := 0.045, "LA" := 0.0425, "ME" := 0.0715, "MD" := 0.0575,
    "MA" := 0.05, "MI" := 0.0425, "MN" := 0.0985, "MS" := 0.044, "MO" := 0.0495,
    "MT" := 0.069, "NE" := 0.0684, "NV" := 0.0, "NH" := 0.0, "NJ" := 0.1075,
    "NM" := 0.059, "NY" := 0.109, "NC" := 0.0425, "ND" := 0.029, "OH" := 0.0399,
    "OK" := 0.0475, "OR" := 0.099, "PA" := 0.0307, "RI" := 0.0599, "SC" := 0.064,
    "SD" := 0.0, "TN" := 0.0, "TX" := 0.0, "UT" := 0.0455, "VT" := 0.0875,
    "VA" := 0.0575, "WA" := 0.0, "WV" := 0.065, "WI" := 0.0765, "WY" := 0.0
  ]

  const SocialSecurityRate: real := 0.062
  /** The Social Security cap, 6.2% of the 168600 wage base. */
  const SocialSecurityCap: real := 10453.2
  const SocialSecurityWageBase: real := 168600.0
  const MedicareRate: real := 0.0145
  const AdditionalMedicareRate: real := 0.009
  /** The Additional Medicare threshold, the same for every filing status. */
  const AdditionalMedicareThreshold: real := 200000.0
  const ChildTaxCreditPerDependent: real := 2000.0

  // ---------------------------------------------------------------------------
  // Inputs and results

  /** The form as the calculator receives it: numbers are still strings, and
      the pay period, filing status and deduction modes are the strings the
      code compares against. */
  datatype TakeHomePayInputs = TakeHomePayInputs(
    grossIncome: string,
    payPeriod: string,
    filingStatus: string,
    state: string,
    dependents: string,
    includeSocialSecurity: bool,
    includeMedicare: bool,
    retirement401k: string,
    retirement401kMode: string,
    hsaContribution: string,
    hsaContributionMode: string,
    preTaxHealthInsurance: string,
    preTaxHealthInsuranceMode: string,
    postTaxHealthInsurance: string,
    lifeInsurance: string,
    otherDeductions: string,
    additionalWithholding: string,
    hasLocalTax: bool,
    localTaxRate: string
  )

  datatype TakeHomePayResults = TakeHomePayResults(
    annualGross: real,
    totalPreTaxDeductions: real,
    taxableIncome: real,
    federalTax: real,
    socialSecurity: real,
    medicare: real,
    additionalMedicare: real,
    totalFICA: real,
    stateTax: real,
    localTax: real,
    totalTaxes: real,
    totalPostTaxDeductions: real,
    annualTakeHome: real,
    monthlyTakeHome: real,
    biweeklyTakeHome: real,
    effectiveTaxRate: real
  )

  // ---------------------------------------------------------------------------
  // Annualising

  /** Pay periods in a year; any period other than yearly and monthly is
      treated as biweekly. */
  function PeriodsPerYear(payPeriod: string): (n: real)
    ensures n == 1.0 || n == 12.0 || n == 26.0
  {
    if payPeriod == "yearly" then 1.0
    else if payPeriod == "monthly" then 12.0
    else 26.0
  }

  function ConvertToAnnual(amount: real, payPeriod: string): (r: real)
    ensures payPeriod == "yearly" ==> r == amount
    ensures payPeriod == "monthly" ==> r == amount * 12.0
    ensures payPeriod != "yearly" && payPeriod != "monthly" ==> r == amount * 26.0
  {
    if payPeriod == "yearly" then amount
    else if payPeriod == "monthly" then amount * 12.0
    else amount * 26.0
  }

  lemma ConvertToAnnualByPeriods(amount: real, payPeriod: string)
    ensures ConvertToAnnual(amount, payPeriod) == amount * PeriodsPerYear(payPeriod)
  {
  }

  /** Annualising is linear and keeps the sign, so per-period amounts can be
      summed before or after conversion. */
  lemma ConvertToAnnualLinear(a: real, b: real, payPeriod: string)
    ensures ConvertToAnnual(a + b, payPeriod)
            == ConvertToAnnual(a, payPeriod) + ConvertToAnnual(b, payPeriod)
    ensures a >= 0.0 ==> ConvertToAnnual(a, payPeriod) >= a
    ensures a <= 0.0 ==> ConvertToAnnual(a, payPeriod) <= a
  {
  }

  // ---------------------------------------------------------------------------
  // Pre-tax deductions

  /** One pre-tax deduction: a percentage of annual gross in percentage mode,
      otherwise a per-period dollar amount annualised by the pay period. */
  function PreTaxDeduction(
    amount: string, mode: string, annualGross: real, payPeriod: string, parseFloat: FloatParser
  ): (r: real)
    ensures mode == "percentage" ==> r == annualGross * (OrZero(parseFloat(amount)) / 100.0)
    ensures mode != "percentage" ==> r == ConvertToAnnual(OrZero(parseFloat(amount)), payPeriod)
    ensures mode == "percentage" && 0.0 <= OrZero(parseFloat(amount)) <= 100.0 && annualGross >= 0.0
            ==> 0.0 <= r <= annualGross
    ensures parseFloat(amount).None? ==> r == 0.0
  {
    if mode == "percentage" then
      var percentage := OrZero(parseFloat(amount));
      assert 0.0 <= percentage <= 100.0 && annualGross >= 0.0 ==>
        annualGross * (percentage / 100.0) <= annualGross * 1.0;
      annualGross * (percentage / 100.0)
    else
      ConvertToAnnual(OrZero(parseFloat(amount)), payPeriod)
  }

  // ---------------------------------------------------------------------------
  // Federal income tax

  /** 14600 for a single filer; every other status gets the joint amount. */
  function StandardDeduction(filingStatus: string): (d: real)
    ensures filingStatus == "single" <==> d == 14600.0
    ensures filingStatus != "single" <==> d == 29200.0
  {
    if filingStatus == "single" then 14600.0 else 29200.0
  }

  /** The bracket formulas, applied to income after the standard deduction.
      Every filing status other than "single" uses the married-filing-jointly
      table, whose top rate is 32%. */
  function BracketTax(x: real, filingStatus: string): (tax: real)
    // no tax on nothing, and never more than the top rate on the whole amount
    ensures x == 0.0 ==> tax == 0.0
    ensures x >= 0.0 ==> 0.0 <= tax <= 0.37 * x
    ensures x >= 0.0 && filingStatus != "single" ==> tax <= 0.32 * x
    // the first band is taxed at 10%
    ensures filingStatus == "single" && 0.0 <= x <= 11600.0 ==> tax == 0.1 * x
    ensures filingStatus != "single" && 0.0 <= x <= 23200.0 ==> tax == 0.1 * x
  {
    if filingStatus == "single" then
      if x <= 11600.0 then x * 0.1
      else if x <= 47150.0 then 1160.0 + (x - 11600.0) * 0.12
      else if x <= 100525.0 then 5426.0 + (x - 47150.0) * 0.22
      else if x <= 191950.0 then 17168.5 + (x - 100525.0) * 0.24
      else if x <= 243725.0 then 39110.5 + (x - 191950.0) * 0.32
      else if x <= 609350.0 then 55678.5 + (x - 243725.0) * 0.35
      else 183647.25 + (x - 609350.0) * 0.37
    else
      if x <= 23200.0 then x * 0.1
      else if x <= 94300.0 then 2320.0 + (x - 23200.0) * 0.12
      else if x <= 201050.0 then 10852.0 + (x - 94300.0) * 0.22
      else if x <= 383900.0 then 34337.0 + (x - 201050.0) * 0.24
      else 78221.0 + (x - 383900.0) * 0.32
  }

  function FederalTaxableIncome(taxableIncome: real, filingStatus: string): (r: real)
    ensures r >= 0.0
    ensures r == 0.0 <==> taxableIncome <= StandardDeduction(filingStatus)
    ensures r >= taxableIncome - StandardDeduction(filingStatus)
    ensures taxableIncome > StandardDeduction(filingStatus) ==> r == taxableIncome - StandardDeduction(filingStatus)
  {
    Max(0.0, taxableIncome - StandardDeduction(filingStatus))
  }

  function CalculateFederalTax(taxableIncome: real, filingStatus: string): (tax: real)
    ensures tax >= 0.0
    ensures taxableIncome <= StandardDeduction(filingStatus) ==> tax == 0.0
    ensures taxableIncome > StandardDeduction(filingStatus) ==> tax > 0.0
  {
    BracketTax(FederalTaxableIncome(taxableIncome, filingStatus), filingStatus)
  }

  // An independent reading of the same schedule: a rate per band, each
  // applied only to the part of the income that falls inside its band.

  /** A band starts at `floor` and ends where the next band starts. */
  datatype Bracket = Bracket(floor: real, rate: real)

  const SingleBrackets: seq<Bracket> := [
    Bracket(0.0, 0.10), Bracket(11600.0, 0.12), Bracket(47150.0, 0.22),
    Bracket(100525.0, 0.24), Bracket(191950.0, 0.32), Bracket(243725.0, 0.35),
    Bracket(609350.0, 0.37)
  ]

  const MarriedBrackets: seq<Bracket> := [
    Bracket(0.0, 0.10), Bracket(23200.0, 0.12), Bracket(94300.0, 0.22),
    Bracket(201050.0, 0.24), Bracket(383900.0, 0.32)
  ]

  function Brackets(filingStatus: string): seq<Bracket> {
    if filingStatus == "single" then SingleBrackets else MarriedBrackets
  }

  /** The part of `x` that falls in the first band of `bs`. */
  function InFirstBand(x: real, bs: seq<Bracket>): real
    requires |bs| > 0
  {
    if |bs| == 1 then Max(0.0, x - bs[0].floor)
    else Min(Max(0.0, x - bs[0].floor), bs[1].floor - bs[0].floor)
  }

  /** Tax as the sum over bands of rate times the income inside the band. */
  function MarginalTax(x: real, bs: seq<Bracket>): real
    decreases |bs|
  {
    if bs == [] then 0.0
    else bs[0].rate * InFirstBand(x, bs) + MarginalTax(x, bs[1..])
  }

  /** The single-filer formulas written band by band: rate times the part
      of the income inside each band. */
  lemma SingleBandFormula(x: real)
    requires x >= 0.0
    ensures BracketTax(x, "single") == 0.10 * Min(Max(0.0, x), 11600.0) + 0.12 * Min(Max(0.0, x - 11600.0), 35550.0)
            + 0.22 * Min(Max(0.0, x - 47150.0), 53375.0) + 0.24 * Min(Max(0.0, x - 100525.0), 91425.0)
            + 0.32 * Min(Max(0.0, x - 191950.0), 51775.0) + 0.35 * Min(Max(0.0, x - 243725.0), 365625.0)
            + 0.37 * Max(0.0, x - 609350.0)
  {
  }

  /** The married formulas written band by band. */
  lemma MarriedBandFormula(x: real, filingStatus: string)
    requires x >= 0.0 && filingStatus != "single"
    ensures BracketTax(x, filingStatus) == 0.10 * Min(Max(0.0, x), 23200.0) + 0.12 * Min(Max(0.0, x - 23200.0), 71100.0)
            + 0.22 * Min(Max(0.0, x - 94300.0), 106750.0) + 0.24 * Min(Max(0.0, x - 201050.0), 182850.0)
            + 0.32 * Max(0.0, x - 383900.0)
  {
  }

  /** The single-filer formulas are the band sums: each constant (1160,
      5426, 17168.5, 39110.5, 55678.5, 183647.25) is the full tax of the
      bands below. */
  lemma SingleFormulasAreBandSums(x: real)
    requires x >= 0.0
    ensures BracketTax(x, "single") == MarginalTax(x, SingleBrackets)
  {
    var b := SingleBrackets;
    assert b[6..][1..] == [];
    assert MarginalTax(x, b[6..]) == 0.37 * Max(0.0, x - 609350.0);
    assert b[5..][1..] == b[6..];
    assert MarginalTax(x, b[5..]) == 0.35 * Min(Max(0.0, x - 243725.0), 365625.0) + MarginalTax(x, b[6..]);
    assert b[4..][1..] == b[5..];
    assert MarginalTax(x, b[4..]) == 0.32 * Min(Max(0.0, x - 191950.0), 51775.0) + MarginalTax(x, b[5..]);
    assert b[3..][1..] == b[4..];
    assert MarginalTax(x, b[3..]) == 0.24 * Min(Max(0.0, x - 100525.0), 91425.0) + MarginalTax(x, b[4..]);
    assert b[2..][1..] == b[3..];
    assert MarginalTax(x, b[2..]) == 0.22 * Min(Max(0.0, x - 47150.0), 53375.0) + MarginalTax(x, b[3..]);
    assert b[1..][1..] == b[2..];
    assert MarginalTax(x, b[1..]) == 0.12 * Min(Max(0.0, x - 11600.0), 35550.0) + MarginalTax(x, b[2..]);
    assert MarginalTax(x, b) == 0.10 * Min(Max(0.0, x), 11600.0) + MarginalTax(x, b[1..]);
    SingleBandFormula(x);
  }

  /** The married formulas are the band sums: 2320, 10852, 34337 and 78221
      are the full tax of the bands below. */
  lemma MarriedFormulasAreBandSums(x: real, filingStatus: string)
    requires x >= 0.0 && filingStatus != "single"
    ensures BracketTax(x, filingStatus) == MarginalTax(x, MarriedBrackets)
  {
    var b := MarriedBrackets;
    assert b[4..][1..] == [];
    assert MarginalTax(x, b[4..]) == 0.32 * Max(0.0, x - 383900.0);
    assert b[3..][1..] == b[4..];
    assert MarginalTax(x, b[3..]) == 0.24 * Min(Max(0.0, x - 201050.0), 182850.0) + MarginalTax(x, b[4..]);
    assert b[2..][1..] == b[3..];
    assert MarginalTax(x, b[2..]) == 0.22 * Min(Max(0.0, x - 94300.0), 106750.0) + MarginalTax(x, b[3..]);
    assert b[1..][1..] == b[2..];
    assert MarginalTax(x, b[1..]) == 0.12 * Min(Max(0.0, x - 23200.0), 71100.0) + MarginalTax(x, b[2..]);
    assert MarginalTax(x, b) == 0.10 * Min(Max(0.0, x), 23200.0) + MarginalTax(x, b[1..]);
    MarriedBandFormula(x, filingStatus);
  }

  /** Federal tax is the marginal-rate sum over the filing status's table. */
  lemma FederalTaxIsMarginal(taxableIncome: real, filingStatus: string)
    ensures CalculateFederalTax(taxableIncome, filingStatus)
            == MarginalTax(FederalTaxableIncome(taxableIncome, filingStatus), Brackets(filingStatus))
  {
    var x := FederalTaxableIncome(taxableIncome, filingStatus);
    if filingStatus == "single" {
      SingleFormulasAreBandSums(x);
    } else {
      MarriedFormulasAreBandSums(x, filingStatus);
    }
  }

  /** The part of the income inside one band grows no faster than the
      income itself. */
  lemma BandGrowth(x: real, y: real, floor: real, width: real)
    requires x <= y && width >= 0.0
    ensures 0.0 <= Min(Max(0.0, y - floor), width) - Min(Max(0.0, x - floor), width) <= y - x
  {
  }

  lemma TopBandGrowth(x: real, y: real, floor: real)
    requires x <= y
    ensures 0.0 <= Max(0.0, y - floor) - Max(0.0, x - floor) <= y - x
  {
  }

  /** The single-filer bands split any non-negative income exactly. */
  lemma SingleBandsCoverIncome(x: real)
    requires x >= 0.0
    ensures Min(Max(0.0, x), 11600.0) + Min(Max(0.0, x - 11600.0), 35550.0)
            + Min(Max(0.0, x - 47150.0), 53375.0) + Min(Max(0.0, x - 100525.0), 91425.0)
            + Min(Max(0.0, x - 191950.0), 51775.0) + Min(Max(0.0, x - 243725.0), 365625.0)
            + Max(0.0, x - 609350.0) == x
  {
  }

  /** The married bands split any non-negative income exactly. */
  lemma MarriedBandsCoverIncome(x: real)
    requires x >= 0.0
    ensures Min(Max(0.0, x), 23200.0) + Min(Max(0.0, x - 23200.0), 71100.0)
            + Min(Max(0.0, x - 94300.0), 106750.0) + Min(Max(0.0, x - 201050.0), 182850.0)
            + Max(0.0, x - 383900.0) == x
  {
  }

  lemma SingleBracketTaxGrowth(x: real, y: real)
    requires 0.0 <= x <= y
    ensures 0.0 <= BracketTax(y, "single") - BracketTax(x, "single") <= 0.37 * (y - x)
  {
    SingleBandFormula(x);
    SingleBandFormula(y);
    SingleBandsCoverIncome(x);
    SingleBandsCoverIncome(y);
    // the increase of the income inside each band
    var d0 := Min(Max(0.0, y), 11600.0) - Min(Max(0.0, x), 11600.0);
    var d1 := Min(Max(0.0, y - 11600.0), 35550.0) - Min(Max(0.0, x - 11600.0), 35550.0);
    var d2 := Min(Max(0.0, y - 47150.0), 53375.0) - Min(Max(0.0, x - 47150.0), 53375.0);
    var d3 := Min(Max(0.0, y - 100525.0), 91425.0) - Min(Max(0.0, x - 100525.0), 91425.0);
    var d4 := Min(Max(0.0, y - 191950.0), 51775.0) - Min(Max(0.0, x - 191950.0), 51775.0);
    var d5 := Min(Max(0.0, y - 243725.0), 365625.0) - Min(Max(0.0, x - 243725.0), 365625.0);
    var d6 := Max(0.0, y - 609350.0) - Max(0.0, x - 609350.0);
    BandGrowth(x, y, 0.0, 11600.0);
    BandGrowth(x, y, 11600.0, 35550.0);
    BandGrowth(x, y, 47150.0, 53375.0);
    BandGrowth(x, y, 100525.0, 91425.0);
    BandGrowth(x, y, 191950.0, 51775.0);
    BandGrowth(x, y, 243725.0, 365625.0);
    TopBandGrowth(x, y, 609350.0);
    assert d0 + d1 + d2 + d3 + d4 + d5 + d6 == y - x;
    assert BracketTax(y, "single") - BracketTax(x, "single")
           == 0.10 * d0 + 0.12 * d1 + 0.22 * d2 + 0.24 * d3 + 0.32 * d4 + 0.35 * d5 + 0.37 * d6;
  }

  lemma MarriedBracketTaxGrowth(x: real, y: real, filingStatus: string)
    requires 0.0 <= x <= y && filingStatus != "single"
    ensures 0.0 <= BracketTax(y, filingStatus) - BracketTax(x, filingStatus) <= 0.32 * (y - x)
  {
    MarriedBandFormula(x, filingStatus);
    MarriedBandFormula(y, filingStatus);
    MarriedBandsCoverIncome(x);
    MarriedBandsCoverIncome(y);
    // the increase of the income inside each band
    var d0 := Min(Max(0.0, y), 23200.0) - Min(Max(0.0, x), 23200.0);
    var d1 := Min(Max(0.0, y - 23200.0), 71100.0) - Min(Max(0.0, x - 23200.0), 71100.0);
    var d2 := Min(Max(0.0, y - 94300.0), 106750.0) - Min(Max(0.0, x - 94300.0), 106750.0);
    var d3 := Min(Max(0.0, y - 201050.0), 182850.0) - Min(Max(0.0, x - 201050.0), 182850.0);
    var d4 := Max(0.0, y - 383900.0) - Max(0.0, x - 383900.0);
    BandGrowth(x, y, 0.0, 23200.0);
    BandGrowth(x, y, 23200.0, 71100.0);
    BandGrowth(x, y, 94300.0, 106750.0);
    BandGrowth(x, y, 201050.0, 182850.0);
    TopBandGrowth(x, y, 383900.0);
    assert d0 + d1 + d2 + d3 + d4 == y - x;
    assert BracketTax(y, filingStatus) - BracketTax(x, filingStatus)
           == 0.10 * d0 + 0.12 * d1 + 0.22 * d2 + 0.24 * d3 + 0.32 * d4;
  }

  /** The bracket formulas meet at every boundary and no band's rate is
      negative or above 37%: moving the income after the deduction from `x`
      up to `y` raises the tax by between 0 and 37% of the increase. */
  lemma BracketTaxGrowth(x: real, y: real, filingStatus: string)
    requires 0.0 <= x <= y
    ensures 0.0 <= BracketTax(y, filingStatus) - BracketTax(x, filingStatus) <= 0.37 * (y - x)
  {
    if filingStatus == "single" {
      SingleBracketTaxGrowth(x, y);
    } else {
      MarriedBracketTaxGrowth(x, y, filingStatus);
    }
  }

  /** Federal tax is non-decreasing and continuous in taxable income: raising
      taxable income by d raises the tax by between 0 and 37% of d, so the
      bracket formulas meet at every boundary. */
  lemma FederalTaxMonotoneAndContinuous(t1: real, t2: real, filingStatus: string)
    requires t1 <= t2
    ensures 0.0 <= CalculateFederalTax(t2, filingStatus) - CalculateFederalTax(t1, filingStatus)
                <= 0.37 * (t2 - t1)
  {
    var x1 := FederalTaxableIncome(t1, filingStatus);
    var x2 := FederalTaxableIncome(t2, filingStatus);
    BracketTaxGrowth(x1, x2, filingStatus);
  }

  // ---------------------------------------------------------------------------
  // FICA

  function SocialSecurity(taxableIncome: real, included: bool): (r: real)
    ensures included ==> r == Min(taxableIncome * SocialSecurityRate, SocialSecurityCap)
    ensures !included ==> r == 0.0
    ensures r <= SocialSecurityCap
  {
    if included then Min(taxableIncome * SocialSecurityRate, SocialSecurityCap) else 0.0
  }

  /** The cap bites exactly from the 168600 wage base up. */
  lemma SocialSecurityCapAtWageBase(taxableIncome: real)
    ensures SocialSecurity(taxableIncome, true) == SocialSecurityCap
            <==> taxableIncome >= SocialSecurityWageBase
    ensures taxableIncome <= SocialSecurityWageBase ==>
            SocialSecurity(taxableIncome, true) == taxableIncome * SocialSecurityRate
  {
  }

  function Medicare(taxableIncome: real, included: bool): (r: real)
    ensures included ==> r == taxableIncome * MedicareRate
    ensures !included ==> r == 0.0
  {
    if included then taxableIncome * MedicareRate else 0.0
  }

  function AdditionalMedicare(taxableIncome: real, included: bool): (r: real)
    ensures included && taxableIncome > AdditionalMedicareThreshold ==>
            r == (taxableIncome - AdditionalMedicareThreshold) * AdditionalMedicareRate
    ensures r >= 0.0
    ensures r > 0.0 <==> included && taxableIncome > AdditionalMedicareThreshold
  {
    if included && taxableIncome > AdditionalMedicareThreshold
    then (taxableIncome - AdditionalMedicareThreshold) * AdditionalMedicareRate
    else 0.0
  }

  // ---------------------------------------------------------------------------
  // Credit, state and local tax

  /** Federal tax after the simplified child tax credit, floored at zero. */
  function ApplyChildTaxCredit(federalTax: real, dependents: int): (r: real)
    ensures r >= 0.0
    ensures r >= federalTax - ChildTaxCreditPerDependent * dependents as real
    ensures federalTax - ChildTaxCreditPerDependent * dependents as real >= 0.0 ==>
            r == federalTax - ChildTaxCreditPerDependent * dependents as real
    ensures federalTax - ChildTaxCreditPerDependent * dependents as real <= 0.0 ==> r == 0.0
    ensures federalTax >= 0.0 && dependents >= 0 ==> r <= federalTax
  {
    Max(0.0, federalTax - dependents as real * ChildTaxCreditPerDependent)
  }

  /** `STATE_TAX_RATES[state] || 0`. */
  function StateTaxRate(state: string): (r: real)
    ensures state !in StateTaxRates ==> r == 0.0
    ensures state in StateTaxRates ==> r == StateTaxRates[state]
  {
    if state in StateTaxRates then StateTaxRates[state] else 0.0
  }

  /** State tax: taxable income at the state's rate, nothing for a state
      missing from the table. */
  function StateTax(taxableIncome: real, state: string): (r: real)
    ensures state !in StateTaxRates ==> r == 0.0
    ensures state in StateTaxRates ==> r == taxableIncome * StateTaxRates[state]
  {
    taxableIncome * StateTaxRate(state)
  }

  function LocalTax(taxableIncome: real, hasLocalTax: bool, localTaxRate: string, parseFloat: FloatParser): (r: real)
    ensures !hasLocalTax ==> r == 0.0
    ensures hasLocalTax ==> r == taxableIncome * (OrZero(parseFloat(localTaxRate)) / 100.0)
  {
    if hasLocalTax then taxableIncome * (OrZero(parseFloat(localTaxRate)) / 100.0) else 0.0
  }

  /** Total taxes as a percentage of annual gross; 0 when there is no gross. */
  function EffectiveTaxRate(totalTaxes: real, annualGross: real): (rate: real)
    ensures annualGross <= 0.0 ==> rate == 0.0
    ensures annualGross > 0.0 ==> rate * annualGross == totalTaxes * 100.0
    ensures annualGross > 0.0 && 0.0 <= totalTaxes <= annualGross ==> 0.0 <= rate <= 100.0
  {
    if annualGross > 0.0 then
      assert 0.0 <= totalTaxes <= annualGross ==> totalTaxes / annualGross <= annualGross / annualGross;
      (totalTaxes / annualGross) * 100.0
    else 0.0
  }

  // ---------------------------------------------------------------------------
  // The whole calculation

  function CalculateTakeHomePay(inputs: TakeHomePayInputs, parseFloat: FloatParser, parseInt: IntParser)
    : (r: TakeHomePayResults)
    // the annual gross is the entered pay annualised
    ensures r.annualGross == ConvertToAnnual(OrZero(parseFloat(inputs.grossIncome)), inputs.payPeriod)
    // the three pre-tax deductions, each in its own mode
    ensures r.totalPreTaxDeductions
            == PreTaxDeduction(inputs.retirement401k, inputs.retirement401kMode, r.annualGross, inputs.payPeriod, parseFloat)
               + PreTaxDeduction(inputs.hsaContribution, inputs.hsaContributionMode, r.annualGross, inputs.payPeriod, parseFloat)
               + PreTaxDeduction(inputs.preTaxHealthInsurance, inputs.preTaxHealthInsuranceMode,
                                 r.annualGross, inputs.payPeriod, parseFloat)
    // taxable income is what the pre-tax deductions leave of gross
    ensures r.taxableIncome + r.totalPreTaxDeductions == r.annualGross
    // federal tax: the bracket tax less the credit, never negative
    ensures r.federalTax == Max(0.0, CalculateFederalTax(r.taxableIncome, inputs.filingStatus)
                                      - ChildTaxCreditPerDependent * IntOrZero(parseInt(inputs.dependents)) as real)
    ensures r.federalTax >= 0.0
    ensures IntOrZero(parseInt(inputs.dependents)) >= 0 ==>
              r.taxableIncome <= StandardDeduction(inputs.filingStatus) ==> r.federalTax == 0.0
    // FICA
    ensures r.socialSecurity == SocialSecurity(r.taxableIncome, inputs.includeSocialSecurity)
    ensures r.medicare == Medicare(r.taxableIncome, inputs.includeMedicare)
    ensures r.additionalMedicare == AdditionalMedicare(r.taxableIncome, inputs.includeMedicare)
    ensures r.socialSecurity <= SocialSecurityCap
    ensures !inputs.includeSocialSecurity ==> r.socialSecurity == 0.0
    ensures r.additionalMedicare >= 0.0
    ensures r.additionalMedicare > 0.0 <==> inputs.includeMedicare && r.taxableIncome > AdditionalMedicareThreshold
    ensures !inputs.includeMedicare ==> r.medicare == 0.0 && r.additionalMedicare == 0.0
    ensures r.totalFICA == r.socialSecurity + r.medicare + r.additionalMedicare
    // state and local tax
    ensures r.stateTax == StateTax(r.taxableIncome, inputs.state)
    ensures r.localTax == LocalTax(r.taxableIncome, inputs.hasLocalTax, inputs.localTaxRate, parseFloat)
    ensures inputs.state !in StateTaxRates ==> r.stateTax == 0.0
    ensures !inputs.hasLocalTax ==> r.localTax == 0.0
    // the three post-tax deductions, each a per-period amount annualised
    ensures r.totalPostTaxDeductions
            == ConvertToAnnual(OrZero(parseFloat(inputs.postTaxHealthInsurance)), inputs.payPeriod)
               + ConvertToAnnual(OrZero(parseFloat(inputs.lifeInsurance)), inputs.payPeriod)
               + ConvertToAnnual(OrZero(parseFloat(inputs.otherDeductions)), inputs.payPeriod)
    // every dollar of gross is accounted for
    ensures r.annualTakeHome + r.totalTaxes + r.totalPreTaxDeductions + r.totalPostTaxDeductions == r.annualGross
    ensures r.totalTaxes - r.federalTax - r.totalFICA - r.stateTax - r.localTax
            == ConvertToAnnual(OrZero(parseFloat(inputs.additionalWithholding)), inputs.payPeriod)
    // the per-period figures annualise back to the annual figure
    ensures ConvertToAnnual(r.monthlyTakeHome, "monthly") == r.annualTakeHome
    ensures ConvertToAnnual(r.biweeklyTakeHome, "biweekly") == r.annualTakeHome
    // effective rate: taxes as a percentage of gross, 0 without gross
    ensures r.annualGross <= 0.0 ==> r.effectiveTaxRate == 0.0
    ensures r.effectiveTaxRate == EffectiveTaxRate(r.totalTaxes, r.annualGross)
  {
    var annualGross := ConvertToAnnual(OrZero(parseFloat(inputs.grossIncome)), inputs.payPeriod);

    var annual401k := PreTaxDeduction(inputs.retirement401k, inputs.retirement401kMode,
                                      annualGross, inputs.payPeriod, parseFloat);
    var annualHSA := PreTaxDeduction(inputs.hsaContribution, inputs.hsaContributionMode,
                                     annualGross, inputs.payPeriod, parseFloat);
    var annualPreTaxHealth := PreTaxDeduction(inputs.preTaxHealthInsurance, inputs.preTaxHealthInsuranceMode,
                                              annualGross, inputs.payPeriod, parseFloat);
    var totalPreTaxDeductions := annual401k + annualHSA + annualPreTaxHealth;
    var taxableIncome := annualGross - totalPreTaxDeductions;

    var socialSecurity := SocialSecurity(taxableIncome, inputs.includeSocialSecurity);
    var medicare := Medicare(taxableIncome, inputs.includeMedicare);
    var additionalMedicare := AdditionalMedicare(taxableIncome, inputs.includeMedicare);
    var totalFICA := socialSecurity + medicare + additionalMedicare;

    var federalTax := ApplyChildTaxCredit(CalculateFederalTax(taxableIncome, inputs.filingStatus),
                                          IntOrZero(parseInt(inputs.dependents)));

    var stateTax := StateTax(taxableIncome, inputs.state);
    var localTax := LocalTax(taxableIncome, inputs.hasLocalTax, inputs.localTaxRate, parseFloat);
    var annualAdditionalWithholding :=
      ConvertToAnnual(OrZero(parseFloat(inputs.additionalWithholding)), inputs.payPeriod);
    var totalTaxes := federalTax + totalFICA + stateTax + localTax + annualAdditionalWithholding;

    var totalPostTaxDeductions :=
      ConvertToAnnual(OrZero(parseFloat(inputs.postTaxHealthInsurance)), inputs.payPeriod)
      + ConvertToAnnual(OrZero(parseFloat(inputs.lifeInsurance)), inputs.payPeriod)
      + ConvertToAnnual(OrZero(parseFloat(inputs.otherDeductions)), inputs.payPeriod);

    var annualTakeHome := annualGross - totalTaxes - totalPreTaxDeductions - totalPostTaxDeductions;
    var effectiveTaxRate := EffectiveTaxRate(totalTaxes, annualGross);

    TakeHomePayResults(
      annualGross, totalPreTaxDeductions, taxableIncome, federalTax,
      socialSecurity, medicare, additionalMedicare, totalFICA,
      stateTax, localTax, totalTaxes, totalPostTaxDeductions,
      annualTakeHome, annualTakeHome / 12.0, annualTakeHome / 26.0, effectiveTaxRate)
  }

  /** More gross pay never means more federal tax lost than 37 cents per
      dollar: with everything else fixed and dollar-mode deductions, federal
      tax grows by at most 37% of the extra annual gross. */
  lemma FederalTaxGrowsSlowly(inputs: TakeHomePayInputs, raised: TakeHomePayInputs,
                              parseFloat: FloatParser, parseInt: IntParser)
    requires raised == inputs.(grossIncome := raised.grossIncome)
    requires inputs.retirement401kMode != "percentage"
    requires inputs.hsaContributionMode != "percentage"
    requires inputs.preTaxHealthInsuranceMode != "percentage"
    requires OrZero(parseFloat(inputs.grossIncome)) <= OrZero(parseFloat(raised.grossIncome))
    ensures CalculateTakeHomePay(inputs, parseFloat, parseInt).federalTax
            <= CalculateTakeHomePay(raised, parseFloat, parseInt).federalTax
    ensures CalculateTakeHomePay(raised, parseFloat, parseInt).federalTax
            - CalculateTakeHomePay(inputs, parseFloat, parseInt).federalTax
            <= 0.37 * (CalculateTakeHomePay(raised, parseFloat, parseInt).annualGross
                       - CalculateTakeHomePay(inputs, parseFloat, parseInt).annualGross)
  {
    var r1 := CalculateTakeHomePay(inputs, parseFloat, parseInt);
    var r2 := CalculateTakeHomePay(raised, parseFloat, parseInt);
    assert r2.totalPreTaxDeductions == r1.totalPreTaxDeductions;
    ConvertToAnnualLinear(OrZero(parseFloat(inputs.grossIncome)),
                          OrZero(parseFloat(raised.grossIncome)) - OrZero(parseFloat(inputs.grossIncome)),
                          inputs.payPeriod);
    FederalTaxMonotoneAndContinuous(r1.taxableIncome, r2.taxableIncome, inputs.filingStatus);
  }
}
