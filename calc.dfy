/** UK payroll arithmetic for one pay period: PAYE income tax, employee and
  * employer National Insurance, pension and student-loan deductions, net pay
  * and employer cost, plus the tax-code, NI-number and pension-scheme
  * validators. Money is exact decimal arithmetic, modelled as `real`; the
  * final two-decimal rounding is Python's `round`, which rounds half to even.
  */
module PayrollCalc {
  import opened Strings
  import opened Tables

  // ------------------------------------------------------ 2024/25 constants

  const BasicRate: real := 0.20
  const HigherRate: real := 0.40
  const AdditionalRate: real := 0.45

  const PersonalAllowance: real := 12570.0
  const BasicRateLimit: real := 50270.0
  const HigherRateLimit: real := 125140.0

  const EmployeeNiRate: real := 0.12
  const EmployeeNiHigherRate: real := 0.02
  const EmployerNiRate: real := 0.138

  const PrimaryThreshold: real := 12570.0
  const UpperEarningsLimit: real := 50270.0
  const EmployerThreshold: real := 9100.0

  /** Annual repayment thresholds and rates by plan; plan 2's also serve
    * a plan name not in the tables. */
  const Plan2Threshold: real := 27295.0
  const Plan2Rate: real := 0.09
  const StudentLoanThresholds: seq<(string, real)> :=
    [("plan_1", 22015.0), ("plan_2", Plan2Threshold), ("plan_4", 27660.0), ("plan_5", 25000.0)]
  const StudentLoanRates: seq<(string, real)> :=
    [("plan_1", 0.09), ("plan_2", Plan2Rate), ("plan_4", 0.09), ("plan_5", 0.09)]

  /** Fallback rates when a scheme is not in the approved table. */
  const DefaultEmployeeRate: real := 0.05
  const DefaultEmployerRate: real := 0.03

  datatype SchemeInfo = SchemeInfo(employeeRate: real, employerRate: real, description: string)

  const AutoEnrolment := SchemeInfo(0.05, 0.03, "Auto-Enrolment Workplace Pension")

  /** The HMRC-approved pension schemes, keyed by scheme name, in the
    * table's order. */
  const PensionSchemes: seq<(string, SchemeInfo)> := [
    ("auto_enrolment", AutoEnrolment),
    ("nest", SchemeInfo(0.05, 0.03, "NEST (National Employment Savings Trust)")),
    ("peoples_pension", SchemeInfo(0.05, 0.03, "The People's Pension")),
    ("smart_pension", SchemeInfo(0.05, 0.03, "Smart Pension")),
    ("aviva_workplace", SchemeInfo(0.05, 0.03, "Aviva Workplace Pension")),
    ("royal_london", SchemeInfo(0.05, 0.03, "Royal London Workplace Pension")),
    ("scottish_widows", SchemeInfo(0.05, 0.03, "Scottish Widows Workplace Pension")),
    ("legal_general", SchemeInfo(0.05, 0.03, "Legal & General Workplace Pension")),
    ("aegon", SchemeInfo(0.05, 0.03, "Aegon Workplace Pension")),
    ("standard_life", SchemeInfo(0.05, 0.03, "Standard Life Workplace Pension")),
    ("none", SchemeInfo(0.0, 0.0, "No Pension Scheme"))
  ]

  // ------------------------------------------------------------------ inputs

  /** The employee attributes the calculation reads. `studentLoanPlan` and
    * `employerPensionContribution` are read with a default of "absent". */
  datatype CalcEmployee = CalcEmployee(
    taxCode: string,
    pensionScheme: string,
    pensionContribution: Option<real>,
    employerPensionContribution: Option<real>,
    studentLoanPlan: Option<string>)

  /** Pay components of one period; a missing key reads as zero. */
  datatype PayInputs = PayInputs(
    basicPay: real, overtimePay: real, bonusPay: real, otherPay: real, otherDeductions: real)

  datatype PayrollFigures = PayrollFigures(
    grossPay: real, basicPay: real, overtimePay: real, bonusPay: real, otherPay: real,
    payeTax: real, nationalInsurance: real, pensionContribution: real, studentLoan: real,
    otherDeductions: real, netPay: real,
    employerNi: real, employerPension: real, totalEmployerCost: real)

  function Max(a: real, b: real): real { if a >= b then a else b }

  function Min(a: real, b: real): real { if a <= b then a else b }

  // ---------------------------------------------------------------- rounding

  /** Rounds to the nearest integer, ties to the even neighbour. */
  function RoundHalfEven(x: real): (n: int)
    ensures -0.5 <= n as real - x <= 0.5
    ensures n as real - x == 0.5 ==> n % 2 == 0
    ensures x - n as real == 0.5 ==> n % 2 == 0
  {
    NearestFromFloor(x.Floor, x - x.Floor as real)
  }

  /** The integer nearest to `f + frac`, for a fraction in [0, 1), ties to the even one. */
  function NearestFromFloor(f: int, frac: real): (n: int)
    requires 0.0 <= frac < 1.0
    ensures -0.5 <= n as real - (f as real + frac) <= 0.5
    ensures n as real - (f as real + frac) == 0.5 ==> n % 2 == 0
    ensures (f as real + frac) - n as real == 0.5 ==> n % 2 == 0
  {
    if frac < 0.5 then f
    else if frac > 0.5 then f + 1
    else if f % 2 == 0 then f
    else f + 1
  }

  /** `round(x, 2)`: to the nearest penny, ties to the even penny. */
  function Round2(x: real): (r: real)
    ensures -0.005 <= r - x <= 0.005
    ensures IsWholePence(r)
  {
    RoundHalfEven(x * 100.0) as real / 100.0
  }

  predicate IsWholePence(x: real)
  {
    (x * 100.0).Floor as real == x * 100.0
  }

  /** A whole number of pence is left as it is. */
  lemma Round2WholePence(x: real)
    requires IsWholePence(x)
    ensures Round2(x) == x
  {
  }

  /** Rounding never reverses the order of two amounts. */
  lemma Round2Monotone(x: real, y: real)
    requires x <= y
    ensures Round2(x) <= Round2(y)
  {
    var fx, fy := (x * 100.0).Floor, (y * 100.0).Floor;
    if fx < fy {
      assert RoundHalfEven(x * 100.0) <= fx + 1 <= fy <= RoundHalfEven(y * 100.0);
    } else {
      assert fx == fy;
    }
  }

  // -------------------------------------------------------------- income tax

  /** Annual income tax for an allowance-based code, band by band. */
  function AnnualBandTax(annualSalary: real): (t: real)
    ensures t >= 0.0
  {
    var taxable := Max(0.0, annualSalary - PersonalAllowance);
    var basic := Min(taxable, BasicRateLimit - PersonalAllowance);
    var basicTax := if basic > 0.0 then basic * BasicRate else 0.0;
    var higherTax :=
      if taxable > BasicRateLimit - PersonalAllowance then
        var higher := Min(taxable - (BasicRateLimit - PersonalAllowance), HigherRateLimit - BasicRateLimit);
        if higher > 0.0 then higher * HigherRate else 0.0
      else 0.0;
    var additionalTax :=
      if taxable > HigherRateLimit - PersonalAllowance then
        var additional := taxable - (HigherRateLimit - PersonalAllowance);
        if additional > 0.0 then additional * AdditionalRate else 0.0
      else 0.0;
    basicTax + higherTax + additionalTax
  }

  /** The statutory schedule written as one marginal-rate formula per band. */
  function StatutoryIncomeTax(annualSalary: real): real
  {
    if annualSalary <= PersonalAllowance then 0.0
    else if annualSalary <= BasicRateLimit then (annualSalary - PersonalAllowance) * BasicRate
    else if annualSalary <= HigherRateLimit then
      (BasicRateLimit - PersonalAllowance) * BasicRate + (annualSalary - BasicRateLimit) * HigherRate
    else
      (BasicRateLimit - PersonalAllowance) * BasicRate + (HigherRateLimit - BasicRateLimit) * HigherRate
        + (annualSalary - HigherRateLimit) * AdditionalRate
  }

  /** The band-by-band computation agrees with the statutory schedule. */
  lemma AnnualBandTaxIsStatutory(annualSalary: real)
    ensures AnnualBandTax(annualSalary) == StatutoryIncomeTax(annualSalary)
  {
  }

  /** Income tax never decreases with salary, and the marginal rate is at most 45%. */
  lemma AnnualBandTaxMonotone(a: real, b: real)
    requires a <= b
    ensures 0.0 <= AnnualBandTax(b) - AnnualBandTax(a) <= AdditionalRate * (b - a)
  {
    AnnualBandTaxIsStatutory(a);
    AnnualBandTaxIsStatutory(b);
  }

  predicate IsFixedRateCode(taxCode: string)
  {
    taxCode == "BR" || taxCode == "D0" || taxCode == "D1" || taxCode == "NT"
  }

  function FixedRate(taxCode: string): (rate: real)
    requires IsFixedRateCode(taxCode)
  {
    if taxCode == "BR" then BasicRate
    else if taxCode == "D0" then HigherRate
    else if taxCode == "D1" then AdditionalRate
    else 0.0
  }

  /** PAYE tax for the period. BR, D0, D1 and NT tax the period's gross pay at
    * a flat rate; every other code (including Scottish S-codes) takes a
    * twelfth of the annual band tax on the annual salary. */
  function PayeTax(taxCode: string, annualSalary: real, periodGross: real): (t: real)
    ensures IsFixedRateCode(taxCode) ==> t == FixedRate(taxCode) * periodGross
    ensures !IsFixedRateCode(taxCode) ==> t == StatutoryIncomeTax(annualSalary) / 12.0
  {
    AnnualBandTaxIsStatutory(annualSalary);
    if taxCode == "BR" then periodGross * BasicRate
    else if taxCode == "D0" then periodGross * HigherRate
    else if taxCode == "D1" then periodGross * AdditionalRate
    else if taxCode == "NT" then 0.0
    else AnnualBandTax(annualSalary) / 12.0
  }

  /** Nothing is taxed under an allowance code below the personal allowance. */
  lemma PayeTaxZeroWithinAllowance(taxCode: string, annualSalary: real, periodGross: real)
    requires !IsFixedRateCode(taxCode) && annualSalary <= PersonalAllowance
    ensures PayeTax(taxCode, annualSalary, periodGross) == 0.0
  {
  }

  datatype TaxBands = TaxBands(
    personalAllowance: real, taxableIncome: real,
    basicRateTaxable: real, higherRateTaxable: real, additionalRateTaxable: real)

  /** How much of an annual salary falls in each income-tax band. */
  function TaxBandsForSalary(annualSalary: real): (b: TaxBands)
    ensures b.personalAllowance == PersonalAllowance
    ensures b.taxableIncome == Max(0.0, annualSalary - PersonalAllowance)
    ensures 0.0 <= b.basicRateTaxable <= BasicRateLimit - PersonalAllowance
    ensures 0.0 <= b.higherRateTaxable <= HigherRateLimit - BasicRateLimit
    ensures 0.0 <= b.additionalRateTaxable
    ensures b.basicRateTaxable + b.higherRateTaxable + b.additionalRateTaxable == b.taxableIncome
    ensures b.higherRateTaxable > 0.0 ==> b.basicRateTaxable == BasicRateLimit - PersonalAllowance
    ensures b.additionalRateTaxable > 0.0 ==> b.higherRateTaxable == HigherRateLimit - BasicRateLimit
  {
    var taxable := Max(0.0, annualSalary - PersonalAllowance);
    var basic := Min(taxable, BasicRateLimit - PersonalAllowance);
    var higher :=
      if taxable > BasicRateLimit - PersonalAllowance then
        Min(taxable - (BasicRateLimit - PersonalAllowance), HigherRateLimit - BasicRateLimit)
      else 0.0;
    var additional :=
      if taxable > HigherRateLimit - PersonalAllowance then taxable - (HigherRateLimit - PersonalAllowance)
      else 0.0;
    TaxBands(PersonalAllowance, taxable, basic, higher, additional)
  }

  /** The tax computation and the band report describe the same split. */
  lemma AnnualBandTaxByBands(annualSalary: real)
    ensures var b := TaxBandsForSalary(annualSalary);
      AnnualBandTax(annualSalary)
        == b.basicRateTaxable * BasicRate + b.higherRateTaxable * HigherRate + b.additionalRateTaxable * AdditionalRate
  {
  }

  // ---------------------------------------------------- National Insurance

  /** Employee NI for the period, from a twelfth of the annual salary. */
  function EmployeeNi(annualSalary: real): (ni: real)
    ensures ni >= 0.0
  {
    var monthly := annualSalary / 12.0;
    var pt := PrimaryThreshold / 12.0;
    var uel := UpperEarningsLimit / 12.0;
    if monthly > pt then
      var basic := Min(monthly - pt, uel - pt);
      (if basic > 0.0 then basic * EmployeeNiRate else 0.0)
        + (if monthly > uel then (monthly - uel) * EmployeeNiHigherRate else 0.0)
    else 0.0
  }

  /** NI as two rates applied to the annual earnings falling in each bracket. */
  function StatutoryEmployeeNi(annualSalary: real): real
  {
    var main := Min(Max(0.0, annualSalary - PrimaryThreshold), UpperEarningsLimit - PrimaryThreshold);
    var upper := Max(0.0, annualSalary - UpperEarningsLimit);
    (main * EmployeeNiRate + upper * EmployeeNiHigherRate) / 12.0
  }

  lemma EmployeeNiIsStatutory(annualSalary: real)
    ensures EmployeeNi(annualSalary) == StatutoryEmployeeNi(annualSalary)
  {
  }

  /** NI never decreases with salary and grows by at most 1p per £1 of annual salary. */
  lemma EmployeeNiMonotone(a: real, b: real)
    requires a <= b
    ensures 0.0 <= EmployeeNi(b) - EmployeeNi(a) <= (b - a) * EmployeeNiRate / 12.0
  {
    EmployeeNiIsStatutory(a);
    EmployeeNiIsStatutory(b);
  }

  /** Employer NI for the period: 13.8% above the secondary threshold, uncapped. */
  function EmployerNi(annualSalary: real): (ni: real)
    ensures ni >= 0.0
    ensures annualSalary <= EmployerThreshold ==> ni == 0.0
  {
    var monthly := annualSalary / 12.0;
    var et := EmployerThreshold / 12.0;
    if monthly > et then (monthly - et) * EmployerNiRate else 0.0
  }

  /** Above the threshold every extra pound of salary costs the same, however high. */
  lemma EmployerNiUncapped(a: real, b: real)
    requires EmployerThreshold <= a <= b
    ensures EmployerNi(b) - EmployerNi(a) == (b - a) * EmployerNiRate / 12.0
  {
  }

  // -------------------------------------------------------- pension and loans

  /** The scheme's employee rate, 5% when the scheme is not in the table. */
  function SchemeEmployeeRate(scheme: string): real
  {
    match Lookup(PensionSchemes, scheme)
    case Some(info) => info.employeeRate
    case None => DefaultEmployeeRate
  }

  /** The scheme's employer rate, 3% when the scheme is not in the table. */
  function SchemeEmployerRate(scheme: string): real
  {
    match Lookup(PensionSchemes, scheme)
    case Some(info) => info.employerRate
    case None => DefaultEmployerRate
  }

  /** The employee's pension contribution: none for scheme "none", otherwise
    * the employee's own rate if set, else the scheme's rate. */
  function EmployeePension(scheme: string, customRate: Option<real>, gross: real): (p: real)
    ensures scheme == "none" ==> p == 0.0
    ensures scheme != "none" && customRate.Some? ==> p == gross * customRate.value
  {
    if scheme == "none" then 0.0
    else gross * (if customRate.Some? then customRate.value else SchemeEmployeeRate(scheme))
  }

  /** The employer's pension contribution, with the employer rate in place of the employee's. */
  function EmployerPension(scheme: string, customRate: Option<real>, gross: real): (p: real)
    ensures scheme == "none" ==> p == 0.0
    ensures scheme != "none" && customRate.Some? ==> p == gross * customRate.value
  {
    if scheme == "none" then 0.0
    else gross * (if customRate.Some? then customRate.value else SchemeEmployerRate(scheme))
  }

  /** Without an employee-specific rate, both contributions use the scheme's
    * entry in the approved table, or the auto-enrolment entry for an
    * unlisted scheme. */
  lemma PensionAtSchemeRates(scheme: string, gross: real)
    requires scheme != "none"
    ensures EmployeePension(scheme, None, gross) == gross * GetPensionSchemeInfo(scheme).employeeRate
    ensures EmployerPension(scheme, None, gross) == gross * GetPensionSchemeInfo(scheme).employerRate
  {
    var info := GetPensionSchemeInfo(scheme);
    assert info.employeeRate == SchemeEmployeeRate(scheme) && info.employerRate == SchemeEmployerRate(scheme);
  }

  /** A contribution at a rate between 0 and 1 is a share of gross pay. */
  lemma PensionWithinGross(scheme: string, customRate: Option<real>, gross: real)
    requires gross >= 0.0
    requires customRate.Some? ==> 0.0 <= customRate.value <= 1.0
    ensures 0.0 <= EmployeePension(scheme, customRate, gross) <= gross
    ensures 0.0 <= EmployerPension(scheme, customRate, gross) <= gross
  {
    if scheme != "none" {
      SchemeRatesBounded(scheme);
      var employeeRate := if customRate.Some? then customRate.value else SchemeEmployeeRate(scheme);
      var employerRate := if customRate.Some? then customRate.value else SchemeEmployerRate(scheme);
      assert EmployeePension(scheme, customRate, gross) == gross * employeeRate;
      assert EmployerPension(scheme, customRate, gross) == gross * employerRate;
      ShareOfGross(gross, employeeRate);
      ShareOfGross(gross, employerRate);
    }
  }

  lemma ShareOfGross(gross: real, rate: real)
    requires gross >= 0.0 && 0.0 <= rate <= 1.0
    ensures 0.0 <= gross * rate <= gross
  {
    assert gross * rate <= gross * 1.0 by {
      assert gross * (1.0 - rate) >= 0.0;
    }
  }

  /** Student-loan repayment for the period: 9% of gross pay above a twelfth of
    * the plan's threshold. An unknown plan name is charged as plan 2. */
  function StudentLoan(plan: Option<string>, periodGross: real): (s: real)
    ensures s >= 0.0
    ensures plan.None? || plan.value == "" || plan.value == "none" ==> s == 0.0
  {
    if plan.None? || plan.value == "" || plan.value == "none" then 0.0
    else
      LookupFinds(StudentLoanRates, plan.value);
      var threshold := match Lookup(StudentLoanThresholds, plan.value) case Some(t) => t case None => Plan2Threshold;
      var rate := match Lookup(StudentLoanRates, plan.value) case Some(r) => r case None => Plan2Rate;
      var monthlyThreshold := threshold / 12.0;
      if periodGross > monthlyThreshold then (periodGross - monthlyThreshold) * rate else 0.0
  }

  /** A plan name outside the table is charged exactly as plan 2. */
  lemma UnknownPlanIsPlan2(plan: string, periodGross: real)
    requires plan != "" && plan != "none" && Lookup(StudentLoanThresholds, plan).None?
    ensures StudentLoan(Some(plan), periodGross) == StudentLoan(Some("plan_2"), periodGross)
  {
    LookupFinds(StudentLoanThresholds, plan);
    LookupFinds(StudentLoanRates, plan);
    assert forall k :: 0 <= k < 4 ==> StudentLoanRates[k].0 == StudentLoanThresholds[k].0;
    LookupAt(StudentLoanThresholds, 1);
    LookupAt(StudentLoanRates, 1);
  }

  /** Repayment is zero up to the plan's monthly threshold and 9p per pound above it. */
  lemma StudentLoanThreshold(plan: string, threshold: real, periodGross: real)
    requires (plan, threshold) in StudentLoanThresholds
    ensures periodGross <= threshold / 12.0 ==> StudentLoan(Some(plan), periodGross) == 0.0
    ensures periodGross > threshold / 12.0 ==>
      StudentLoan(Some(plan), periodGross) == 0.09 * (periodGross - threshold / 12.0)
  {
    var k :| 0 <= k < 4 && StudentLoanThresholds[k] == (plan, threshold);
    LookupAt(StudentLoanThresholds, k);
    LookupAt(StudentLoanRates, k);
  }

  // -------------------------------------------------------------- the payslip

  /** Every figure of the payslip before rounding. */
  function ExactPayroll(e: CalcEmployee, annualSalary: real, p: PayInputs): (f: PayrollFigures)
    ensures f.grossPay == p.basicPay + p.overtimePay + p.bonusPay + p.otherPay
    ensures f.netPay == f.grossPay - f.payeTax - f.nationalInsurance - f.pensionContribution - f.studentLoan - f.otherDeductions
    ensures f.totalEmployerCost == f.grossPay + f.employerNi + f.employerPension
  {
    var gross := p.basicPay + p.overtimePay + p.bonusPay + p.otherPay;
    var tax := PayeTax(e.taxCode, annualSalary, gross);
    var ni := EmployeeNi(annualSalary);
    var pension := EmployeePension(e.pensionScheme, e.pensionContribution, gross);
    var loan := StudentLoan(e.studentLoanPlan, gross);
    var net := gross - tax - ni - pension - loan - p.otherDeductions;
    var employerNi := EmployerNi(annualSalary);
    var employerPension := EmployerPension(e.pensionScheme, e.employerPensionContribution, gross);
    PayrollFigures(gross, p.basicPay, p.overtimePay, p.bonusPay, p.otherPay,
      tax, ni, pension, loan, p.otherDeductions, net,
      employerNi, employerPension, gross + employerNi + employerPension)
  }

  function RoundFigures(f: PayrollFigures): PayrollFigures
  {
    PayrollFigures(Round2(f.grossPay), Round2(f.basicPay), Round2(f.overtimePay), Round2(f.bonusPay),
      Round2(f.otherPay), Round2(f.payeTax), Round2(f.nationalInsurance), Round2(f.pensionContribution),
      Round2(f.studentLoan), Round2(f.otherDeductions), Round2(f.netPay),
      Round2(f.employerNi), Round2(f.employerPension), Round2(f.totalEmployerCost))
  }

  predicate AllWholePence(f: PayrollFigures)
  {
    IsWholePence(f.grossPay) && IsWholePence(f.basicPay) && IsWholePence(f.overtimePay)
    && IsWholePence(f.bonusPay) && IsWholePence(f.otherPay) && IsWholePence(f.payeTax)
    && IsWholePence(f.nationalInsurance) && IsWholePence(f.pensionContribution)
    && IsWholePence(f.studentLoan) && IsWholePence(f.otherDeductions) && IsWholePence(f.netPay)
    && IsWholePence(f.employerNi) && IsWholePence(f.employerPension) && IsWholePence(f.totalEmployerCost)
  }

  /** Each figure of `f` is within half a penny of the same figure of `x`. */
  predicate WithinHalfPenny(f: PayrollFigures, x: PayrollFigures)
  {
    -0.005 <= f.grossPay - x.grossPay <= 0.005 && -0.005 <= f.basicPay - x.basicPay <= 0.005
    && -0.005 <= f.overtimePay - x.overtimePay <= 0.005 && -0.005 <= f.bonusPay - x.bonusPay <= 0.005
    && -0.005 <= f.otherPay - x.otherPay <= 0.005 && -0.005 <= f.payeTax - x.payeTax <= 0.005
    && -0.005 <= f.nationalInsurance - x.nationalInsurance <= 0.005
    && -0.005 <= f.pensionContribution - x.pensionContribution <= 0.005
    && -0.005 <= f.studentLoan - x.studentLoan <= 0.005
    && -0.005 <= f.otherDeductions - x.otherDeductions <= 0.005 && -0.005 <= f.netPay - x.netPay <= 0.005
    && -0.005 <= f.employerNi - x.employerNi <= 0.005 && -0.005 <= f.employerPension - x.employerPension <= 0.005
    && -0.005 <= f.totalEmployerCost - x.totalEmployerCost <= 0.005
  }

  /** The payslip as returned: every figure of the exact computation rounded
    * to the penny, each on its own (net pay is not re-derived from the
    * rounded parts). The source returns it only when every rounding stays
    * within the Decimal context (`FiguresQuantizable`); otherwise it raises. */
  function CalculatePayroll(e: CalcEmployee, annualSalary: real, p: PayInputs): (f: PayrollFigures)
    ensures AllWholePence(f)
    ensures WithinHalfPenny(f, ExactPayroll(e, annualSalary, p))
  {
    RoundFigures(ExactPayroll(e, annualSalary, p))
  }

  /** `round(x, 2)` quantizes to the penny, and quantizing raises
    * InvalidOperation when the result has more digits than the Decimal
    * context's precision of 28: from 10^26 pounds in magnitude. */
  const QuantizeBound: real := 100000000000000000000000000.0

  /** The rounded amount fits the Decimal context. */
  predicate Quantizable(rounded: real)
  {
    -QuantizeBound < rounded < QuantizeBound
  }

  /** Every rounded figure fits, so `calculate_payroll` returns instead of raising. */
  predicate FiguresQuantizable(f: PayrollFigures)
  {
    Quantizable(f.grossPay) && Quantizable(f.basicPay) && Quantizable(f.overtimePay)
    && Quantizable(f.bonusPay) && Quantizable(f.otherPay) && Quantizable(f.payeTax)
    && Quantizable(f.nationalInsurance) && Quantizable(f.pensionContribution)
    && Quantizable(f.studentLoan) && Quantizable(f.otherDeductions) && Quantizable(f.netPay)
    && Quantizable(f.employerNi) && Quantizable(f.employerPension) && Quantizable(f.totalEmployerCost)
  }

  /** A basic pay of 10^26 pounds rounds to 10^26, one digit too many for
    * the context: the calculation raises whatever the employee. */
  lemma HugeBasicPayRaises(e: CalcEmployee, annualSalary: real, p: PayInputs)
    requires p.basicPay == QuantizeBound
    ensures !FiguresQuantizable(CalculatePayroll(e, annualSalary, p))
  {
    Round2WholePence(QuantizeBound);
    PayComponentsRounded(e, annualSalary, p);
  }

  /** The pay components are each rounded on their own, and gross pay is
    * their exact sum rounded. */
  lemma PayComponentsRounded(e: CalcEmployee, annualSalary: real, p: PayInputs)
    ensures var f := CalculatePayroll(e, annualSalary, p);
      f.basicPay == Round2(p.basicPay) && f.overtimePay == Round2(p.overtimePay)
      && f.bonusPay == Round2(p.bonusPay) && f.otherPay == Round2(p.otherPay)
      && f.otherDeductions == Round2(p.otherDeductions)
      && f.grossPay == Round2(p.basicPay + p.overtimePay + p.bonusPay + p.otherPay)
  {
  }

  /** The rounded net pay differs from the rounded gross less the rounded
    * deductions by at most 3.5p (seven roundings of at most half a penny). */
  lemma RoundedNetNearRoundedParts(e: CalcEmployee, annualSalary: real, p: PayInputs)
    ensures var f := CalculatePayroll(e, annualSalary, p);
      var parts := f.grossPay - f.payeTax - f.nationalInsurance - f.pensionContribution - f.studentLoan - f.otherDeductions;
      -0.035 <= f.netPay - parts <= 0.035
  {
  }

  /** The unrounded figures of the worked example below. */
  lemma Salary35000Exact()
    ensures var x := ExactPayroll(CalcEmployee("1257L", "auto_enrolment", None, None, Some("plan_2")),
      35000.0, PayInputs(35000.0 / 12.0, 0.0, 0.0, 0.0, 0.0));
      x.payeTax == 4486.0 / 12.0 && x.nationalInsurance == 224.3 && x.pensionContribution == 1750.0 / 12.0
      && x.studentLoan == 693.45 / 12.0 && x.netPay == 2114.9125
      && x.employerNi == 297.85 && x.employerPension == 87.5
  {
    AnnualBandTaxIsStatutory(35000.0);
    LookupAt(StudentLoanThresholds, 1);
    LookupAt(StudentLoanRates, 1);
  }

  /** A worked 2024/25 example: £35,000 a year on 1257L with plan 2 student
    * loan and auto-enrolment. The figures are exact; the rounded net pay is
    * one penny below the rounded gross less the rounded deductions. */
  lemma Salary35000Payslip()
    ensures var e := CalcEmployee("1257L", "auto_enrolment", None, None, Some("plan_2"));
      var f := CalculatePayroll(e, 35000.0, PayInputs(35000.0 / 12.0, 0.0, 0.0, 0.0, 0.0));
      f.grossPay == 2916.67 && f.payeTax == 373.83 && f.nationalInsurance == 224.30
      && f.pensionContribution == 145.83 && f.studentLoan == 57.79 && f.netPay == 2114.91
      && f.employerNi == 297.85 && f.employerPension == 87.50 && f.totalEmployerCost == 3302.02
      && f.grossPay - f.payeTax - f.nationalInsurance - f.pensionContribution - f.studentLoan == 2114.92
  {
    var e := CalcEmployee("1257L", "auto_enrolment", None, None, Some("plan_2"));
    var p := PayInputs(35000.0 / 12.0, 0.0, 0.0, 0.0, 0.0);
    var x := ExactPayroll(e, 35000.0, p);
    Salary35000Exact();
    Salary35000Rounding();
    assert x.totalEmployerCost == 35000.0 / 12.0 + 297.85 + 87.5;
  }

  /** The roundings of the worked example's exact figures. */
  lemma Salary35000Rounding()
    ensures Round2(35000.0 / 12.0) == 2916.67 && Round2(4486.0 / 12.0) == 373.83 && Round2(224.3) == 224.30
    ensures Round2(1750.0 / 12.0) == 145.83 && Round2(693.45 / 12.0) == 57.79 && Round2(2114.9125) == 2114.91
    ensures Round2(297.85) == 297.85 && Round2(87.5) == 87.50 && Round2(35000.0 / 12.0 + 297.85 + 87.5) == 3302.02
  {
    assert RoundHalfEven(35000.0 / 12.0 * 100.0) == 291667;
    assert RoundHalfEven(4486.0 / 12.0 * 100.0) == 37383;
    assert RoundHalfEven(224.3 * 100.0) == 22430;
    assert RoundHalfEven(1750.0 / 12.0 * 100.0) == 14583;
    assert RoundHalfEven(693.45 / 12.0 * 100.0) == 5779;
    assert RoundHalfEven(2114.9125 * 100.0) == 211491;
    assert RoundHalfEven(297.85 * 100.0) == 29785;
    assert RoundHalfEven(87.5 * 100.0) == 8750;
    assert RoundHalfEven((35000.0 / 12.0 + 297.85 + 87.5) * 100.0) == 330202;
  }

  // -------------------------------------------------------------- validation

  const KnownTaxCodes: seq<string> :=
    ["BR", "D0", "D1", "NT", "SBR", "SD0", "SD1", "SNT", "1257L", "S1257L", "0T", "S0T"]

  /** Accepts the listed codes, a digit string followed by L, and the same with an S in front. */
  predicate ValidateTaxCode(taxCode: string): (ok: bool)
    ensures taxCode in KnownTaxCodes ==> ok
    ensures ok ==> |taxCode| >= 2
    ensures ok && taxCode !in KnownTaxCodes ==> taxCode[|taxCode| - 1] == 'L'
  {
    KnownTaxCodesLength(taxCode);
    |taxCode| > 0
    && (taxCode in KnownTaxCodes
        || (EndsWith(taxCode, "L") && AllDigits(taxCode[..|taxCode| - 1]))
        || (StartsWith(taxCode, "S") && EndsWith(taxCode[1..], "L") && AllDigits(taxCode[1..|taxCode| - 1])))
  }

  lemma KnownTaxCodesLength(taxCode: string)
    ensures taxCode in KnownTaxCodes ==> |taxCode| >= 2
  {
    forall k | 0 <= k < |KnownTaxCodes|
      ensures |KnownTaxCodes[k]| >= 2
    {
    }
  }

  /** Every allowance code written as a number followed by L, with or without
    * the Scottish S, is accepted. */
  lemma AllowanceCodesValid(allowance: nat)
    ensures ValidateTaxCode(NatToString(allowance) + "L")
    ensures ValidateTaxCode("S" + NatToString(allowance) + "L")
  {
    var digits := NatToString(allowance);
    var english := digits + "L";
    assert english[..|english| - 1] == digits;
    var scottish := "S" + digits + "L";
    assert scottish[1..] == english;
    assert scottish[1..|scottish| - 1] == digits;
  }

  /** A code the validator accepts is never empty and, unless it is one of the
    * listed codes, ends in L with digits before it. */
  lemma ValidTaxCodeShape(taxCode: string)
    requires ValidateTaxCode(taxCode) && taxCode !in KnownTaxCodes
    ensures |taxCode| >= 2 && taxCode[|taxCode| - 1] == 'L' && IsDigitChar(taxCode[|taxCode| - 2])
  {
    if EndsWith(taxCode, "L") && AllDigits(taxCode[..|taxCode| - 1]) {
      assert taxCode[..|taxCode| - 1][|taxCode| - 2] == taxCode[|taxCode| - 2];
    } else {
      var inner := taxCode[1..|taxCode| - 1];
      assert inner[|inner| - 1] == taxCode[|taxCode| - 2];
      assert taxCode[1..][|taxCode| - 2] == taxCode[|taxCode| - 1];
    }
  }

  const InvalidNiPrefixes: seq<string> := ["BG", "GB", "NK", "KN", "TN", "NT", "ZZ"]

  /** Spaces removed and letters upper-cased. */
  function NormaliseNi(ni: string): (r: string)
    ensures |r| <= |ni|
    ensures forall i :: 0 <= i < |r| ==> r[i] != ' ' && !IsLowerChar(r[i])
  {
    Upper(RemoveChar(ni, ' '))
  }

  /** Two letters, six digits, a letter, and not a reserved prefix. */
  predicate NiFormat(ni: string)
  {
    |ni| == 9 && AllAlpha(ni[0..2]) && AllDigits(ni[2..8]) && IsAlphaChar(ni[8])
    && ni[0..2] !in InvalidNiPrefixes
  }

  /** The payroll engine's NI check, which ignores spaces and letter case. */
  predicate ValidateNiNumber(ni: string): (ok: bool)
    ensures ok ==> |NormaliseNi(ni)| == 9 && |ni| >= 9
  {
    |ni| > 0 && NiFormat(NormaliseNi(ni))
  }

  lemma NormaliseNiIdempotent(ni: string)
    ensures NormaliseNi(NormaliseNi(ni)) == NormaliseNi(ni)
  {
    var r := NormaliseNi(ni);
    assert RemoveChar(r, ' ') == r by {
      RemoveCharAbsent(r, ' ');
    }
  }

  lemma {:induction false} RemoveCharAbsent(s: string, c: char)
    requires forall i :: 0 <= i < |s| ==> s[i] != c
    ensures RemoveChar(s, c) == s
  {
    if |s| > 0 {
      RemoveCharAbsent(s[1..], c);
    }
  }

  /** Checking a number already normalised gives the same answer. */
  lemma ValidateNiNumberNormalised(ni: string)
    ensures ValidateNiNumber(ni) ==> ValidateNiNumber(NormaliseNi(ni))
    ensures |NormaliseNi(ni)| > 0 && ValidateNiNumber(NormaliseNi(ni)) ==> ValidateNiNumber(ni)
  {
    NormaliseNiIdempotent(ni);
  }

  /** A well-formed number with an unreserved prefix is accepted. */
  lemma NiNumberAccepted()
    ensures ValidateNiNumber("AB123456C")
  {
    WellFormedExample();
    NormalisesTo("AB123456C", "AB123456C");
  }

  lemma WellFormedExample()
    ensures NiFormat("AB123456C")
  {
    var good := "AB123456C";
    assert good[2..8] == "123456" && AllDigits("123456");
    assert good[0..2] == "AB" && AllAlpha("AB");
    PrefixOutsideReserved(good[0..2]);
  }

  lemma PrefixOutsideReserved(prefix: string)
    requires |prefix| == 2 && prefix[0] == 'A'
    ensures prefix !in InvalidNiPrefixes
  {
    forall k | 0 <= k < |InvalidNiPrefixes|
      ensures InvalidNiPrefixes[k][0] != 'A'
    {
    }
  }

  /** A reserved prefix is refused. */
  lemma NiNumberReservedPrefix()
    ensures !ValidateNiNumber("GB123456A")
  {
    NormalisesTo("GB123456A", "GB123456A");
    var reserved := "GB123456A";
    assert reserved[0..2] == "GB";
  }

  lemma NormalisesTo(ni: string, expected: string)
    requires forall i :: 0 <= i < |ni| ==> ni[i] != ' '
    requires |ni| == |expected| && forall i :: 0 <= i < |ni| ==> UpperChar(ni[i]) == expected[i]
    ensures NormaliseNi(ni) == expected
  {
    RemoveCharAbsent(ni, ' ');
  }

  /** Whether the scheme is one of the table's entries. */
  predicate ValidatePensionScheme(scheme: string): (ok: bool)
    ensures ok <==> exists k :: 0 <= k < |PensionSchemes| && PensionSchemes[k].0 == scheme
  {
    LookupFinds(PensionSchemes, scheme);
    Lookup(PensionSchemes, scheme).Some?
  }

  /** The scheme's entry, or the auto-enrolment entry for a scheme not in the table. */
  function GetPensionSchemeInfo(scheme: string): (info: SchemeInfo)
    ensures ValidatePensionScheme(scheme) ==> (scheme, info) in PensionSchemes
    ensures !ValidatePensionScheme(scheme) ==> info == AutoEnrolment
    ensures info.employeeRate == SchemeEmployeeRate(scheme)
    ensures info.employerRate == SchemeEmployerRate(scheme)
  {
    LookupFinds(PensionSchemes, scheme);
    match Lookup(PensionSchemes, scheme)
    case Some(info) => info
    case None => AutoEnrolment
  }

  /** No scheme's rates exceed the auto-enrolment rates of 5% and 3%. */
  lemma SchemeRatesBounded(scheme: string)
    ensures var info := GetPensionSchemeInfo(scheme);
      0.0 <= info.employeeRate <= 0.05 && 0.0 <= info.employerRate <= 0.03
  {
    var info := GetPensionSchemeInfo(scheme);
    if ValidatePensionScheme(scheme) {
      var k :| 0 <= k < |PensionSchemes| && PensionSchemes[k] == (scheme, info);
      assert k < 10 || k == 10;
    }
  }
}
