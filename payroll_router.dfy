// Payroll endpoints (backend/routers/payroll.py): calculating one payslip,
// the batch run that isolates each employee's failure and then writes a
// BACS file from the payslips it stored, the one-way RTI submission flag,
// and the company payroll summary.

module PayrollRouter {
  import opened Strings
  import opened Tables
  import opened CompanyRouter
  import PayrollCalc
  import Gdpr
  import Hmrc
  import Bacs

  /** A Python float: a real number, or an infinity or NaN. */
  datatype Float = Finite(value: real) | NonFinite

  /** The `Employee` columns the payroll endpoints read. */
  datatype Employee = Employee(
    id: int, companyId: int, isActive: bool, niNumber: string,
    salary: Float, taxCode: string, pensionScheme: string, pensionContribution: Option<real>)

  /** The money columns of a payslip row. */
  datatype PayslipAmounts = PayslipAmounts(
    grossPay: real, basicPay: real, overtimePay: real, bonusPay: real, otherPay: real,
    payeTax: real, nationalInsurance: real, pensionContribution: real, studentLoan: real,
    otherDeductions: real, netPay: real)

  /** A stored payslip; dates are day numbers. */
  datatype Payslip = Payslip(
    id: int, employeeId: int, payPeriodStart: int, payPeriodEnd: int, payDate: int,
    amounts: PayslipAmounts, rtiSubmitted: bool, rtiReference: Option<string>)

  /** The pay components of a request; `PayslipCreate` has no other deductions. */
  datatype PayComponents = PayComponents(basicPay: Float, overtimePay: Float, bonusPay: Float, otherPay: Float)

  datatype PayslipRequest = PayslipRequest(
    employeeId: int, payPeriodStart: int, payPeriodEnd: int, payDate: int, pay: PayComponents)

  const ActiveEmployeeNotFound := "Active employee not found"
  const CalculationFailed := "Payroll calculation failed"
  const NoActiveEmployees := "No active employees found for this company"
  const PayslipNotFound := "Payslip not found"
  const RtiAlreadySubmitted := "RTI already submitted for this payslip"
  const InternalServerError := "Internal Server Error"

  // ------------------------------------------------------------ calculation

  /** The employee as the calculation reads it: the row has neither a
      student-loan plan nor an employer pension rate, so both read as absent. */
  function CalcView(e: Employee): (c: PayrollCalc.CalcEmployee)
    ensures c.studentLoanPlan.None? && c.employerPensionContribution.None?
    ensures c.taxCode == e.taxCode && c.pensionScheme == e.pensionScheme
  {
    PayrollCalc.CalcEmployee(e.taxCode, e.pensionScheme, e.pensionContribution, None, None)
  }

  predicate AllFinite(e: Employee, pay: PayComponents)
  {
    e.salary.Finite? && pay.basicPay.Finite? && pay.overtimePay.Finite? && pay.bonusPay.Finite? && pay.otherPay.Finite?
  }

  /** The calculation's inputs, once every amount is finite. */
  function Inputs(pay: PayComponents): PayrollCalc.PayInputs
    requires pay.basicPay.Finite? && pay.overtimePay.Finite? && pay.bonusPay.Finite? && pay.otherPay.Finite?
  {
    PayrollCalc.PayInputs(pay.basicPay.value, pay.overtimePay.value, pay.bonusPay.value, pay.otherPay.value, 0.0)
  }

  /** `calculate_payroll` returns: every amount is finite (Decimal rounding
      and comparison raise on an infinity or NaN) and every rounded figure
      fits the Decimal context. */
  predicate Calculable(e: Employee, pay: PayComponents)
  {
    AllFinite(e, pay)
    && PayrollCalc.FiguresQuantizable(PayrollCalc.CalculatePayroll(CalcView(e), e.salary.value, Inputs(pay)))
  }

  /** `calculate_payroll` on an employee row, or nothing when it raises. */
  function Calculation(e: Employee, pay: PayComponents): (r: Option<PayrollCalc.PayrollFigures>)
    ensures r.Some? <==> Calculable(e, pay)
    ensures r.Some? ==> var f := r.value;
      f.basicPay == PayrollCalc.Round2(pay.basicPay.value) && f.overtimePay == PayrollCalc.Round2(pay.overtimePay.value)
      && f.bonusPay == PayrollCalc.Round2(pay.bonusPay.value) && f.otherPay == PayrollCalc.Round2(pay.otherPay.value)
      && f.otherDeductions == 0.0
      && f.grossPay == PayrollCalc.Round2(pay.basicPay.value + pay.overtimePay.value + pay.bonusPay.value + pay.otherPay.value)
  {
    if Calculable(e, pay) then
      PayrollCalc.PayComponentsRounded(CalcView(e), e.salary.value, Inputs(pay));
      PayrollCalc.Round2WholePence(0.0);
      Some(PayrollCalc.CalculatePayroll(CalcView(e), e.salary.value, Inputs(pay)))
    else None
  }

  /** A request with finite amounts still fails when its basic pay is 10^26
      pounds: rounding it raises, and the endpoint answers 400. */
  lemma HugeBasicPayNotCalculated(e: Employee, pay: PayComponents)
    requires AllFinite(e, pay) && pay.basicPay.value == PayrollCalc.QuantizeBound
    ensures Calculation(e, pay).None?
  {
    PayrollCalc.HugeBasicPayRaises(CalcView(e), e.salary.value, Inputs(pay));
  }

  /** The figures of a calculation that have a payslip column. */
  function Columns(f: PayrollCalc.PayrollFigures): PayslipAmounts
  {
    PayslipAmounts(f.grossPay, f.basicPay, f.overtimePay, f.bonusPay, f.otherPay,
      f.payeTax, f.nationalInsurance, f.pensionContribution, f.studentLoan, f.otherDeductions, f.netPay)
  }

  // ---------------------------------------------- constructing a payslip row

  /** The attributes of the `Payslip` model: its columns and its relationship. */
  const PayslipAttributes: set<string> := {
    "id", "employee_id", "pay_period_start", "pay_period_end", "pay_date",
    "basic_pay", "overtime_pay", "bonus_pay", "other_pay", "gross_pay",
    "paye_tax", "national_insurance", "pension_contribution", "student_loan",
    "other_deductions", "net_pay", "rti_submitted", "rti_reference",
    "created_at", "updated_at", "employee"}

  /** The keys of the payslip dictionary before the calculation is merged in. */
  const RequestKeys: set<string> := {
    "employee_id", "pay_period_start", "pay_period_end", "pay_date",
    "basic_pay", "overtime_pay", "bonus_pay", "other_pay"}

  /** The keys of the dictionary `calculate_payroll` returns. */
  const ResultKeys: set<string> := {
    "gross_pay", "basic_pay", "overtime_pay", "bonus_pay", "other_pay",
    "paye_tax", "national_insurance", "pension_contribution", "student_loan",
    "other_deductions", "net_pay", "employer_ni", "employer_pension", "total_employer_cost"}

  const EmployerCostKeys: set<string> := {"employer_ni", "employer_pension", "total_employer_cost"}

  /** The keys passed to `Payslip(**payslip_dict)` as written. */
  const AsWrittenKeys: set<string> := RequestKeys + ResultKeys

  /** The keys passed once the employer's costs are left out of the row. */
  const StoredKeys: set<string> := RequestKeys + (ResultKeys - EmployerCostKeys)

  /** `Payslip(**kwargs)`: the declarative constructor raises on a keyword
      that is not an attribute of the model. */
  function NewPayslip(keys: set<string>, id: int, employeeId: int, start: int, end: int, payDate: int,
                      f: PayrollCalc.PayrollFigures): (r: Option<Payslip>)
    ensures r.Some? <==> keys <= PayslipAttributes
    ensures r.Some? ==> r.value.amounts == Columns(f) && r.value.id == id && r.value.employeeId == employeeId
    ensures r.Some? ==> !r.value.rtiSubmitted && r.value.rtiReference.None?
  {
    if keys <= PayslipAttributes then Some(Payslip(id, employeeId, start, end, payDate, Columns(f), false, None))
    else None
  }

  /** The calculation's employer figures have no column, so the row as
      written is refused whatever the figures are. */
  lemma AsWrittenKeysRejected()
    ensures "employer_ni" in AsWrittenKeys && "employer_ni" !in PayslipAttributes
    ensures !(AsWrittenKeys <= PayslipAttributes)
  {
    assert "employer_ni" in ResultKeys;
  }

  /** Without the employer's figures every key names a column. */
  lemma StoredKeysAccepted()
    ensures StoredKeys <= PayslipAttributes
  {
    forall k | k in StoredKeys ensures k in PayslipAttributes {
      assert k in RequestKeys || k in ResultKeys - EmployerCostKeys;
    }
  }

  // --------------------------------------------------------- one payslip

  function ActiveEmployee(employees: seq<Employee>, employeeId: int): (r: Option<Employee>)
    ensures r.Some? ==> r.value in employees && r.value.id == employeeId && r.value.isActive
    ensures r.None? <==> forall k :: 0 <= k < |employees| ==> !(employees[k].id == employeeId && employees[k].isActive)
  {
    match FirstMatch(employees, (e: Employee) => e.id == employeeId && e.isActive)
    case None => None
    case Some(i) => Some(employees[i])
  }

  /** `calculate_payslip` for a row built from `keys`: 404 without an active
      employee, 400 when the calculation raises, 500 when the constructor
      raises (outside the handler), else the new row. */
  function CalculatePayslipStep(employees: seq<Employee>, request: PayslipRequest, keys: set<string>, id: int)
    : (r: Response<Payslip>)
    ensures r == HttpError(404, ActiveEmployeeNotFound) <==> ActiveEmployee(employees, request.employeeId).None?
    ensures r == HttpError(400, CalculationFailed) <==>
      ActiveEmployee(employees, request.employeeId).Some? && !Calculable(ActiveEmployee(employees, request.employeeId).value, request.pay)
    ensures r.Success? <==>
      ActiveEmployee(employees, request.employeeId).Some? && Calculable(ActiveEmployee(employees, request.employeeId).value, request.pay)
      && keys <= PayslipAttributes
    ensures r.Success? ==> (r.status == 201 && r.value.id == id && r.value.employeeId == request.employeeId
      && r.value.amounts == Columns(Calculation(ActiveEmployee(employees, request.employeeId).value, request.pay).value)
      && !r.value.rtiSubmitted)
  {
    match ActiveEmployee(employees, request.employeeId)
    case None => HttpError(404, ActiveEmployeeNotFound)
    case Some(e) =>
      match Calculation(e, request.pay)
      case None => HttpError(400, CalculationFailed)
      case Some(f) =>
        match NewPayslip(keys, id, e.id, request.payPeriodStart, request.payPeriodEnd, request.payDate, f)
        case None => HttpError(500, InternalServerError)
        case Some(p) => Success(201, p)
  }

  /** As written, a calculated payslip is never stored: the endpoint answers
      500 wherever the calculation succeeds. */
  lemma CalculatePayslipAsWrittenNeverStores(employees: seq<Employee>, request: PayslipRequest, id: int)
    ensures !CalculatePayslipStep(employees, request, AsWrittenKeys, id).Success?
    ensures (ActiveEmployee(employees, request.employeeId).Some? &&
               Calculable(ActiveEmployee(employees, request.employeeId).value, request.pay)) ==>
      CalculatePayslipStep(employees, request, AsWrittenKeys, id) == HttpError(500, InternalServerError)
  {
    AsWrittenKeysRejected();
  }

  // ------------------------------------------------------------ the batch

  /** The batch's pay: a twelfth of the annual salary as basic pay, nothing else. */
  function BatchPay(e: Employee): PayComponents
  {
    PayComponents(if e.salary.Finite? then Finite(e.salary.value / 12.0) else NonFinite,
      Finite(0.0), Finite(0.0), Finite(0.0))
  }

  /** The batch's calculation for the employee returns: a finite salary
      whose twelfth, and every figure computed from it, fits the context. */
  predicate BatchSucceeds(e: Employee) { Calculable(e, BatchPay(e)) }

  /** One employee of the batch: a row, or nothing when the calculation or
      the constructor raises. */
  function BatchPayslip(e: Employee, start: int, end: int, payDate: int, keys: set<string>, id: int)
    : (r: Option<Payslip>)
    ensures r.Some? <==> BatchSucceeds(e) && keys <= PayslipAttributes
  {
    match Calculation(e, BatchPay(e))
    case None => None
    case Some(f) => NewPayslip(keys, id, e.id, start, end, payDate, f)
  }

  /** The rows a batch adds, ids handed out from `firstId` in order. */
  function BatchPayslips(batch: seq<Employee>, start: int, end: int, payDate: int, keys: set<string>, firstId: int)
    : (r: seq<Payslip>)
    ensures |r| <= |batch|
  {
    CollectNumbered(batch, BatchStep(start, end, payDate, keys), firstId)
  }

  /** `BatchPayslip` for a given period and key set, as a function of the
      employee and the id. */
  function BatchStep(start: int, end: int, payDate: int, keys: set<string>): (Employee, int) -> Option<Payslip>
  {
    (e, id) => BatchPayslip(e, start, end, payDate, keys, id)
  }

  /** The figures the batch computes for an employee whose calculation succeeds. */
  function BatchFigures(e: Employee): PayrollCalc.PayrollFigures
    requires BatchSucceeds(e)
  {
    Calculation(e, BatchPay(e)).value
  }

  /** The row the batch stores for an employee whose calculation succeeds. */
  function BatchRow(e: Employee, start: int, end: int, payDate: int, id: int): Payslip
    requires BatchSucceeds(e)
  {
    Payslip(id, e.id, start, end, payDate, Columns(BatchFigures(e)), false, None)
  }

  /** The batch's calculation pays a twelfth of the salary, rounded, as basic pay ... */
  lemma BatchFiguresPay(e: Employee)
    requires BatchSucceeds(e)
    ensures BatchFigures(e).basicPay == PayrollCalc.Round2(e.salary.value / 12.0)
  {
  }

  /** ... and its gross pay is that same twelfth, rounded. */
  lemma BatchFiguresGross(e: Employee)
    requires BatchSucceeds(e)
    ensures BatchFigures(e).grossPay == PayrollCalc.Round2(e.salary.value / 12.0)
  {
    var s := e.salary.value;
    assert s / 12.0 + 0.0 + 0.0 + 0.0 == s / 12.0;
  }

  /** The batch's calculation pays nothing as overtime, bonus or other pay
      and deducts nothing else. */
  lemma BatchFiguresNoExtras(e: Employee)
    requires BatchSucceeds(e)
    ensures var f := BatchFigures(e);
      f.overtimePay == 0.0 && f.bonusPay == 0.0 && f.otherPay == 0.0 && f.otherDeductions == 0.0
  {
    PayrollCalc.Round2WholePence(0.0);
  }

  /** Each batch row is paid a twelfth of the salary as basic pay, which is
      also its gross pay, and nothing as overtime, bonus or other pay. */
  lemma BatchRowPay(e: Employee, start: int, end: int, payDate: int, id: int)
    requires BatchSucceeds(e)
    ensures var a := BatchRow(e, start, end, payDate, id).amounts;
      a.basicPay == PayrollCalc.Round2(e.salary.value / 12.0) && a.grossPay == a.basicPay
      && a.overtimePay == 0.0 && a.bonusPay == 0.0 && a.otherPay == 0.0 && a.otherDeductions == 0.0
  {
    BatchFiguresPay(e);
    BatchFiguresGross(e);
    BatchFiguresNoExtras(e);
  }

  /** A salary of 1.2 * 10^27 pounds is skipped: its twelfth, 10^26, is too
      wide to round. */
  lemma HugeSalarySkipped(e: Employee)
    requires e.salary == Finite(12.0 * PayrollCalc.QuantizeBound)
    ensures !BatchSucceeds(e)
  {
    HugeBasicPayNotCalculated(e, BatchPay(e));
  }

  /** With storable rows, an employee whose calculation succeeds gets its
      row and any other employee is skipped. */
  lemma BatchPayslipStored(e: Employee, start: int, end: int, payDate: int, id: int)
    ensures BatchSucceeds(e) ==> BatchPayslip(e, start, end, payDate, StoredKeys, id) == Some(BatchRow(e, start, end, payDate, id))
    ensures !BatchSucceeds(e) ==> BatchPayslip(e, start, end, payDate, StoredKeys, id) == None
  {
    StoredKeysAccepted();
  }

  /** With storable rows, the batch stores exactly the employees whose
      calculation succeeds, in input order, with consecutive ids. */
  lemma BatchStoresSuccessfulEmployees(batch: seq<Employee>, start: int, end: int, payDate: int, firstId: int)
    ensures var created := BatchPayslips(batch, start, end, payDate, StoredKeys, firstId);
      var succeeded := Filter(batch, BatchSucceeds);
      |created| == |succeeded|
      && forall k :: 0 <= k < |created| ==> created[k] == BatchRow(succeeded[k], start, end, payDate, firstId + k)
  {
    StoredKeysAccepted();
    CollectNumberedFiltered(batch, BatchStep(start, end, payDate, StoredKeys), BatchSucceeds, firstId);
    forall k | 0 <= k < |Filter(batch, BatchSucceeds)|
      ensures BatchPayslips(batch, start, end, payDate, StoredKeys, firstId)[k]
        == BatchRow(Filter(batch, BatchSucceeds)[k], start, end, payDate, firstId + k)
    {
      BatchStoredRow(batch, start, end, payDate, firstId, k);
    }
  }

  /** The k-th row the batch stores is the row of the k-th employee whose calculation succeeds. */
  lemma BatchStoredRow(batch: seq<Employee>, start: int, end: int, payDate: int, firstId: int, k: int)
    requires 0 <= k < |Filter(batch, BatchSucceeds)|
    ensures var created := BatchPayslips(batch, start, end, payDate, StoredKeys, firstId);
      k < |created| && created[k] == BatchRow(Filter(batch, BatchSucceeds)[k], start, end, payDate, firstId + k)
  {
    StoredKeysAccepted();
    CollectNumberedFiltered(batch, BatchStep(start, end, payDate, StoredKeys), BatchSucceeds, firstId);
    BatchPayslipStored(Filter(batch, BatchSucceeds)[k], start, end, payDate, firstId + k);
  }

  /** As written, the batch stores nothing at all. */
  lemma BatchAsWrittenStoresNothing(batch: seq<Employee>, start: int, end: int, payDate: int, firstId: int)
    ensures BatchPayslips(batch, start, end, payDate, AsWrittenKeys, firstId) == []
  {
    var none := (e: Employee) => false;
    AsWrittenKeysRejected();
    CollectNumberedFiltered(batch, BatchStep(start, end, payDate, AsWrittenKeys), none, firstId);
    FilterNothing(batch, none);
  }

  /** The BACS view of a stored payslip. */
  function BacsPayslip(p: Payslip): (b: Bacs.Payslip)
    ensures b.id == p.id && b.employeeId == p.employeeId && b.netPay == p.amounts.netPay
  {
    Bacs.Payslip(p.id, p.employeeId, p.amounts.netPay)
  }

  function BacsPayslips(ps: seq<Payslip>): (r: seq<Bacs.Payslip>)
    ensures |r| == |ps|
    ensures forall k :: 0 <= k < |ps| ==> r[k] == BacsPayslip(ps[k])
  {
    seq(|ps|, k requires 0 <= k < |ps| => BacsPayslip(ps[k]))
  }

  /** As written, the batch's BACS file holds a header and a trailer only,
      which the BACS validator rejects. */
  lemma BatchAsWrittenFileRejected(batch: seq<Employee>, start: int, end: int, payDate: int, firstId: int,
                                   companyId: int, processingDate: Bacs.Date)
    ensures var created := BatchPayslips(batch, start, end, payDate, AsWrittenKeys, firstId);
      Bacs.CheckLines(Bacs.WrittenLines(Bacs.BacsDataFor(BacsPayslips(created), companyId, processingDate)))
        == Bacs.FileCheck(false, [Bacs.TooFewLinesMessage], None)
  {
    BatchAsWrittenStoresNothing(batch, start, end, payDate, firstId);
    assert BacsPayslips([]) == [];
    Bacs.EmptyBatchFileRejected(companyId, processingDate);
  }

  /** One employee whose calculation succeeds is enough for a stored row. */
  lemma BatchStoresSome(batch: seq<Employee>, start: int, end: int, payDate: int, firstId: int, k: int)
    requires 0 <= k < |batch| && BatchSucceeds(batch[k])
    ensures |BatchPayslips(batch, start, end, payDate, StoredKeys, firstId)| > 0
  {
    BatchStoresSuccessfulEmployees(batch, start, end, payDate, firstId);
    assert batch[k] in Filter(batch, BatchSucceeds);
  }

  /** With storable rows, a batch in which at least one calculation
      succeeds writes a BACS file that validates, with one detail record per
      stored payslip. */
  lemma BatchFileValidates(batch: seq<Employee>, start: int, end: int, payDate: int, firstId: int,
                           companyId: int, processingDate: Bacs.Date)
    requires exists k :: 0 <= k < |batch| && BatchSucceeds(batch[k])
    ensures var created := BatchPayslips(batch, start, end, payDate, StoredKeys, firstId);
      Bacs.CheckLines(Bacs.WrittenLines(Bacs.BacsDataFor(BacsPayslips(created), companyId, processingDate)))
        == Bacs.FileCheck(true, [], Some(Bacs.Counts(|created| + 2, |created|)))
  {
    var k :| 0 <= k < |batch| && BatchSucceeds(batch[k]);
    BatchStoresSome(batch, start, end, payDate, firstId, k);
    var created := BatchPayslips(batch, start, end, payDate, StoredKeys, firstId);
    Bacs.GeneratedFileValidates(BacsPayslips(created), companyId, processingDate);
  }

  // --------------------------------------------------------------- RTI

  /** The RTI return `submit_rti` sends: the NI number masked, the pay
      period as ISO dates without a time zone. */
  function RtiDataFor(e: Employee, c: Company, p: Payslip): (d: Hmrc.RtiData)
    ensures d.employee.Some? && d.employee.value.niNumber == Some(Gdpr.Mask(e.niNumber))
  {
    Hmrc.RtiData(
      Some(Hmrc.RtiEmployee(Some(Gdpr.Mask(e.niNumber)), Some(e.taxCode),
        Some(Hmrc.Number(p.amounts.grossPay)), Some(Hmrc.Number(p.amounts.payeTax)),
        Some(Hmrc.Number(p.amounts.nationalInsurance)))),
      Some(Hmrc.RtiCompany(Some(c.data.registrationNumber), Some(c.data.taxOffice))),
      Some(Hmrc.PayPeriod(Some(Hmrc.IsoDate(p.payPeriodStart * Hmrc.SecondsPerDay, false)),
        Some(Hmrc.IsoDate(p.payPeriodEnd * Hmrc.SecondsPerDay, false)))))
  }

  /** Every return of an employee with a nine-character NI number reaches
      HMRC masked and is not accepted, although the endpoint reports it as
      accepted and marks the payslip submitted. */
  lemma RtiReturnNeverAccepted(e: Employee, c: Company, p: Payslip, reference: string)
    requires |e.niNumber| == 9
    ensures Hmrc.SubmitRtiReturn(RtiDataFor(e, c, p), reference).status != Hmrc.Accepted
  {
    Hmrc.MaskedSubmissionNotAccepted(RtiDataFor(e, c, p), reference);
  }

  datatype RtiReceipt = RtiReceipt(message: string, rtiReference: string, status: string)

  /** The body of `submit_rti`'s handler: the return goes to HMRC, and
      whatever HMRC answers the payslip is marked submitted with the
      reference HMRC gives back, and the receipt reports acceptance. */
  method SendRtiReturn(e: Employee, c: Company, p: Payslip, reference: string)
    returns (updated: Payslip, receipt: RtiReceipt)
    ensures updated == p.(rtiSubmitted := true, rtiReference := Some(reference))
    ensures receipt == RtiReceipt("RTI submitted successfully", reference, "accepted")
  {
    var response := Hmrc.SubmitRtiReturn(RtiDataFor(e, c, p), reference);
    updated := p.(rtiSubmitted := true, rtiReference := Some(response.reference));
    receipt := RtiReceipt("RTI submitted successfully", response.reference, "accepted");
  }

  // ------------------------------------------------------------ summary

  /** The period filter applies only when both bounds are given. */
  datatype PeriodQuery = PeriodQuery(start: Option<int>, end: Option<int>)

  predicate InPeriod(q: PeriodQuery, p: Payslip)
  {
    q.start.Some? && q.end.Some? ==> p.payPeriodStart >= q.start.value && p.payPeriodEnd <= q.end.value
  }

  /** The join on `Employee`: the payslip's employee belongs to the company. */
  predicate InCompany(employees: seq<Employee>, companyId: int, p: Payslip)
  {
    exists k :: 0 <= k < |employees| && employees[k].id == p.employeeId && employees[k].companyId == companyId
  }

  /** The rows `get_payroll_summary`'s query keeps. */
  function SummaryQuery(employees: seq<Employee>, companyId: int, q: PeriodQuery): Payslip -> bool
  {
    (p: Payslip) => InCompany(employees, companyId, p) && InPeriod(q, p)
  }

  datatype Totals = Totals(grossPay: real, payeTax: real, nationalInsurance: real, pensionContributions: real, netPay: real)

  function AddPayslip(t: Totals, p: Payslip): Totals
  {
    Totals(t.grossPay + p.amounts.grossPay, t.payeTax + p.amounts.payeTax,
      t.nationalInsurance + p.amounts.nationalInsurance,
      t.pensionContributions + p.amounts.pensionContribution, t.netPay + p.amounts.netPay)
  }

  const NoTotals := Totals(0.0, 0.0, 0.0, 0.0, 0.0)

  function SumTotals(ps: seq<Payslip>): Totals
  {
    if |ps| == 0 then NoTotals else AddPayslip(SumTotals(ps[..|ps| - 1]), ps[|ps| - 1])
  }

  function Combine(a: Totals, b: Totals): Totals
  {
    Totals(a.grossPay + b.grossPay, a.payeTax + b.payeTax, a.nationalInsurance + b.nationalInsurance,
      a.pensionContributions + b.pensionContributions, a.netPay + b.netPay)
  }

  /** Totals are additive: summing two runs of payslips one after the other
      gives the combined totals of each. */
  lemma {:induction false} SumTotalsAppend(a: seq<Payslip>, b: seq<Payslip>)
    ensures SumTotals(a + b) == Combine(SumTotals(a), SumTotals(b))
  {
    if |b| == 0 {
      assert a + b == a;
    } else {
      var init := b[..|b| - 1];
      SumTotalsAppend(a, init);
      assert (a + b)[..|a + b| - 1] == a + init;
    }
  }

  function CountSubmitted(ps: seq<Payslip>): (n: nat)
    ensures n <= |ps|
  {
    if |ps| == 0 then 0 else CountSubmitted(ps[..|ps| - 1]) + if ps[|ps| - 1].rtiSubmitted then 1 else 0
  }

  function CountPending(ps: seq<Payslip>): (n: nat)
    ensures n <= |ps|
  {
    if |ps| == 0 then 0 else CountPending(ps[..|ps| - 1]) + if ps[|ps| - 1].rtiSubmitted then 0 else 1
  }

  /** One more matching payslip adds its amounts to the totals and counts
      once, as submitted or as pending. */
  lemma SummaryStep(ps: seq<Payslip>, p: Payslip)
    ensures SumTotals(ps + [p]) == AddPayslip(SumTotals(ps), p)
    ensures CountSubmitted(ps + [p]) == CountSubmitted(ps) + if p.rtiSubmitted then 1 else 0
    ensures CountPending(ps + [p]) == CountPending(ps) + if p.rtiSubmitted then 0 else 1
  {
    assert (ps + [p])[..|ps|] == ps;
  }

  /** Every matching payslip is either submitted or pending. */
  lemma {:induction false} SubmittedPlusPending(ps: seq<Payslip>)
    ensures CountSubmitted(ps) + CountPending(ps) == |ps|
  {
    if |ps| > 0 {
      SubmittedPlusPending(ps[..|ps| - 1]);
    }
  }

  datatype PayrollSummary = PayrollSummary(
    companyId: int, companyName: string, totalEmployees: nat, totals: Totals, submitted: nat, pending: nat)

  /** The summary over the payslips the query matched. */
  function SummaryOf(c: Company, matching: seq<Payslip>): (s: PayrollSummary)
    ensures s.submitted + s.pending == s.totalEmployees == |matching|
  {
    SubmittedPlusPending(matching);
    PayrollSummary(c.id, c.data.name, |matching|, SumTotals(matching), CountSubmitted(matching), CountPending(matching))
  }

  /** The loop of `get_payroll_summary` over the payslips its query keeps:
      their totals and how many have and have not been sent to HMRC. */
  method SummariseRows(rows: seq<Payslip>, matches: Payslip -> bool)
    returns (matching: seq<Payslip>, totals: Totals, submitted: int, pending: int)
    ensures matching == Filter(rows, matches)
    ensures totals == SumTotals(matching)
    ensures submitted == CountSubmitted(matching) && pending == CountPending(matching)
  {
    matching, totals, submitted, pending := [], NoTotals, 0, 0;
    for i := 0 to |rows|
      invariant matching == Filter(rows[..i], matches)
      invariant totals == SumTotals(matching)
      invariant submitted == CountSubmitted(matching) && pending == CountPending(matching)
    {
      var p := rows[i];
      assert rows[..i + 1] == rows[..i] + [p];
      FilterSnoc(rows[..i], p, matches);
      if matches(p) {
        SummaryStep(matching, p);
        matching := matching + [p];
        totals := AddPayslip(totals, p);
        if p.rtiSubmitted {
          submitted := submitted + 1;
        } else {
          pending := pending + 1;
        }
      }
    }
    assert rows[..|rows|] == rows;
  }

  // ------------------------------------------------------------ RTI rows

  /** The row `submit_rti` finds for a payslip id: the first with that id. */
  function PayslipIndex(payslips: seq<Payslip>, payslipId: int): (r: Option<nat>)
    ensures r.None? <==> forall k :: 0 <= k < |payslips| ==> payslips[k].id != payslipId
    ensures r.Some? ==> r.value < |payslips| && payslips[r.value].id == payslipId
    ensures r.Some? ==> forall k :: 0 <= k < r.value ==> payslips[k].id != payslipId
  {
    FirstMatch(payslips, (p: Payslip) => p.id == payslipId)
  }

  /** The employee row `submit_rti` reads for a payslip: the first with its id. */
  function EmployeeIndex(employees: seq<Employee>, employeeId: int): (r: Option<nat>)
    ensures r.None? <==> forall k :: 0 <= k < |employees| ==> employees[k].id != employeeId
    ensures r.Some? ==> r.value < |employees| && employees[r.value].id == employeeId
  {
    FirstMatch(employees, (e: Employee) => e.id == employeeId)
  }

  /** The company row `submit_rti` reads for an employee: the first with its id. */
  function CompanyIndex(companies: seq<Company>, companyId: int): (r: Option<nat>)
    ensures r.None? <==> forall k :: 0 <= k < |companies| ==> companies[k].id != companyId
    ensures r.Some? ==> r.value < |companies| && companies[r.value].id == companyId
  {
    FirstMatch(companies, (c: Company) => c.id == companyId)
  }

  /** Both rows the RTI return is built from exist: the payslip's employee
      and that employee's company. */
  predicate RtiRowsPresent(employees: seq<Employee>, companies: seq<Company>, p: Payslip)
  {
    match EmployeeIndex(employees, p.employeeId)
    case None => false
    case Some(i) => CompanyIndex(companies, employees[i].companyId).Some?
  }

  // ----------------------------------------------------------- the store

  /** The tables the payroll endpoints read and write. */
  class PayrollStore {
    var companies: seq<Company>
    var employees: seq<Employee>
    var payslips: seq<Payslip>
    var nextPayslipId: int

    constructor (companies: seq<Company>, employees: seq<Employee>)
      ensures this.companies == companies && this.employees == employees && payslips == []
    {
      this.companies := companies;
      this.employees := employees;
      payslips := [];
      nextPayslipId := 1;
    }

    /** `calculate_payslip`, storing the row without the employer's figures. */
    method CalculatePayslip(request: PayslipRequest) returns (r: Response<Payslip>)
      modifies this
      ensures companies == old(companies) && employees == old(employees)
      ensures r == CalculatePayslipStep(employees, request, StoredKeys, old(nextPayslipId))
      ensures r.HttpError? ==> payslips == old(payslips) && nextPayslipId == old(nextPayslipId)
      ensures r.Success? ==> payslips == old(payslips) + [r.value] && nextPayslipId == old(nextPayslipId) + 1
    {
      r := CalculatePayslipStep(employees, request, StoredKeys, nextPayslipId);
      if r.Success? {
        payslips := payslips + [r.value];
        nextPayslipId := nextPayslipId + 1;
      }
    }

    /** One employee of `process_batch_payroll`: the row `step` gives it,
        with the next id, is added to the payslips; a failure adds nothing. */
    method StoreRow(e: Employee, step: (Employee, int) -> Option<Payslip>) returns (row: Option<Payslip>)
      modifies this
      ensures companies == old(companies) && employees == old(employees)
      ensures row == step(e, old(nextPayslipId))
      ensures row.None? ==> payslips == old(payslips) && nextPayslipId == old(nextPayslipId)
      ensures row.Some? ==> payslips == old(payslips) + [row.value] && nextPayslipId == old(nextPayslipId) + 1
    {
      row := step(e, nextPayslipId);
      if row.Some? {
        payslips := payslips + [row.value];
        nextPayslipId := nextPayslipId + 1;
      }
    }

    /** The loop of `process_batch_payroll`: `step` turns each employee in
        turn into a row with the next id, or fails for that employee alone,
        which is then skipped. */
    method StoreBatch(batch: seq<Employee>, step: (Employee, int) -> Option<Payslip>) returns (created: seq<Payslip>)
      modifies this
      ensures companies == old(companies) && employees == old(employees)
      ensures created == CollectNumbered(batch, step, old(nextPayslipId))
      ensures payslips == old(payslips) + created && nextPayslipId == old(nextPayslipId) + |created|
    {
      created := [];
      for i := 0 to |batch|
        invariant created == CollectNumbered(batch[..i], step, old(nextPayslipId))
        invariant payslips == old(payslips) + created && nextPayslipId == old(nextPayslipId) + |created|
        invariant companies == old(companies) && employees == old(employees)
      {
        assert batch[..i + 1] == batch[..i] + [batch[i]];
        CollectNumberedSnoc(batch[..i], batch[i], step, old(nextPayslipId), nextPayslipId);
        var row := StoreRow(batch[i], step);
        if row.Some? {
          AppendRow(old(payslips), created, row.value);
          created := created + [row.value];
        }
      }
      assert batch[..|batch|] == batch;
    }

    /** `process_batch_payroll`: the employees are stored one by one, then
        the BACS file is written from the payslips stored. */
    method ProcessBatchPayroll(companyId: int, batch: seq<Employee>, start: int, end: int, payDate: int,
                               processingDate: Bacs.Date)
      returns (created: seq<Payslip>, file: seq<string>)
      modifies this
      ensures companies == old(companies) && employees == old(employees)
      ensures created == BatchPayslips(batch, start, end, payDate, StoredKeys, old(nextPayslipId))
      ensures payslips == old(payslips) + created && nextPayslipId == old(nextPayslipId) + |created|
      ensures file == Bacs.WrittenLines(Bacs.BacsDataFor(BacsPayslips(created), companyId, processingDate))
    {
      created := StoreBatch(batch, BatchStep(start, end, payDate, StoredKeys));
      var data := Bacs.PrepareBacsData(BacsPayslips(created), companyId, processingDate);
      file := Bacs.WrittenLines(data);
    }

    /** `run_batch_payroll`: 404 for an unknown company, 400 without active
        employees, else 202 with their number, the batch then running over them. */
    method RunBatchPayroll(companyId: int, start: int, end: int, payDate: int, processingDate: Bacs.Date)
      returns (r: Response<nat>, created: seq<Payslip>, file: seq<string>)
      modifies this
      ensures companies == old(companies) && employees == old(employees)
      ensures r == HttpError(404, CompanyNotFound) <==> forall k :: 0 <= k < |companies| ==> companies[k].id != companyId
      ensures r == HttpError(400, NoActiveEmployees) <==>
        (exists k :: 0 <= k < |companies| && companies[k].id == companyId) &&
        forall k :: 0 <= k < |employees| ==> !(employees[k].companyId == companyId && employees[k].isActive)
      ensures r.HttpError? ==> payslips == old(payslips) && created == [] && file == []
      ensures r.HttpError? ==> r == HttpError(404, CompanyNotFound) || r == HttpError(400, NoActiveEmployees)
      ensures r.Success? ==> (
        var batch := Filter(employees, (e: Employee) => e.companyId == companyId && e.isActive);
        r == Success(202, |batch|) &&
        created == BatchPayslips(batch, start, end, payDate, StoredKeys, old(nextPayslipId)) &&
        payslips == old(payslips) + created &&
        file == Bacs.WrittenLines(Bacs.BacsDataFor(BacsPayslips(created), companyId, processingDate)))
    {
      created, file := [], [];
      var company := FirstMatch(companies, (c: Company) => c.id == companyId);
      if company.None? {
        return HttpError(404, CompanyNotFound), created, file;
      }
      var batch := Filter(employees, (e: Employee) => e.companyId == companyId && e.isActive);
      if |batch| == 0 {
        return HttpError(400, NoActiveEmployees), created, file;
      }
      assert batch[0].companyId == companyId && batch[0].isActive && batch[0] in employees;
      r := Success(202, |batch|);
      created, file := ProcessBatchPayroll(companyId, batch, start, end, payDate, processingDate);
    }

    /** `submit_rti`: 404 for an unknown payslip, 400 once submitted, 500 when
        its employee or company row is missing; otherwise the masked return
        goes to HMRC and, whatever HMRC answers, the payslip is marked
        submitted with the reference and the endpoint reports acceptance. */
    method SubmitRti(payslipId: int, reference: string) returns (r: Response<RtiReceipt>)
      modifies this
      ensures companies == old(companies) && employees == old(employees) && nextPayslipId == old(nextPayslipId)
      ensures |payslips| == |old(payslips)|
      ensures forall k :: 0 <= k < |payslips| && old(payslips)[k].rtiSubmitted ==> payslips[k] == old(payslips)[k]
      ensures r == HttpError(404, PayslipNotFound) <==> forall k :: 0 <= k < |old(payslips)| ==> old(payslips)[k].id != payslipId
      ensures r == HttpError(400, RtiAlreadySubmitted) ==>
        exists k :: 0 <= k < |old(payslips)| && old(payslips)[k].id == payslipId && old(payslips)[k].rtiSubmitted
      ensures r.HttpError? ==> payslips == old(payslips)
      ensures var f := PayslipIndex(old(payslips), payslipId);
        (r == HttpError(400, RtiAlreadySubmitted) <==> f.Some? && old(payslips)[f.value].rtiSubmitted) &&
        (r == HttpError(500, InternalServerError) <==>
          f.Some? && !old(payslips)[f.value].rtiSubmitted && !RtiRowsPresent(employees, companies, old(payslips)[f.value])) &&
        (r.Success? <==>
          f.Some? && !old(payslips)[f.value].rtiSubmitted && RtiRowsPresent(employees, companies, old(payslips)[f.value])) &&
        (r.Success? ==>
          payslips == old(payslips)[f.value := old(payslips)[f.value].(rtiSubmitted := true, rtiReference := Some(reference))])
      ensures r.Success? ==> (
        (exists i :: (0 <= i < |payslips| && old(payslips)[i].id == payslipId && !old(payslips)[i].rtiSubmitted &&
          payslips == old(payslips)[i := old(payslips)[i].(rtiSubmitted := true, rtiReference := Some(reference))])) &&
        r == Success(200, RtiReceipt("RTI submitted successfully", reference, "accepted")))
    {
      var found := PayslipIndex(payslips, payslipId);
      if found.None? {
        return HttpError(404, PayslipNotFound);
      }
      var i := found.value;
      var payslip := payslips[i];
      if payslip.rtiSubmitted {
        return HttpError(400, RtiAlreadySubmitted);
      }
      var employee := EmployeeIndex(employees, payslip.employeeId);
      if employee.None? {
        return HttpError(500, InternalServerError);
      }
      var e := employees[employee.value];
      var company := CompanyIndex(companies, e.companyId);
      if company.None? {
        return HttpError(500, InternalServerError);
      }
      var updated, receipt := SendRtiReturn(e, companies[company.value], payslip, reference);
      payslips := payslips[i := updated];
      r := Success(200, receipt);
    }

    /** `get_payroll_summary`: 404 for an unknown company, else the totals and
        RTI counts over the company's payslips in the period. */
    method GetPayrollSummary(companyId: int, q: PeriodQuery) returns (r: Response<PayrollSummary>)
      ensures r == HttpError(404, CompanyNotFound) <==> forall k :: 0 <= k < |companies| ==> companies[k].id != companyId
      ensures r.HttpError? ==> r == HttpError(404, CompanyNotFound)
      ensures r.Success? <==> CompanyIndex(companies, companyId).Some?
      ensures r.Success? ==> var f := CompanyIndex(companies, companyId);
        r == Success(200, SummaryOf(companies[f.value], Filter(payslips, SummaryQuery(employees, companyId, q))))
      ensures r.Success? ==> exists k :: (0 <= k < |companies| && companies[k].id == companyId &&
        r == Success(200, SummaryOf(companies[k], Filter(payslips, SummaryQuery(employees, companyId, q)))))
    {
      var company := CompanyIndex(companies, companyId);
      if company.None? {
        return HttpError(404, CompanyNotFound);
      }
      var matching, totals, submitted, pending := SummariseRows(payslips, SummaryQuery(employees, companyId, q));
      var c := companies[company.value];
      r := Success(200, PayrollSummary(c.id, c.data.name, |matching|, totals, submitted, pending));
    }
  }
}
