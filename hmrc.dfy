/** The HMRC Real Time Information (RTI) service stand-in: validation of a
  * submission, warning rules, and the accept / reject / error decisions for
  * RTI returns, Full Payment Submissions (FPS), Employer Payment Summaries
  * (EPS) and status look-ups. References and timestamps come from the clock
  * and a random UUID, so they are parameters here.
  */
module Hmrc {
  import opened Strings
  import PayrollCalc
  import Gdpr

  // ----------------------------------------------------------------- inputs

  /** A pay amount as submitted: a Python int or float (booleans count as
    * ints), or some other kind of value. */
  datatype Amount = Number(value: real) | NotNumber

  /** A pay-period date as submitted: an ISO text that parses (to seconds
    * since an epoch, normalised to UTC when `aware` of its offset), a text
    * that does not parse, or a value that is not text at all. */
  datatype DateText = IsoDate(seconds: int, aware: bool) | Malformed | NotText(typeName: string)

  datatype RtiEmployee = RtiEmployee(
    niNumber: Option<string>, taxCode: Option<string>,
    grossPay: Option<Amount>, payeTax: Option<Amount>, niContribution: Option<Amount>)

  datatype RtiCompany = RtiCompany(registrationNumber: Option<string>, taxOffice: Option<string>)

  datatype PayPeriod = PayPeriod(startDate: Option<DateText>, endDate: Option<DateText>)

  /** An RTI submission; a `None` part is a missing key. */
  datatype RtiData = RtiData(employee: Option<RtiEmployee>, company: Option<RtiCompany>, payPeriod: Option<PayPeriod>)

  /** The validator's answer, or the text of the exception it raised. */
  datatype Validation = Checked(valid: bool, errors: seq<string>) | Raised(message: string)

  const SecondsPerDay: int := 86400

  const RequiredFields: seq<string> := ["employee", "company", "pay_period"]

  function IsPresent(d: RtiData, field: string): bool
  {
    if field == "employee" then d.employee.Some?
    else if field == "company" then d.company.Some?
    else field == "pay_period" && d.payPeriod.Some?
  }

  function MissingFieldMessage(field: string): string
  {
    "Missing required field: " + field
  }

  // ------------------------------------------------------- field validators

  /** The RTI service's NI check: exactly nine characters, two letters, six
    * digits and a letter, with no case folding, no space stripping and no
    * reserved prefixes. */
  predicate ValidateNiNumber(ni: string): (ok: bool)
    ensures ok ==> forall i :: 0 <= i < |ni| ==> ni[i] != ' '
  {
    |ni| == 9 && AllAlpha(ni[0..2]) && AllDigits(ni[2..8]) && IsAlphaChar(ni[8])
  }

  const RtiTaxCodes: seq<string> := ["BR", "D0", "D1", "NT", "SBR", "SD0", "SD1"]

  /** The RTI service accepts only seven fixed codes. */
  predicate ValidateTaxCode(taxCode: string): (ok: bool)
    ensures ok ==> 2 <= |taxCode| <= 3 && taxCode[|taxCode| - 1] != 'L'
  {
    taxCode in RtiTaxCodes
  }

  /** A nine-character NI number that has been masked can never pass: its
    * third to seventh characters are stars, not digits. */
  lemma MaskedNiNumberRejected(ni: string)
    requires |ni| == 9
    ensures !ValidateNiNumber(Gdpr.Mask(ni))
  {
    var m := Gdpr.Mask(ni);
    assert m[2..8][0] == m[2] == '*';
  }

  /** Every code the RTI service accepts is also accepted by the payroll
    * engine, but the engine's standard code 1257L is refused here. */
  lemma RtiTaxCodesNarrower(taxCode: string)
    ensures ValidateTaxCode(taxCode) ==> PayrollCalc.ValidateTaxCode(taxCode)
    ensures PayrollCalc.ValidateTaxCode("1257L") && !ValidateTaxCode("1257L")
  {
    if ValidateTaxCode(taxCode) {
      var k :| 0 <= k < |RtiTaxCodes| && RtiTaxCodes[k] == taxCode;
      assert PayrollCalc.KnownTaxCodes[k] == taxCode;
    }
    assert PayrollCalc.KnownTaxCodes[8] == "1257L";
  }

  // -------------------------------------------------- per-section errors

  function NiErrors(e: RtiEmployee): seq<string>
  {
    if e.niNumber.None? then ["Missing National Insurance number"]
    else if !ValidateNiNumber(e.niNumber.value) then ["Invalid National Insurance number format"]
    else []
  }

  function TaxCodeErrors(e: RtiEmployee): seq<string>
  {
    if e.taxCode.None? then ["Missing tax code"]
    else if !ValidateTaxCode(e.taxCode.value) then ["Invalid tax code"]
    else []
  }

  function CompanyErrors(c: RtiCompany): seq<string>
  {
    (if c.registrationNumber.None? then ["Missing company registration number"] else [])
    + (if c.taxOffice.None? then ["Missing HMRC tax office code"] else [])
  }

  /** The exception raised when a date is not text: it has no `replace`. */
  function NoReplaceMessage(typeName: string): string
  {
    "'" + typeName + "' object has no attribute 'replace'"
  }

  const NaiveAwareMessage: string := "can't compare offset-naive and offset-aware datetimes"

  const MissingDatesMessage := "Missing pay period dates"
  const DateFormatMessage := "Invalid date format in pay period"
  const OrderMessage := "Pay period start date must be before end date"
  const LengthMessage := "Pay period cannot exceed 31 days"

  /** Both dates parse, and both or neither carry an offset. */
  predicate ComparableDates(p: PayPeriod)
  {
    p.startDate.Some? && p.endDate.Some? && p.startDate.value.IsoDate? && p.endDate.value.IsoDate?
    && p.startDate.value.aware == p.endDate.value.aware
  }

  /** Pay-period checks. Dates are parsed start first; the first unparseable
    * text ends the checks with a format error, a date that is not text
    * raises, and a naive date compared with an offset-aware one raises. */
  function PeriodErrors(p: PayPeriod): (r: Validation)
    ensures r.Checked? ==> (r.valid <==> r.errors == []) && |r.errors| <= 1
    ensures r == Checked(false, [MissingDatesMessage]) <==> p.startDate.None? || p.endDate.None?
    ensures r == Checked(false, [DateFormatMessage]) <==>
      p.startDate.Some? && p.endDate.Some?
      && (p.startDate.value.Malformed? || (p.startDate.value.IsoDate? && p.endDate.value.Malformed?))
    ensures r.Raised? <==>
      p.startDate.Some? && p.endDate.Some?
      && (p.startDate.value.NotText? || (p.startDate.value.IsoDate? && p.endDate.value.NotText?)
          || (p.startDate.value.IsoDate? && p.endDate.value.IsoDate?
              && p.startDate.value.aware != p.endDate.value.aware))
    ensures ComparableDates(p) ==>
      var s, e := p.startDate.value.seconds, p.endDate.value.seconds;
      r.Checked?
      && (OrderMessage in r.errors <==> s >= e)
      && (LengthMessage in r.errors <==> (e - s) / SecondsPerDay > 31)
      && (r.valid <==> s < e && (e - s) / SecondsPerDay <= 31)
  {
    if p.startDate.None? || p.endDate.None? then Checked(false, [MissingDatesMessage])
    else
      var s, e := p.startDate.value, p.endDate.value;
      if s.NotText? then Raised(NoReplaceMessage(s.typeName))
      else if s.Malformed? then Checked(false, [DateFormatMessage])
      else if e.NotText? then Raised(NoReplaceMessage(e.typeName))
      else if e.Malformed? then Checked(false, [DateFormatMessage])
      else if s.aware != e.aware then Raised(NaiveAwareMessage)
      else
        var days := (e.seconds - s.seconds) / SecondsPerDay;
        var errors :=
          (if s.seconds >= e.seconds then [OrderMessage] else [])
          + (if days > 31 then [LengthMessage] else []);
        assert OrderMessage[0] == LengthMessage[0] == 'P' != MissingDatesMessage[0] && DateFormatMessage[0] == 'I';
        assert errors == [] || errors[0] == OrderMessage || errors[0] == LengthMessage;
        assert errors != [MissingDatesMessage] && errors != [DateFormatMessage];
        Checked(errors == [], errors)
  }

  /** One amount: one error when it is missing, not a number, or negative. */
  function AmountErrors(a: Option<Amount>, missing: string, invalid: string): (r: seq<string>)
    ensures |r| <= 1
    ensures |r| == 0 <==> a.Some? && a.value.Number? && a.value.value >= 0.0
  {
    if a.None? then [missing]
    else if a.value.NotNumber? || a.value.value < 0.0 then [invalid]
    else []
  }

  function PayErrors(e: RtiEmployee): seq<string>
  {
    AmountErrors(e.grossPay, "Missing gross pay amount", "Invalid gross pay amount")
    + AmountErrors(e.payeTax, "Missing PAYE tax amount", "Invalid PAYE tax amount")
    + AmountErrors(e.niContribution, "Missing National Insurance contribution", "Invalid National Insurance contribution")
  }

  /** The missing-part messages, in the order the parts are listed. */
  function MissingFields(d: RtiData): seq<string>
  {
    (if d.employee.None? then [MissingFieldMessage("employee")] else [])
    + (if d.company.None? then [MissingFieldMessage("company")] else [])
    + (if d.payPeriod.None? then [MissingFieldMessage("pay_period")] else [])
  }

  /** The whole validation of an RTI submission. */
  function RtiValidation(d: RtiData): (r: Validation)
    ensures r.Checked? ==> (r.valid <==> r.errors == [])
    ensures r.Raised? ==> d.employee.Some? && d.company.Some? && d.payPeriod.Some?
  {
    if |MissingFields(d)| > 0 then Checked(false, MissingFields(d))
    else
      var emp, co := d.employee.value, d.company.value;
      var before := NiErrors(emp) + TaxCodeErrors(emp) + CompanyErrors(co);
      var period := PeriodErrors(d.payPeriod.value);
      if period.Raised? then period
      else
        var errors := before + period.errors + PayErrors(emp);
        Checked(|errors| == 0, errors)
  }

  /** With a part missing the result is invalid and lists only the missing parts. */
  lemma MissingPartsReportedAlone(d: RtiData)
    requires d.employee.None? || d.company.None? || d.payPeriod.None?
    ensures RtiValidation(d) == Checked(false, MissingFields(d))
    ensures forall m :: m in MissingFields(d) <==>
      exists f :: f in RequiredFields && !IsPresent(d, f) && m == MissingFieldMessage(f)
  {
    MissingFieldsInRequired(d);
    MissingFieldsInMembers(d, RequiredFields);
    var f := if d.employee.None? then "employee" else if d.company.None? then "company" else "pay_period";
    assert f in RequiredFields && !IsPresent(d, f);
    assert MissingFieldMessage(f) in MissingFields(d);
  }

  lemma {:induction false} MissingFieldsInMembers(d: RtiData, fields: seq<string>)
    ensures forall m :: m in MissingFieldsIn(d, fields) <==>
      exists f :: f in fields && !IsPresent(d, f) && m == MissingFieldMessage(f)
    decreases |fields|
  {
    if |fields| > 0 {
      var init := fields[..|fields| - 1];
      MissingFieldsInMembers(d, init);
      assert fields == init + [fields[|fields| - 1]];
    }
  }

  /** Otherwise the submission is valid exactly when no check added an error. */
  lemma ValidIffNoErrors(d: RtiData)
    requires RtiValidation(d).Checked?
    ensures RtiValidation(d).valid <==> RtiValidation(d).errors == []
  {
  }

  /** A valid submission has every part, a well-formed NI number, an RTI tax
    * code, a start before the end at most 31 days apart, and three
    * non-negative amounts. */
  lemma ValidSubmissionShape(d: RtiData)
    requires RtiValidation(d) == Checked(true, [])
    ensures d.employee.Some? && d.company.Some? && d.payPeriod.Some?
    ensures d.employee.value.niNumber.Some? && ValidateNiNumber(d.employee.value.niNumber.value)
    ensures d.employee.value.taxCode.Some? && ValidateTaxCode(d.employee.value.taxCode.value)
    ensures d.company.value.registrationNumber.Some? && d.company.value.taxOffice.Some?
    ensures var e := d.employee.value;
      e.grossPay.Some? && e.grossPay.value.Number? && e.grossPay.value.value >= 0.0
      && e.payeTax.Some? && e.payeTax.value.Number? && e.payeTax.value.value >= 0.0
      && e.niContribution.Some? && e.niContribution.value.Number? && e.niContribution.value.value >= 0.0
    ensures var p := d.payPeriod.value;
      p.startDate.Some? && p.endDate.Some? && p.startDate.value.IsoDate? && p.endDate.value.IsoDate?
      && p.startDate.value.seconds < p.endDate.value.seconds
      && (p.endDate.value.seconds - p.startDate.value.seconds) / SecondsPerDay <= 31
  {
    var emp := d.employee.value;
    assert |AmountErrors(emp.grossPay, "Missing gross pay amount", "Invalid gross pay amount")| == 0;
    assert |AmountErrors(emp.payeTax, "Missing PAYE tax amount", "Invalid PAYE tax amount")| == 0;
  }

  /** The validation as the service runs it: a loop over the required parts,
    * then each check appending its messages. */
  method ValidateRtiData(d: RtiData) returns (v: Validation)
    ensures v == RtiValidation(d)
  {
    var errors := CheckRequiredParts(d);
    if |errors| > 0 {
      return Checked(false, errors);
    }
    var emp, co := d.employee.value, d.company.value;
    errors := errors + NiErrors(emp);
    assert errors == NiErrors(emp);
    errors := errors + TaxCodeErrors(emp);
    errors := errors + CompanyErrors(co);
    ghost var before := errors;
    var period := PeriodErrors(d.payPeriod.value);
    if period.Raised? {
      return period;
    }
    errors := errors + period.errors;
    errors := errors + PayErrors(emp);
    assert errors == before + period.errors + PayErrors(emp);
    v := Checked(|errors| == 0, errors);
  }

  /** The first loop of `validate_rti_data`: one message per missing part. */
  method CheckRequiredParts(d: RtiData) returns (errors: seq<string>)
    ensures errors == MissingFields(d)
  {
    errors := [];
    var i := 0;
    while i < |RequiredFields|
      invariant 0 <= i <= |RequiredFields|
      invariant errors == MissingFieldsIn(d, RequiredFields[..i])
    {
      if !IsPresent(d, RequiredFields[i]) {
        errors := errors + [MissingFieldMessage(RequiredFields[i])];
      }
      assert RequiredFields[..i + 1][..i] == RequiredFields[..i];
      i := i + 1;
    }
    assert RequiredFields[..3] == RequiredFields;
    MissingFieldsInRequired(d);
  }

  /** The missing-part messages for the listed parts, in list order. */
  function MissingFieldsIn(d: RtiData, fields: seq<string>): seq<string>
  {
    if |fields| == 0 then []
    else
      var last := fields[|fields| - 1];
      MissingFieldsIn(d, fields[..|fields| - 1]) + (if IsPresent(d, last) then [] else [MissingFieldMessage(last)])
  }

  lemma MissingFieldsInRequired(d: RtiData)
    ensures MissingFieldsIn(d, RequiredFields) == MissingFields(d)
  {
    var one, two := ["employee"], ["employee", "company"];
    assert one[..0] == [] && two[..1] == one && RequiredFields[..2] == two;
    assert MissingFieldsIn(d, one) == MissingFieldsIn(d, []) + (if IsPresent(d, "employee") then [] else [MissingFieldMessage("employee")]);
    assert MissingFieldsIn(d, two) == MissingFieldsIn(d, one) + (if IsPresent(d, "company") then [] else [MissingFieldMessage("company")]);
  }

  // --------------------------------------------------------------- warnings

  datatype Warning = HighGrossPay | LowGrossPay | NoNiContribution | HighPayeTax

  function WarningText(w: Warning): string
  {
    match w
    case HighGrossPay => "Unusually high gross pay - please verify"
    case LowGrossPay => "Unusually low gross pay - please verify"
    case NoNiContribution => "No National Insurance contribution calculated - please verify"
    case HighPayeTax => "Unusually high PAYE tax - please verify"
  }

  /** Warnings on a validated submission, in rule order. */
  function CheckRtiWarnings(grossPay: real, niContribution: real, payeTax: real): (w: seq<Warning>)
    ensures HighGrossPay in w <==> grossPay > 10000.0
    ensures LowGrossPay in w <==> grossPay < 100.0
    ensures NoNiContribution in w <==> grossPay > 1257.0 && niContribution == 0.0
    ensures HighPayeTax in w <==> payeTax > grossPay * 0.5
  {
    (if grossPay > 10000.0 then [HighGrossPay] else [])
    + (if grossPay < 100.0 then [LowGrossPay] else [])
    + (if grossPay > 1257.0 && niContribution == 0.0 then [NoNiContribution] else [])
    + (if payeTax > grossPay * 0.5 then [HighPayeTax] else [])
  }

  /** Pay cannot be flagged as both unusually high and unusually low. */
  lemma HighAndLowPayExclusive(grossPay: real, niContribution: real, payeTax: real)
    ensures var w := CheckRtiWarnings(grossPay, niContribution, payeTax);
      !(HighGrossPay in w && LowGrossPay in w)
  {
  }

  /** A monthly salary between £100 and £10,000 with NI and tax at most half
    * of it draws no warning. */
  lemma OrdinaryPayHasNoWarnings(grossPay: real, niContribution: real, payeTax: real)
    requires 100.0 <= grossPay <= 10000.0 && niContribution > 0.0 && payeTax <= grossPay * 0.5
    ensures CheckRtiWarnings(grossPay, niContribution, payeTax) == []
  {
  }

  function NumberOrZero(a: Option<Amount>): real
  {
    if a.Some? && a.value.Number? then a.value.value else 0.0
  }

  // ------------------------------------------------------------ submissions

  datatype Status = Accepted | Rejected | Error | NotFound

  datatype RtiResponse = RtiResponse(status: Status, reference: string, message: string,
    warnings: seq<Warning>, errors: seq<string>)

  /** Submits an RTI return. `reference` is the generated RTI reference. */
  function SubmitRtiReturn(d: RtiData, reference: string): (r: RtiResponse)
    ensures r.reference == reference
    ensures r.status == Error <==> RtiValidation(d).Raised?
    ensures r.status == Rejected <==> RtiValidation(d).Checked? && !RtiValidation(d).valid
    ensures r.status == Accepted <==> RtiValidation(d) == Checked(true, [])
    ensures r.status == Rejected ==> r.errors == RtiValidation(d).errors && r.warnings == []
    ensures r.status == Accepted ==> r.errors == []
  {
    var v := RtiValidation(d);
    if v.Raised? then
      RtiResponse(Error, reference, "HMRC system temporarily unavailable", [], ["System error: " + v.message])
    else if !v.valid then
      RtiResponse(Rejected, reference, "RTI submission failed validation", [], v.errors)
    else
      var emp := d.employee.value;
      var warnings := CheckRtiWarnings(NumberOrZero(emp.grossPay), NumberOrZero(emp.niContribution), NumberOrZero(emp.payeTax));
      RtiResponse(Accepted, reference, "RTI submission accepted", if |warnings| > 0 then warnings else [], [])
  }

  /** An accepted return carries exactly the warnings for its figures. */
  lemma AcceptedCarriesWarnings(d: RtiData, reference: string)
    requires SubmitRtiReturn(d, reference).status == Accepted
    ensures var e := d.employee.value;
      SubmitRtiReturn(d, reference).warnings
        == CheckRtiWarnings(e.grossPay.value.value, e.niContribution.value.value, e.payeTax.value.value)
  {
    ValidSubmissionShape(d);
  }

  /** A return whose NI number went through masking is never accepted. */
  lemma MaskedSubmissionNotAccepted(d: RtiData, reference: string)
    requires d.employee.Some? && d.employee.value.niNumber.Some?
    requires exists ni :: |ni| == 9 && d.employee.value.niNumber.value == Gdpr.Mask(ni)
    ensures SubmitRtiReturn(d, reference).status != Accepted
  {
    var ni :| |ni| == 9 && d.employee.value.niNumber.value == Gdpr.Mask(ni);
    MaskedNiNumberRejected(ni);
    if RtiValidation(d) == Checked(true, []) {
      ValidSubmissionShape(d);
    }
  }

  datatype FpsResponse = FpsResponse(status: Status, reference: string, message: string,
    errors: seq<string>, companyRegistration: Option<string>, employeeCount: Option<nat>)

  /** Full Payment Submission: the company's registration number is required,
    * then at least one employee. `rtiReference` and `fpsReference` are the
    * generated references for a rejection and an acceptance. */
  function SubmitFps<T>(registrationNumber: Option<string>, employees: seq<T>, rtiReference: string, fpsReference: string): (r: FpsResponse)
    ensures registrationNumber.None? ==> r.status == Rejected && r.errors == ["Company registration number required"]
    ensures registrationNumber.Some? && |employees| == 0 ==> r.status == Rejected && r.errors == ["At least one employee required"]
    ensures r.status == Accepted <==> registrationNumber.Some? && |employees| > 0
    ensures r.status == Accepted ==> (r.reference == fpsReference
      && r.companyRegistration == registrationNumber && r.employeeCount == Some(|employees|))
    ensures r.status == Rejected ==> r.reference == rtiReference
  {
    if registrationNumber.None? then
      FpsResponse(Rejected, rtiReference, "Missing company registration number", ["Company registration number required"], None, None)
    else if |employees| == 0 then
      FpsResponse(Rejected, rtiReference, "No employees in FPS submission", ["At least one employee required"], None, None)
    else
      FpsResponse(Accepted, fpsReference, "FPS submitted successfully for " + NatToString(|employees|) + " employees",
        [], registrationNumber, Some(|employees|))
  }

  /** Employer Payment Summary: accepted exactly when the registration number is present. */
  function SubmitEps(registrationNumber: Option<string>, rtiReference: string, epsReference: string): (r: FpsResponse)
    ensures r.status == Accepted <==> registrationNumber.Some?
    ensures r.status == Rejected <==> registrationNumber.None?
    ensures r.status == Accepted ==> r.reference == epsReference && r.companyRegistration == registrationNumber
    ensures r.status == Rejected ==> r.reference == rtiReference && r.errors == ["Company registration number required"]
  {
    if registrationNumber.None? then
      FpsResponse(Rejected, rtiReference, "Missing company registration number", ["Company registration number required"], None, None)
    else
      FpsResponse(Accepted, epsReference, "EPS submitted successfully", [], registrationNumber, None)
  }

  /** A status look-up reports "accepted" exactly for references containing "RTI-". */
  function GetRtiStatus(reference: string): (s: Status)
    ensures s == Accepted <==> Contains(reference, "RTI-")
    ensures s == NotFound <==> !Contains(reference, "RTI-")
  {
    if Contains(reference, "RTI-") then Accepted else NotFound
  }

  /** Every reference the service generates ("RTI-" followed by a timestamp
    * and an identifier) is reported as accepted. */
  lemma GeneratedReferencesFound(suffix: string)
    ensures GetRtiStatus("RTI-" + suffix) == Accepted
  {
    assert ("RTI-" + suffix)[..4] == "RTI-";
  }
}
