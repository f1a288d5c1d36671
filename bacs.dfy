/** The BACS payment-file stand-in: the header, detail and trailer records
  * prepared from a batch of payslips, their fixed-width text layout, the
  * line-level validation of a written file, and the summary report. The
  * layout is the service's own, loosely styled on Bacs Standard 18. The
  * processing date comes from the clock, so it is a parameter here.
  */
module Bacs {
  import opened Strings

  // ------------------------------------------------------------------ inputs

  /** A calendar date, as Python's `date` holds it. */
  datatype Date = Date(year: int, month: int, day: int)

  predicate ValidDate(d: Date)
  {
    1 <= d.year <= 9999 && 1 <= d.month <= 12 && 1 <= d.day <= 31
  }

  /** The payslip fields the file is built from. */
  datatype Payslip = Payslip(id: int, employeeId: int, netPay: real)

  /** `strftime('%d%m%y')`. */
  function DayMonthYear(d: Date): (r: string)
    ensures ValidDate(d) ==> |r| == 6
  {
    var r := FormatInt(d.day, 2) + FormatInt(d.month, 2) + FormatInt(d.year % 100, 2);
    if ValidDate(d) then
      assert Pow10(2) == 100;
      FormatIntWidth(d.day, 2);
      FormatIntWidth(d.month, 2);
      FormatIntWidth(d.year % 100, 2);
      r
    else r
  }

  /** `isoformat()` of a date. */
  function IsoFormat(d: Date): (r: string)
    ensures ValidDate(d) ==> |r| == 10
  {
    var r := FormatInt(d.year, 4) + "-" + FormatInt(d.month, 2) + "-" + FormatInt(d.day, 2);
    if ValidDate(d) then
      assert Pow10(2) == 100 && Pow10(4) == 10000;
      FormatIntWidth(d.year, 4);
      FormatIntWidth(d.month, 2);
      FormatIntWidth(d.day, 2);
      r
    else r
  }

  /** `int(x)`: truncation toward zero. */
  function TruncateToInt(x: real): (n: int)
    ensures x >= 0.0 ==> n as real <= x < n as real + 1.0
    ensures x < 0.0 ==> n as real - 1.0 < x <= n as real
  {
    if x >= 0.0 then x.Floor else -((-x).Floor)
  }

  // ----------------------------------------------------------------- records

  datatype Header = Header(
    recordType: string, priority: string, destinationSortCode: string,
    destinationAccount: string, sequenceNumber: string, fileName: string,
    processingDate: string, userNumber: string, userName: string)

  datatype Detail = Detail(
    recordType: string, destinationSortCode: string, destinationAccount: string,
    destinationAccountName: string, amount: int, reference: string,
    processingDate: string, sequenceNumber: string)

  datatype Trailer = Trailer(
    recordType: string, totalRecords: string, totalAmount: string,
    processingDate: string, userNumber: string, userName: string)

  datatype Summary = Summary(companyId: int, totalPayslips: nat, totalAmount: real, processingDate: string)

  datatype BacsData = BacsData(header: Header, details: seq<Detail>, trailer: Trailer, summary: Summary)

  const HeaderRecordType := "01"
  const DetailRecordType := "08"
  const TrailerRecordType := "99"

  /** The header template; its processing date is filled in when a file is prepared. */
  const HeaderTemplate := Header(HeaderRecordType, "A", "999999", "99999999", "000001", "PAYROLL", "", "000000", "HRMS_POC")

  /** The trailer template; its counts and date are filled in when a file is prepared. */
  const TrailerTemplate := Trailer(TrailerRecordType, "000000", "000000000000", "", "000000", "HRMS_POC")

  /** The paying company's bank details (fixed stand-ins), and the sort code
    * with its dashes removed as the records carry it. */
  const CompanySortCode := "12-34-56"
  const CompanySortCodeDigits := "123456"
  const CompanyAccountNumber := "12345678"

  /** Every employee is paid into the same stand-in sort code. */
  const EmployeeSortCode := "98-76-54"
  const EmployeeSortCodeDigits := "987654"

  /** The records' sort codes are the stand-in sort codes with the dashes removed. */
  lemma CompanySortCodeWithoutDashes()
    ensures RemoveChar(CompanySortCode, '-') == CompanySortCodeDigits
  {
    assert RemoveChar("56", '-') == "56";
    assert RemoveChar("4-56", '-') == "456";
    assert RemoveChar("34-56", '-') == "3456";
    assert RemoveChar("2-34-56", '-') == "23456";
  }

  lemma EmployeeSortCodeWithoutDashes()
    ensures RemoveChar(EmployeeSortCode, '-') == EmployeeSortCodeDigits
  {
    assert RemoveChar("54", '-') == "54";
    assert RemoveChar("6-54", '-') == "654";
    assert RemoveChar("76-54", '-') == "7654";
    assert RemoveChar("8-76-54", '-') == "87654";
  }

  // ------------------------------------------------------------- preparation

  /** Total net pay of the batch, in input order. */
  function SumNetPay(payslips: seq<Payslip>): real
  {
    if |payslips| == 0 then 0.0 else SumNetPay(payslips[..|payslips| - 1]) + payslips[|payslips| - 1].netPay
  }

  function PreparedHeader(processingDate: Date): Header
  {
    HeaderTemplate.(
      processingDate := DayMonthYear(processingDate),
      destinationSortCode := CompanySortCodeDigits,
      destinationAccount := CompanyAccountNumber)
  }

  /** The detail record of the `position`-th payslip (counting from 1): the
      amount is the net pay in pence with any fraction of a penny dropped. */
  function DetailFor(p: Payslip, position: int, processingDate: Date): (d: Detail)
    ensures p.netPay >= 0.0 ==> 0 <= d.amount && d.amount as real <= p.netPay * 100.0 < d.amount as real + 1.0
    ensures p.netPay < 0.0 ==> d.amount <= 0 && d.amount as real - 1.0 < p.netPay * 100.0 <= d.amount as real
  {
    Detail(
      DetailRecordType,
      EmployeeSortCodeDigits,
      "8765432" + FormatInt(position, 2),
      Take("Employee " + FormatInt(p.employeeId, 0), 18),
      TruncateToInt(p.netPay * 100.0),
      "PAY" + FormatInt(p.id, 6),
      DayMonthYear(processingDate),
      FormatInt(position, 6))
  }

  /** The detail records of a batch: one per payslip, in input order. */
  function Details(payslips: seq<Payslip>, processingDate: Date): (ds: seq<Detail>)
    ensures |ds| == |payslips|
  {
    if |payslips| == 0 then []
    else Details(payslips[..|payslips| - 1], processingDate) + [DetailFor(payslips[|payslips| - 1], |payslips|, processingDate)]
  }

  /** The `k`-th detail (from 0) is the record of the `k`-th payslip at position `k + 1`. */
  lemma {:induction false} DetailAt(payslips: seq<Payslip>, processingDate: Date, k: nat)
    requires k < |payslips|
    ensures Details(payslips, processingDate)[k] == DetailFor(payslips[k], k + 1, processingDate)
  {
    var init := payslips[..|payslips| - 1];
    if k < |payslips| - 1 {
      DetailAt(init, processingDate, k);
      assert init[k] == payslips[k];
    }
  }

  function PreparedTrailer(payslips: seq<Payslip>, processingDate: Date): Trailer
  {
    TrailerTemplate.(
      totalRecords := FormatInt(|payslips|, 6),
      totalAmount := FormatInt(TruncateToInt(SumNetPay(payslips) * 100.0), 12),
      processingDate := DayMonthYear(processingDate))
  }

  /** What `prepare_bacs_data` returns for a batch. */
  function BacsDataFor(payslips: seq<Payslip>, companyId: int, processingDate: Date): BacsData
  {
    BacsData(
      PreparedHeader(processingDate),
      Details(payslips, processingDate),
      PreparedTrailer(payslips, processingDate),
      Summary(companyId, |payslips|, SumNetPay(payslips), IsoFormat(processingDate)))
  }

  /** Builds the header, one detail per payslip in a loop, and the trailer. */
  method PrepareBacsData(payslips: seq<Payslip>, companyId: int, processingDate: Date) returns (data: BacsData)
    ensures data == BacsDataFor(payslips, companyId, processingDate)
  {
    var totalAmount := SumNetPay(payslips);
    var totalRecords := |payslips|;
    var header := PreparedHeader(processingDate);
    var details: seq<Detail> := [];
    var i := 0;
    while i < |payslips|
      invariant 0 <= i <= |payslips|
      invariant details == Details(payslips[..i], processingDate)
    {
      assert payslips[..i + 1][..i] == payslips[..i];
      details := details + [DetailFor(payslips[i], i + 1, processingDate)];
      i := i + 1;
    }
    assert payslips[..i] == payslips;
    assert details == Details(payslips, processingDate);
    var trailer := PreparedTrailer(payslips, processingDate);
    data := BacsData(header, details, trailer, Summary(companyId, totalRecords, totalAmount, IsoFormat(processingDate)));
  }

  /** Details are numbered 1..n in input order, each number read back from its
    * six-digit sequence field, and each carries its payslip's reference. */
  lemma DetailsNumberedInOrder(payslips: seq<Payslip>, processingDate: Date, k: nat)
    requires k < |payslips|
    ensures var d := Details(payslips, processingDate)[k];
      d.recordType == DetailRecordType
      && AllDigits(d.sequenceNumber) && ParseNat(d.sequenceNumber) == k + 1
      && (k + 1 < 1000000 ==> |d.sequenceNumber| == 6)
      && d.reference == "PAY" + FormatInt(payslips[k].id, 6)
  {
    DetailAt(payslips, processingDate, k);
    ParseFormatInt(k + 1, 6);
    if k + 1 < 1000000 {
      assert Pow10(6) == 1000000;
      FormatIntWidth(k + 1, 6);
    }
  }

  /** The trailer's record count reads back as the number of payslips. */
  lemma TrailerCountsPayslips(payslips: seq<Payslip>, companyId: int, processingDate: Date)
    ensures var data := BacsDataFor(payslips, companyId, processingDate);
      AllDigits(data.trailer.totalRecords) && ParseNat(data.trailer.totalRecords) == |data.details| == |payslips|
  {
    ParseFormatInt(|payslips|, 6);
  }

  /** The header, every detail and the trailer carry the same processing date. */
  lemma SameProcessingDate(payslips: seq<Payslip>, companyId: int, processingDate: Date)
    ensures var data := BacsDataFor(payslips, companyId, processingDate);
      data.trailer.processingDate == data.header.processingDate
      && forall k :: 0 <= k < |data.details| ==> data.details[k].processingDate == data.header.processingDate
  {
    forall k | 0 <= k < |payslips|
      ensures Details(payslips, processingDate)[k].processingDate == DayMonthYear(processingDate)
    {
      DetailAt(payslips, processingDate, k);
    }
  }

  /** A non-negative net pay is paid in whole pence, at most a penny short. */
  lemma AmountInPence(p: Payslip, position: int, processingDate: Date)
    requires p.netPay >= 0.0
    ensures var amount := DetailFor(p, position, processingDate).amount;
      amount >= 0 && p.netPay - 0.01 < amount as real / 100.0 <= p.netPay
  {
  }

  // -------------------------------------------------------------- formatting

  /** The header line; the file and user names are padded to 20 characters. */
  function FormatHeader(h: Header): (line: string)
    ensures StartsWith(line, h.recordType)
    ensures |line| >= |h.recordType| + |h.priority| + |h.destinationSortCode| + |h.destinationAccount|
      + |h.sequenceNumber| + 20 + |h.processingDate| + |h.userNumber| + 20
  {
    h.recordType + h.priority + h.destinationSortCode + h.destinationAccount + h.sequenceNumber
    + LeftJustify(h.fileName, 20) + h.processingDate + h.userNumber + LeftJustify(h.userName, 20)
  }

  /** The detail line; the account name and reference are padded to 18
    * characters and the amount zero-padded to 10 digits. The widths are
    * minimums: the account name appears in full at its offset. */
  function FormatDetail(d: Detail): (line: string)
    ensures StartsWith(line, d.recordType)
    ensures OccursAt(line, d.destinationAccountName, |d.recordType| + |d.destinationSortCode| + |d.destinationAccount|)
    ensures |line| >= |d.recordType| + |d.destinationSortCode| + |d.destinationAccount| + 18 + 10 + 18
      + |d.processingDate| + |d.sequenceNumber|
  {
    var prefix := d.recordType + d.destinationSortCode + d.destinationAccount;
    var name := LeftJustify(d.destinationAccountName, 18);
    var rest := FormatInt(d.amount, 10) + LeftJustify(d.reference, 18) + d.processingDate + d.sequenceNumber;
    OccursInConcat(prefix, name, rest, d.destinationAccountName);
    prefix + name + rest
  }

  /** The trailer line; the user name is padded to 20 characters. */
  function FormatTrailer(t: Trailer): (line: string)
    ensures StartsWith(line, t.recordType)
    ensures |line| >= |t.recordType| + |t.totalRecords| + |t.totalAmount| + |t.processingDate| + |t.userNumber| + 20
  {
    t.recordType + t.totalRecords + t.totalAmount + t.processingDate + t.userNumber + LeftJustify(t.userName, 20)
  }

  /** With a valid date, the prepared header line is 75 characters. */
  lemma PreparedHeaderLength(processingDate: Date)
    requires ValidDate(processingDate)
    ensures |FormatHeader(PreparedHeader(processingDate))| == 75
  {
  }

  /** A prepared detail line is 75 characters when the position has two
    * digits, the payslip id six and the pence ten. */
  lemma PreparedDetailLength(p: Payslip, position: int, processingDate: Date)
    requires ValidDate(processingDate)
    requires 1 <= position < 100 && 0 <= p.id < 1000000
    requires 0.0 <= p.netPay < 100000000.0
    ensures |FormatDetail(DetailFor(p, position, processingDate))| == 75
  {
    var d := DetailFor(p, position, processingDate);
    DetailFieldWidths(p, position, processingDate);
    DetailLineWidth(d);
  }

  lemma PenceBound(netPay: real)
    requires 0.0 <= netPay < 100000000.0
    ensures 0 <= TruncateToInt(netPay * 100.0) < 10000000000
  {
    var x := netPay * 100.0;
    assert 0.0 <= x < 10000000000.0;
  }

  lemma DetailFieldWidths(p: Payslip, position: int, processingDate: Date)
    requires ValidDate(processingDate)
    requires 1 <= position < 100 && 0 <= p.id < 1000000
    requires 0.0 <= p.netPay < 100000000.0
    ensures var d := DetailFor(p, position, processingDate);
      |d.recordType| == 2 && |d.destinationSortCode| == 6 && |d.destinationAccount| == 9
      && |d.destinationAccountName| <= 18 && |d.reference| == 9 && 0 <= d.amount < 10000000000
      && |d.processingDate| == 6 && |d.sequenceNumber| == 6
  {
    PenceBound(p.netPay);
    assert Pow10(2) == 100 && Pow10(6) == 1000000;
    FormatIntWidth(position, 2);
    FormatIntWidth(position, 6);
    FormatIntWidth(p.id, 6);
  }

  /** Account names and references of at most 18 characters and amounts of at
    * most ten digits fill exactly their padded widths. */
  lemma DetailLineWidth(d: Detail)
    requires |d.destinationAccountName| <= 18 && |d.reference| <= 18
    requires 0 <= d.amount < 10000000000
    ensures |FormatDetail(d)| == |d.recordType| + |d.destinationSortCode| + |d.destinationAccount| + 18 + 10 + 18
      + |d.processingDate| + |d.sequenceNumber|
  {
    assert Pow10(10) == 10000000000;
    FormatIntWidth(d.amount, 10);
  }

  /** The prepared trailer line is 52 characters when the count has six digits
    * and the total pence twelve. */
  lemma PreparedTrailerLength(payslips: seq<Payslip>, processingDate: Date)
    requires ValidDate(processingDate)
    requires |payslips| < 1000000
    requires 0.0 <= SumNetPay(payslips) < 10000000000.0
    ensures |FormatTrailer(PreparedTrailer(payslips, processingDate))| == 52
  {
    var pence := TruncateToInt(SumNetPay(payslips) * 100.0);
    assert Pow10(6) == 1000000 && Pow10(12) == 1000000000000;
    FormatIntWidth(|payslips|, 6);
    FormatIntWidth(pence, 12);
  }

  /** The lines `generate_bacs_file` writes: header, one line per detail, trailer. */
  function WrittenLines(data: BacsData): (lines: seq<string>)
    ensures |lines| == |data.details| + 2
  {
    [FormatHeader(data.header) + "\n"] + DetailLines(data.details) + [FormatTrailer(data.trailer) + "\n"]
  }

  function DetailLines(details: seq<Detail>): (lines: seq<string>)
    ensures |lines| == |details|
  {
    seq(|details|, k requires 0 <= k < |details| => FormatDetail(details[k]) + "\n")
  }

  // -------------------------------------------------------------- validation

  datatype Counts = Counts(totalRecords: nat, detailRecords: nat)

  /** The validator's answer; the counts are reported only for files of three or more lines. */
  datatype FileCheck = FileCheck(valid: bool, errors: seq<string>, counts: Option<Counts>)

  const TooFewLinesMessage := "File must contain header, detail, and trailer records"
  const InvalidHeaderMessage := "Invalid header record type"
  const InvalidTrailerMessage := "Invalid trailer record type"

  function DetailLineMessage(lineNumber: nat): string
  {
    "Invalid detail record type at line " + NatToString(lineNumber)
  }

  predicate HasRecordType(line: string, recordType: string)
  {
    StartsWith(Strip(line), recordType)
  }

  /** One message per middle line that is not a detail record, naming its line
    * number in the file (the first middle line is line 2). */
  function DetailLineErrors(records: seq<string>): seq<string>
  {
    if |records| == 0 then []
    else
      DetailLineErrors(records[..|records| - 1])
      + (if HasRecordType(records[|records| - 1], DetailRecordType) then [] else [DetailLineMessage(|records| + 1)])
  }

  lemma {:induction false} DetailLineErrorsEmpty(records: seq<string>)
    ensures DetailLineErrors(records) == [] <==>
      forall k :: 0 <= k < |records| ==> HasRecordType(records[k], DetailRecordType)
  {
    if |records| > 0 {
      var init := records[..|records| - 1];
      DetailLineErrorsEmpty(init);
      if DetailLineErrors(records) == [] {
        forall k | 0 <= k < |records|
          ensures HasRecordType(records[k], DetailRecordType)
        {
          if k < |records| - 1 {
            assert records[k] == init[k];
          }
        }
      }
    }
  }

  /** The checks `validate_bacs_file` makes on the lines of a file. */
  function CheckLines(lines: seq<string>): (r: FileCheck)
    ensures r.valid <==> r.errors == [] && |lines| >= 3
    ensures |lines| < 3 <==> r.counts.None?
  {
    if |lines| < 3 then FileCheck(false, [TooFewLinesMessage], None)
    else
      var errors :=
        (if HasRecordType(lines[0], HeaderRecordType) then [] else [InvalidHeaderMessage])
        + (if HasRecordType(lines[|lines| - 1], TrailerRecordType) then [] else [InvalidTrailerMessage])
        + DetailLineErrors(lines[1..|lines| - 1]);
      FileCheck(errors == [], errors, Some(Counts(|lines|, |lines| - 2)))
  }

  /** A file is valid exactly when it has a header line, at least one middle
    * line, a trailer line, and every middle line is a detail record. */
  lemma ValidIffWellFormed(lines: seq<string>)
    ensures CheckLines(lines).valid <==>
      |lines| >= 3
      && HasRecordType(lines[0], HeaderRecordType)
      && HasRecordType(lines[|lines| - 1], TrailerRecordType)
      && forall k :: 1 <= k < |lines| - 1 ==> HasRecordType(lines[k], DetailRecordType)
  {
    if |lines| >= 3 {
      var middle := lines[1..|lines| - 1];
      DetailLineErrorsEmpty(middle);
      assert forall k :: 1 <= k < |lines| - 1 ==> lines[k] == middle[k - 1];
    }
  }

  /** Reads the header, the trailer and then each middle line, appending errors. */
  method ValidateBacsFile(lines: seq<string>) returns (r: FileCheck)
    ensures r == CheckLines(lines)
  {
    if |lines| < 3 {
      return FileCheck(false, [TooFewLinesMessage], None);
    }
    var errors: seq<string> := [];
    if !HasRecordType(lines[0], HeaderRecordType) {
      errors := errors + [InvalidHeaderMessage];
    }
    if !HasRecordType(lines[|lines| - 1], TrailerRecordType) {
      errors := errors + [InvalidTrailerMessage];
    }
    var detailRecords := lines[1..|lines| - 1];
    errors := CheckDetailRecords(detailRecords, errors);
    r := FileCheck(|errors| == 0, errors, Some(Counts(|lines|, |detailRecords|)));
  }

  /** The loop over the middle lines: appends one message per line that is not a detail record. */
  method CheckDetailRecords(detailRecords: seq<string>, errorsSoFar: seq<string>) returns (errors: seq<string>)
    ensures errors == errorsSoFar + DetailLineErrors(detailRecords)
  {
    errors := errorsSoFar;
    var i := 0;
    while i < |detailRecords|
      invariant 0 <= i <= |detailRecords|
      invariant errors == errorsSoFar + DetailLineErrors(detailRecords[..i])
    {
      assert detailRecords[..i + 1][..i] == detailRecords[..i];
      if !HasRecordType(detailRecords[i], DetailRecordType) {
        errors := errors + [DetailLineMessage(i + 2)];
      }
      i := i + 1;
    }
    assert detailRecords[..i] == detailRecords;
  }

  /** A written line keeps its two-digit record type through stripping. */
  lemma WrittenLineTyped(line: string, recordType: string)
    requires |recordType| == 2 && IsDigitChar(recordType[0]) && IsDigitChar(recordType[1])
    requires StartsWith(line, recordType)
    ensures HasRecordType(line + "\n", recordType)
  {
    var written := line + "\n";
    assert written[..2] == line[..2];
    StripKeepsPrefix(written, recordType);
  }

  /** Every record line written from prepared data starts with its own record type. */
  lemma WrittenLinesTyped(data: BacsData)
    requires data.header.recordType == HeaderRecordType
    requires data.trailer.recordType == TrailerRecordType
    requires forall k :: 0 <= k < |data.details| ==> data.details[k].recordType == DetailRecordType
    ensures var lines := WrittenLines(data);
      HasRecordType(lines[0], HeaderRecordType)
      && HasRecordType(lines[|lines| - 1], TrailerRecordType)
      && forall k :: 1 <= k < |lines| - 1 ==> HasRecordType(lines[k], DetailRecordType)
  {
    var lines := WrittenLines(data);
    WrittenLineTyped(FormatHeader(data.header), HeaderRecordType);
    WrittenLineTyped(FormatTrailer(data.trailer), TrailerRecordType);
    var middle := DetailLines(data.details);
    var front := [FormatHeader(data.header) + "\n"] + middle;
    assert lines == front + [FormatTrailer(data.trailer) + "\n"];
    forall k | 1 <= k < |lines| - 1
      ensures HasRecordType(lines[k], DetailRecordType)
    {
      assert lines[k] == front[k] == middle[k - 1];
      assert middle[k - 1] == FormatDetail(data.details[k - 1]) + "\n";
      WrittenLineTyped(FormatDetail(data.details[k - 1]), DetailRecordType);
    }
  }

  /** The file written for a batch of one or more payslips passes validation,
    * counting one detail record per payslip. */
  lemma GeneratedFileValidates(payslips: seq<Payslip>, companyId: int, processingDate: Date)
    requires |payslips| >= 1
    ensures CheckLines(WrittenLines(BacsDataFor(payslips, companyId, processingDate)))
      == FileCheck(true, [], Some(Counts(|payslips| + 2, |payslips|)))
  {
    var data := BacsDataFor(payslips, companyId, processingDate);
    forall k | 0 <= k < |payslips|
      ensures data.details[k].recordType == DetailRecordType
    {
      DetailAt(payslips, processingDate, k);
    }
    WrittenLinesTyped(data);
    ValidIffWellFormed(WrittenLines(data));
  }

  /** For an empty batch only the header and trailer are written, and the file is rejected. */
  lemma EmptyBatchFileRejected(companyId: int, processingDate: Date)
    ensures CheckLines(WrittenLines(BacsDataFor([], companyId, processingDate)))
      == FileCheck(false, [TooFewLinesMessage], None)
  {
  }

  // ----------------------------------------------------------------- summary

  datatype Payment = Payment(employeeId: string, amount: real, account: string, sortCode: string)

  datatype BacsSummary = BacsSummary(
    companyId: int, totalPayslips: nat, totalAmount: real, processingDate: string,
    bacsFormat: string, fileType: string, validationStatus: string,
    estimatedProcessing: string, bankStatus: string, payments: seq<Payment>)

  function PaymentOf(d: Detail): Payment
  {
    Payment(ReplaceAll(d.reference, "PAY", ""), d.amount as real / 100.0, d.destinationAccount, d.destinationSortCode)
  }

  /** The summary report: the prepared summary plus one payment per detail, in order. */
  function GenerateBacsSummary(data: BacsData): (s: BacsSummary)
    ensures |s.payments| == |data.details|
    ensures forall k :: 0 <= k < |data.details| ==>
      s.payments[k].account == data.details[k].destinationAccount
      && s.payments[k].sortCode == data.details[k].destinationSortCode
      && s.payments[k].amount * 100.0 == data.details[k].amount as real
    ensures s.totalPayslips == data.summary.totalPayslips && s.totalAmount == data.summary.totalAmount
  {
    BacsSummary(
      data.summary.companyId, data.summary.totalPayslips, data.summary.totalAmount, data.summary.processingDate,
      "BACS 18/18", "salary_payment", "valid", "T+3", "pending",
      seq(|data.details|, k requires 0 <= k < |data.details| => PaymentOf(data.details[k])))
  }

  /** Removing "PAY" from "PAY" followed by digits leaves the digits. */
  lemma StripPayPrefix(digits: string)
    requires AllDigits(digits)
    ensures ReplaceAll("PAY" + digits, "PAY", "") == digits
  {
    forall k: int
      ensures !OccursAt(digits, "PAY", k)
    {
      if 0 <= k && k + 3 <= |digits| {
        assert digits[k..k + 3][0] == digits[k] && IsDigitChar(digits[k]);
      }
    }
    ContainsIffOccurs(digits, "PAY");
    var s := "PAY" + digits;
    assert s[..3] == "PAY" && s[3..] == digits;
  }

  /** The summary's `employee_id` of each payment is the payslip id (not the
    * employee id), zero-padded to six digits, and reads back as that id. */
  lemma SummaryEmployeeIdIsPayslipId(payslips: seq<Payslip>, companyId: int, processingDate: Date, k: nat)
    requires k < |payslips| && payslips[k].id >= 0
    ensures var s := GenerateBacsSummary(BacsDataFor(payslips, companyId, processingDate));
      s.payments[k].employeeId == FormatInt(payslips[k].id, 6)
      && ParseNat(s.payments[k].employeeId) == payslips[k].id
  {
    DetailAt(payslips, processingDate, k);
    ParseFormatInt(payslips[k].id, 6);
    StripPayPrefix(FormatInt(payslips[k].id, 6));
  }
}
