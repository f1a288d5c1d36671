// Employee-record endpoints (backend/routers/employee.py): the CSV upload
// that normalises each row and upserts it into the reference-keyed record
// table, the partial update of one record, the paged record list, and the
// conversion of records into payroll employees.

module EmployeeRouter {
  import opened Strings
  import opened Tables
  import opened CompanyRouter

  /** A row of `csv.DictReader`: a column a short row lacks reads as `None`. */
  type CsvRow = map<string, Option<string>>

  /** An `EmployeeRecord` row: the text columns it holds; a missing key is NULL. */
  type Record = map<string, string>

  /** A nullable column of a record. */
  function Field(r: Record, column: string): Option<string>
  {
    if column in r then Some(r[column]) else None
  }

  /** Python's `value or default` on a nullable text column. */
  function OrDefault(v: Option<string>, default: string): string
  {
    if v.Some? && v.value != "" then v.value else default
  }

  // ------------------------------------------------------------ row normalisation

  /** `safe_get`: the stripped cell, or "" when the column is missing or empty-valued. */
  function SafeGet(row: CsvRow, key: string): (v: string)
    ensures |v| > 0 ==> key in row && row[key].Some? && |v| <= |row[key].value|
  {
    if key in row && row[key].Some? then Strip(row[key].value) else ""
  }

  /** A cell read by `safe_get` has no whitespace left at either end, is
      unchanged by stripping again, and is "" for a missing column. */
  lemma SafeGetIsStripped(row: CsvRow, key: string)
    ensures var v := SafeGet(row, key);
      Strip(v) == v && (|v| > 0 ==> !IsSpaceChar(v[0]) && !IsSpaceChar(v[|v| - 1]))
    ensures key !in row ==> SafeGet(row, key) == ""
  {
    if key in row && row[key].Some? {
      StripIdempotent(row[key].value);
      StripEnds(row[key].value);
    } else {
      assert SafeGet(row, key) == "";
      assert Strip("") == "";
    }
  }

  const ReferenceAliases: seq<string> := ["reference", "Reference", "REFERENCE", "employee_id", "Employee ID", "id"]
  const ForenameAliases: seq<string> := ["forename", "Forename", "FORENAME", "first_name", "First Name", "firstname"]
  const SurnameAliases: seq<string> := ["surname", "Surname", "SURNAME", "last_name", "Last Name", "lastname"]

  /** The `safe_get(row, a) or safe_get(row, b) or ...` chain over column aliases. */
  function ResolveAlias(row: CsvRow, aliases: seq<string>): (v: string)
    ensures |v| > 0 ==> !IsSpaceChar(v[0]) && !IsSpaceChar(v[|v| - 1])
  {
    if |aliases| == 0 then ""
    else if SafeGet(row, aliases[0]) != "" then SafeGetIsStripped(row, aliases[0]); SafeGet(row, aliases[0])
    else ResolveAlias(row, aliases[1..])
  }

  /** The chain yields "" exactly when every alias reads empty, and
      otherwise the value of the first alias that does not. */
  lemma {:induction false} ResolveAliasFirstNonEmpty(row: CsvRow, aliases: seq<string>)
    ensures ResolveAlias(row, aliases) == "" <==> forall i :: 0 <= i < |aliases| ==> SafeGet(row, aliases[i]) == ""
    ensures ResolveAlias(row, aliases) != "" ==>
      exists i :: 0 <= i < |aliases| && ResolveAlias(row, aliases) == SafeGet(row, aliases[i])
        && forall j :: 0 <= j < i ==> SafeGet(row, aliases[j]) == ""
  {
    if |aliases| > 0 {
      var rest := aliases[1..];
      ResolveAliasFirstNonEmpty(row, rest);
      assert forall i :: 1 <= i < |aliases| ==> aliases[i] == rest[i - 1];
      if SafeGet(row, aliases[0]) == "" && ResolveAlias(row, aliases) != "" {
        var i :| 0 <= i < |rest| && ResolveAlias(row, rest) == SafeGet(row, rest[i])
          && forall j :: 0 <= j < i ==> SafeGet(row, rest[j]) == "";
        assert aliases[i + 1] == rest[i];
      }
    }
  }

  /** Each record field with the CSV column it is read from, in the order
      the fields are filled (the directorship and NI-letter fields, which
      share columns, are in `RowData`). */
  const FieldColumns: seq<(string, string)> := [
    ("reference", "Reference"),
    ("gender", "Gender"),
    ("title", "Title"),
    ("forename", "Forename"),
    ("surname", "Surname"),
    ("address_1", "Address 1"),
    ("address_2", "Address 2"),
    ("address_3", "Address 3"),
    ("address_4", "Address 4"),
    ("postcode", "Postcode"),
    ("country", "Country"),
    ("marital_status", "Marital Status"),
    ("birth_date", "Birth Date"),
    ("employment_status", "Employment Status"),
    ("start_date", "Start Date"),
    ("leaving_date", "Leave Date"),
    ("leaver", "Leaver"),
    ("p45_1_if_required", "P45_1_IF_Required"),
    ("branch", "Branch"),
    ("cost_centre", "Cost Centre"),
    ("department", "Department"),
    ("run_group", "Run Group"),
    ("default_cost_split", "Default Cost Split"),
    ("ni_number", "NINumber"),
    ("tax_code", "Tax Code"),
    ("week1_month1", "Week 1/Month 1"),
    ("tax_code_change_type", "Tax Code Change Type"),
    ("frequency", "Frequency"),
    ("payment_method", "Payment Method"),
    ("bank_account_no", "Bank Account No"),
    ("bank_account_name", "Bank Account Name"),
    ("sort_code", "Sort Code"),
    ("bank_name", "Bank Name"),
    ("bank_branch", "Bank Branch"),
    ("building_society_ref", "Building Society Ref"),
    ("autopay_ref", "Autopay Ref"),
    ("taxable_pay_previous_employment", "Taxable Pay Previous Employment"),
    ("taxable_pay_this_employment", "Taxable Pay This Employment"),
    ("tax_previous_employment", "Tax Previous Employment"),
    ("tax_this_employment", "Tax This Employment"),
    ("net_pay_to_date", "Net Pay To Date"),
    ("directors_earnings_to_date", "Directors Earnings To Date"),
    ("bf_ni_letter", "BF NI Letter"),
    ("bf_ni_calculation_basis", "BF NI Calculation Basis"),
    ("bf_total_earnings", "BF Total Earnings"),
    ("bf_earnings_to_set", "BF Earnings To SET"),
    ("bf_earnings_to_lel", "BF Earnings To LEL"),
    ("bf_earnings_to_pet", "BF Earnings To PET"),
    ("bf_earnings_to_fust", "BF Earnings To FUST"),
    ("bf_earnings_to_ust", "BF Earnings To UST"),
    ("bf_earnings_above_uel", "BF Earnings Above UEL"),
    ("bf_ee_contributions_pt1", "BF Ee Contributions Pt1"),
    ("bf_ee_contributions_pt2", "BF Ee Contributions Pt2"),
    ("bf_er_contributions", "BF Er Contributions"),
    ("student_loan_repayment_plan", "StudentLoanRepaymentPlan"),
    ("student_loan_from_date", "StudentLoanFromDate"),
    ("student_loan_to_date", "StudentLoanToDate"),
    ("student_loan_deducted", "StudentLoanDeducted"),
    ("email", "Email"),
    ("ee_ni_pd_by_er_td", "ee_ni_pd_by_er_td"),
    ("expat_exempt", "expat_exempt"),
    ("date_of_arrival", "date_of_arrival"),
    ("tax_exempt_pcnt", "tax_exempt_pcnt"),
    ("tax_exempt_income_td", "tax_exempt_income_td"),
    ("tax_exempt_gu_income_td", "tax_exempt_gu_income_td"),
    ("ee_gu_override", "ee_gu_override"),
    ("calc_ee_gross_to_net_first", "calc_ee_gross_to_net_first"),
    ("no_ni_gu", "no_ni_gu"),
    ("gross_up_pension_contribs", "gross_up_pension_contribs"),
    ("gu_student_loan", "gu_student_loan"),
    ("double_tax_agreement", "double_tax_agreement"),
    ("foreign_tax_credit", "foreign_tax_credit"),
    ("uk_tax_ytd", "uk_tax_ytd"),
    ("foreign_tax_ytd", "foreign_tax_ytd"),
    ("foreign_tax_offset_ytd", "foreign_tax_offset_ytd"),
    ("epm6_override", "epm6_override"),
    ("gu_postgraduate_loan", "gu_postgraduate_loan"),
    ("transfer_date", "transfer_date"),
    ("standard_hours", "standard_hours")
  ]

  /** The fields `employee_data[field] = safe_get(row, column)` fills, one
      assignment per table entry, in order. */
  function FillFields(row: CsvRow, columns: seq<(string, string)>): Record
  {
    if |columns| == 0 then map[]
    else
      var last := columns[|columns| - 1];
      FillFields(row, columns[..|columns| - 1])[last.0 := SafeGet(row, last.1)]
  }

  /** Each field of the table holds the value of the column its last entry
      names, as the last of several assignments to a dictionary key wins. */
  lemma {:induction false} FillFieldsReads(row: CsvRow, columns: seq<(string, string)>, k: nat)
    requires k < |columns|
    requires forall j :: k < j < |columns| ==> columns[j].0 != columns[k].0
    ensures columns[k].0 in FillFields(row, columns)
    ensures FillFields(row, columns)[columns[k].0] == SafeGet(row, columns[k].1)
  {
    if k < |columns| - 1 {
      var init := columns[..|columns| - 1];
      assert init[k] == columns[k];
      FillFieldsReads(row, init, k);
    }
  }

  /** The record fields read from the CSV columns, one `safe_get` each:
      those of a field-to-column table (the endpoint's is `FieldColumns`),
      then the directorship and NI-letter fields, which share columns. */
  function RowData(row: CsvRow, columns: seq<(string, string)>): Record
  {
    var directorship := SafeGet(row, "Directorship Start Date");
    var niLetter := SafeGet(row, "NILetter");
    FillFields(row, columns)
    + map[
      "director" := directorship,
      "director_start_date" := directorship,
      "director_leave_date" := directorship,
      "ni_letter" := niLetter,
      "ni_category" := niLetter]
  }

  /** The three directorship fields are all read from the directorship
      start date column. */
  lemma DirectorshipFieldsShareColumn(row: CsvRow, columns: seq<(string, string)>)
    ensures var d := RowData(row, columns);
      d["director"] == SafeGet(row, "Directorship Start Date")
      && d["director_start_date"] == SafeGet(row, "Directorship Start Date")
      && d["director_leave_date"] == SafeGet(row, "Directorship Start Date")
  {
  }

  /** The NI category repeats the NI letter column. */
  lemma NiCategoryCopiesLetter(row: CsvRow, columns: seq<(string, string)>)
    ensures RowData(row, columns)["ni_category"] == RowData(row, columns)["ni_letter"] == SafeGet(row, "NILetter")
  {
  }

  /** The record a row produces, with the required fields taken from their
      alias chains; `None` when one of them is missing. */
  function NormaliseRow(row: CsvRow, columns: seq<(string, string)>): (r: Option<Record>)
    ensures r.None? <==>
      ResolveAlias(row, ReferenceAliases) == "" || ResolveAlias(row, ForenameAliases) == ""
      || ResolveAlias(row, SurnameAliases) == ""
    ensures r.Some? ==>
      "reference" in r.value && r.value["reference"] == ResolveAlias(row, ReferenceAliases) &&
      "forename" in r.value && r.value["forename"] == ResolveAlias(row, ForenameAliases) &&
      "surname" in r.value && r.value["surname"] == ResolveAlias(row, SurnameAliases)
  {
    var reference := ResolveAlias(row, ReferenceAliases);
    var forename := ResolveAlias(row, ForenameAliases);
    var surname := ResolveAlias(row, SurnameAliases);
    if reference == "" || forename == "" || surname == "" then None
    else Some(RowData(row, columns)["reference" := reference]["forename" := forename]["surname" := surname])
  }

  // ------------------------------------------------------------ upload

  const CsvOnly := "File must be a CSV"
  const CsvProcessingFailed := "Error processing CSV: "
  const UploadCompleted := "CSV upload completed"

  /** The error kept for a row lacking a reference, forename or surname;
      `line` is the CSV line the row was read from. */
  function MissingFieldsError(line: nat): string
  {
    "Row " + NatToString(line) + ": Missing required fields (reference/employee_id, forename/first_name, surname/last_name)"
  }

  /** The errors reported for the rejected lines, in order. */
  function ErrorMessages(lines: seq<nat>): (errors: seq<string>)
    ensures |errors| == |lines|
  {
    seq(|lines|, i requires 0 <= i < |lines| => MissingFieldsError(lines[i]))
  }

  /** `EmployeeRecord.reference == reference`. */
  predicate HasReference(r: Record, reference: string)
  {
    "reference" in r && r["reference"] == reference
  }

  /** The first record with the reference (the session's `.first()`). */
  function WithReference(records: seq<Record>, reference: string): Option<nat>
  {
    FirstMatch(records, (r: Record) => HasReference(r, reference))
  }

  /** The unique constraint on `reference`: no two records share a non-NULL one. */
  predicate UniqueReferences(rs: seq<Record>)
  {
    forall i, j :: 0 <= i < j < |rs| && "reference" in rs[i] ==> Field(rs[j], "reference") != Some(rs[i]["reference"])
  }

  /** The update of an existing record by an uploaded row: every non-empty
      incoming field overwrites, every other field is kept. */
  function Merge(existing: Record, data: Record): (r: Record)
    ensures forall k :: k in data && data[k] != "" ==> k in r && r[k] == data[k]
    ensures forall k :: k in existing && (k !in data || data[k] == "") ==> k in r && r[k] == existing[k]
    ensures forall k :: k in r ==> k in existing || (k in data && data[k] != "")
  {
    map k | k in existing.Keys + data.Keys && (k in existing || data[k] != "") ::
      if k in data && data[k] != "" then data[k] else existing[k]
  }

  /** Uploading the same row twice changes nothing the first upload did not. */
  lemma MergeIdempotent(existing: Record, data: Record)
    ensures Merge(Merge(existing, data), data) == Merge(existing, data)
  {
  }

  /** The rows as `NormaliseRow` reads them, one entry per data row. */
  function Normalised(rows: seq<CsvRow>, columns: seq<(string, string)>): (ds: seq<Option<Record>>)
    ensures |ds| == |rows|
  {
    seq(|rows|, i requires 0 <= i < |rows| => NormaliseRow(rows[i], columns))
  }

  /** The reference of a normalised row. */
  function ReferenceOf(data: Record): string
  {
    if "reference" in data then data["reference"] else ""
  }

  /** Every accepted row carries a non-empty reference. */
  predicate Referenced(datas: seq<Option<Record>>)
  {
    forall i :: 0 <= i < |datas| && datas[i].Some? ==>
      "reference" in datas[i].value && datas[i].value["reference"] != ""
  }

  /** Normalisation accepts a row only with a non-empty reference. */
  lemma NormalisedReferenced(rows: seq<CsvRow>, columns: seq<(string, string)>)
    ensures Referenced(Normalised(rows, columns))
  {
  }

  /** The state of the upload loop: the table as the session sees it, the
      records added (pending, so invisible to the lookups), the counters and
      the lines of the rows rejected. */
  datatype UploadState = UploadState(records: seq<Record>, added: seq<Record>, created: nat, updated: nat, rejected: seq<nat>)

  /** One row of the upload loop, read from CSV line `line` and normalised to
      `data`: a row missing a required field is rejected; a row whose
      reference the table holds merges into that record; any other row is
      added. */
  function UploadStep(s: UploadState, data: Option<Record>, line: nat): UploadState
  {
    match data
    case None => s.(rejected := s.rejected + [line])
    case Some(d) =>
      match WithReference(s.records, ReferenceOf(d))
      case Some(i) => s.(records := s.records[i := Merge(s.records[i], d)], updated := s.updated + 1)
      case None => s.(added := s.added + [d], created := s.created + 1)
  }

  /** The upload loop over the normalised data rows; the row at index i is
      read from CSV line i + 2, after the header. Each row counts once: as
      created, as updated or as rejected. */
  function UploadFold(records: seq<Record>, datas: seq<Option<Record>>): (s: UploadState)
    ensures s.created + s.updated + |s.rejected| == |datas|
    ensures |s.records| == |records| && |s.added| == s.created
  {
    if |datas| == 0 then UploadState(records, [], 0, 0, [])
    else UploadStep(UploadFold(records, datas[..|datas| - 1]), datas[|datas| - 1], |datas| + 1)
  }

  /** One row never changes the references of the table's records. */
  lemma UploadStepKeepsReferences(s: UploadState, data: Option<Record>, line: nat)
    ensures var t := UploadStep(s, data, line);
      |t.records| == |s.records|
      && forall k :: 0 <= k < |s.records| ==> Field(t.records[k], "reference") == Field(s.records[k], "reference")
  {
    if data.Some? {
      var m := WithReference(s.records, ReferenceOf(data.value));
      if m.Some? {
        assert HasReference(s.records[m.value], ReferenceOf(data.value));
      }
    }
  }

  /** Merging rows into existing records never changes their references. */
  lemma {:induction false} UploadKeepsReferences(records: seq<Record>, datas: seq<Option<Record>>)
    ensures var s := UploadFold(records, datas);
      forall k :: 0 <= k < |records| ==> Field(s.records[k], "reference") == Field(records[k], "reference")
  {
    if |datas| > 0 {
      var init := datas[..|datas| - 1];
      UploadKeepsReferences(records, init);
      UploadStepKeepsReferences(UploadFold(records, init), datas[|datas| - 1], |datas| + 1);
    }
  }

  /** A record the upload adds has a non-empty reference that no record of
      the table had. */
  lemma {:induction false} UploadAddsNewReferences(records: seq<Record>, datas: seq<Option<Record>>)
    requires Referenced(datas)
    ensures var s := UploadFold(records, datas);
      forall a :: 0 <= a < |s.added| ==>
        "reference" in s.added[a] && s.added[a]["reference"] != ""
        && forall k :: 0 <= k < |records| ==> !HasReference(records[k], s.added[a]["reference"])
  {
    if |datas| > 0 {
      var init := datas[..|datas| - 1];
      var last := datas[|datas| - 1];
      assert Referenced(init) by {
        forall i | 0 <= i < |init| ensures init[i] == datas[i] { }
      }
      UploadAddsNewReferences(records, init);
      UploadKeepsReferences(records, init);
      var before := UploadFold(records, init);
      var s := UploadFold(records, datas);
      assert s == UploadStep(before, last, |datas| + 1);
      if last.Some? {
        assert "reference" in last.value && last.value["reference"] != "";
        var m := WithReference(before.records, ReferenceOf(last.value));
        if m.None? {
          assert s.added == before.added + [last.value];
          forall k | 0 <= k < |records|
            ensures !HasReference(records[k], last.value["reference"])
          {
            assert !HasReference(before.records[k], ReferenceOf(last.value));
          }
        } else {
          assert s.added == before.added;
        }
      } else {
        assert s.added == before.added;
      }
    }
  }

  /** For a table that satisfies the constraint, the commit at the end of
      the upload fails exactly when two added rows share a reference: a CSV
      that repeats the reference of a new employee is rejected as a whole. */
  lemma UploadCommitCondition(records: seq<Record>, datas: seq<Option<Record>>)
    requires UniqueReferences(records) && Referenced(datas)
    ensures var s := UploadFold(records, datas);
      UniqueReferences(s.records + s.added) <==> UniqueReferences(s.added)
  {
    var s := UploadFold(records, datas);
    UploadKeepsReferences(records, datas);
    UploadAddsNewReferences(records, datas);
    var all := s.records + s.added;
    var n := |s.records|;
    if UniqueReferences(s.added) {
      forall i, j | 0 <= i < j < |all| && "reference" in all[i]
        ensures Field(all[j], "reference") != Some(all[i]["reference"])
      {
        if j < n {
          assert Field(all[i], "reference") == Field(records[i], "reference");
          assert Field(all[j], "reference") == Field(records[j], "reference");
        } else if i < n {
          assert Field(all[i], "reference") == Field(records[i], "reference");
          assert !HasReference(records[i], s.added[j - n]["reference"]);
          assert all[j] == s.added[j - n];
        } else {
          assert all[i] == s.added[i - n] && all[j] == s.added[j - n];
        }
      }
    }
    if UniqueReferences(all) {
      forall i, j | 0 <= i < j < |s.added| && "reference" in s.added[i]
        ensures Field(s.added[j], "reference") != Some(s.added[i]["reference"])
      {
        assert all[n + i] == s.added[i] && all[n + j] == s.added[j];
      }
    }
  }

  /** The reference is held by a record of the table or by an added one. */
  predicate Stored(s: UploadState, reference: string)
  {
    (exists k :: 0 <= k < |s.records| && HasReference(s.records[k], reference))
    || (exists k :: 0 <= k < |s.added| && HasReference(s.added[k], reference))
  }

  /** A further row never loses a stored reference, and an accepted row is
      stored under its own. */
  lemma UploadStepStores(s: UploadState, data: Option<Record>, line: nat, reference: string)
    requires Stored(s, reference) || (data.Some? && HasReference(data.value, reference) && reference != "")
    ensures Stored(UploadStep(s, data, line), reference)
  {
    var t := UploadStep(s, data, line);
    if data.Some? {
      var m := WithReference(s.records, ReferenceOf(data.value));
      if k :| 0 <= k < |s.records| && HasReference(s.records[k], reference) {
        if m.Some? && m.value == k {
          assert HasReference(t.records[k], reference);
        } else {
          assert t.records[k] == s.records[k];
        }
      } else if k :| 0 <= k < |s.added| && HasReference(s.added[k], reference) {
        assert t.added[k] == s.added[k];
      } else if m.None? {
        assert t.added[|t.added| - 1] == data.value;
      }
    }
  }

  /** Every row the upload accepts ends up under its reference, in an
      existing record or in an added one. */
  lemma {:induction false} UploadStoresAcceptedRows(records: seq<Record>, datas: seq<Option<Record>>)
    requires Referenced(datas)
    ensures forall i :: 0 <= i < |datas| && datas[i].Some? ==>
      Stored(UploadFold(records, datas), datas[i].value["reference"])
  {
    if |datas| > 0 {
      var init := datas[..|datas| - 1];
      var last := |datas| - 1;
      assert Referenced(init) by {
        forall i | 0 <= i < |init| ensures init[i] == datas[i] { }
      }
      UploadStoresAcceptedRows(records, init);
      var before := UploadFold(records, init);
      forall i | 0 <= i < |datas| && datas[i].Some?
        ensures Stored(UploadFold(records, datas), datas[i].value["reference"])
      {
        if i < last {
          assert init[i] == datas[i];
        }
        UploadStepStores(before, datas[last], |datas| + 1, datas[i].value["reference"]);
      }
    }
  }

  /** The body of a successful upload response. */
  datatype UploadSummary = UploadSummary(
    message: string, created: nat, updated: nat, errors: seq<string>, initialCount: nat, finalCount: nat)

  // ------------------------------------------------------------ partial update

  /** The text columns of `EmployeeRecord`, the attributes `hasattr` finds
      and `setattr` may set. */
  predicate IsRecordColumn(name: string)
  {
    name in {
      "reference", "gender", "title", "forename", "surname",
      "address_1", "address_2", "address_3", "address_4", "postcode",
      "country", "marital_status", "birth_date", "employment_status", "start_date",
      "leaving_date", "leaver", "p45_1_if_required", "director", "director_start_date",
      "director_leave_date", "branch", "cost_centre", "department", "run_group",
      "default_cost_split", "ni_number", "ni_letter", "ni_category", "tax_code",
      "week1_month1", "tax_code_change_type", "frequency", "payment_method", "bank_account_no",
      "bank_account_name", "sort_code", "bank_name", "bank_branch", "building_society_ref",
      "autopay_ref", "taxable_pay_previous_employment", "taxable_pay_this_employment", "tax_previous_employment", "tax_this_employment",
      "net_pay_to_date", "directors_earnings_to_date", "bf_ni_letter", "bf_ni_calculation_basis", "bf_total_earnings",
      "bf_earnings_to_set", "bf_earnings_to_lel", "bf_earnings_to_pet", "bf_earnings_to_fust", "bf_earnings_to_ust",
      "bf_earnings_above_uel", "bf_ee_contributions_pt1", "bf_ee_contributions_pt2", "bf_er_contributions", "student_loan_repayment_plan",
      "student_loan_from_date", "student_loan_to_date", "student_loan_deducted", "email", "ee_ni_pd_by_er_td",
      "expat_exempt", "date_of_arrival", "tax_exempt_pcnt", "tax_exempt_income_td", "tax_exempt_gu_income_td",
      "ee_gu_override", "calc_ee_gross_to_net_first", "no_ni_gu", "gross_up_pension_contribs", "gu_student_loan",
      "double_tax_agreement", "foreign_tax_credit", "uk_tax_ytd", "foreign_tax_ytd", "foreign_tax_offset_ytd",
      "epm6_override", "gu_postgraduate_loan", "transfer_date", "standard_hours", "worker_subject_to_postponement_period",
      "postponement_end_date", "postponement_period_part_periods_allowed", "jobholder_opt_in_notice_received", "entitled_worker_active_membership_start", "passport_number",
      "starting_declaration", "irregular_employment", "omit_from_rti", "payment_to_a_non_individual", "old_rti_ee_reference",
      "off_payroll_worker", "p45_3_tax_office_number", "p45_3_tax_office_reference", "p45_3_leave_date", "p45_3_tax_code",
      "p45_3_week1_month1", "p45_3_tax_period_monthly_weekly", "p45_3_tax_period_period_number", "p45_3_previous_tax_year", "p45_3_previous_pay",
      "p45_3_previous_tax", "p45_3_student_loan", "p45_3_student_loan_repayment_plan", "p45_3_postgraduate_loan_indicator", "p46_statement_a_b_or_c",
      "p46_student_loans_indicator", "p46_student_loan_repayment_plan", "p46_postgraduate_loan_indicator", "p46_pen_tax_office_number", "p46_pen_tax_office_reference",
      "p46_pen_leave_date", "p46_pen_tax_code", "p46_pen_week1_month1", "p46_pen_tax_period_monthly_weekly", "p46_pen_tax_period_period_number",
      "p46_pen_previous_tax_year", "p46_pen_previous_pay", "p46_pen_previous_tax", "p46_pen_annual_pension", "p46_pen_is_recently_bereaved",
      "p46_expat_statement_a_b_or_c", "p46_expat_student_loan_indicator", "p46_expat_student_loan_repayment_plan", "p46_expat_eea_or_commonwealth_citizen", "p46_expat_epm6_scheme",
      "p46_expat_postgrad_loan_indicator", "termination_class_1a_earnings", "termination_class_1a_nics", "sporting_class_1a_earnings", "sporting_class_1a_nics",
      "postgraduate_loan_start_date", "postgraduate_loan_stop_date", "postgraduate_loan_deducted_ytd", "working_in_a_freeport", "working_in_an_investment_zone",
      "workplace_postcode", "veterans_first_civilian_employment"
    }
  }

  const UpdateFailed := "Failed to update employee: "

  function RecordNotFound(reference: string): string
  {
    "Employee with reference '" + reference + "' not found"
  }

  /** The patch sets this field: the record has such a column (one of
      `columns`) and the value is not `None`. */
  predicate Patches(patch: map<string, Option<string>>, isColumn: string -> bool, k: string)
  {
    k in patch && isColumn(k) && patch[k].Some?
  }

  /** The `setattr` loop of a partial update: the fields it sets take the
      patch's values, every other field is kept. */
  function ApplyPatch(r: Record, patch: map<string, Option<string>>, isColumn: string -> bool): (p: Record)
    ensures forall k :: Patches(patch, isColumn, k) ==> k in p && p[k] == patch[k].value
    ensures forall k :: !Patches(patch, isColumn, k) ==> (k in p <==> k in r)
    ensures forall k :: !Patches(patch, isColumn, k) && k in r ==> p[k] == r[k]
  {
    map k | k in r.Keys + patch.Keys && (Patches(patch, isColumn, k) || k in r) ::
      if Patches(patch, isColumn, k) then patch[k].value else r[k]
  }

  /** Applying a patch twice is applying it once. */
  lemma PatchIdempotent(r: Record, patch: map<string, Option<string>>, isColumn: string -> bool)
    ensures ApplyPatch(ApplyPatch(r, patch, isColumn), patch, isColumn) == ApplyPatch(r, patch, isColumn)
  {
  }

  /** A patch that names no column, or only `None` values, changes nothing. */
  lemma EmptyPatchChangesNothing(r: Record, patch: map<string, Option<string>>, isColumn: string -> bool)
    requires forall k :: !Patches(patch, isColumn, k)
    ensures ApplyPatch(r, patch, isColumn) == r
  {
  }

  // ------------------------------------------------------------ record list

  /** One entry of the record list. */
  datatype RecordEntry = RecordEntry(
    reference: Option<string>, name: string, department: Option<string>, employmentStatus: Option<string>,
    niNumber: Option<string>, taxCode: Option<string>, email: Option<string>)

  /** `f"{forename or ''} {surname or ''}".strip()`. */
  function DisplayName(r: Record): string
  {
    Strip(OrDefault(Field(r, "forename"), "") + " " + OrDefault(Field(r, "surname"), ""))
  }

  /** The displayed name has no whitespace at either end, and is empty for a
      record with neither forename nor surname. */
  lemma DisplayNameTrimmed(r: Record)
    ensures var n := DisplayName(r);
      |n| > 0 ==> !IsSpaceChar(n[0]) && !IsSpaceChar(n[|n| - 1])
    ensures OrDefault(Field(r, "forename"), "") == "" && OrDefault(Field(r, "surname"), "") == "" ==> DisplayName(r) == ""
  {
    StripEnds(OrDefault(Field(r, "forename"), "") + " " + OrDefault(Field(r, "surname"), ""));
  }

  function EntryOf(r: Record): RecordEntry
  {
    RecordEntry(Field(r, "reference"), DisplayName(r), Field(r, "department"), Field(r, "employment_status"),
      Field(r, "ni_number"), Field(r, "tax_code"), Field(r, "email"))
  }

  /** The body of the record list response. */
  datatype RecordPage = RecordPage(message: string, entries: seq<RecordEntry>, total: nat, skip: nat, limit: nat, hasMore: bool)

  /** A page announced as having more is full; any other page reaches the
      end of the table. */
  lemma HasMoreMeansFullPage<T>(s: seq<T>, skip: nat, limit: nat)
    ensures skip + limit < |s| ==> |Page(s, skip, limit)| == limit
    ensures !(skip + limit < |s|) ==> skip + |Page(s, skip, limit)| >= |s|
  {
  }

  // ------------------------------------------------------------ records to payroll employees

  datatype Date = Date(year: nat, month: nat, day: nat)

  /** The `employees` columns the conversion writes. */
  datatype StaffEmployee = StaffEmployee(
    id: int, employeeNumber: Option<string>, firstName: string, lastName: string, dateOfBirth: Date,
    niNumber: string, email: string, address: string, postcode: string, employmentType: string,
    startDate: Date, salary: real, taxCode: string, pensionScheme: string, pensionContribution: real,
    companyId: int, isActive: bool)

  /** The constraints of the `employees` table checked at commit: the
      employee number is NOT NULL and unique; NI number and email are unique. */
  predicate Committable(es: seq<StaffEmployee>)
  {
    (forall k :: 0 <= k < |es| ==> es[k].employeeNumber.Some?)
    && forall i, j :: 0 <= i < j < |es| ==>
      es[i].employeeNumber != es[j].employeeNumber && es[i].niNumber != es[j].niNumber && es[i].email != es[j].email
  }

  /** The stored employees satisfy the constraints and are held in
      primary-key order, every id below the next one. */
  ghost predicate StaffTableValid(es: seq<StaffEmployee>, nextId: int)
  {
    Committable(es)
    && (forall k :: 0 <= k < |es| ==> es[k].id < nextId)
    && forall i, j :: 0 <= i < j < |es| ==> es[i].id < es[j].id
  }

  /** The stored table part-way through a commit's UPDATEs, which are
      written one row at a time in primary-key order: the first `k` rows
      already hold their new values, the others their stored ones. */
  function Flushed(before: seq<StaffEmployee>, after: seq<StaffEmployee>, k: nat): (t: seq<StaffEmployee>)
    requires |before| == |after| && k <= |after|
    ensures |t| == |after|
    ensures forall i :: 0 <= i < |t| ==> t[i] == if i < k then after[i] else before[i]
  {
    after[..k] + before[k..]
  }

  /** Every UPDATE of a commit that turns the stored rows `before` into
      `after` passes the unique constraints, which the database checks row
      by row against the table as it stands at that statement. */
  predicate UpdatesCommit(before: seq<StaffEmployee>, after: seq<StaffEmployee>)
    requires |before| == |after|
  {
    forall k :: 0 <= k <= |after| ==> Committable(Flushed(before, after, k))
  }

  /** A commit of refreshed rows `table` followed by new rows `added`: the
      UPDATEs in primary-key order, then the INSERTs. */
  predicate ConversionCommits(before: seq<StaffEmployee>, table: seq<StaffEmployee>, added: seq<StaffEmployee>)
    requires |before| == |table|
  {
    UpdatesCommit(before, table) && Committable(table + added)
  }

  /** The fields an employee takes from a record, defaults included. */
  datatype StaffDetails = StaffDetails(
    firstName: string, lastName: string, niNumber: string, email: string, address: string, postcode: string,
    salary: real, taxCode: string)

  const DefaultSalary: real := 45000.0
  const NoRecordsToConvert := "No employee records found to convert"
  const ConversionFailed := "Failed to create employees from records: "
  const ConversionDone := "Employees created from records successfully"

  /** `float(record.taxable_pay_this_employment or 45000)`; `parseFloat` is
      Python's `float` on text, `None` where it raises. */
  function SalaryOf(r: Record, parseFloat: string -> Option<real>): Option<real>
  {
    var text := OrDefault(Field(r, "taxable_pay_this_employment"), "");
    if text == "" then Some(DefaultSalary) else parseFloat(text)
  }

  /** `f"{record.reference}@company.com"`, where a NULL reference prints as "None". */
  function DefaultEmail(r: Record): string
  {
    (if "reference" in r then r["reference"] else "None") + "@company.com"
  }

  /** The fields both branches of the conversion set; `None` when the salary
      text does not parse. */
  function Details(r: Record, parseFloat: string -> Option<real>): Option<StaffDetails>
  {
    match SalaryOf(r, parseFloat)
    case None => None
    case Some(salary) =>
      Some(StaffDetails(
        OrDefault(Field(r, "forename"), "Unknown"), OrDefault(Field(r, "surname"), "Unknown"),
        OrDefault(Field(r, "ni_number"), "AB123456C"), OrDefault(Field(r, "email"), DefaultEmail(r)),
        Strip(OrDefault(Field(r, "address_1"), "") + " " + OrDefault(Field(r, "address_2"), "")),
        OrDefault(Field(r, "postcode"), "SW1A 1AA"), salary, OrDefault(Field(r, "tax_code"), "BR")))
  }

  /** The defaults: a record without taxable pay earns 45000 whatever the
      parser, and one without a tax code gets "BR"; an empty field counts as
      missing. */
  lemma DetailsDefaults(r: Record, parseFloat: string -> Option<real>)
    ensures OrDefault(Field(r, "taxable_pay_this_employment"), "") == "" ==>
      Details(r, parseFloat).Some? && Details(r, parseFloat).value.salary == 45000.0
    ensures Details(r, parseFloat).Some? && ("tax_code" !in r || r["tax_code"] == "") ==>
      Details(r, parseFloat).value.taxCode == "BR"
    ensures Details(r, parseFloat).Some? && "tax_code" in r && r["tax_code"] != "" ==>
      Details(r, parseFloat).value.taxCode == r["tax_code"]
  {
  }

  /** The employee's number is the record's reference (`Employee.employee_number
      == record.reference`; a NULL reference matches nobody). */
  predicate NumberedBy(e: StaffEmployee, r: Record)
  {
    e.employeeNumber.Some? && Field(r, "reference") == e.employeeNumber
  }

  /** The first employee numbered by the record's reference. */
  function NumberedFor(employees: seq<StaffEmployee>, r: Record): Option<nat>
  {
    FirstMatch(employees, (e: StaffEmployee) => NumberedBy(e, r))
  }

  /** The update branch: the detail fields are overwritten and the employee
      is made an active member of company 1. */
  function Refreshed(e: StaffEmployee, d: StaffDetails): StaffEmployee
  {
    e.(firstName := d.firstName, lastName := d.lastName, niNumber := d.niNumber, email := d.email,
       address := d.address, postcode := d.postcode, salary := d.salary, taxCode := d.taxCode,
       companyId := 1, isActive := true)
  }

  /** The create branch, with its fixed dates, type and pension. */
  function NewStaff(id: int, r: Record, d: StaffDetails): StaffEmployee
  {
    StaffEmployee(id, Field(r, "reference"), d.firstName, d.lastName, Date(1990, 1, 1), d.niNumber, d.email,
      d.address, d.postcode, "full_time", Date(2023, 1, 1), d.salary, d.taxCode, "auto_enrolment", 0.05, 1, true)
  }

  /** The state of the conversion loop: the employees as the session sees
      them, the ones added (pending, invisible to the lookups) and the counters. */
  datatype Conversion = Conversion(employees: seq<StaffEmployee>, added: seq<StaffEmployee>, created: nat, updated: nat)

  /** One record of the conversion loop; new employees are numbered from `nextId`. */
  function ConvertStep(c: Conversion, r: Record, d: StaffDetails, nextId: int): Conversion
  {
    match NumberedFor(c.employees, r)
    case Some(i) => c.(employees := c.employees[i := Refreshed(c.employees[i], d)], updated := c.updated + 1)
    case None => c.(added := c.added + [NewStaff(nextId + |c.added|, r, d)], created := c.created + 1)
  }

  /** The conversion loop over the records; `None` when a salary does not
      parse. Each record is counted once, as created or as updated. */
  function ConvertAll(records: seq<Record>, employees: seq<StaffEmployee>, parseFloat: string -> Option<real>, nextId: int)
    : (c: Option<Conversion>)
    ensures c.Some? ==>
      c.value.created + c.value.updated == |records| && |c.value.added| == c.value.created
      && |c.value.employees| == |employees|
  {
    if |records| == 0 then Some(Conversion(employees, [], 0, 0))
    else
      var last := records[|records| - 1];
      match ConvertAll(records[..|records| - 1], employees, parseFloat, nextId)
      case None => None
      case Some(c) =>
        match Details(last, parseFloat)
        case None => None
        case Some(d) => Some(ConvertStep(c, last, d, nextId))
  }

  /** The conversion fails on its last record, or before it. */
  lemma ConvertFailsStep(records: seq<Record>, employees: seq<StaffEmployee>, parseFloat: string -> Option<real>, nextId: int)
    requires |records| > 0
    ensures ConvertAll(records, employees, parseFloat, nextId).None? <==>
      ConvertAll(records[..|records| - 1], employees, parseFloat, nextId).None?
      || SalaryOf(records[|records| - 1], parseFloat).None?
  {
  }

  /** The conversion fails exactly when some record's salary does not parse. */
  lemma {:induction false} ConvertFailsIffUnparsable(
    records: seq<Record>, employees: seq<StaffEmployee>, parseFloat: string -> Option<real>, nextId: int)
    ensures ConvertAll(records, employees, parseFloat, nextId).None? <==>
      exists k :: 0 <= k < |records| && SalaryOf(records[k], parseFloat).None?
  {
    if |records| > 0 {
      var init := records[..|records| - 1];
      ConvertFailsIffUnparsable(init, employees, parseFloat, nextId);
      ConvertFailsStep(records, employees, parseFloat, nextId);
      var last := |records| - 1;
      if SalaryOf(records[last], parseFloat).None? {
        assert 0 <= last < |records| && SalaryOf(records[last], parseFloat).None?;
      } else if exists k :: 0 <= k < |records| && SalaryOf(records[k], parseFloat).None? {
        var k :| 0 <= k < |records| && SalaryOf(records[k], parseFloat).None?;
        assert k < |init| && init[k] == records[k];
      } else {
        forall k | 0 <= k < |init|
          ensures SalaryOf(init[k], parseFloat).Some?
        {
          assert init[k] == records[k];
        }
      }
    }
  }

  /** A record whose salary does not parse stops the whole conversion. */
  lemma ConvertStopsAt(
    records: seq<Record>, employees: seq<StaffEmployee>, parseFloat: string -> Option<real>, nextId: int, i: nat)
    requires i < |records| && Details(records[i], parseFloat).None?
    ensures ConvertAll(records, employees, parseFloat, nextId).None?
  {
    assert SalaryOf(records[i], parseFloat).None?;
    ConvertFailsIffUnparsable(records, employees, parseFloat, nextId);
  }

  /** One more record whose salary parses takes the conversion one step on. */
  lemma ConvertExtends(
    records: seq<Record>, employees: seq<StaffEmployee>, parseFloat: string -> Option<real>, nextId: int,
    i: nat, c: Conversion, d: StaffDetails)
    requires i < |records|
    requires ConvertAll(records[..i], employees, parseFloat, nextId) == Some(c)
    requires Details(records[i], parseFloat) == Some(d)
    ensures ConvertAll(records[..i + 1], employees, parseFloat, nextId) == Some(ConvertStep(c, records[i], d, nextId))
  {
    assert records[..i + 1][..i] == records[..i];
  }

  /** Existing employees keep their ids and numbers; the i-th employee
      added gets id `nextId + i`. */
  lemma {:induction false} ConvertKeepsIdentity(
    records: seq<Record>, employees: seq<StaffEmployee>, parseFloat: string -> Option<real>, nextId: int)
    requires ConvertAll(records, employees, parseFloat, nextId).Some?
    ensures var c := ConvertAll(records, employees, parseFloat, nextId).value;
      (forall k :: 0 <= k < |employees| ==>
        c.employees[k].id == employees[k].id && c.employees[k].employeeNumber == employees[k].employeeNumber)
      && forall k :: 0 <= k < |c.added| ==> c.added[k].id == nextId + k
  {
    if |records| > 0 {
      ConvertKeepsIdentity(records[..|records| - 1], employees, parseFloat, nextId);
    }
  }

  /** Some record carries the employee's number as its reference. */
  predicate MatchedBy(e: StaffEmployee, records: seq<Record>)
  {
    exists j :: 0 <= j < |records| && NumberedBy(e, records[j])
  }

  /** No two employees share a number (the unique constraint on
      `employee_number`, which admits any number of NULLs). */
  predicate DistinctNumbers(es: seq<StaffEmployee>)
  {
    forall i, j :: 0 <= i < j < |es| && es[i].employeeNumber.Some? ==> es[i].employeeNumber != es[j].employeeNumber
  }

  /** In a table with distinct numbers, one record refreshes the employee it
      numbers and leaves every other employee as it was. */
  lemma ConvertStepRefreshes(c: Conversion, r: Record, d: StaffDetails, nextId: int, k: nat)
    requires k < |c.employees| && DistinctNumbers(c.employees)
    ensures var t := ConvertStep(c, r, d, nextId);
      (NumberedBy(c.employees[k], r) ==> t.employees[k] == Refreshed(c.employees[k], d))
      && (!NumberedBy(c.employees[k], r) ==> t.employees[k] == c.employees[k])
  {
  }

  /** A record list one longer names an employee exactly when the shorter
      list or the last record does. */
  lemma MatchedBySnoc(e: StaffEmployee, records: seq<Record>)
    requires |records| > 0
    ensures MatchedBy(e, records) <==>
      MatchedBy(e, records[..|records| - 1]) || NumberedBy(e, records[|records| - 1])
  {
    var init := records[..|records| - 1];
    if MatchedBy(e, records) {
      var j :| 0 <= j < |records| && NumberedBy(e, records[j]);
      if j < |init| {
        assert init[j] == records[j];
      }
    }
    if MatchedBy(e, init) {
      var j :| 0 <= j < |init| && NumberedBy(e, init[j]);
      assert records[j] == init[j];
    }
  }

  /** In a table with distinct numbers, an existing employee some record
      names is made active in company 1; every other existing employee is
      left exactly as it was. */
  lemma {:induction false} ConvertRefreshesMatched(
    records: seq<Record>, employees: seq<StaffEmployee>, parseFloat: string -> Option<real>, nextId: int)
    requires DistinctNumbers(employees)
    requires ConvertAll(records, employees, parseFloat, nextId).Some?
    ensures var c := ConvertAll(records, employees, parseFloat, nextId).value;
      forall k :: 0 <= k < |employees| ==>
        (MatchedBy(employees[k], records) ==> c.employees[k].isActive && c.employees[k].companyId == 1)
        && (!MatchedBy(employees[k], records) ==> c.employees[k] == employees[k])
  {
    if |records| > 0 {
      var init := records[..|records| - 1];
      var last := records[|records| - 1];
      ConvertRefreshesMatched(init, employees, parseFloat, nextId);
      ConvertKeepsIdentity(init, employees, parseFloat, nextId);
      var before := ConvertAll(init, employees, parseFloat, nextId).value;
      var d := Details(last, parseFloat).value;
      var c := ConvertAll(records, employees, parseFloat, nextId).value;
      assert c == ConvertStep(before, last, d, nextId);
      assert DistinctNumbers(before.employees) by {
        forall i, j | 0 <= i < j < |before.employees| && before.employees[i].employeeNumber.Some?
          ensures before.employees[i].employeeNumber != before.employees[j].employeeNumber
        {
          assert before.employees[i].employeeNumber == employees[i].employeeNumber;
          assert before.employees[j].employeeNumber == employees[j].employeeNumber;
        }
      }
      forall k | 0 <= k < |employees|
        ensures MatchedBy(employees[k], records) ==> c.employees[k].isActive && c.employees[k].companyId == 1
        ensures !MatchedBy(employees[k], records) ==> c.employees[k] == employees[k]
      {
        ConvertStepRefreshes(before, last, d, nextId, k);
        assert NumberedBy(before.employees[k], last) == NumberedBy(employees[k], last);
        MatchedBySnoc(employees[k], records);
      }
    }
  }

  /** Every employee the conversion adds is a full-time, active member of
      company 1 in the auto-enrolment scheme at 5%, and carries a number no
      existing employee has. */
  lemma {:induction false} ConvertAddsFreshEmployees(
    records: seq<Record>, employees: seq<StaffEmployee>, parseFloat: string -> Option<real>, nextId: int)
    requires ConvertAll(records, employees, parseFloat, nextId).Some?
    ensures var c := ConvertAll(records, employees, parseFloat, nextId).value;
      forall a :: 0 <= a < |c.added| ==>
        c.added[a].employmentType == "full_time" && c.added[a].pensionScheme == "auto_enrolment"
        && c.added[a].pensionContribution == 0.05 && c.added[a].companyId == 1 && c.added[a].isActive
        && forall k :: 0 <= k < |employees| ==>
          employees[k].employeeNumber.None? || employees[k].employeeNumber != c.added[a].employeeNumber
  {
    if |records| > 0 {
      var init := records[..|records| - 1];
      var last := records[|records| - 1];
      ConvertAddsFreshEmployees(init, employees, parseFloat, nextId);
      ConvertKeepsIdentity(init, employees, parseFloat, nextId);
      var before := ConvertAll(init, employees, parseFloat, nextId).value;
      var m := NumberedFor(before.employees, last);
      if m.None? {
        forall k | 0 <= k < |employees|
          ensures employees[k].employeeNumber.None? || employees[k].employeeNumber != Field(last, "reference")
        {
          assert !NumberedBy(before.employees[k], last);
        }
      }
    }
  }

  /** The generic `except Exception` handler of `create_employees_from_records`
      as written: it also catches the HTTP errors raised inside its `try`
      block, so each of them reaches the client as a 500. */
  function CaughtAsWritten(raised: Response<ConversionSummary>): (r: Response<ConversionSummary>)
    ensures r.Success? <==> raised.Success?
    ensures r.HttpError? ==> r == HttpError(500, ConversionFailed)
  {
    if raised.HttpError? then HttpError(500, ConversionFailed) else raised
  }

  /** As written, the conversion of an empty table answers 500, not the
      400 the code raises for it. */
  lemma EmptyTableAnsweredAsWritten()
    ensures CaughtAsWritten(HttpError(400, NoRecordsToConvert)) == HttpError(500, ConversionFailed)
  {
  }

  /** The body of a successful conversion response. */
  datatype ConversionSummary = ConversionSummary(message: string, created: nat, updated: nat, totalProcessed: nat)

  /** The upload loop one row further on. */
  lemma UploadFoldExtends(records: seq<Record>, datas: seq<Option<Record>>, i: nat)
    requires i < |datas|
    ensures UploadFold(records, datas[..i + 1]) == UploadStep(UploadFold(records, datas[..i]), datas[i], i + 2)
  {
    assert datas[..i + 1][..i] == datas[..i];
  }

  /** One more rejected line adds its message at the end. */
  lemma ErrorMessagesExtend(lines: seq<nat>, line: nat)
    ensures ErrorMessages(lines + [line]) == ErrorMessages(lines) + [MissingFieldsError(line)]
  {
    assert forall k :: 0 <= k < |lines| ==> (lines + [line])[k] == lines[k];
  }

  /** One accepted row of `upload_employees_csv`: merge it into the record
      with its reference, or add it. The rejected lines are untouched. */
  method UpsertRecord(table: seq<Record>, added: seq<Record>, created: nat, updated: nat, data: Record)
    returns (table': seq<Record>, added': seq<Record>, created': nat, updated': nat)
    ensures forall rejected: seq<nat>, line: nat ::
      UploadStep(UploadState(table, added, created, updated, rejected), Some(data), line)
        == UploadState(table', added', created', updated', rejected)
  {
    table', added', created', updated' := table, added, created, updated;
    var existing := WithReference(table, ReferenceOf(data));
    if existing.Some? {
      table' := table[existing.value := Merge(table[existing.value], data)];
      updated' := updated + 1;
    } else {
      added' := added + [data];
      created' := created + 1;
    }
  }

  /** The loop of `upload_employees_csv` over the data rows: row i, read
      from CSV line i + 2, is normalised and then rejected, merged into the
      record with its reference, or added; the lookups see only `records`
      and the merges, never the rows added (the session does not flush). */
  method UpsertRows(records: seq<Record>, rows: seq<CsvRow>, columns: seq<(string, string)>)
    returns (table: seq<Record>, added: seq<Record>, created: nat, updated: nat, errors: seq<string>)
    ensures var s := UploadFold(records, Normalised(rows, columns));
      table == s.records && added == s.added && created == s.created && updated == s.updated
      && errors == ErrorMessages(s.rejected)
  {
    table, added, created, updated, errors := records, [], 0, 0, [];
    ghost var rejected: seq<nat> := [];
    ghost var datas := Normalised(rows, columns);
    for i := 0 to |rows|
      invariant UploadState(table, added, created, updated, rejected) == UploadFold(records, datas[..i])
      invariant errors == ErrorMessages(rejected)
    {
      UploadFoldExtends(records, datas, i);
      var data := NormaliseRow(rows[i], columns);
      if data.None? {
        ErrorMessagesExtend(rejected, i + 2);
        errors := errors + [MissingFieldsError(i + 2)];
        rejected := rejected + [i + 2];
      } else {
        table, added, created, updated := UpsertRecord(table, added, created, updated, data.value);
      }
    }
    assert datas[..|rows|] == datas;
  }

  /** One record of `create_employees_from_records`: refresh the employee
      numbered by the record's reference, or add a new one. */
  method ConvertRecord(table: seq<StaffEmployee>, added: seq<StaffEmployee>, created: nat, updated: nat,
                       record: Record, details: StaffDetails, nextId: int)
    returns (table': seq<StaffEmployee>, added': seq<StaffEmployee>, created': nat, updated': nat)
    ensures Conversion(table', added', created', updated')
      == ConvertStep(Conversion(table, added, created, updated), record, details, nextId)
  {
    table', added', created', updated' := table, added, created, updated;
    var existing := NumberedFor(table, record);
    if existing.Some? {
      table' := table[existing.value := Refreshed(table[existing.value], details)];
      updated' := updated + 1;
    } else {
      added' := added + [NewStaff(nextId + |added|, record, details)];
      created' := created + 1;
    }
  }

  /** The loop of `create_employees_from_records` over the records: each
      record refreshes the employee numbered by its reference or adds a new
      one, numbered on from `nextId`; the lookups see only the stored
      employees (the session does not flush). It stops at the first salary
      that does not parse. */
  method ConvertRows(records: seq<Record>, employees: seq<StaffEmployee>, parseFloat: string -> Option<real>, nextId: int)
    returns (converted: bool, table: seq<StaffEmployee>, added: seq<StaffEmployee>, created: nat, updated: nat)
    ensures var c := ConvertAll(records, employees, parseFloat, nextId);
      (converted <==> c.Some?)
      && (converted ==> c.value == Conversion(table, added, created, updated))
  {
    table, added, created, updated := employees, [], 0, 0;
    for i := 0 to |records|
      invariant ConvertAll(records[..i], employees, parseFloat, nextId) == Some(Conversion(table, added, created, updated))
    {
      var details := Details(records[i], parseFloat);
      if details.None? {
        ConvertStopsAt(records, employees, parseFloat, nextId, i);
        return false, table, added, created, updated;
      }
      ConvertExtends(records, employees, parseFloat, nextId, i, Conversion(table, added, created, updated), details.value);
      table, added, created, updated := ConvertRecord(table, added, created, updated, records[i], details.value, nextId);
    }
    assert records[..|records|] == records;
    converted := true;
  }

  // ------------------------------------------------------------ the database

  /** The two tables the employee endpoints use. */
  class EmployeeDatabase {
    var records: seq<Record>
    var employees: seq<StaffEmployee>
    var nextEmployeeId: int

    ghost predicate Valid()
      reads this
    {
      UniqueReferences(records) && StaffTableValid(employees, nextEmployeeId)
    }

    constructor ()
      ensures Valid() && records == [] && employees == []
    {
      records := [];
      employees := [];
      nextEmployeeId := 1;
    }

    /** `upload_employees_csv`: a file not named `.csv` is refused; otherwise
        every row is normalised and upserted, and the whole upload is
        committed, or rejected when the references clash. */
    method UploadEmployeesCsv(filename: string, rows: seq<CsvRow>) returns (r: Response<UploadSummary>)
      requires Valid()
      modifies this
      ensures Valid()
      ensures employees == old(employees) && nextEmployeeId == old(nextEmployeeId)
      ensures !EndsWith(filename, ".csv") ==> r == HttpError(400, CsvOnly) && records == old(records)
      ensures EndsWith(filename, ".csv") ==>
        var s := UploadFold(old(records), Normalised(rows, FieldColumns));
        if UniqueReferences(s.records + s.added) then
          records == s.records + s.added
          && r == Success(201, UploadSummary(UploadCompleted, s.created, s.updated, ErrorMessages(s.rejected), |old(records)|, |records|))
        else records == old(records) && r == HttpError(500, CsvProcessingFailed)
      ensures r.Success? ==> r.value.finalCount == r.value.initialCount + r.value.created
    {
      if !EndsWith(filename, ".csv") {
        return HttpError(400, CsvOnly);
      }
      var initialCount := |records|;
      var table, added, created, updated, errors := UpsertRows(records, rows, FieldColumns);
      if !UniqueReferences(table + added) {
        return HttpError(500, CsvProcessingFailed);
      }
      records := table + added;
      return Success(201, UploadSummary(UploadCompleted, created, updated, errors, initialCount, |records|));
    }

    /** `update_employee_record`: 404 for an unknown reference; otherwise the
        patch is applied to the first record with that reference, unless the
        new reference clashes at commit. */
    method UpdateEmployeeRecord(reference: string, patch: map<string, Option<string>>) returns (r: Response<Record>)
      requires Valid()
      modifies this
      ensures Valid()
      ensures employees == old(employees) && nextEmployeeId == old(nextEmployeeId)
      ensures match WithReference(old(records), reference)
        case None => r == HttpError(404, RecordNotFound(reference)) && records == old(records)
        case Some(i) =>
          var patched := old(records)[i := ApplyPatch(old(records)[i], patch, IsRecordColumn)];
          if UniqueReferences(patched) then records == patched && r == Success(200, patched[i])
          else records == old(records) && r == HttpError(500, UpdateFailed)
    {
      var found := WithReference(records, reference);
      if found.None? {
        return HttpError(404, RecordNotFound(reference));
      }
      var i := found.value;
      var patched := records[i := ApplyPatch(records[i], patch, IsRecordColumn)];
      if !UniqueReferences(patched) {
        return HttpError(500, UpdateFailed);
      }
      records := patched;
      return Success(200, patched[i]);
    }

    /** `list_employee_records`: one page of entries, the total, and whether
        rows remain after the page. */
    method ListEmployeeRecords(skip: nat, limit: nat) returns (page: RecordPage)
      ensures page.total == |records| && page.skip == skip && page.limit == limit
      ensures |page.entries| == |Page(records, skip, limit)|
      ensures forall k :: 0 <= k < |page.entries| ==> page.entries[k] == EntryOf(records[skip + k])
      ensures page.hasMore <==> skip + limit < |records|
      ensures page.message == "Retrieved " + NatToString(|page.entries|) + " employee records"
    {
      var total := |records|;
      var rows := Page(records, skip, limit);
      var entries: seq<RecordEntry> := [];
      for k := 0 to |rows|
        invariant |entries| == k
        invariant forall j :: 0 <= j < k ==> entries[j] == EntryOf(rows[j])
      {
        entries := entries + [EntryOf(rows[k])];
      }
      page := RecordPage("Retrieved " + NatToString(|entries|) + " employee records", entries, total, skip, limit,
        skip + limit < total);
    }

    /** `create_employees_from_records`, with an empty table answered 400: every
        record creates or refreshes the employee numbered by its reference,
        and the whole conversion is committed, or rolled back when a salary
        does not parse or a constraint fails on any UPDATE or on the
        INSERTs that follow them. */
    method CreateEmployeesFromRecords(parseFloat: string -> Option<real>) returns (r: Response<ConversionSummary>)
      requires Valid()
      modifies this
      ensures Valid()
      ensures records == old(records)
      ensures |old(records)| == 0 ==>
        r == HttpError(400, NoRecordsToConvert) && employees == old(employees) && nextEmployeeId == old(nextEmployeeId)
      ensures |old(records)| > 0 ==>
        var c := ConvertAll(old(records), old(employees), parseFloat, old(nextEmployeeId));
        if c.Some? && ConversionCommits(old(employees), c.value.employees, c.value.added) then
          employees == c.value.employees + c.value.added && nextEmployeeId == old(nextEmployeeId) + c.value.created
          && r == Success(201, ConversionSummary(ConversionDone, c.value.created, c.value.updated, |old(records)|))
        else
          employees == old(employees) && nextEmployeeId == old(nextEmployeeId) && r == HttpError(500, ConversionFailed)
    {
      if |records| == 0 {
        return HttpError(400, NoRecordsToConvert);
      }
      var converted, table, added, created, updated := ConvertRows(records, employees, parseFloat, nextEmployeeId);
      if !converted {
        return HttpError(500, ConversionFailed);
      }
      if !ConversionCommits(employees, table, added) {
        return HttpError(500, ConversionFailed);
      }
      ConvertKeepsIdentity(records, employees, parseFloat, nextEmployeeId);
      StaffTableExtended(employees, table, added, nextEmployeeId);
      employees := table + added;
      nextEmployeeId := nextEmployeeId + created;
      return Success(201, ConversionSummary(ConversionDone, created, updated, |records|));
    }

    /** `create_employees_from_records` as written: the same `try` block, its
        HTTP errors caught by the generic handler, so an empty record table
        is answered 500 and nothing is written. */
    method CreateEmployeesFromRecordsAsWritten(parseFloat: string -> Option<real>) returns (r: Response<ConversionSummary>)
      requires Valid()
      modifies this
      ensures Valid()
      ensures records == old(records)
      ensures |old(records)| == 0 ==>
        r == HttpError(500, ConversionFailed) && employees == old(employees) && nextEmployeeId == old(nextEmployeeId)
      ensures r.HttpError? ==> r == HttpError(500, ConversionFailed)
    {
      var raised := CreateEmployeesFromRecords(parseFloat);
      r := CaughtAsWritten(raised);
    }
  }

  /** A table whose rows keep their ids, followed by rows numbered on from
      the next id, is valid again once it satisfies the constraints. */
  lemma StaffTableExtended(old_: seq<StaffEmployee>, table: seq<StaffEmployee>, added: seq<StaffEmployee>, nextId: int)
    requires StaffTableValid(old_, nextId)
    requires |table| == |old_| && forall k :: 0 <= k < |old_| ==> table[k].id == old_[k].id
    requires forall k :: 0 <= k < |added| ==> added[k].id == nextId + k
    requires Committable(table + added)
    ensures StaffTableValid(table + added, nextId + |added|)
  {
    var all := table + added;
    forall i, j | 0 <= i < j < |all|
      ensures all[i].id < all[j].id
    {
      if j < |table| {
        assert all[i].id == old_[i].id && all[j].id == old_[j].id;
      } else if i < |table| {
        assert all[i].id == old_[i].id < nextId;
        assert all[j] == added[j - |table|];
      } else {
        assert all[i] == added[i - |table|] && all[j] == added[j - |table|];
      }
    }
    forall k | 0 <= k < |all|
      ensures all[k].id < nextId + |added|
    {
      if k < |table| {
        assert all[k].id == old_[k].id;
      } else {
        assert all[k] == added[k - |table|];
      }
    }
  }

  /** A stored employee with the given keys and otherwise fixed columns. */
  function StaffWithKeys(id: int, number: string, ni: string, email: string): StaffEmployee
  {
    StaffEmployee(id, Some(number), "A", "B", Date(1990, 1, 1), ni, email, "", "", "full_time", Date(2023, 1, 1),
      45000.0, "1257L", "auto_enrolment", 0.05, 1, true)
  }

  /** Refreshing two stored employees so that they exchange emails leaves a
      table that satisfies the constraints, yet the first UPDATE gives the
      first row the email the second still holds, so the commit fails. */
  lemma SwappedEmailsRejected()
    ensures var before := [StaffWithKeys(1, "E1", "AB123456C", "a@x.com"), StaffWithKeys(2, "E2", "AB123456D", "b@x.com")];
      var after := [StaffWithKeys(1, "E1", "AB123456C", "b@x.com"), StaffWithKeys(2, "E2", "AB123456D", "a@x.com")];
      Committable(before) && Committable(after) && !UpdatesCommit(before, after)
  {
    var before := [StaffWithKeys(1, "E1", "AB123456C", "a@x.com"), StaffWithKeys(2, "E2", "AB123456D", "b@x.com")];
    var after := [StaffWithKeys(1, "E1", "AB123456C", "b@x.com"), StaffWithKeys(2, "E2", "AB123456D", "a@x.com")];
    var mid := Flushed(before, after, 1);
    assert mid[0].email == mid[1].email;
    assert !Committable(mid);
  }

  /** Refreshes that keep every row's employee number, NI number and email
      pass each UPDATE of the commit when the stored table satisfies the
      constraints. */
  lemma UpdatesCommitWhenKeysKept(before: seq<StaffEmployee>, after: seq<StaffEmployee>)
    requires Committable(before) && |before| == |after|
    requires forall k :: 0 <= k < |after| ==>
      after[k].employeeNumber == before[k].employeeNumber && after[k].niNumber == before[k].niNumber
      && after[k].email == before[k].email
    ensures UpdatesCommit(before, after)
  {
    forall k | 0 <= k <= |after|
      ensures Committable(Flushed(before, after, k))
    {
      var t := Flushed(before, after, k);
      forall i, j | 0 <= i < j < |t|
        ensures t[i].employeeNumber != t[j].employeeNumber && t[i].niNumber != t[j].niNumber && t[i].email != t[j].email
      {
        assert t[i].employeeNumber == before[i].employeeNumber && t[j].employeeNumber == before[j].employeeNumber;
        assert t[i].niNumber == before[i].niNumber && t[j].niNumber == before[j].niNumber;
        assert t[i].email == before[i].email && t[j].email == before[j].email;
      }
    }
  }
}
