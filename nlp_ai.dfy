// The natural-language command interpreter and the employee classification
// rules: keyword scoring of a prompt against the command table, parameter
// extraction, the response templates, the tax-code and pension-scheme rule
// tables, and the prompt checks. The regular expressions that find company
// names, employee names and years are not modelled: what they find is an
// input (`PatternMatches`).

module NlpAi {
  import opened Strings
  import opened Tables
  import opened Keywords
  import PayrollCalc
  import Hmrc

  /** The command table, in its declaration order. */
  const NlpCommands: seq<Category> := [
    Category("run_payroll", ["run", "process", "calculate", "payroll", "salary", "pay"], 0.9),
    Category("verify_documents", ["verify", "check", "validate", "document", "documents"], 0.85),
    Category("show_tax_breakdown", ["show", "display", "tax", "breakdown", "deductions", "payslip"], 0.8),
    Category("add_employee", ["add", "create", "new", "employee", "hire"], 0.75),
    Category("update_employee", ["update", "change", "modify", "employee", "edit"], 0.7)
  ]

  /** The best score below which a prompt is not understood. */
  const MinimumConfidence: real := 0.5

  /** What the company, employee-name and year patterns find in the prompt. */
  datatype PatternMatches = PatternMatches(companyName: Option<string>, employeeName: Option<string>, year: Option<string>)

  /** The parameter dictionary; `None` is a key that was not set. */
  datatype Params = Params(
    companyName: Option<string>,
    employeeName: Option<string>,
    month: Option<string>,
    year: Option<string>,
    documentType: Option<string>)

  const NoParams := Params(None, None, None, None, None)

  const Months: seq<string> := [
    "january", "february", "march", "april", "may", "june",
    "july", "august", "september", "october", "november", "december"
  ]

  const DocumentTypes: seq<string> := ["p45", "p60", "passport", "driving license", "birth certificate"]

  /** The parameters found in a prompt: the pattern matches, the first
      month in calendar order and the first document type in list order. */
  function Parameters(prompt: string, found: PatternMatches): Params
  {
    Params(found.companyName, found.employeeName, FirstContained(Months, prompt),
           found.year, FirstContained(DocumentTypes, prompt))
  }

  /** `extract_parameters`: the month and document-type search loops. */
  method ExtractParameters(prompt: string, found: PatternMatches) returns (p: Params)
    ensures p == Parameters(prompt, found)
  {
    var month := FindFirstContained(Months, prompt);
    var documentType := FindFirstContained(DocumentTypes, prompt);
    p := Params(found.companyName, found.employeeName, month, found.year, documentType);
  }

  /** A month is set exactly when some month name occurs in the prompt, and
      then it is the first of the calendar that occurs; likewise for the
      document type. */
  lemma ParametersFirstFound(prompt: string, found: PatternMatches)
    ensures var p := Parameters(prompt, found);
      (p.month.None? <==> forall i :: 0 <= i < |Months| ==> !Contains(prompt, Months[i]))
      && (p.month.Some? ==> exists i :: (0 <= i < |Months| && Months[i] == p.month.value
            && Contains(prompt, Months[i]) && forall j :: 0 <= j < i ==> !Contains(prompt, Months[j])))
      && (p.documentType.None? <==> forall i :: 0 <= i < |DocumentTypes| ==> !Contains(prompt, DocumentTypes[i]))
      && (p.documentType.Some? ==> exists i :: (0 <= i < |DocumentTypes| && DocumentTypes[i] == p.documentType.value
            && Contains(prompt, DocumentTypes[i]) && forall j :: 0 <= j < i ==> !Contains(prompt, DocumentTypes[j])))
  {
    FirstContainedIsFirst(Months, prompt);
    FirstContainedIsFirst(DocumentTypes, prompt);
  }

  /** `params.get(key, default)`. */
  function OrElse(value: Option<string>, default: string): string
  {
    if value.Some? then value.value else default
  }

  /** `generate_command_response`: a template per command, defaults for the
      parameters not set, and a generic sentence for any other command. */
  function CommandResponse(command: string, p: Params): (r: string)
    ensures |r| > 0 && r[|r| - 1] == '.'
  {
    if command == "run_payroll" then
      "I'll run payroll for " + OrElse(p.companyName, "the company") + " for "
        + OrElse(p.month, "this month") + " " + OrElse(p.year, "this year") + "."
    else if command == "verify_documents" then
      "I'll verify " + OrElse(p.documentType, "all documents") + " for "
        + OrElse(p.employeeName, "the employee") + "."
    else if command == "show_tax_breakdown" then
      "I'll show the tax breakdown for " + OrElse(p.employeeName, "the employee") + "."
    else if command == "add_employee" then
      "I'll help you add " + OrElse(p.employeeName, "the new employee") + " to the system."
    else if command == "update_employee" then
      "I'll help you update " + OrElse(p.employeeName, "the employee") + "'s information."
    else
      "I understand your request and will process it accordingly" + "."
  }

  /** A payroll-run response names the company, the month and the year
      the prompt supplied. */
  lemma RunPayrollResponseMentions(p: Params)
    ensures var r := CommandResponse("run_payroll", p);
      (p.companyName.Some? ==> Contains(r, p.companyName.value))
      && (p.month.Some? ==> Contains(r, p.month.value))
      && (p.year.Some? ==> Contains(r, p.year.value))
  {
    var company := OrElse(p.companyName, "the company");
    var month := OrElse(p.month, "this month");
    var year := OrElse(p.year, "this year");
    var s1 := "I'll run payroll for " + company;
    var s3 := s1 + " for " + month;
    var s5 := s3 + " " + year;
    ContainsAtEnd("I'll run payroll for ", company);
    ContainsExtended(s1, " for ", company);
    ContainsExtended(s1 + " for ", month, company);
    ContainsExtended(s3, " ", company);
    ContainsExtended(s3 + " ", year, company);
    ContainsExtended(s5, ".", company);
    ContainsAtEnd(s1 + " for ", month);
    ContainsExtended(s3, " ", month);
    ContainsExtended(s3 + " ", year, month);
    ContainsExtended(s5, ".", month);
    ContainsAtEnd(s3 + " ", year);
    ContainsExtended(s5, ".", year);
  }

  /** A document-check response names the document type and the employee
      the prompt supplied. */
  lemma VerifyResponseMentions(p: Params)
    ensures var r := CommandResponse("verify_documents", p);
      (p.documentType.Some? ==> Contains(r, p.documentType.value))
      && (p.employeeName.Some? ==> Contains(r, p.employeeName.value))
  {
    var doc := OrElse(p.documentType, "all documents");
    var employee := OrElse(p.employeeName, "the employee");
    var s1 := "I'll verify " + doc;
    var s3 := s1 + " for " + employee;
    ContainsAtEnd("I'll verify ", doc);
    ContainsExtended(s1, " for ", doc);
    ContainsExtended(s1 + " for ", employee, doc);
    ContainsExtended(s3, ".", doc);
    ContainsAtEnd(s1 + " for ", employee);
    ContainsExtended(s3, ".", employee);
  }

  /** The responses of the employee commands name the employee the prompt
      supplied. */
  lemma EmployeeResponseMentions(command: string, p: Params)
    requires command == "show_tax_breakdown" || command == "add_employee" || command == "update_employee"
    requires p.employeeName.Some?
    ensures Contains(CommandResponse(command, p), p.employeeName.value)
  {
    var e := p.employeeName.value;
    if command == "show_tax_breakdown" {
      ContainsAtEnd("I'll show the tax breakdown for ", e);
      ContainsExtended("I'll show the tax breakdown for " + e, ".", e);
    } else if command == "add_employee" {
      ContainsAtEnd("I'll help you add ", e);
      ContainsExtended("I'll help you add " + e, " to the system.", e);
    } else {
      ContainsAtEnd("I'll help you update ", e);
      ContainsExtended("I'll help you update " + e, "'s information.", e);
    }
  }

  /** The answer of `process_nlp_command`. */
  datatype NlpResult = NlpResult(command: string, action: string, parameters: Params, confidence: real, response: string)

  const NotUnderstood := NlpResult("unknown", "none", NoParams, 0.0,
    "I could not understand that command. Please try rephrasing.")

  /** The interpretation of a prompt: the first command with the highest
      score on the lower-cased prompt, unless nothing matches or that score
      is below the minimum. */
  function Interpretation(prompt: string, found: PatternMatches): NlpResult
  {
    var lower := Lower(prompt);
    var b := BestAmong(NlpCommands, lower);
    if b.best.None? || b.confidence < MinimumConfidence then NotUnderstood
    else
      var name := NlpCommands[b.best.value].name;
      var params := Parameters(lower, found);
      NlpResult(name, name, params, b.confidence, CommandResponse(name, params))
  }

  /** `process_nlp_command`: the scan over the command table, extracting
      the parameters whenever a command takes the lead. */
  method ProcessNlpCommand(prompt: string, found: PatternMatches) returns (r: NlpResult)
    ensures r == Interpretation(prompt, found)
  {
    var lower := Lower(prompt);
    var best: Option<nat> := None;
    var bestConfidence := 0.0;
    var bestParams := NoParams;
    for i := 0 to |NlpCommands|
      invariant Choice(best, bestConfidence) == BestAmong(NlpCommands[..i], lower)
      invariant best.Some? ==> bestParams == Parameters(lower, found)
    {
      assert NlpCommands[..i + 1][..i] == NlpCommands[..i];
      var command := NlpCommands[i];
      var matches := MatchCount(command.keywords, lower);
      if matches > 0 {
        var confidence := Min(command.baseConfidence, matches as real / |command.keywords| as real);
        if confidence > bestConfidence {
          best, bestConfidence := Some(i), confidence;
          bestParams := ExtractParameters(lower, found);
        }
      }
    }
    assert NlpCommands[..|NlpCommands|] == NlpCommands;
    if best.None? || bestConfidence < MinimumConfidence {
      return NotUnderstood;
    }
    var name := NlpCommands[best.value].name;
    r := NlpResult(name, name, bestParams, bestConfidence, CommandResponse(name, bestParams));
  }

  /** A prompt is not understood exactly when every command scores below
      the minimum; otherwise the command and the action are the first
      command with the highest score, the confidence is that score, at
      least the minimum and at most the command's base confidence. */
  lemma InterpretationChoosesBest(prompt: string, found: PatternMatches)
    ensures var r := Interpretation(prompt, found);
      var lower := Lower(prompt);
      (r == NotUnderstood <==>
        forall k :: 0 <= k < |NlpCommands| ==> Score(NlpCommands[k], lower) < MinimumConfidence)
      && (r != NotUnderstood ==> exists i :: (0 <= i < |NlpCommands|
            && r.command == NlpCommands[i].name && r.action == r.command
            && r.confidence == Score(NlpCommands[i], lower)
            && MinimumConfidence <= r.confidence <= NlpCommands[i].baseConfidence
            && (forall k :: 0 <= k < |NlpCommands| ==> Score(NlpCommands[k], lower) <= r.confidence)
            && (forall k :: 0 <= k < i ==> Score(NlpCommands[k], lower) < r.confidence)
            && r.parameters == Parameters(lower, found)))
  {
    var lower := Lower(prompt);
    BestIsFirstMaximum(NlpCommands, lower);
    var b := BestAmong(NlpCommands, lower);
    if b.best.Some? && b.confidence >= MinimumConfidence {
      var i := b.best.value;
      assert NlpCommands[i].name != "unknown";
      assert MatchCount(NlpCommands[i].keywords, lower) > 0;
    }
  }

  // ------------------------------------------------ employee classification

  /** An upper salary limit of a tax-code band; the last band has none. */
  datatype Limit = UpTo(amount: real) | Unbounded

  /** The tax-code bands in order: the first whose limit the salary does
      not exceed applies. */
  const TaxCodeBands: seq<(string, Limit)> := [
    ("NT", UpTo(12570.0)), ("BR", UpTo(50270.0)), ("D0", UpTo(125140.0)), ("D1", Unbounded)
  ]

  const TaxCodeByEmployment: seq<(string, string)> := [
    ("contractor", "BR"), ("part_time", "BR"), ("full_time", "BR")
  ]

  /** The pension salary thresholds in order: the first the salary reaches applies. */
  const PensionThresholds: seq<(string, real)> := [
    ("auto_enrolment", 10000.0), ("workplace_pension", 10000.0), ("nest", 10000.0), ("none", 0.0)
  ]

  const PensionByEmployment: seq<(string, string)> := [
    ("contractor", "none"), ("part_time", "auto_enrolment"), ("full_time", "auto_enrolment")
  ]

  predicate Within(salary: real, limit: Limit)
  {
    limit.Unbounded? || salary <= limit.amount
  }

  /** The first band whose limit the salary does not exceed. */
  function FirstBand(bands: seq<(string, Limit)>, salary: real): Option<string>
  {
    if |bands| == 0 then None
    else if Within(salary, bands[0].1) then Some(bands[0].0)
    else FirstBand(bands[1..], salary)
  }

  /** A band `FirstBand` picks is one of the table's. */
  lemma {:induction false} FirstBandListed(bands: seq<(string, Limit)>, salary: real)
    ensures FirstBand(bands, salary).Some? ==>
      exists k :: 0 <= k < |bands| && bands[k].0 == FirstBand(bands, salary).value
  {
    if |bands| > 0 && !Within(salary, bands[0].1) {
      FirstBandListed(bands[1..], salary);
      if FirstBand(bands[1..], salary).Some? {
        var k :| 0 <= k < |bands[1..]| && bands[1..][k].0 == FirstBand(bands[1..], salary).value;
        assert bands[k + 1].0 == FirstBand(bands, salary).value;
      }
    }
  }

  /** The tax code `classify_tax_code` suggests: always one that both the
      payroll engine and the RTI check accept. */
  function TaxCodeFor(salary: real, employmentType: string): (r: string)
    ensures PayrollCalc.ValidateTaxCode(r) && Hmrc.ValidateTaxCode(r)
  {
    LookupFinds(TaxCodeByEmployment, employmentType);
    FirstBandListed(TaxCodeBands, salary);
    assert forall k :: 0 <= k < |TaxCodeBands| ==> TaxCodeBands[k].0 in Hmrc.RtiTaxCodes;
    assert forall k :: 0 <= k < |TaxCodeBands| ==> TaxCodeBands[k].0 in PayrollCalc.KnownTaxCodes;
    match Lookup(TaxCodeByEmployment, employmentType)
    case Some(code) => code
    case None =>
      match FirstBand(TaxCodeBands, salary)
      case Some(code) => code
      case None => "BR"
  }

  /** `classify_tax_code`: the employment-type rule, else the band loop. */
  method ClassifyTaxCode(salary: real, employmentType: string) returns (code: string)
    ensures code == TaxCodeFor(salary, employmentType)
  {
    var rule := Lookup(TaxCodeByEmployment, employmentType);
    if rule.Some? {
      return rule.value;
    }
    var i := 0;
    while i < |TaxCodeBands|
      invariant 0 <= i <= |TaxCodeBands|
      invariant FirstBand(TaxCodeBands[i..], salary) == FirstBand(TaxCodeBands, salary)
    {
      assert TaxCodeBands[i..][1..] == TaxCodeBands[i + 1..];
      if Within(salary, TaxCodeBands[i].1) {
        return TaxCodeBands[i].0;
      }
      i := i + 1;
    }
    return "BR";
  }

  /** A known employment type always gets BR; otherwise the salary picks
      the band: NT up to 12570, BR up to 50270, D0 up to 125140, D1 above. */
  lemma TaxCodeBandsApply(salary: real, employmentType: string)
    ensures var code := TaxCodeFor(salary, employmentType);
      (Lookup(TaxCodeByEmployment, employmentType).Some? ==> code == "BR")
      && (Lookup(TaxCodeByEmployment, employmentType).None? ==>
            (code == "NT" <==> salary <= 12570.0)
            && (code == "BR" <==> 12570.0 < salary <= 50270.0)
            && (code == "D0" <==> 50270.0 < salary <= 125140.0)
            && (code == "D1" <==> 125140.0 < salary))
  {
    LookupFinds(TaxCodeByEmployment, employmentType);
    var b := TaxCodeBands;
    assert b[1..][1..][1..] == [("D1", Unbounded)];
    assert FirstBand(b[1..][1..][1..], salary) == Some("D1");
    assert b[1..][1..] == [("D0", UpTo(125140.0)), ("D1", Unbounded)];
    assert FirstBand(b[1..][1..], salary) == if salary <= 125140.0 then Some("D0") else Some("D1");
    assert b[1..] == [("BR", UpTo(50270.0)), ("D0", UpTo(125140.0)), ("D1", Unbounded)];
    assert FirstBand(b[1..], salary) == if salary <= 50270.0 then Some("BR") else FirstBand(b[1..][1..], salary);
    assert FirstBand(b, salary) == if salary <= 12570.0 then Some("NT") else FirstBand(b[1..], salary);
  }

  /** The first threshold the salary reaches. */
  function FirstReached(thresholds: seq<(string, real)>, salary: real): Option<string>
  {
    if |thresholds| == 0 then None
    else if salary >= thresholds[0].1 then Some(thresholds[0].0)
    else FirstReached(thresholds[1..], salary)
  }

  /** The threshold loop answers auto-enrolment from 10000, no scheme from
      0, and nothing for a negative salary: the workplace-pension and NEST
      thresholds sit behind the auto-enrolment one and are never reached. */
  lemma PensionThresholdReached(salary: real)
    ensures FirstReached(PensionThresholds, salary) ==
      if salary >= 10000.0 then Some("auto_enrolment") else if salary >= 0.0 then Some("none") else None
  {
    var t := PensionThresholds;
    assert t[1..][1..][1..] == [("none", 0.0)];
    assert FirstReached(t[1..][1..][1..], salary) == if salary >= 0.0 then Some("none") else None;
    assert t[1..][1..] == [("nest", 10000.0), ("none", 0.0)];
    assert t[1..] == [("workplace_pension", 10000.0), ("nest", 10000.0), ("none", 0.0)];
    assert FirstReached(t[1..], salary) == if salary >= 10000.0 then Some("workplace_pension") else FirstReached(t[1..][1..][1..], salary);
  }

  /** The pension scheme `classify_pension_scheme` suggests: always one the
      payroll engine's scheme table holds. */
  function PensionSchemeFor(salary: real, employmentType: string): (r: string)
    ensures PayrollCalc.ValidatePensionScheme(r)
  {
    LookupFinds(PensionByEmployment, employmentType);
    PensionThresholdReached(salary);
    assert PayrollCalc.PensionSchemes[0].0 == "auto_enrolment";
    assert PayrollCalc.PensionSchemes[10].0 == "none";
    match Lookup(PensionByEmployment, employmentType)
    case Some(scheme) => scheme
    case None =>
      match FirstReached(PensionThresholds, salary)
      case Some(scheme) => scheme
      case None => "none"
  }

  /** `classify_pension_scheme`: the employment-type rule, else the threshold loop. */
  method ClassifyPensionScheme(salary: real, employmentType: string) returns (scheme: string)
    ensures scheme == PensionSchemeFor(salary, employmentType)
  {
    var rule := Lookup(PensionByEmployment, employmentType);
    if rule.Some? {
      return rule.value;
    }
    var i := 0;
    while i < |PensionThresholds|
      invariant 0 <= i <= |PensionThresholds|
      invariant FirstReached(PensionThresholds[i..], salary) == FirstReached(PensionThresholds, salary)
    {
      assert PensionThresholds[i..][1..] == PensionThresholds[i + 1..];
      if salary >= PensionThresholds[i].1 {
        return PensionThresholds[i].0;
      }
      i := i + 1;
    }
    return "none";
  }

  /** Contractors get no scheme and part- or full-time staff auto-enrolment;
      any other employment type gets auto-enrolment from a salary of 10000
      and no scheme below it, so the workplace-pension and NEST thresholds
      are never reached. */
  lemma PensionSchemeRules(salary: real, employmentType: string)
    ensures var scheme := PensionSchemeFor(salary, employmentType);
      (employmentType == "contractor" ==> scheme == "none")
      && (employmentType == "part_time" || employmentType == "full_time" ==> scheme == "auto_enrolment")
      && (Lookup(PensionByEmployment, employmentType).None? ==>
            (scheme == "auto_enrolment" <==> salary >= 10000.0)
            && (scheme == "none" <==> salary < 10000.0))
      && scheme != "workplace_pension" && scheme != "nest"
  {
    LookupFinds(PensionByEmployment, employmentType);
    PensionThresholdReached(salary);
    var rules := PensionByEmployment;
    if employmentType == "contractor" {
      assert rules[0].0 == employmentType;
      LookupAt(rules, 0);
    } else if employmentType == "part_time" {
      assert rules[1].0 == employmentType;
      LookupAt(rules, 1);
    } else if employmentType == "full_time" {
      assert rules[2].0 == employmentType;
      LookupAt(rules, 2);
    }
  }

  // --------------------------------------------------------- prompt checks

  const CommandWords: seq<string> := ["run", "process", "verify", "show", "add", "update", "check"]

  const TooShortWarning := "Prompt too short - please provide more details"
  const ActionWordSuggestion := "Try using action words like 'run', 'verify', or 'show'"
  const NamesSuggestion := "Include specific names (company, employee) for better results"

  datatype InputCheck = InputCheck(valid: bool, suggestions: seq<string>, warnings: seq<string>)

  /** `validate_nlp_input`; `hasTwoWords` is whether the two-word name
      pattern matches the prompt. */
  function ValidateNlpInput(prompt: string, hasTwoWords: bool): (r: InputCheck)
    ensures r.valid <==> |prompt| >= 5
    ensures r.warnings == if r.valid then [] else [TooShortWarning]
    ensures ActionWordSuggestion in r.suggestions <==>
      forall i :: 0 <= i < |CommandWords| ==> !Contains(Lower(prompt), CommandWords[i])
    ensures NamesSuggestion in r.suggestions <==> !hasTwoWords
  {
    FirstContainedIsFirst(CommandWords, Lower(prompt));
    var actionWords := if FirstContained(CommandWords, Lower(prompt)).Some? then [] else [ActionWordSuggestion];
    var names := if hasTwoWords then [] else [NamesSuggestion];
    InputCheck(|prompt| >= 5, actionWords + names, if |prompt| >= 5 then [] else [TooShortWarning])
  }

  /** The action word at `i` is keyword `j` of command `k`, so its
      occurrence makes the scan choose some command. */
  lemma ActionWordIsKeyword(text: string, i: nat, k: nat, j: nat)
    requires i < |CommandWords| && Contains(text, CommandWords[i])
    requires k < |NlpCommands| && j < |NlpCommands[k].keywords|
    requires NlpCommands[k].keywords[j] == CommandWords[i]
    ensures BestAmong(NlpCommands, text).best.Some?
  {
    LowerOfLowerCase(CommandWords[i]);
    SomeMatchChooses(NlpCommands, text, k, j);
  }

  /** Every action word the input check looks for is a keyword of some
      command, so a prompt that draws no action-word suggestion always has
      a command with a match. */
  lemma ActionWordMatchesCommand(prompt: string, hasTwoWords: bool)
    requires ActionWordSuggestion !in ValidateNlpInput(prompt, hasTwoWords).suggestions
    ensures BestAmong(NlpCommands, Lower(prompt)).best.Some?
  {
    var lower := Lower(prompt);
    var i :| 0 <= i < |CommandWords| && Contains(lower, CommandWords[i]);
    // the command and keyword position of each action word
    if i == 0 {
      ActionWordIsKeyword(lower, 0, 0, 0);
    } else if i == 1 {
      ActionWordIsKeyword(lower, 1, 0, 1);
    } else if i == 2 {
      ActionWordIsKeyword(lower, 2, 1, 0);
    } else if i == 3 {
      ActionWordIsKeyword(lower, 3, 2, 0);
    } else if i == 4 {
      ActionWordIsKeyword(lower, 4, 3, 0);
    } else if i == 5 {
      ActionWordIsKeyword(lower, 5, 4, 0);
    } else {
      ActionWordIsKeyword(lower, 6, 1, 1);
    }
  }
}
