# UK payroll HRMS core in Dafny

This project models the rule-bearing core of a small UK payroll and HR
system (a FastAPI back end over an SQL database). It covers:

- **the payroll engine** (`PayrollCalc`): the 2024/25 PAYE income tax, employee and employer
  National Insurance, pension and student-loan rules. They are composed into a payslip whose
  figures satisfy the gross, net and employer-cost identities before each is rounded to pence.
  The module also holds the tax-code, NI-number and pension-scheme validators and the
  band-split helper.
- **GDPR handling** (`Gdpr`): masking a string, recognising a masked value, redacting nested
  JSON before AI processing and in HTTP responses, and auditing data for unmasked sensitive fields.
- **the HMRC RTI stand-in** (`Hmrc`): submission validation, warning rules, and the
  accept / reject / error decisions for RTI returns, FPS, EPS and status look-ups.
- **the BACS stand-in** (`Bacs`): the header, detail and trailer records prepared from a batch of
  payslips, their fixed-width layout, the line-level validator, and the summary report. The
  layout is the service's own, not the real Bacs Standard 18.
- **the payroll endpoints** (`PayrollRouter`): calculating one payslip, the batch run that
  isolates each employee's failure and then writes the BACS file, the one-way RTI flag, and
  the company summary.
- **the company endpoints** (`CompanyRouter`): keyed tables that keep registration numbers
  unique, and department codes unique within a company.
- **the employee-record endpoints** (`EmployeeRouter`): CSV row normalisation, upsert by
  reference, partial update, the paged list, and conversion of records into payroll employees.
- **the keyword classifiers** (`Keywords`, `NlpAi`, `DocAi`): the command interpreter, the
  document classifier, the employee tax-code and pension rule tables, the response templates,
  and the mock OCR and PDF extractors.

The model follows a few conventions:

- Money is `Decimal` in the source and `real` here, so every identity is exact.
- The final `round(x, 2)` is Python's half-to-even rounding.
- Database tables are sequences of rows in insertion order, owned by a class per router
  (`CompanyStore`, `PayrollStore`, `EmployeeDatabase`) whose methods update them in place.
- The session does not autoflush, so a lookup inside a loop sees only stored rows, never rows
  added earlier in the same loop. At commit the changed stored rows are written one UPDATE at a
  time in primary-key order, each checked against the unique constraints as the table then stands;
  the new rows are inserted after them.
- Clocks, UUIDs, regular expressions and float parsing are parameters.
- `Strings` and `Tables` hold the small part of Python's `str` behaviour and of the ORM's
  query behaviour that the core uses.

## Model

| member | source | states |
|---|---|---|
| PayrollCalc.Round2 | backend/services/calc.py:178-191 | `round(x, 2)` is within half a penny of `x` and is a whole number of pence |
| PayrollCalc.Round2WholePence | backend/services/calc.py:178-191 | an amount already in whole pence is returned unchanged |
| PayrollCalc.Round2Monotone | backend/services/calc.py:178-191 | rounding never reverses the order of two amounts |
| PayrollCalc.AnnualBandTax | backend/services/calc.py:226-252 | the band-by-band annual tax is never negative |
| PayrollCalc.AnnualBandTaxIsStatutory | backend/services/calc.py:219-252 | the band-by-band computation equals the marginal schedule: 0% to £12,570, 20% to £50,270, 40% to £125,140, 45% above |
| PayrollCalc.AnnualBandTaxMonotone | backend/services/calc.py:226-252 | annual tax never falls as salary rises and rises by at most 45p per extra pound |
| PayrollCalc.PayeTax | backend/services/calc.py:194-257 | BR, D0, D1 and NT tax the period's gross at 20%, 40%, 45% and 0%; every other code (S-codes included) pays a twelfth of the statutory annual tax on the annual salary |
| PayrollCalc.PayeTaxZeroWithinAllowance | backend/services/calc.py:219-257 | under an allowance code a salary within the personal allowance pays no tax |
| PayrollCalc.TaxBandsForSalary | backend/services/calc.py:453-488 | the taxable income is the salary above the personal allowance, or nothing; the three band amounts are non-negative, capped at each band's width, sum to the taxable income, and a band is used only once the band below is full |
| PayrollCalc.AnnualBandTaxByBands | backend/services/calc.py:453-488 | the tax equals each reported band amount times its rate |
| PayrollCalc.EmployeeNi | backend/services/calc.py:259-287 | employee NI for the period is never negative |
| PayrollCalc.EmployeeNiIsStatutory | backend/services/calc.py:259-287 | employee NI is 12% of annual earnings between £12,570 and £50,270 plus 2% above, divided by 12 |
| PayrollCalc.EmployeeNiMonotone | backend/services/calc.py:259-287 | employee NI never falls as salary rises and grows by at most 1p per extra annual pound |
| PayrollCalc.EmployerNi | backend/services/calc.py:337-351 | employer NI is never negative and is zero up to the £9,100 threshold |
| PayrollCalc.EmployerNiUncapped | backend/services/calc.py:337-351 | above the threshold each extra annual pound costs 13.8p / 12, with no upper cap |
| PayrollCalc.EmployeePension | backend/services/calc.py:289-307 | scheme "none" contributes nothing; an employee-specific rate overrides the scheme's |
| PayrollCalc.EmployerPension | backend/services/calc.py:353-371 | scheme "none" contributes nothing; an employer-specific rate overrides the scheme's |
| PayrollCalc.PensionAtSchemeRates | backend/services/calc.py:289-307 | without a specific rate both contributions use the scheme's table entry, or the auto-enrolment rates for an unlisted scheme |
| PayrollCalc.PensionWithinGross | backend/services/calc.py:289-307 | with a rate between 0 and 1 each contribution lies between zero and gross pay |
| PayrollCalc.StudentLoan | backend/services/calc.py:309-335 | no plan, an empty plan or "none" repays nothing; a repayment is never negative |
| PayrollCalc.UnknownPlanIsPlan2 | backend/services/calc.py:325-326 | a plan name outside the table is charged exactly as plan 2 |
| PayrollCalc.StudentLoanThreshold | backend/services/calc.py:329-335 | for a listed plan nothing is repaid up to a twelfth of its threshold and 9% of the excess above it |
| PayrollCalc.ExactPayroll | backend/services/calc.py:150-175 | gross is the sum of the four pay components; net is gross less the five deductions; employer cost is gross plus employer NI and pension |
| PayrollCalc.CalculatePayroll | backend/services/calc.py:130-192 | every one of the fourteen returned figures is in whole pence and within half a penny of its exact value |
| PayrollCalc.HugeBasicPayRaises | backend/services/calc.py:178-191 | a basic pay of 10^26 pounds gives a rounded figure whose 2-place quantize exceeds Decimal's 28 digits, so `round` raises |
| PayrollCalc.PayComponentsRounded | backend/services/calc.py:177-191 | each pay component is rounded on its own and gross is the rounded exact sum |
| PayrollCalc.RoundedNetNearRoundedParts | backend/services/calc.py:170-188 | rounded net pay differs from rounded gross less the rounded deductions by at most 3.5p |
| PayrollCalc.Salary35000Exact | backend/services/calc.py:130-192 | the exact figures of £35,000 on 1257L, auto-enrolment and plan 2 |
| PayrollCalc.Salary35000Rounding | backend/services/calc.py:178-191 | the pennies those exact figures round to |
| PayrollCalc.Salary35000Payslip | backend/services/calc.py:130-192 | that payslip: net £2,114.91, one penny below gross less the rounded deductions |
| PayrollCalc.AllowanceCodesValid | backend/services/calc.py:396-402 | every number followed by L, with or without a leading S, is a valid tax code |
| PayrollCalc.ValidTaxCodeShape | backend/services/calc.py:377-404 | an accepted code outside the fixed list ends in L preceded by a digit |
| PayrollCalc.ValidateTaxCode | backend/services/calc.py:377-404 | every listed code is accepted; an accepted code has at least two characters and, unless listed, ends in L |
| PayrollCalc.KnownTaxCodesLength | backend/services/calc.py:384-389 | every listed code has at least two characters |
| PayrollCalc.NormaliseNi | backend/services/calc.py:413-414 | the normalised NI number has no spaces and no lower-case letters and is no longer than the input |
| PayrollCalc.NormaliseNiIdempotent | backend/services/calc.py:413-414 | normalising twice is normalising once |
| PayrollCalc.ValidateNiNumberNormalised | backend/services/calc.py:406-429 | the NI check gives the same answer on the normalised number |
| PayrollCalc.NiNumberAccepted | backend/services/calc.py:406-429 | "AB123456C" is accepted |
| PayrollCalc.NiNumberReservedPrefix | backend/services/calc.py:424-427 | "GB123456A" is refused for its reserved prefix |
| PayrollCalc.ValidateNiNumber | backend/services/calc.py:406-429 | an accepted number has nine characters once spaces are removed, so at least nine as given |
| PayrollCalc.ValidatePensionScheme | backend/services/calc.py:431-435 | a scheme is valid exactly when it is one of the table's keys |
| PayrollCalc.GetPensionSchemeInfo | backend/services/calc.py:441-445 | a listed scheme gets its own table entry; any other scheme gets the auto-enrolment entry |
| PayrollCalc.SchemeRatesBounded | backend/services/calc.py:68-124 | no scheme's rates exceed 5% (employee) and 3% (employer) |
| Gdpr.Mask | backend/services/gdpr.py:110-121 | under three characters gives "***"; otherwise the length is kept, the first and last one (3-4 characters) or two (5 or more) characters are kept, every other character becomes '*', and a '*' always appears |
| Gdpr.MaskIsProperlyMasked | backend/services/gdpr.py:187-206 | every masked value passes `is_properly_masked` |
| Gdpr.IsProperlyMasked | backend/services/gdpr.py:187-206 | a placeholder is recognised as masked; a value that is not recognised has three or more characters and no star |
| Gdpr.MaskIdempotent | backend/services/gdpr.py:110-121 | masking a masked value changes nothing |
| Gdpr.SensitiveKeysRedactedForAi | backend/services/gdpr.py:135-139 | every key the audit flags is also masked before AI processing |
| Gdpr.RedactForAi | backend/services/gdpr.py:123-149 | scalars at top level are returned as they are, and objects and lists stay objects and lists |
| Gdpr.RedactValueForAi | backend/services/gdpr.py:130-142 | a nested value is redacted recursively; a scalar is masked, as text, exactly when its key contains a sensitive fragment (addresses included) |
| Gdpr.RedactForAiKeepsSkeleton | backend/services/gdpr.py:123-149 | redaction keeps every key, the nesting and every list's length |
| Gdpr.RedactForAiIdempotent | backend/services/gdpr.py:123-149 | redacting twice gives the same data as redacting once |
| Gdpr.RedactField | backend/services/gdpr.py:89-108 | a sensitive field name forces masking; with no name or pattern hit the value is unchanged; otherwise the result is properly masked |
| Gdpr.RedactSensitiveData | backend/services/gdpr.py:70-87 | a top-level scalar is returned unchanged |
| Gdpr.RedactSensitiveDataStringifies | backend/services/gdpr.py:70-87 | after redaction every value under a key is a string or a container, and the shape of the data is unchanged |
| Gdpr.RedactSensitiveDataFields | backend/services/gdpr.py:74-84 | an object keeps its keys in order and each scalar value becomes the string `redact_field` returns for that key and the value's text (the mask for a sensitive key); a list keeps its length and its scalars unchanged |
| Gdpr.RedactedResponseIsCompliant | backend/services/gdpr.py:70-87 | when every sensitive key holds a scalar, the redacted response passes `validate_gdpr_compliance` with no violation |
| Gdpr.CheckField | backend/services/gdpr.py:158-167 | a key is recorded exactly when it contains a sensitive fragment, with one violation exactly when its value does not look masked |
| Gdpr.ValidateGdprCompliance | backend/services/gdpr.py:151-185 | the report lists the sensitive fields and violations of the whole traversal; compliant exactly when there are no violations; the count is the number of fields found |
| Gdpr.TraverseData | backend/services/gdpr.py:169-176 | appends the audit of a value, in traversal order |
| Gdpr.TraverseFields | backend/services/gdpr.py:170-173 | appends each field's check, then its value's audit |
| Gdpr.TraverseItems | backend/services/gdpr.py:174-176 | appends each item's audit |
| Gdpr.RedactedForAiIsCompliant | backend/services/gdpr.py:123-185 | data redacted for AI passes the audit when no sensitive key holds an object or list |
| Hmrc.MaskedNiNumberRejected | backend/mocks/hmrc.py:166-178 | no masked nine-character NI number passes the RTI service's NI check |
| Hmrc.ValidateNiNumber | backend/mocks/hmrc.py:166-178 | a number with a space anywhere is refused: the RTI check does not strip spaces |
| Hmrc.ValidateTaxCode | backend/mocks/hmrc.py:180-185 | an accepted code has two or three characters and never ends in L, so no allowance code passes |
| Hmrc.RtiTaxCodesNarrower | backend/mocks/hmrc.py:180-185 | every code the RTI service accepts is accepted by the payroll engine, but the standard code 1257L is refused |
| Hmrc.PeriodErrors | backend/mocks/hmrc.py:126-143 | the missing-dates error exactly when a date is absent; the format error exactly when a present date does not parse; a raise exactly when a date is not text or one date is timezone-aware and the other not; for two comparable dates, the order error exactly when start is not before end, the length error exactly when the period spans more than 31 days, and valid exactly when neither |
| Hmrc.AmountErrors | backend/mocks/hmrc.py:146-159 | one amount gives at most one error, and none exactly when it is present, a number and non-negative |
| Hmrc.MissingPartsReportedAlone | backend/mocks/hmrc.py:96-103 | with a required part missing the submission is invalid and the errors are exactly one message per missing part |
| Hmrc.MissingFieldsInMembers | backend/mocks/hmrc.py:97-100 | the missing-part messages are exactly one per listed part that is absent |
| Hmrc.ValidIffNoErrors | backend/mocks/hmrc.py:161-164 | a completed validation is valid exactly when its error list is empty |
| Hmrc.ValidSubmissionShape | backend/mocks/hmrc.py:90-164 | a valid submission has every part, a well-formed NI number, an RTI tax code, both company fields, a start before the end at most 31 days apart, and three non-negative amounts |
| Hmrc.ValidateRtiData | backend/mocks/hmrc.py:90-164 | the validator's loop and appends produce exactly the specified validation |
| Hmrc.CheckRequiredParts | backend/mocks/hmrc.py:97-100 | the loop over the required parts yields the missing-part messages in list order |
| Hmrc.MissingFieldsInRequired | backend/mocks/hmrc.py:97-100 | the loop's messages over the three required parts are the specified missing-part messages |
| Hmrc.CheckRtiWarnings | backend/mocks/hmrc.py:187-213 | each warning appears exactly when its rule holds: gross over £10,000, gross under £100, gross over £1,257 with no NI, tax over half of gross |
| Hmrc.HighAndLowPayExclusive | backend/mocks/hmrc.py:196-201 | pay is never flagged both unusually high and unusually low |
| Hmrc.OrdinaryPayHasNoWarnings | backend/mocks/hmrc.py:187-213 | pay between £100 and £10,000 with some NI and tax at most half of gross draws no warning |
| Hmrc.SubmitRtiReturn | backend/mocks/hmrc.py:45-88 | the response is "error" exactly when validation raised, "rejected" with the validation errors exactly when it failed, and "accepted" with no errors exactly when it passed; the generated reference is always returned |
| Hmrc.AcceptedCarriesWarnings | backend/mocks/hmrc.py:75-78 | an accepted return carries exactly the warnings for its figures |
| Hmrc.MaskedSubmissionNotAccepted | backend/mocks/hmrc.py:45-178 | a return whose NI number was masked is never accepted |
| Hmrc.RtiValidation | backend/mocks/hmrc.py:90-164 | the result is valid exactly when it lists no error, and raising happens only when all three parts are present |
| Hmrc.SubmitFps | backend/mocks/hmrc.py:244-285 | missing registration or no employees is rejected with its error under an RTI reference; otherwise accepted under the FPS reference with the registration number and employee count |
| Hmrc.SubmitEps | backend/mocks/hmrc.py:295-326 | accepted under the EPS reference exactly when the registration number is present, otherwise rejected under an RTI reference |
| Hmrc.GetRtiStatus | backend/mocks/hmrc.py:224-242 | the status is "accepted" exactly when the reference contains "RTI-" and "not found" exactly when it does not |
| Hmrc.GeneratedReferencesFound | backend/mocks/hmrc.py:215-236 | every generated RTI reference is reported as accepted |
| Bacs.DayMonthYear | backend/mocks/bacs.py:105 | `strftime('%d%m%y')` of a valid date is six characters |
| Bacs.IsoFormat | backend/mocks/bacs.py:145 | `isoformat()` of a valid date is ten characters |
| Bacs.TruncateToInt | backend/mocks/bacs.py:124 | `int(x)` truncates toward zero: never above a non-negative x, never below a negative one, and within one of x |
| Bacs.CompanySortCodeWithoutDashes | backend/mocks/bacs.py:106 | the header's sort code is the company's "12-34-56" with the dashes removed |
| Bacs.EmployeeSortCodeWithoutDashes | backend/mocks/bacs.py:121 | each detail's sort code is "98-76-54" with the dashes removed |
| Bacs.Details | backend/mocks/bacs.py:110-129 | one detail record per payslip |
| Bacs.DetailAt | backend/mocks/bacs.py:111-129 | the k-th detail is the record of the k-th payslip at position k + 1 |
| Bacs.DetailFor | backend/mocks/bacs.py:111-128 | the amount is the net pay in pence truncated toward zero: never more than the pay and less than a penny below it for non-negative pay |
| Bacs.PrepareBacsData | backend/mocks/bacs.py:85-148 | the loop builds exactly the specified header, details, trailer and summary |
| Bacs.DetailsNumberedInOrder | backend/mocks/bacs.py:119-128 | every detail has record type 08, a sequence number that reads back as its position, six digits wide below a million, and its payslip's PAY reference |
| Bacs.TrailerCountsPayslips | backend/mocks/bacs.py:132-133 | the trailer's record count reads back as the number of details and of payslips |
| Bacs.SameProcessingDate | backend/mocks/bacs.py:100-135 | header, every detail and trailer carry the same processing date |
| Bacs.AmountInPence | backend/mocks/bacs.py:124 | a non-negative net pay is paid in whole pence, at most a penny short |
| Bacs.FormatHeader | backend/mocks/bacs.py:150-164 | the header line starts with its record type and pads the file and user names to at least 20 characters |
| Bacs.FormatDetail | backend/mocks/bacs.py:166-179 | the detail line starts with its record type, holds the account name in full at its offset, and pads name, amount and reference to at least 18, 10 and 18 characters |
| Bacs.FormatTrailer | backend/mocks/bacs.py:181-192 | the trailer line starts with its record type and pads the user name to at least 20 characters |
| Bacs.PreparedHeaderLength | backend/mocks/bacs.py:150-164 | with a valid date the prepared header line is 75 characters |
| Bacs.PreparedDetailLength | backend/mocks/bacs.py:166-179 | a prepared detail line is 75 characters for positions below 100, ids below a million and amounts below ten digits of pence |
| Bacs.DetailLineWidth | backend/mocks/bacs.py:166-179 | names and references of at most 18 characters and amounts of at most ten digits fill exactly their padded widths |
| Bacs.PreparedTrailerLength | backend/mocks/bacs.py:181-192 | the prepared trailer line is 52 characters when the count fits six digits and the pence twelve |
| Bacs.WrittenLines | backend/mocks/bacs.py:58-71 | the written file has the header, one line per detail and the trailer |
| Bacs.DetailLines | backend/mocks/bacs.py:64-67 | one written line per detail |
| Bacs.DetailLineErrorsEmpty | backend/mocks/bacs.py:286-290 | no detail-line error exactly when every middle line starts with 08 once stripped |
| Bacs.CheckLines | backend/mocks/bacs.py:260-297 | a file is valid exactly when it has at least three lines and no errors; the counts are reported exactly for files of three or more lines |
| Bacs.ValidIffWellFormed | backend/mocks/bacs.py:268-297 | valid exactly when there are at least three lines, the first is a header, the last a trailer and every middle line a detail |
| Bacs.ValidateBacsFile | backend/mocks/bacs.py:260-297 | the validator's appends and loop give exactly the specified check |
| Bacs.CheckDetailRecords | backend/mocks/bacs.py:287-290 | the loop appends one message per middle line that is not a detail, numbered from line 2 |
| Bacs.WrittenLinesTyped | backend/mocks/bacs.py:58-71 | every line written from prepared data starts with its own record type |
| Bacs.GeneratedFileValidates | backend/mocks/bacs.py:34-297 | the file written for one or more payslips validates, counting n + 2 lines and n details |
| Bacs.EmptyBatchFileRejected | backend/mocks/bacs.py:268-272 | the file written for an empty batch has two lines and is rejected as too short |
| Bacs.GenerateBacsSummary | backend/mocks/bacs.py:207-232 | one payment per detail, in order, with its account, sort code and the amount converted back from pence; the totals are the prepared ones |
| Bacs.StripPayPrefix | backend/mocks/bacs.py:223 | removing "PAY" from "PAY" followed by digits leaves the digits |
| Bacs.SummaryEmployeeIdIsPayslipId | backend/mocks/bacs.py:223 | each payment's `employee_id` is the payslip id zero-padded to six digits, not the employee id |
| Keywords.Min | backend/services/nlp_ai.py:106-109 | Python's `min` is at most both arguments and is one of them |
| Keywords.MatchCount | backend/services/nlp_ai.py:99-102 | the number of matching keywords never exceeds the keyword count |
| Keywords.MatchCountZero | backend/services/nlp_ai.py:99-104 | no keyword matches exactly when none of them, lower-cased, occurs in the text |
| Keywords.MatchCountAll | backend/services/nlp_ai.py:99-102 | every keyword matches exactly when all of them, lower-cased, occur in the text |
| Keywords.Score | backend/services/nlp_ai.py:104-110 | a category without a match scores nothing; with a match it scores at most its base confidence, and something when that base is positive; never above 1 |
| Keywords.BestAmong | backend/services/nlp_ai.py:98-117 | a chosen category is an index into the table |
| Keywords.BestIsFirstMaximum | backend/services/nlp_ai.py:98-117 | with positive bases, nothing is chosen exactly when nothing matches; otherwise the choice has the highest score in the table, no earlier category reaches it (ties keep the earlier one), and the confidence is the choice's score |
| Keywords.SomeMatchChooses | backend/services/nlp_ai.py:98-117 | a keyword occurring in the text guarantees that some category is chosen |
| Keywords.SelectBest | backend/services/nlp_ai.py:98-117 | the scan with its strictly-greater replacement computes the specified choice |
| Keywords.FirstContainedIsFirst | backend/services/nlp_ai.py:178-181 | a `for ... if c in text: ...; break` search finds nothing exactly when no candidate occurs, and otherwise the first occurring candidate in list order |
| Keywords.FindFirstContained | backend/services/nlp_ai.py:178-181 | the search loop stops at the specified first occurring candidate |
| NlpAi.ExtractParameters | backend/services/nlp_ai.py:139-195 | the month and document-type search loops give the first month in calendar order and the first document type in list order; the pattern matches pass through |
| NlpAi.ParametersFirstFound | backend/services/nlp_ai.py:172-193 | a month is set exactly when some month name occurs, and it is the first one of the calendar that occurs; likewise the document type |
| NlpAi.RunPayrollResponseMentions | backend/services/nlp_ai.py:205-210 | the payroll-run response names the company, month and year the prompt supplied |
| NlpAi.CommandResponse | backend/services/nlp_ai.py:197-234 | every reply, templated or generic, is a non-empty sentence closed by a full stop |
| NlpAi.VerifyResponseMentions | backend/services/nlp_ai.py:212-216 | the document-check response names the document type and employee the prompt supplied |
| NlpAi.EmployeeResponseMentions | backend/services/nlp_ai.py:218-231 | the three employee responses name the employee the prompt supplied |
| NlpAi.ProcessNlpCommand | backend/services/nlp_ai.py:74-137 | the scan, with parameters extracted whenever a command takes the lead, gives the specified interpretation |
| NlpAi.InterpretationChoosesBest | backend/services/nlp_ai.py:92-137 | a prompt is not understood exactly when every command scores below 0.5; otherwise command = action = the first command with the highest score, its confidence lies in [0.5, base] and its parameters are the extracted ones |
| NlpAi.ClassifyTaxCode | backend/services/nlp_ai.py:276-293 | the employment-type rule, else the first band loop, gives the specified code |
| NlpAi.TaxCodeFor | backend/services/nlp_ai.py:276-293 | every suggested code is accepted both by the payroll engine's check and by the RTI check |
| NlpAi.TaxCodeBandsApply | backend/services/nlp_ai.py:45-58 | a known employment type always gets BR; otherwise NT exactly up to 12570, BR exactly above that up to 50270, D0 up to 125140 and D1 above |
| NlpAi.ClassifyPensionScheme | backend/services/nlp_ai.py:295-312 | the employment-type rule, else the first threshold reached, gives the specified scheme |
| NlpAi.PensionSchemeFor | backend/services/nlp_ai.py:295-312 | every suggested scheme is one the payroll engine's scheme table holds |
| NlpAi.PensionThresholdReached | backend/services/nlp_ai.py:304-310 | the threshold loop gives auto-enrolment from 10000, no scheme from 0 and nothing below; the workplace-pension and NEST thresholds are never reached |
| NlpAi.PensionSchemeRules | backend/services/nlp_ai.py:59-70 | contractors get none, part and full time auto-enrolment; any other type gets auto-enrolment exactly from 10000 and none exactly below; workplace pension and NEST are never chosen |
| NlpAi.ValidateNlpInput | backend/services/nlp_ai.py:347-371 | valid exactly when the prompt has at least 5 characters, with the warning exactly when not; the action-word suggestion exactly when no action word occurs in the lower-cased prompt; the names suggestion exactly when the name pattern fails |
| NlpAi.ActionWordMatchesCommand | backend/services/nlp_ai.py:363-365 | every action word is a command keyword, so a prompt without the action-word suggestion always matches some command |
| DocAi.ClassifyDocument | backend/services/doc_ai.py:191-239 | the scan over the document types and the verification decision give the specified classification |
| DocAi.ClassificationMeaning | backend/services/doc_ai.py:203-239 | 'unknown' with confidence 0 exactly when no keyword of any type occurs; otherwise the first type with the highest score, its score positive and at most its base; verified exactly when that type is the expected one, lower-cased with spaces as '_', and the confidence exceeds 0.7; the expected type is echoed and the text length reported |
| DocAi.Classification | backend/services/doc_ai.py:191-239 | a verified document has the expected type, normalised, and a confidence above 0.7; an unknown document is never verified; the result echoes the expected type and the text length |
| DocAi.UtilityBillNeverVerified | backend/services/doc_ai.py:52-54 | a document classified as a utility bill is never verified, its base of 0.70 capping the score at the threshold |
| DocAi.Basename | backend/services/doc_ai.py:258 | `os.path.basename` is the longest suffix of the path without a '/' |
| DocAi.MockTextNamesUnknownFile | backend/services/doc_ai.py:253-311 | a file whose name matches no listed type gets a text naming the lower-cased file name |
| DocAi.MockOcrExtraction | backend/services/doc_ai.py:253-286 | the text is the canned P45, P60 or passport text, or a sentence naming the lower-cased file |
| DocAi.MockPdfExtraction | backend/services/doc_ai.py:288-311 | the text is the canned bank-statement or utility-bill text, or a sentence naming the lower-cased file |
| DocAi.CannedTextContains | backend/services/doc_ai.py:261-267 | a word on a line of a canned text occurs in the whole text, lower-cased |
| DocAi.P45TextHasAllKeywords | backend/services/doc_ai.py:261-267 | all five P45 keywords occur in the mock P45 text |
| DocAi.P45TextClassified | backend/services/doc_ai.py:209-225 | the mock P45 text is classified as a P45 with confidence 0.95 |
| DocAi.MockP45Verified | backend/services/doc_ai.py:253-267 | a scanned file whose name mentions p45 is classified as a P45 with confidence 0.95 and verified when a P45 is expected |
| DocAi.ScoreLowWithoutPI | backend/services/doc_ai.py:27-56 | on a text holding neither 'p' nor 'i', every document type but the bank statement scores below 0.75 |
| DocAi.BankStatementTextClassified | backend/services/doc_ai.py:209-225 | the mock bank statement is classified as a bank statement with confidence 0.75 |
| DocAi.MockBankStatementClassified | backend/services/doc_ai.py:288-303 | a PDF whose name mentions bank gets the mock bank statement, classified as a bank statement with confidence 0.75 and verified when a bank statement is expected |
| PayrollRouter.CalcView | backend/routers/payroll.py:52 | the employee row handed to `calculate_payroll` has no student-loan plan and no employer pension rate, and passes its own tax code and scheme |
| PayrollRouter.Calculation | backend/routers/payroll.py:50-58 | the calculation succeeds exactly when the salary and every pay component are finite and no rounded figure reaches 10^26 in size (where `round` raises); its pay figures are the rounded components, no other deductions, and the rounded sum as gross |
| PayrollRouter.HugeBasicPayNotCalculated | backend/routers/payroll.py:50-58 | a finite request whose basic pay is 10^26 is not calculated: the endpoint answers 400 |
| PayrollRouter.NewPayslip | backend/routers/payroll.py:61 | `Payslip(**kwargs)` builds a row exactly when every keyword is an attribute of the model; the row carries the calculation's columns and is not yet submitted |
| PayrollRouter.AsWrittenKeysRejected | backend/routers/payroll.py:53-61 | the merged dictionary carries `employer_ni`, which is not a payslip attribute, so the constructor refuses it |
| PayrollRouter.StoredKeysAccepted | backend/routers/payroll.py:53-61 | without the three employer-cost keys every key names a payslip column |
| PayrollRouter.ActiveEmployee | backend/routers/payroll.py:33-36 | the found employee has the id and is active; none is found exactly when no row is both |
| PayrollRouter.CalculatePayslipStep | backend/routers/payroll.py:24-66 | 404 exactly without an active employee, 400 exactly when the calculation fails, 201 exactly when it succeeds and the keys are columns, with the calculation's amounts on an unsubmitted row |
| PayrollRouter.CalculatePayslipAsWrittenNeverStores | backend/routers/payroll.py:50-64 | as written the endpoint never stores a payslip: wherever the calculation succeeds it answers 500 |
| PayrollRouter.BatchPayslip | backend/routers/payroll.py:138-165 | an employee of the batch gets a row exactly when its calculation succeeds (finite salary, no rounded figure reaching 10^26) and the keys are columns |
| PayrollRouter.HugeSalarySkipped | backend/routers/payroll.py:138-163 | an employee earning 12 x 10^26 a year is skipped by the batch: its twelfth reaches the quantize limit |
| PayrollRouter.BatchPayslips | backend/routers/payroll.py:135-165 | the batch never creates more rows than it has employees |
| PayrollRouter.BatchFiguresPay | backend/routers/payroll.py:140-148 | the batch pays a twelfth of the salary, rounded, as basic pay |
| PayrollRouter.BatchFiguresGross | backend/routers/payroll.py:140-152 | the batch's gross pay is that same twelfth, rounded |
| PayrollRouter.BatchFiguresNoExtras | backend/routers/payroll.py:149-151 | the batch pays no overtime, bonus or other pay and deducts nothing else |
| PayrollRouter.BatchRowPay | backend/routers/payroll.py:139-159 | every stored batch row has basic pay = gross pay = the rounded twelfth, and zero extras |
| PayrollRouter.BatchPayslipStored | backend/routers/payroll.py:137-165 | with storable keys an employee whose calculation succeeds gives its row and any other employee is skipped |
| PayrollRouter.BatchStoresSuccessfulEmployees | backend/routers/payroll.py:135-165 | the batch stores exactly the employees whose calculation succeeds, in input order, with consecutive ids |
| PayrollRouter.BatchStoredRow | backend/routers/payroll.py:135-165 | the k-th stored row is the row of the k-th employee whose calculation succeeds |
| PayrollRouter.BatchAsWrittenStoresNothing | backend/routers/payroll.py:155-165 | as written every employee fails at the constructor, so the batch stores nothing |
| PayrollRouter.BacsPayslip | backend/routers/payroll.py:171 | the BACS step reads a payslip's id, employee and net pay |
| PayrollRouter.BacsPayslips | backend/routers/payroll.py:171 | the BACS step reads every created payslip, in order |
| PayrollRouter.BatchAsWrittenFileRejected | backend/routers/payroll.py:167-174 | as written the batch's BACS file holds a header and a trailer only and fails validation |
| PayrollRouter.BatchFileValidates | backend/routers/payroll.py:167-174 | with storable rows and at least one employee whose calculation succeeds, the batch's BACS file validates with one detail per stored payslip |
| PayrollRouter.RtiDataFor | backend/routers/payroll.py:240-257 | the RTI return carries the employee's NI number masked |
| PayrollRouter.RtiReturnNeverAccepted | backend/routers/payroll.py:240-261 | a return with a masked nine-character NI number is never accepted by the HMRC mock |
| PayrollRouter.SendRtiReturn | backend/routers/payroll.py:259-274 | whatever HMRC answers, the payslip is marked submitted with the returned reference and the receipt reports acceptance |
| PayrollRouter.SumTotalsAppend | backend/routers/payroll.py:365-369 | the totals of two runs of payslips are the sums of the totals of each |
| PayrollRouter.CountSubmitted | backend/routers/payroll.py:387 | the submitted count never exceeds the payslip count |
| PayrollRouter.CountPending | backend/routers/payroll.py:388 | the pending count never exceeds the payslip count |
| PayrollRouter.SummaryStep | backend/routers/payroll.py:365-388 | one more payslip adds its amounts to the totals and counts once, as submitted or as pending |
| PayrollRouter.SubmittedPlusPending | backend/routers/payroll.py:386-389 | submitted + pending = number of payslips |
| PayrollRouter.SummaryOf | backend/routers/payroll.py:371-390 | submitted + pending = `total_employees` = number of matching payslips |
| PayrollRouter.SummariseRows | backend/routers/payroll.py:352-369 | the loop keeps exactly the rows the query matches and computes their totals and submitted and pending counts |
| PayrollRouter.PayrollStore.constructor | backend/routers/payroll.py:24-390 | the store starts with the given companies and employees and no payslips |
| PayrollRouter.PayrollStore.CalculatePayslip | backend/routers/payroll.py:24-66 | the answer is the specified one; a success appends exactly the new row, a failure stores nothing |
| PayrollRouter.PayrollStore.StoreRow | backend/routers/payroll.py:138-165 | one employee adds its row with the next id, or nothing when it fails |
| PayrollRouter.PayrollStore.StoreBatch | backend/routers/payroll.py:135-167 | the loop appends exactly the rows of the employees that do not fail, in order, and a failure does not stop it |
| PayrollRouter.PayrollStore.ProcessBatchPayroll | backend/routers/payroll.py:124-174 | the stored rows are the specified batch and the BACS file is written from exactly those rows, after the loop |
| PayrollRouter.PayrollStore.RunBatchPayroll | backend/routers/payroll.py:68-122 | 404 exactly for an unknown company, 400 exactly without active employees, and no other error; otherwise 202 with their number, the batch run over them and the BACS file written from the payslips stored |
| PayrollRouter.PayrollStore.SubmitRti | backend/routers/payroll.py:214-280 | 404 exactly when no payslip has the id; for the first payslip with the id, 400 exactly when it is already submitted, 500 exactly when its employee or that employee's company is missing, and success exactly otherwise, flipping that row alone to submitted with the reference; a submitted payslip is never changed |
| PayrollRouter.PayslipIndex | backend/routers/payroll.py:222 | the row found is the first with the id, and none is found exactly when no row has it |
| PayrollRouter.EmployeeIndex | backend/routers/payroll.py:236 | the row found has the employee id, and none is found exactly when no row has it |
| PayrollRouter.CompanyIndex | backend/routers/payroll.py:237 | the row found has the company id, and none is found exactly when no row has it |
| PayrollRouter.PayrollStore.GetPayrollSummary | backend/routers/payroll.py:333-390 | 404 exactly for an unknown company and no other error; otherwise 200 with the summary, from the first row of that company, of its payslips in the period, the period applying only when both bounds are given |
| CompanyRouter.Overwritten | backend/routers/company.py:239-241 | an updated department keeps its id and takes every payload field, company id included |
| CompanyRouter.UpdateDepartmentAsWritten | backend/routers/company.py:209-247 | `update_department` as written keeps the table's size, looking up conflicts only in the department's current company |
| CompanyRouter.UpdateDepartmentAsWrittenDuplicatesCode | backend/routers/company.py:226-241 | moving a department into a company that already uses its code succeeds as written and leaves two departments sharing that code |
| CompanyRouter.CompanyStore.constructor | backend/routers/company.py:16-266 | the tables start empty and valid |
| CompanyRouter.CompanyStore.GetCompany | backend/routers/company.py:55-69 | the row with the id, or 404 exactly when no row has it |
| CompanyRouter.CompanyStore.GetDepartment | backend/routers/company.py:193-207 | the row with the id, or 404 exactly when no row has it |
| CompanyRouter.CompanyStore.GetDepartments | backend/routers/company.py:169-191 | 404 exactly for an unknown company; otherwise 200 with the page of that company's departments, in table order, starting at `skip` and at most `limit` long |
| CompanyRouter.DepartmentsOf | backend/routers/company.py:186-188 | a department is listed exactly when it belongs to the company |
| Tables.PagesConcatenate | backend/routers/company.py:186-188 | two consecutive pages read the same rows as one page as long as both |
| CompanyRouter.CompanyStore.CreateCompany | backend/routers/company.py:16-41 | a registration number in use gives 400 and no change; otherwise the company is appended with a fresh id; registration numbers stay unique |
| CompanyRouter.CompanyStore.UpdateCompany | backend/routers/company.py:71-108 | 404 exactly for an unknown id; 400 exactly when the id is known and another company holds the payload's number; no other error; otherwise 200 and exactly that row is overwritten with every field; registration numbers stay unique |
| CompanyRouter.CompanyStore.DeleteCompany | backend/routers/company.py:110-127 | 404 exactly for an unknown id and no other error; otherwise 204 and exactly that row goes, with its departments by the cascade |
| CompanyRouter.CompanyStore.CreateDepartment | backend/routers/company.py:130-167 | 404 exactly for an unknown company, 400 exactly when the code is in use in that company, no other error; otherwise 201 and the row is appended with the URL's company id; codes stay unique per company |
| CompanyRouter.CompanyStore.UpdateDepartment | backend/routers/company.py:209-247 | 404 exactly for an unknown id; 400 exactly when the id is known and another department of the target company has the code; no other error; otherwise 200 and exactly that row is overwritten; codes stay unique per company |
| CompanyRouter.CompanyStore.DeleteDepartment | backend/routers/company.py:249-266 | 404 exactly for an unknown id and no other error; otherwise 204 and exactly that row goes |
| EmployeeRouter.SafeGetIsStripped | backend/routers/employee.py:107-109 | a cell read by `safe_get` has no whitespace at either end and is stable under stripping; a missing column reads "" |
| EmployeeRouter.SafeGet | backend/routers/employee.py:107-109 | a non-empty value comes from a present, non-null cell and is no longer than it |
| EmployeeRouter.ResolveAliasFirstNonEmpty | backend/routers/employee.py:227-229 | an alias chain yields "" exactly when every alias reads empty, and otherwise the value of the first alias that does not |
| EmployeeRouter.ResolveAlias | backend/routers/employee.py:227-229 | a value the alias chain yields has no whitespace left at either end |
| EmployeeRouter.FillFieldsReads | backend/routers/employee.py:111-224 | every field of the table holds the stripped value of its own CSV column |
| EmployeeRouter.DirectorshipFieldsShareColumn | backend/routers/employee.py:138-140 | `director`, `director_start_date` and `director_leave_date` all read the "Directorship Start Date" column |
| EmployeeRouter.NiCategoryCopiesLetter | backend/routers/employee.py:151-152 | `ni_category` repeats `ni_letter`, both read from "NILetter" |
| EmployeeRouter.NormaliseRow | backend/routers/employee.py:226-239 | a row is rejected exactly when its reference, forename or surname chain is empty; an accepted row carries the three resolved values |
| EmployeeRouter.ErrorMessages | backend/routers/employee.py:231-232 | one error message per rejected row |
| EmployeeRouter.Merge | backend/routers/employee.py:246-250 | the non-empty incoming fields overwrite, every other field of the existing record is kept, and nothing else appears |
| EmployeeRouter.MergeIdempotent | backend/routers/employee.py:246-250 | merging the same row twice is merging it once |
| EmployeeRouter.Normalised | backend/routers/employee.py:99-239 | one normalised entry per data row |
| EmployeeRouter.NormalisedReferenced | backend/routers/employee.py:231-237 | every accepted row has a non-empty reference |
| EmployeeRouter.UploadFold | backend/routers/employee.py:99-264 | each row counts exactly once, as created, updated or rejected; the table keeps its length and one record is added per creation |
| EmployeeRouter.UploadStepKeepsReferences | backend/routers/employee.py:241-259 | one row never changes a stored record's reference |
| EmployeeRouter.UploadKeepsReferences | backend/routers/employee.py:99-264 | merging rows into existing records never changes their references |
| EmployeeRouter.UploadAddsNewReferences | backend/routers/employee.py:241-259 | a record the upload adds has a non-empty reference that no stored record had |
| EmployeeRouter.UploadCommitCondition | backend/routers/employee.py:241-267 | on a table satisfying the unique constraint, the commit succeeds exactly when no two added rows share a reference, so a CSV repeating a new reference is rejected as a whole |
| EmployeeRouter.UploadStepStores | backend/routers/employee.py:241-259 | a further row never loses a stored reference, and an accepted row is stored under its own |
| EmployeeRouter.UploadStoresAcceptedRows | backend/routers/employee.py:99-264 | every accepted row ends up under its reference, in an existing record or an added one |
| EmployeeRouter.UpsertRecord | backend/routers/employee.py:241-258 | an accepted row merges into the first record the session finds with its reference and counts as updated, or is added and counts as created, leaving the rejected lines as they were |
| EmployeeRouter.UpsertRows | backend/routers/employee.py:99-264 | the loop computes exactly the specified table, additions, counters and error messages |
| EmployeeRouter.EmployeeDatabase.UploadEmployeesCsv | backend/routers/employee.py:58-288 | a non-`.csv` name gives 400 and no change; otherwise the table becomes the merged records plus the added ones when the constraint holds, else 500 and no change; the final count is the initial count plus the creations |
| EmployeeRouter.ApplyPatch | backend/routers/employee.py:311-314 | exactly the record's columns given a non-None value take it; every other field is kept |
| EmployeeRouter.PatchIdempotent | backend/routers/employee.py:311-314 | applying a patch twice is applying it once |
| EmployeeRouter.EmptyPatchChangesNothing | backend/routers/employee.py:311-314 | a patch naming no column, or only None values, changes nothing |
| EmployeeRouter.EmployeeDatabase.UpdateEmployeeRecord | backend/routers/employee.py:290-342 | 404 for an unknown reference; otherwise only the first record with it is patched, or nothing changes and 500 when the new reference clashes at commit |
| EmployeeRouter.DisplayNameTrimmed | backend/routers/employee.py:453 | the listed name has no whitespace at either end and is empty for a record without forename and surname |
| EmployeeRouter.HasMoreMeansFullPage | backend/routers/employee.py:446-468 | a page announced as having more is full; any other page reaches the end of the table |
| EmployeeRouter.EmployeeDatabase.ListEmployeeRecords | backend/routers/employee.py:430-469 | one entry per record of the page, in order; the total is the table size; `has_more` exactly when skip + limit < total |
| EmployeeRouter.DetailsDefaults | backend/routers/employee.py:537-544 | a record without taxable pay earns 45000, one without a tax code gets BR, and a present tax code is kept |
| EmployeeRouter.ConvertAll | backend/routers/employee.py:529-569 | a completed conversion counts every record once, as created or updated, with one new employee per creation |
| EmployeeRouter.ConvertFailsIffUnparsable | backend/routers/employee.py:543-561 | the conversion fails exactly when some record's salary text does not parse |
| EmployeeRouter.ConvertKeepsIdentity | backend/routers/employee.py:529-569 | existing employees keep their ids and numbers, and the i-th new employee gets the i-th new id |
| EmployeeRouter.ConvertStepRefreshes | backend/routers/employee.py:531-547 | with distinct numbers, a record refreshes the one employee it numbers and leaves every other as it was |
| EmployeeRouter.ConvertRefreshesMatched | backend/routers/employee.py:529-547 | with distinct numbers, an existing employee some record names becomes active in company 1, and every other existing employee is left exactly as it was |
| EmployeeRouter.ConvertAddsFreshEmployees | backend/routers/employee.py:548-569 | every new employee is full time, active in company 1, in auto-enrolment at 5%, and carries a number no existing employee has |
| EmployeeRouter.ConvertRecord | backend/routers/employee.py:530-569 | a record refreshes the first employee numbered by its reference and counts as updated, or adds a new employee with the next id and counts as created |
| EmployeeRouter.ConvertRows | backend/routers/employee.py:529-569 | the loop completes exactly when the specified conversion does, and then computes it |
| EmployeeRouter.CaughtAsWritten | backend/routers/employee.py:580-585 | the generic handler passes a success through and turns every raised error, HTTP errors included, into a 500 |
| EmployeeRouter.EmptyTableAnsweredAsWritten | backend/routers/employee.py:520-524 | as written, an empty record table is answered 500, not the 400 the code raises |
| EmployeeRouter.EmployeeDatabase.CreateEmployeesFromRecordsAsWritten | backend/routers/employee.py:520-524 | as written, the endpoint answers an empty record table with 500 and writes nothing, and every HTTP error it raises reaches the client as a 500 |
| EmployeeRouter.EmployeeDatabase.CreateEmployeesFromRecords | backend/routers/employee.py:510-585 | an empty table gives 400; otherwise the conversion is committed with created + updated = `total_processed` when it completes, every refreshing UPDATE in id order meets the constraints against the table as it then stands, and the table with the new rows meets them; else 500 and no change |
| EmployeeRouter.StaffTableExtended | backend/routers/employee.py:568-571 | stored employees keeping their ids, followed by new ones numbered on, form a valid table in ascending id order once the constraints hold |
| EmployeeRouter.SwappedEmailsRejected | backend/routers/employee.py:534-571 | two stored employees refreshed so that they exchange emails end in a table meeting the constraints, yet the first UPDATE duplicates an email, so the commit fails |
| EmployeeRouter.UpdatesCommitWhenKeysKept | backend/models.py:690-695 | refreshes that keep each row's employee number, NI number and email pass every UPDATE of the commit when the stored table meets the constraints |
| EmployeeRouter.EmployeeDatabase.constructor | backend/routers/employee.py:58-585 | the tables start empty and valid |

## Left out

- Decimal arithmetic is exact here. Python's Decimal rounds every intermediate result to 28 significant digits; for amounts of that size, or an exact value that sits on a half penny only before that rounding, the pennies can differ. The raise of `round(x, 2)` once the rounded value needs more than 28 digits (10^26 and above) is modelled.
- Converting the payroll results with `float()`, and reading employee attributes with `getattr` defaults, are not modelled. The employee record is a datatype with the attributes the calculation reads.
- PayrollCalc.PensionWithinGross: it takes gross pay as non-negative and a custom rate in [0, 1]. These are the request model's field constraints; the calculation does not check them itself.
- `get_all_pension_schemes` returns the scheme table unchanged and has no rule of its own.
- The regular expressions are abstractions, not modelled:
  - the sensitive-value patterns of the GDPR middleware are the `patternHit` parameter;
  - the `extract_parameters` name, company and year patterns are the `PatternMatches` input;
  - the two-word check of `validate_nlp_input` is the `hasTwoWords` input.
- `GDPRMiddleware.dispatch` (response-body streaming and byte decoding) and `generate_gdpr_report` are not modelled.
- Lower-casing and upper-casing are modelled on ASCII letters only. Python's `str.lower` also maps other Unicode letters.
- The HMRC stand-in's references and timestamps come from the clock and a random UUID, so they are parameters. Its `asyncio.sleep` is not modelled.
- Hmrc: dates are seconds since an epoch, or a parse failure. The ISO parser itself is not modelled.
- `generate_bacs_file` and `generate_bacs_csv` write files, and `validate_bacs_file` opens one. The model works on the list of lines; paths and file I/O are not modelled.
- `get_next_working_day` reads today's date, so the processing date is a parameter.
- `simulate_bank_webhook` only sleeps and returns a random status, so it is not modelled.
- Bacs.AmountInPence: `int(net_pay * 100)` is computed on binary floats, which can lose a penny (0.29 × 100 is just below 29). Here the product is exact.
- Bacs: the trailer's float total is likewise exact here.
- PayrollRouter: dates are day numbers. A date string that `strptime` cannot parse (a 500) is not modelled.
- PayrollRouter.PayrollStore.RunBatchPayroll: the background task runs in sequence after the 202 response; there is no concurrency. A failure writing the BACS file is only printed, so it is not modelled.
- `get_payslips`, `get_payslip` and `download_payslip` only read and format rows, so they are not modelled.
- PayrollRouter: the employee table here has only the columns the payroll endpoints read. The employee-record endpoints use their own view of the same table (`EmployeeRouter.StaffEmployee`); the two views are not joined.
- CompanyRouter.CompanyStore.DeleteCompany: the cascade to departments is modelled. The cascade to employees, and through them to payslips, is not, because the company store holds no employee table.
- `get_companies` is a plain offset/limit page and is not modelled. `GetDepartments` shows the same paging.
- CompanyRouter.CompanyStore.GetDepartments: `skip` and `limit` are `nat`, while backend/routers/company.py:172-173 accepts any integer; what the database does with a negative offset or limit is not modelled.
- Character classes: `IsDigitChar`, `IsAlphaChar`, `Upper` and `Lower` know ASCII only, and `Strip` the ASCII and Latin-1 spaces, while Python's `isdigit`, `isalpha`, `upper`, `lower` and `strip` follow Unicode. So `validate_tax_code` accepts Arabic-Indic digits before L and the model does not; an NI number with a non-ASCII letter such as "ÉB123456C" passes backend/services/calc.py:421 and backend/mocks/hmrc.py:175 but not the model; and `safe_get` at backend/routers/employee.py:109 also strips U+3000 and the other Unicode spaces the model keeps.
- PayrollRouter.BatchPay: the batch's `employee.salary / 12` at backend/routers/payroll.py:140 is a float division whose result is turned into a Decimal through `str()`; the model divides the salary exactly, so the last binary digits of the float quotient are not modelled.
- CompanyRouter: `updated_at` timestamps are not modelled.
- The employee-record endpoints leave out:
  - the exception text in 500 details;
  - failures to decode the upload;
  - the debug prints;
  - `updated_at` and the clock.
- EmployeeRouter.UpsertRows: a row's line number is taken as its index + 2. `csv_reader.line_num` differs only for rows spanning several lines, which are not modelled.
- EmployeeRouter.EmployeeDatabase.UpdateEmployeeRecord returns the patched record rather than the seven fields the response lists. Patching `id`, `created_at`, `updated_at` or the relationship attributes, and non-string JSON values, is not modelled.
- EmployeeRouter.EmployeeDatabase.ListEmployeeRecords: `skip` and `limit` are natural numbers; a negative offset is not modelled.
- EmployeeRouter.ConvertRefreshesMatched assumes distinct employee numbers, which is the table's unique constraint.
- Float parsing is a parameter (`parseFloat`). Python's `float` also accepts "nan" and "inf", which then reach the salary column; that is not modelled.
- `create_employee_record`, `get_employee_record`, `delete_employee_record` and `get_comprehensive_employee_record` are plain CRUD outside the modelled rules, so they are not modelled.
- `classify_employee_data`, `generate_employee_insights` (which reads the clock) and `process_document_upload` are not modelled.
- OCR and PDF text extraction with pytesseract and PyMuPDF, and `validate_document_format`, are file I/O and are not modelled. The mock extractors are modelled.

## Findings

| source | as written | input that shows it | evidently intended | confidence | as-written member | corrected member |
|---|---|---|---|---|---|---|
| backend/routers/payroll.py:53-61 | the calculation's result, including `employer_ni`, `employer_pension` and `total_employer_cost`, is merged into the dictionary passed to `Payslip(**...)`, which raises on a keyword that is not a column | any active employee with finite pay: `calculate_payslip` answers 500 and the batch stores no payslip | store the payslip columns only | not executed | PayrollRouter.CalculatePayslipAsWrittenNeverStores | PayrollRouter.PayrollStore.CalculatePayslip |
| backend/routers/company.py:226-241 | the code conflict is looked up in the department's current company, and only when the code changes, but the payload's `company_id` is then written too | departments 1 (code PAY, company 1) and 2 (code PAY, company 2); move department 1 to company 2 with code PAY | look up the conflict in the company the department ends up in | not executed | CompanyRouter.UpdateDepartmentAsWrittenDuplicatesCode | CompanyRouter.CompanyStore.UpdateDepartment |
| backend/routers/employee.py:520-524 | the 400 for an empty record table is raised inside a `try` whose generic `except Exception` turns it into a 500 | an empty `employee_records` table | answer 400 "No employee records found to convert", as the other endpoints do by re-raising `HTTPException` | not executed | EmployeeRouter.EmployeeDatabase.CreateEmployeesFromRecordsAsWritten | EmployeeRouter.EmployeeDatabase.CreateEmployeesFromRecords |
