// The document classifier: keyword scoring of the OCR text against the
// document-type table, the verification decision against the expected type,
// and the mock OCR and PDF extractors used when no OCR engine is installed.

module DocAi {
  import opened Strings
  import opened Keywords

  /** The document-type table, in its declaration order. */
  const DocumentClassifications: seq<Category> := [
    Category("p45", ["P45", "tax", "leaving", "employment", "hmrc"], 0.95),
    Category("p60", ["P60", "tax", "year", "hmrc", "certificate"], 0.95),
    Category("passport", ["passport", "uk", "government", "identity", "travel"], 0.90),
    Category("driving_license", ["driving", "license", "dvla", "vehicle", "motor"], 0.85),
    Category("birth_certificate", ["birth", "certificate", "registered", "born", "date"], 0.80),
    Category("bank_statement", ["bank", "statement", "account", "balance", "transaction"], 0.75),
    Category("utility_bill", ["utility", "bill", "electricity", "gas", "water", "address"], 0.70)
  ]

  /** The confidence a classification must exceed to verify a document. */
  const VerificationThreshold: real := 0.7

  /** The answer of `classify_document`. */
  datatype DocumentResult = DocumentResult(
    classification: string,
    confidence: real,
    isVerified: bool,
    expectedType: string,
    textLength: nat)

  /** The expected type as the classifier names types:
      `expected_type.lower().replace(' ', '_')`. */
  function NormalisedType(expectedType: string): string
  {
    ReplaceAll(Lower(expectedType), " ", "_")
  }

  /** The classification of an OCR text against the expected type. */
  function Classification(ocrText: string, expectedType: string): (r: DocumentResult)
    ensures r.isVerified ==> r.classification == NormalisedType(expectedType) && r.confidence > VerificationThreshold
    ensures r.classification == "unknown" ==> !r.isVerified
    ensures r.expectedType == expectedType && r.textLength == |ocrText|
  {
    var b := BestAmong(DocumentClassifications, Lower(ocrText));
    var name := if b.best.Some? then DocumentClassifications[b.best.value].name else "unknown";
    DocumentResult(name, b.confidence,
      b.best.Some? && name == NormalisedType(expectedType) && b.confidence > VerificationThreshold,
      expectedType, |ocrText|)
  }

  /** `classify_document`: the scan over the document-type table, then the
      verification decision. */
  method ClassifyDocument(ocrText: string, expectedType: string) returns (r: DocumentResult)
    ensures r == Classification(ocrText, expectedType)
  {
    var textLower := Lower(ocrText);
    var best, confidence := SelectBest(DocumentClassifications, textLower);
    var isVerified := best.Some? && DocumentClassifications[best.value].name == NormalisedType(expectedType)
      && confidence > VerificationThreshold;
    var name := if best.Some? then DocumentClassifications[best.value].name else "unknown";
    r := DocumentResult(name, confidence, isVerified, expectedType, |ocrText|);
  }

  lemma DocumentBasesPositive()
    ensures forall k :: 0 <= k < |DocumentClassifications| ==> DocumentClassifications[k].baseConfidence > 0.0
  {
  }

  /** A document is unknown, with confidence 0, exactly when no keyword of
      any type occurs in its text; otherwise it is classified as the first
      type with the highest score, at most that type's base confidence. A
      document is verified exactly when that type is the expected one and
      the confidence exceeds 0.7. The result echoes the expected type and
      reports the text's length. */
  lemma ClassificationMeaning(ocrText: string, expectedType: string)
    ensures var r := Classification(ocrText, expectedType);
      var lower := Lower(ocrText);
      (r.classification == "unknown" <==>
        forall k :: 0 <= k < |DocumentClassifications| ==> MatchCount(DocumentClassifications[k].keywords, lower) == 0)
      && (r.classification == "unknown" ==> r.confidence == 0.0)
      && (r.classification != "unknown" ==> exists i :: (0 <= i < |DocumentClassifications|
            && r.classification == DocumentClassifications[i].name
            && 0.0 < r.confidence == Score(DocumentClassifications[i], lower)
            && r.confidence <= DocumentClassifications[i].baseConfidence
            && (forall k :: 0 <= k < |DocumentClassifications| ==> Score(DocumentClassifications[k], lower) <= r.confidence)
            && (forall k :: 0 <= k < i ==> Score(DocumentClassifications[k], lower) < r.confidence)))
      && (r.isVerified <==> r.classification == NormalisedType(expectedType) && r.confidence > VerificationThreshold)
      && r.expectedType == expectedType && r.textLength == |ocrText|
  {
    var lower := Lower(ocrText);
    DocumentBasesPositive();
    BestIsFirstMaximum(DocumentClassifications, lower);
    var b := BestAmong(DocumentClassifications, lower);
    if b.best.Some? {
      var i := b.best.value;
      assert DocumentClassifications[i].name != "unknown";
      assert MatchCount(DocumentClassifications[i].keywords, lower) > 0;
    }
  }

  /** A utility bill is never verified: its base confidence 0.70 caps its
      score at the verification threshold, which must be exceeded. */
  lemma UtilityBillNeverVerified(ocrText: string, expectedType: string)
    ensures Classification(ocrText, expectedType).classification == "utility_bill" ==>
      !Classification(ocrText, expectedType).isVerified
  {
    var lower := Lower(ocrText);
    DocumentBasesPositive();
    BestIsFirstMaximum(DocumentClassifications, lower);
    var b := BestAmong(DocumentClassifications, lower);
    if b.best.Some? && DocumentClassifications[b.best.value].name == "utility_bill" {
      var i := b.best.value;
      assert i == 6;
      assert MatchCount(DocumentClassifications[6].keywords, lower) > 0;
    }
  }

  // ------------------------------------------------------ mock extraction

  /** `os.path.basename`: the longest suffix of the path without a '/'. */
  function Basename(path: string): (r: string)
    ensures |r| <= |path| && r == path[|path| - |r|..]
    ensures forall i :: 0 <= i < |r| ==> r[i] != '/'
    ensures |r| < |path| ==> path[|path| - |r| - 1] == '/'
  {
    if |path| == 0 || path[|path| - 1] == '/' then ""
    else Basename(path[..|path| - 1]) + [path[|path| - 1]]
  }

  /** The line break and indentation before each line of a canned text. */
  const LineBreak := "\n        "

  /** A canned text: each line after a line break and indentation, and a
      last line break and indentation (the layout of the triple-quoted
      strings the extractors return). */
  function CannedText(lines: seq<string>): string
  {
    if |lines| == 0 then LineBreak else LineBreak + lines[0] + CannedText(lines[1..])
  }

  // The first three lines are written split where the P45 keywords sit, so
  // that the lemmas below can find them; the values are the plain lines.
  const P45Lines: seq<string> := [
    "P45" + " - " + "Tax" + " and National Insurance Certificate",
    "Employee " + "leaving" + " " + "employment",
    "HMRC" + " reference: 123456789",
    "Tax code: BR",
    "National Insurance: AB123456C"]
  const P45Text := CannedText(P45Lines)

  const P60Lines: seq<string> := [
    "P60 - End of Year Certificate",
    "Tax year: 2023/24",
    "HMRC reference: 987654321",
    "Total pay: \U{00A3}45,000",
    "Tax deducted: \U{00A3}8,500"]
  const P60Text := CannedText(P60Lines)

  const PassportLines: seq<string> := [
    "UK Passport",
    "Passport number: 123456789",
    "Surname: SMITH",
    "Given names: JOHN",
    "Date of birth: 15 JAN 1985",
    "Place of birth: LONDON"]
  const PassportText := CannedText(PassportLines)

  // Split where the bank-statement keywords sit, as the P45 lines are.
  const BankStatementLines: seq<string> := [
    "Bank" + " " + "Statement",
    "Account" + ": 12345678",
    "Sort Code: 12-34-56",
    "Balance" + ": \U{00A3}2,500.00",
    "Date: 31/12/2023"]
  const BankStatementText := CannedText(BankStatementLines)

  const UtilityBillLines: seq<string> := [
    "Utility Bill",
    "Account: UTIL123456",
    "Address: 123 Main Street, London",
    "Amount: \U{00A3}85.50",
    "Due Date: 15/01/2024"]
  const UtilityBillText := CannedText(UtilityBillLines)

  /** `mock_ocr_extraction`: canned text chosen by the lower-cased file
      name, checked for 'p45', then 'p60', then 'passport'. */
  function MockOcrExtraction(imagePath: string): (r: string)
    ensures r == P45Text || r == P60Text || r == PassportText
      || r == "Mock OCR text extracted from " + Lower(Basename(imagePath))
  {
    var filename := Lower(Basename(imagePath));
    if Contains(filename, "p45") then P45Text
    else if Contains(filename, "p60") then P60Text
    else if Contains(filename, "passport") then PassportText
    else "Mock OCR text extracted from " + filename
  }

  /** `mock_pdf_extraction`: canned text chosen by the lower-cased file
      name, checked for 'bank', then 'utility'. */
  function MockPdfExtraction(pdfPath: string): (r: string)
    ensures r == BankStatementText || r == UtilityBillText
      || r == "Mock PDF text extracted from " + Lower(Basename(pdfPath))
  {
    var filename := Lower(Basename(pdfPath));
    if Contains(filename, "bank") then BankStatementText
    else if Contains(filename, "utility") then UtilityBillText
    else "Mock PDF text extracted from " + filename
  }

  /** A file whose name matches no document type gets a text naming the
      file, without its directories and lower-cased. */
  lemma MockTextNamesUnknownFile(path: string)
    ensures var filename := Lower(Basename(path));
      (!Contains(filename, "p45") && !Contains(filename, "p60") && !Contains(filename, "passport") ==>
        Contains(MockOcrExtraction(path), filename))
      && (!Contains(filename, "bank") && !Contains(filename, "utility") ==>
        Contains(MockPdfExtraction(path), filename))
  {
    var filename := Lower(Basename(path));
    ContainsAtEnd("Mock OCR text extracted from ", filename);
    ContainsAtEnd("Mock PDF text extracted from ", filename);
  }

  /** A line holding `word` at offset `k` holds its lower-case form once lower-cased. */
  lemma LowerHolds(line: string, word: string, k: nat)
    requires k + |word| <= |line| && line[k..k + |word|] == word
    ensures Contains(Lower(line), Lower(word))
  {
    assert Lower(line)[k..k + |word|] == Lower(word);
    assert OccursAt(Lower(line), Lower(word), k);
    ContainsIffOccurs(Lower(line), Lower(word));
  }

  /** What a line of a canned text holds, lower-cased, the whole text holds
      lower-cased. */
  lemma {:induction false} CannedTextContains(lines: seq<string>, i: nat, w: string)
    requires i < |lines| && Contains(Lower(lines[i]), w)
    ensures Contains(Lower(CannedText(lines)), w)
  {
    var rest := CannedText(lines[1..]);
    LowerConcat(LineBreak + lines[0], rest);
    LowerConcat(LineBreak, lines[0]);
    if i == 0 {
      ContainsInConcat(Lower(LineBreak), Lower(lines[0]), Lower(rest), w);
    } else {
      CannedTextContains(lines[1..], i - 1, w);
      ContainsInSuffix(Lower(LineBreak) + Lower(lines[0]), Lower(rest), w);
    }
  }

  // The keywords of the P45 type, one lemma per keyword, each at its
  // offset on a line of the mock P45 text.

  /** A word holds, lower-cased, any key with the same lower-case form. */
  lemma LowerWordHoldsKey(word: string, key: string)
    requires Lower(word) == Lower(key)
    ensures Contains(Lower(word), Lower(key))
  {
    LowerHolds(word, word, 0);
  }

  /** What one part holds lower-cased, the concatenation holds lower-cased. */
  lemma LowerHoldsLeft(x: string, y: string, key: string)
    requires Contains(Lower(x), key)
    ensures Contains(Lower(x + y), key)
  {
    LowerConcat(x, y);
    ContainsExtended(Lower(x), Lower(y), key);
  }

  lemma LowerHoldsRight(x: string, y: string, key: string)
    requires Contains(Lower(y), key)
    ensures Contains(Lower(x + y), key)
  {
    LowerConcat(x, y);
    ContainsInSuffix(Lower(x), Lower(y), key);
  }

  lemma SameLowerTax()
    ensures Lower("Tax") == Lower("tax")
  {
    assert Lower("Tax")[0] == 't' && Lower("Tax")[1] == 'a' && Lower("Tax")[2] == 'x';
  }

  lemma SameLowerHmrc()
    ensures Lower("HMRC") == Lower("hmrc")
  {
    assert Lower("HMRC")[0] == 'h' && Lower("HMRC")[1] == 'm' && Lower("HMRC")[2] == 'r' && Lower("HMRC")[3] == 'c';
  }

  lemma P45LineHoldsP45()
    ensures Contains(Lower(P45Lines[0]), Lower("P45"))
  {
    LowerWordHoldsKey("P45", "P45");
    LowerHoldsLeft("P45", " - ", Lower("P45"));
    LowerHoldsLeft("P45" + " - ", "Tax", Lower("P45"));
    LowerHoldsLeft("P45" + " - " + "Tax", " and National Insurance Certificate", Lower("P45"));
  }

  lemma P45LineHoldsTax()
    ensures Contains(Lower(P45Lines[0]), Lower("tax"))
  {
    SameLowerTax();
    LowerWordHoldsKey("Tax", "tax");
    LowerHoldsRight("P45" + " - ", "Tax", Lower("tax"));
    LowerHoldsLeft("P45" + " - " + "Tax", " and National Insurance Certificate", Lower("tax"));
  }

  lemma P45LineHoldsHmrc()
    ensures Contains(Lower(P45Lines[2]), Lower("hmrc"))
  {
    SameLowerHmrc();
    LowerWordHoldsKey("HMRC", "hmrc");
    LowerHoldsLeft("HMRC", " reference: 123456789", Lower("hmrc"));
  }

  lemma P45LineHoldsLeaving()
    ensures Contains(Lower(P45Lines[1]), Lower("leaving"))
  {
    LowerWordHoldsKey("leaving", "leaving");
    LowerHoldsRight("Employee ", "leaving", Lower("leaving"));
    LowerHoldsLeft("Employee " + "leaving", " ", Lower("leaving"));
    LowerHoldsLeft("Employee " + "leaving" + " ", "employment", Lower("leaving"));
  }

  lemma P45LineHoldsEmployment()
    ensures Contains(Lower(P45Lines[1]), Lower("employment"))
  {
    LowerWordHoldsKey("employment", "employment");
    LowerHoldsRight("Employee " + "leaving" + " ", "employment", Lower("employment"));
  }

  /** Every keyword of the P45 type occurs in the mock P45 text. */
  lemma P45TextHasAllKeywords()
    ensures MatchCount(DocumentClassifications[0].keywords, Lower(P45Text)) == 5
  {
    P45LineHoldsP45();
    P45LineHoldsTax();
    P45LineHoldsLeaving();
    P45LineHoldsEmployment();
    P45LineHoldsHmrc();
    CannedTextContains(P45Lines, 0, Lower("P45"));
    CannedTextContains(P45Lines, 0, Lower("tax"));
    CannedTextContains(P45Lines, 1, Lower("leaving"));
    CannedTextContains(P45Lines, 1, Lower("employment"));
    CannedTextContains(P45Lines, 2, Lower("hmrc"));
    var keywords := DocumentClassifications[0].keywords;
    assert keywords == ["P45", "tax", "leaving", "employment", "hmrc"];
    MatchCountAll(keywords, Lower(P45Text));
  }

  /** The mock P45 text is classified as a P45 with confidence 0.95: all
      its keywords occur, and no type can score more than 0.95. */
  lemma P45TextClassified()
    ensures BestAmong(DocumentClassifications, Lower(P45Text)) == Choice(Some(0), 0.95)
  {
    var lower := Lower(P45Text);
    P45TextHasAllKeywords();
    assert Score(DocumentClassifications[0], lower) == 0.95;
    DocumentBasesPositive();
    BestIsFirstMaximum(DocumentClassifications, lower);
    var b := BestAmong(DocumentClassifications, lower);
    var i := b.best.value;
    assert Score(DocumentClassifications[i], lower) <= DocumentClassifications[i].baseConfidence <= 0.95;
  }

  /** The expected type "P45" names the type `p45`. */
  lemma P45TypeName()
    ensures NormalisedType("P45") == "p45"
  {
    assert Lower("P45")[0] == 'p' && Lower("P45")[1] == '4' && Lower("P45")[2] == '5';
    assert Lower("P45") == "p45";
    assert !Contains("p45", " ");
  }

  /** A scanned file whose name mentions p45 is classified as a P45 with
      confidence 0.95 and verified when a P45 is expected. */
  lemma MockP45Verified(path: string)
    requires Contains(Lower(Basename(path)), "p45")
    ensures var r := Classification(MockOcrExtraction(path), "P45");
      r.classification == "p45" && r.confidence == 0.95 && r.isVerified
  {
    assert MockOcrExtraction(path) == P45Text;
    P45TextClassified();
    P45TypeName();
  }

  // The keywords of the bank-statement type, and the two letters 'p' and
  // 'i' that never appear in the mock bank statement: every other type has
  // at least two keywords holding one of them.

  lemma SameLowerBankWords()
    ensures Lower("Bank") == Lower("bank") && Lower("Statement") == Lower("statement")
    ensures Lower("Account") == Lower("account") && Lower("Balance") == Lower("balance")
  {
    assert Lower("Bank")[0] == 'b';
    assert Lower("Statement")[0] == 's';
    assert Lower("Account")[0] == 'a';
    assert Lower("Balance")[0] == 'b';
  }

  /** Four of the five bank-statement keywords occur in the mock bank statement. */
  lemma BankStatementTextHasKeywords()
    ensures forall i :: 0 <= i < 4 ==>
      Contains(Lower(BankStatementText), Lower(DocumentClassifications[5].keywords[i]))
  {
    SameLowerBankWords();
    LowerWordHoldsKey("Bank", "bank");
    LowerHoldsLeft("Bank", " ", Lower("bank"));
    LowerHoldsLeft("Bank" + " ", "Statement", Lower("bank"));
    LowerWordHoldsKey("Statement", "statement");
    LowerHoldsRight("Bank" + " ", "Statement", Lower("statement"));
    LowerWordHoldsKey("Account", "account");
    LowerHoldsLeft("Account", ": 12345678", Lower("account"));
    LowerWordHoldsKey("Balance", "balance");
    LowerHoldsLeft("Balance", ": \U{00A3}2,500.00", Lower("balance"));
    CannedTextContains(BankStatementLines, 0, Lower("bank"));
    CannedTextContains(BankStatementLines, 0, Lower("statement"));
    CannedTextContains(BankStatementLines, 1, Lower("account"));
    CannedTextContains(BankStatementLines, 3, Lower("balance"));
    assert DocumentClassifications[5].keywords[..4] == ["bank", "statement", "account", "balance"];
  }

  /** `c` appears nowhere in `s`. */
  predicate Shuns(s: string, c: char)
  {
    forall i :: 0 <= i < |s| ==> s[i] != c
  }

  /** A canned text shuns, lower-cased, what its lines and line breaks shun. */
  lemma {:induction false} CannedTextShuns(lines: seq<string>, c: char)
    requires Shuns(Lower(LineBreak), c)
    requires forall k :: 0 <= k < |lines| ==> Shuns(Lower(lines[k]), c)
    ensures Shuns(Lower(CannedText(lines)), c)
  {
    if |lines| > 0 {
      var rest := CannedText(lines[1..]);
      CannedTextShuns(lines[1..], c);
      LowerConcat(LineBreak + lines[0], rest);
      LowerConcat(LineBreak, lines[0]);
      assert Shuns(Lower(lines[0]), c);
    }
  }

  /** A string without a letter in either case shuns it once lower-cased. */
  lemma LowerShuns(s: string, c: char)
    requires IsLowerChar(c)
    requires forall i :: 0 <= i < |s| ==> s[i] != c && s[i] as int != c as int - 32
    ensures Shuns(Lower(s), c)
  {
  }

  /** A line without 'p' and 'i', in either case, shuns both once lower-cased. */
  lemma LineShunsPI(line: string)
    requires forall i :: 0 <= i < |line| ==> line[i] !in {'p', 'P', 'i', 'I'}
    ensures Shuns(Lower(line), 'p') && Shuns(Lower(line), 'i')
  {
    LowerShuns(line, 'p');
    LowerShuns(line, 'i');
  }

  /** The mock bank statement holds no 'p' and no 'i', in either case. */
  lemma BankStatementShunsPI()
    ensures Shuns(Lower(BankStatementText), 'p') && Shuns(Lower(BankStatementText), 'i')
  {
    LineShunsPI(LineBreak);
    LineShunsPI(BankStatementLines[0]);
    LineShunsPI(BankStatementLines[1]);
    LineShunsPI(BankStatementLines[2]);
    LineShunsPI(BankStatementLines[3]);
    LineShunsPI(BankStatementLines[4]);
    CannedTextShuns(BankStatementLines, 'p');
    CannedTextShuns(BankStatementLines, 'i');
  }

  /** A category of five or six keywords, two of which each hold, lower-cased,
      a letter the text shuns, scores below 0.75 on the text. */
  lemma ScoreBelowWithTwoShunned(c: Category, text: string, i: nat, ki: nat, j: nat, kj: nat)
    requires |c.keywords| == 5 || |c.keywords| == 6
    requires i != j && i < |c.keywords| && j < |c.keywords|
    requires ki < |c.keywords[i]| && Shuns(text, Lower(c.keywords[i])[ki])
    requires kj < |c.keywords[j]| && Shuns(text, Lower(c.keywords[j])[kj])
    ensures Score(c, text) < 0.75
  {
    MissingCharNotContained(text, Lower(c.keywords[i]), ki);
    MissingCharNotContained(text, Lower(c.keywords[j]), kj);
    MatchCountWithout(c.keywords, text, {i, j});
  }

  /** On a text holding no 'p' and no 'i', every type but the bank statement
      scores below 0.75: each has two keywords holding one of those letters. */
  lemma ScoreLowWithoutPI(text: string, k: nat)
    requires Shuns(text, 'p') && Shuns(text, 'i')
    requires k < |DocumentClassifications| && k != 5
    ensures Score(DocumentClassifications[k], text) < 0.75
  {
    var c := DocumentClassifications[k];
    if k == 0 {
      assert Lower(c.keywords[0])[0] == 'p' && Lower(c.keywords[2])[4] == 'i';
      ScoreBelowWithTwoShunned(c, text, 0, 0, 2, 4);
    } else if k == 1 {
      assert Lower(c.keywords[0])[0] == 'p' && Lower(c.keywords[4])[6] == 'i';
      ScoreBelowWithTwoShunned(c, text, 0, 0, 4, 6);
    } else if k == 2 {
      assert Lower(c.keywords[0])[0] == 'p' && Lower(c.keywords[3])[0] == 'i';
      ScoreBelowWithTwoShunned(c, text, 0, 0, 3, 0);
    } else if k == 3 {
      assert Lower(c.keywords[0])[2] == 'i' && Lower(c.keywords[1])[1] == 'i';
      ScoreBelowWithTwoShunned(c, text, 0, 2, 1, 1);
    } else if k == 4 {
      assert Lower(c.keywords[0])[1] == 'i' && Lower(c.keywords[1])[6] == 'i';
      ScoreBelowWithTwoShunned(c, text, 0, 1, 1, 6);
    } else {
      assert Lower(c.keywords[0])[2] == 'i' && Lower(c.keywords[1])[1] == 'i';
      ScoreBelowWithTwoShunned(c, text, 0, 2, 1, 1);
    }
  }

  /** Every type but the bank statement scores below 0.75 on the mock bank
      statement. */
  lemma BankStatementOthersScoreLow()
    ensures forall k :: 0 <= k < |DocumentClassifications| && k != 5 ==>
      Score(DocumentClassifications[k], Lower(BankStatementText)) < 0.75
  {
    BankStatementShunsPI();
    forall k | 0 <= k < |DocumentClassifications| && k != 5
      ensures Score(DocumentClassifications[k], Lower(BankStatementText)) < 0.75
    {
      ScoreLowWithoutPI(Lower(BankStatementText), k);
    }
  }

  /** The bank statement scores its base confidence 0.75 on the mock bank
      statement, four of its five keywords occurring. */
  lemma BankStatementScoresBase()
    ensures Score(DocumentClassifications[5], Lower(BankStatementText)) == 0.75
  {
    BankStatementTextHasKeywords();
    MatchCountWith(DocumentClassifications[5].keywords, Lower(BankStatementText), {0, 1, 2, 3});
  }

  /** The mock bank statement is classified as a bank statement with
      confidence 0.75: its score is the highest, and no other type reaches it. */
  lemma BankStatementTextClassified()
    ensures BestAmong(DocumentClassifications, Lower(BankStatementText)) == Choice(Some(5), 0.75)
  {
    var lower := Lower(BankStatementText);
    BankStatementOthersScoreLow();
    BankStatementScoresBase();
    DocumentBasesPositive();
    BestIsFirstMaximum(DocumentClassifications, lower);
  }

  /** The expected type "bank_statement" names the type `bank_statement`. */
  lemma BankStatementTypeName()
    ensures NormalisedType("bank_statement") == "bank_statement"
  {
    LowerOfLowerCase("bank_statement");
    MissingCharNotContained("bank_statement", " ", 0);
  }

  /** A PDF whose name mentions bank gets the mock bank statement, which is
      classified as a bank statement with confidence 0.75 and verified when
      a bank statement is expected. */
  lemma MockBankStatementClassified(path: string)
    requires Contains(Lower(Basename(path)), "bank")
    ensures MockPdfExtraction(path) == BankStatementText
    ensures var r := Classification(MockPdfExtraction(path), "bank_statement");
      r.classification == "bank_statement" && r.confidence == 0.75 && r.isVerified
  {
    BankStatementTextClassified();
    BankStatementTypeName();
  }
}
