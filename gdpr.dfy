/** GDPR masking and redaction over JSON-like values: masking a string,
  * deciding whether a value already looks masked, redacting nested data
  * before it reaches an AI service or leaves in an HTTP response, and
  * auditing data for sensitive fields left unmasked.
  */
module Gdpr {
  import opened Strings

  /** A decoded JSON value. `Str` is a string; `Scalar` is any other scalar
    * (number, boolean, null) carrying the text Python's `str()` gives it.
    * An object keeps its fields in insertion order. */
  datatype Json = Str(text: string) | Scalar(repr: string) | Object(fields: seq<Field>) | Array(items: seq<Json>)

  datatype Field = Field(key: string, value: Json)

  predicate IsContainer(v: Json) { v.Object? || v.Array? }

  /** `str(v)` of a scalar. */
  function ScalarText(v: Json): string
    requires !IsContainer(v)
  {
    if v.Str? then v.text else v.repr
  }

  // ----------------------------------------------------------------- masking

  /** Keeps the first two and last two characters (one and one for a
    * three- or four-character value) and stars out the rest; anything
    * shorter than three characters becomes "***". */
  function Mask(d: string): (r: string)
    ensures |d| < 3 ==> r == "***"
    ensures |d| >= 3 ==> |r| == |d|
    ensures 3 <= |d| <= 4 ==> (r[0] == d[0] && r[|r| - 1] == d[|d| - 1]
      && forall i :: 1 <= i < |r| - 1 ==> r[i] == '*')
    ensures |d| >= 5 ==> (r[..2] == d[..2] && r[|r| - 2..] == d[|d| - 2..]
      && forall i :: 2 <= i < |r| - 2 ==> r[i] == '*')
    ensures ContainsChar(r, '*')
  {
    if |d| < 3 then
      var r := "***";
      assert r[0] == '*';
      r
    else if |d| <= 4 then
      var r := [d[0]] + Repeat('*', |d| - 2) + [d[|d| - 1]];
      assert r[1] == '*';
      r
    else
      var r := d[..2] + Repeat('*', |d| - 4) + d[|d| - 2..];
      assert r[2] == '*';
      r
  }

  const Placeholders: seq<string> := ["***", "N/A", "Not provided"]

  /** Empty, starred, at most two characters, or a placeholder. */
  predicate IsProperlyMasked(d: string): (ok: bool)
    ensures d in Placeholders ==> ok
    ensures !ok ==> |d| >= 3 && forall i :: 0 <= i < |d| ==> d[i] != '*'
  {
    |d| == 0 || ContainsChar(d, '*') || |d| <= 2 || d in Placeholders
  }

  /** Whatever is masked is recognised as masked. */
  lemma MaskIsProperlyMasked(d: string)
    ensures IsProperlyMasked(Mask(d))
  {
  }

  /** Masking an already masked value changes nothing. */
  lemma MaskIdempotent(d: string)
    ensures Mask(Mask(d)) == Mask(d)
  {
    var m := Mask(d);
    if |d| < 3 {
      assert m == "***";
      assert Mask(m) == [m[0]] + Repeat('*', 1) + [m[2]];
    } else if |d| <= 4 {
      assert Mask(m) == [m[0]] + Repeat('*', |m| - 2) + [m[|m| - 1]];
    } else {
      assert Mask(m) == m[..2] + Repeat('*', |m| - 4) + m[|m| - 2..];
    }
  }

  // ------------------------------------------------------------ field names

  /** Field-name fragments that mark a value as personal data. */
  const SensitiveKeys: seq<string> :=
    ["ni_number", "national_insurance", "passport", "driving_license", "bank_account", "sort_code",
     "phone", "email", "postcode", "date_of_birth", "dob", "salary"]

  /** The list used before data is sent to an AI service adds addresses. */
  const AiSensitiveKeys: seq<string> := SensitiveKeys + ["address"]

  /** The lower-cased key contains one of the fragments. */
  predicate IsSensitiveKey(key: string, fragments: seq<string>)
  {
    exists i :: 0 <= i < |fragments| && Contains(Lower(key), fragments[i])
  }

  /** Every key the audit flags is also redacted before AI processing. */
  lemma SensitiveKeysRedactedForAi(key: string)
    requires IsSensitiveKey(key, SensitiveKeys)
    ensures IsSensitiveKey(key, AiSensitiveKeys)
  {
    var i :| 0 <= i < |SensitiveKeys| && Contains(Lower(key), SensitiveKeys[i]);
    assert AiSensitiveKeys[i] == SensitiveKeys[i];
  }

  /** The shape of a value: keys, nesting and list lengths, with every scalar blanked. */
  function Skeleton(v: Json): Json
  {
    match v
    case Object(fs) => Object(seq(|fs|, i requires 0 <= i < |fs| => Field(fs[i].key, Skeleton(fs[i].value))))
    case Array(xs) => Array(seq(|xs|, i requires 0 <= i < |xs| => Skeleton(xs[i])))
    case _ => Scalar("")
  }

  // ------------------------------------------------- redaction for AI input

  /** A copy of `v` with every scalar under a sensitive key (addresses
    * included) replaced by its masked text. */
  function RedactForAi(v: Json): (r: Json)
    ensures !IsContainer(v) ==> r == v
    ensures v.Object? <==> r.Object?
    ensures v.Array? <==> r.Array?
    decreases v, 1
  {
    match v
    case Object(fs) =>
      Object(seq(|fs|, i requires 0 <= i < |fs| => Field(fs[i].key, RedactValueForAi(fs[i].key, fs[i].value))))
    case Array(xs) => Array(seq(|xs|, i requires 0 <= i < |xs| => RedactForAi(xs[i])))
    case _ => v
  }

  /** One field's value: containers are redacted recursively whatever their
    * key; a scalar is masked exactly when its key is sensitive. */
  function RedactValueForAi(key: string, value: Json): (r: Json)
    ensures IsContainer(value) <==> IsContainer(r)
    ensures !IsContainer(value) && IsSensitiveKey(key, AiSensitiveKeys) ==> r == Str(Mask(ScalarText(value)))
    ensures !IsContainer(value) && !IsSensitiveKey(key, AiSensitiveKeys) ==> r == value
    decreases value, 2
  {
    if IsContainer(value) then RedactForAi(value)
    else if IsSensitiveKey(key, AiSensitiveKeys) then Str(Mask(ScalarText(value)))
    else value
  }

  /** Redaction keeps every key, the nesting and every list's length. */
  lemma {:induction false} RedactForAiKeepsSkeleton(v: Json)
    ensures Skeleton(RedactForAi(v)) == Skeleton(v)
    decreases v
  {
    match v
    case Object(fs) =>
      var rs := RedactForAi(v).fields;
      forall i | 0 <= i < |fs|
        ensures Skeleton(rs[i].value) == Skeleton(fs[i].value)
      {
        assert rs[i] == Field(fs[i].key, RedactValueForAi(fs[i].key, fs[i].value));
        if IsContainer(fs[i].value) {
          assert rs[i].value == RedactForAi(fs[i].value);
          RedactForAiKeepsSkeleton(fs[i].value);
        }
      }
      assert Skeleton(RedactForAi(v)).fields == Skeleton(v).fields;
    case Array(xs) =>
      var rs := RedactForAi(v).items;
      forall i | 0 <= i < |xs|
        ensures Skeleton(rs[i]) == Skeleton(xs[i])
      {
        RedactForAiKeepsSkeleton(xs[i]);
      }
      assert Skeleton(RedactForAi(v)).items == Skeleton(v).items;
    case _ =>
  }

  /** Redacting twice gives the same data as redacting once. */
  lemma {:induction false} RedactForAiIdempotent(v: Json)
    ensures RedactForAi(RedactForAi(v)) == RedactForAi(v)
    decreases v
  {
    match v
    case Object(fs) =>
      var r := RedactForAi(v);
      forall i | 0 <= i < |fs|
        ensures RedactValueForAi(r.fields[i].key, r.fields[i].value) == r.fields[i].value
      {
        var value := fs[i].value;
        assert r.fields[i] == Field(fs[i].key, RedactValueForAi(fs[i].key, value));
        if IsContainer(value) {
          assert r.fields[i].value == RedactForAi(value);
          RedactForAiIdempotent(value);
          assert RedactValueForAi(r.fields[i].key, r.fields[i].value) == RedactForAi(RedactForAi(value));
        } else if IsSensitiveKey(fs[i].key, AiSensitiveKeys) {
          MaskIdempotent(ScalarText(value));
        }
      }
      assert RedactForAi(r).fields == r.fields;
    case Array(xs) =>
      var r := RedactForAi(v);
      forall i | 0 <= i < |xs|
        ensures RedactForAi(r.items[i]) == r.items[i]
      {
        RedactForAiIdempotent(xs[i]);
      }
      assert RedactForAi(r).items == r.items;
    case _ =>
  }

  // ------------------------------------------------ redaction of responses

  /** Name-based then pattern-based masking of one field's text. The value
    * patterns are regular expressions; `patternHit` stands for "some
    * pattern matches this text". */
  function RedactField(fieldName: string, value: string, patternHit: string -> bool): (r: string)
    ensures IsSensitiveKey(fieldName, SensitiveKeys) ==> r == Mask(value)
    ensures !IsSensitiveKey(fieldName, SensitiveKeys) && !patternHit(value) ==> r == value
    ensures r == value || IsProperlyMasked(r)
  {
    if IsSensitiveKey(fieldName, SensitiveKeys) then Mask(value)
    else if patternHit(value) then Mask(value)
    else value
  }

  /** The response body's redaction: every scalar object value becomes a
    * string passed through `RedactField`; scalars at top level or directly
    * inside lists are returned as they are. */
  function RedactSensitiveData(v: Json, patternHit: string -> bool): (r: Json)
    ensures !IsContainer(v) ==> r == v
    decreases v
  {
    match v
    case Object(fs) =>
      Object(seq(|fs|, i requires 0 <= i < |fs| =>
        Field(fs[i].key,
          if IsContainer(fs[i].value) then RedactSensitiveData(fs[i].value, patternHit)
          else Str(RedactField(fs[i].key, ScalarText(fs[i].value), patternHit)))))
    case Array(xs) => Array(seq(|xs|, i requires 0 <= i < |xs| => RedactSensitiveData(xs[i], patternHit)))
    case _ => v
  }

  /** Every value stored under a key is a string or a container. */
  predicate FieldScalarsAreStrings(v: Json)
  {
    match v
    case Object(fs) => forall i :: 0 <= i < |fs| ==>
      (fs[i].value.Str? || IsContainer(fs[i].value)) && FieldScalarsAreStrings(fs[i].value)
    case Array(xs) => forall i :: 0 <= i < |xs| ==> FieldScalarsAreStrings(xs[i])
    case _ => true
  }

  /** After response redaction no number, boolean or null is left under a key,
    * and the shape of the data is unchanged. */
  lemma {:induction false} RedactSensitiveDataStringifies(v: Json, patternHit: string -> bool)
    ensures FieldScalarsAreStrings(RedactSensitiveData(v, patternHit))
    ensures Skeleton(RedactSensitiveData(v, patternHit)) == Skeleton(v)
    decreases v
  {
    match v
    case Object(fs) =>
      var r := RedactSensitiveData(v, patternHit);
      forall i | 0 <= i < |fs|
        ensures FieldScalarsAreStrings(r.fields[i].value) && Skeleton(r.fields[i].value) == Skeleton(fs[i].value)
      {
        if IsContainer(fs[i].value) {
          RedactSensitiveDataStringifies(fs[i].value, patternHit);
        }
      }
      assert Skeleton(r).fields == Skeleton(v).fields;
    case Array(xs) =>
      var r := RedactSensitiveData(v, patternHit);
      forall i | 0 <= i < |xs|
        ensures FieldScalarsAreStrings(r.items[i]) && Skeleton(r.items[i]) == Skeleton(xs[i])
      {
        RedactSensitiveDataStringifies(xs[i], patternHit);
      }
      assert Skeleton(r).items == Skeleton(v).items;
    case _ =>
  }

  /** Response redaction field by field: a key keeps its place; a scalar
    * under it becomes the string `RedactField` makes of `str(value)`, so a
    * sensitive key is always masked; a scalar directly inside a list is
    * returned as it is. */
  lemma RedactSensitiveDataFields(v: Json, patternHit: string -> bool)
    ensures var r := RedactSensitiveData(v, patternHit);
      v.Object? ==> (r.Object? && |r.fields| == |v.fields|
        && forall i :: 0 <= i < |v.fields| ==>
          var f := v.fields[i];
          r.fields[i].key == f.key
          && (!IsContainer(f.value) ==> r.fields[i].value == Str(RedactField(f.key, ScalarText(f.value), patternHit)))
          && (!IsContainer(f.value) && IsSensitiveKey(f.key, SensitiveKeys) ==> r.fields[i].value == Str(Mask(ScalarText(f.value)))))
    ensures var r := RedactSensitiveData(v, patternHit);
      v.Array? ==> (r.Array? && |r.items| == |v.items|
        && forall i :: 0 <= i < |v.items| && !IsContainer(v.items[i]) ==> r.items[i] == v.items[i])
  {
  }

  // ------------------------------------------------------ compliance audit

  /** Some key, string or scalar text inside `v` contains a '*'. */
  predicate TextHasStar(v: Json)
  {
    match v
    case Str(s) => ContainsChar(s, '*')
    case Scalar(s) => ContainsChar(s, '*')
    case Object(fs) => exists i :: 0 <= i < |fs| && (ContainsChar(fs[i].key, '*') || TextHasStar(fs[i].value))
    case Array(xs) => exists i :: 0 <= i < |xs| && TextHasStar(xs[i])
  }

  /** `is_properly_masked(str(v))`. For a container, `str` gives its Python
    * repr: "{}" or "[]" when empty (short enough to pass), otherwise a text
    * longer than two characters that is no placeholder, so it passes exactly
    * when a '*' appears in it. */
  predicate StrIsMasked(v: Json)
  {
    match v
    case Object(fs) => |fs| == 0 || TextHasStar(v)
    case Array(xs) => |xs| == 0 || TextHasStar(v)
    case _ => IsProperlyMasked(ScalarText(v))
  }

  datatype Audit = Audit(found: seq<string>, violations: seq<string>)

  function Join(a: Audit, b: Audit): Audit
  {
    Audit(a.found + b.found, a.violations + b.violations)
  }

  function ViolationMessage(key: string): string
  {
    "Unmasked sensitive data in field: " + key
  }

  /** What checking one field records. */
  function CheckField(key: string, value: Json): (a: Audit)
    ensures IsSensitiveKey(key, SensitiveKeys) <==> a.found == [key]
    ensures !IsSensitiveKey(key, SensitiveKeys) ==> a.found == []
    ensures a.violations == if IsSensitiveKey(key, SensitiveKeys) && !StrIsMasked(value) then [ViolationMessage(key)] else []
  {
    if IsSensitiveKey(key, SensitiveKeys) then
      Audit([key], if StrIsMasked(value) then [] else [ViolationMessage(key)])
    else Audit([], [])
  }

  /** The audit of a value, in traversal order: each field is checked, then its value is traversed. */
  function AuditOf(v: Json): Audit
    decreases v
  {
    match v
    case Object(fs) => AuditFields(fs)
    case Array(xs) => AuditItems(xs)
    case _ => Audit([], [])
  }

  function AuditFields(fs: seq<Field>): Audit
    decreases fs
  {
    if |fs| == 0 then Audit([], [])
    else
      var last := fs[|fs| - 1];
      Join(AuditFields(fs[..|fs| - 1]), Join(CheckField(last.key, last.value), AuditOf(last.value)))
  }

  function AuditItems(xs: seq<Json>): Audit
    decreases xs
  {
    if |xs| == 0 then Audit([], []) else Join(AuditItems(xs[..|xs| - 1]), AuditOf(xs[|xs| - 1]))
  }

  datatype ComplianceReport = ComplianceReport(
    compliant: bool, violations: seq<string>, sensitiveFieldsFound: seq<string>, totalFieldsChecked: nat)

  /** Walks the data collecting sensitive field names and one violation per
    * sensitive field whose value does not look masked. */
  method ValidateGdprCompliance(data: Json) returns (report: ComplianceReport)
    ensures report.sensitiveFieldsFound == AuditOf(data).found
    ensures report.violations == AuditOf(data).violations
    ensures report.compliant <==> |report.violations| == 0
    ensures report.totalFieldsChecked == |report.sensitiveFieldsFound|
  {
    var audit := TraverseData(data, Audit([], []));
    report := ComplianceReport(|audit.violations| == 0, audit.violations, audit.found, |audit.found|);
  }

  /** Appends the audit of `v` to what has been collected so far. */
  method TraverseData(v: Json, collected: Audit) returns (result: Audit)
    ensures result == Join(collected, AuditOf(v))
    decreases v, 1
  {
    match v {
      case Object(fs) => result := TraverseFields(fs, collected);
      case Array(xs) => result := TraverseItems(xs, collected);
      case _ => result := collected;
    }
  }

  lemma AuditFieldsStep(fs: seq<Field>, i: nat)
    requires i < |fs|
    ensures AuditFields(fs[..i + 1])
      == Join(AuditFields(fs[..i]), Join(CheckField(fs[i].key, fs[i].value), AuditOf(fs[i].value)))
  {
    assert fs[..i + 1][..i] == fs[..i];
  }

  lemma JoinAssociative(a: Audit, b: Audit, c: Audit, d: Audit)
    ensures Join(Join(Join(a, b), c), d) == Join(a, Join(b, Join(c, d)))
  {
  }

  method TraverseFields(fs: seq<Field>, collected: Audit) returns (result: Audit)
    ensures result == Join(collected, AuditFields(fs))
    decreases fs
  {
    result := collected;
    var i := 0;
    while i < |fs|
      invariant 0 <= i <= |fs|
      invariant result == Join(collected, AuditFields(fs[..i]))
    {
      var field := fs[i];
      AuditFieldsStep(fs, i);
      ghost var before := result;
      result := Join(result, CheckField(field.key, field.value));
      result := TraverseData(field.value, result);
      JoinAssociative(collected, AuditFields(fs[..i]), CheckField(field.key, field.value), AuditOf(field.value));
      i := i + 1;
    }
    assert fs[..|fs|] == fs;
  }

  method TraverseItems(xs: seq<Json>, collected: Audit) returns (result: Audit)
    ensures result == Join(collected, AuditItems(xs))
    decreases xs
  {
    result := collected;
    var i := 0;
    while i < |xs|
      invariant 0 <= i <= |xs|
      invariant result == Join(collected, AuditItems(xs[..i]))
    {
      result := TraverseData(xs[i], result);
      assert xs[..i + 1][..i] == xs[..i];
      i := i + 1;
    }
    assert xs[..|xs|] == xs;
  }

  /** Every field flagged by the audit holds a scalar, at any depth. */
  predicate SensitiveValuesAreScalars(v: Json)
  {
    match v
    case Object(fs) => forall i :: 0 <= i < |fs| ==>
      (IsSensitiveKey(fs[i].key, SensitiveKeys) ==> !IsContainer(fs[i].value))
      && SensitiveValuesAreScalars(fs[i].value)
    case Array(xs) => forall i :: 0 <= i < |xs| ==> SensitiveValuesAreScalars(xs[i])
    case _ => true
  }

  /** Data redacted for AI processing passes the audit, provided no sensitive
    * key holds a nested object or list. */
  lemma {:induction false} RedactedForAiIsCompliant(v: Json)
    requires SensitiveValuesAreScalars(v)
    ensures AuditOf(RedactForAi(v)).violations == []
    decreases v
  {
    match v
    case Object(fs) =>
      var rs := RedactForAi(v).fields;
      RedactedFieldsCompliant(fs, rs, |fs|);
      assert rs[..|rs|] == rs;
    case Array(xs) =>
      var rs := RedactForAi(v).items;
      RedactedItemsCompliant(xs, rs, |xs|);
      assert rs[..|rs|] == rs;
    case _ =>
  }

  lemma {:induction false} RedactedFieldsCompliant(fs: seq<Field>, rs: seq<Field>, n: nat)
    requires n <= |fs| == |rs|
    requires forall i :: 0 <= i < |fs| ==> rs[i] == Field(fs[i].key, RedactValueForAi(fs[i].key, fs[i].value))
    requires forall i :: 0 <= i < |fs| ==>
      (IsSensitiveKey(fs[i].key, SensitiveKeys) ==> !IsContainer(fs[i].value)) && SensitiveValuesAreScalars(fs[i].value)
    ensures AuditFields(rs[..n]).violations == []
    decreases fs, n
  {
    if n > 0 {
      assert rs[..n][..n - 1] == rs[..n - 1];
      RedactedFieldsCompliant(fs, rs, n - 1);
      var f := fs[n - 1];
      if IsContainer(f.value) {
        RedactedForAiIsCompliant(f.value);
      } else if IsSensitiveKey(f.key, SensitiveKeys) {
        SensitiveKeysRedactedForAi(f.key);
        MaskIsProperlyMasked(ScalarText(f.value));
      }
    }
  }

  lemma {:induction false} RedactedItemsCompliant(xs: seq<Json>, rs: seq<Json>, n: nat)
    requires n <= |xs| == |rs|
    requires forall i :: 0 <= i < |xs| ==> rs[i] == RedactForAi(xs[i])
    requires forall i :: 0 <= i < |xs| ==> SensitiveValuesAreScalars(xs[i])
    ensures AuditItems(rs[..n]).violations == []
    decreases xs, n
  {
    if n > 0 {
      assert rs[..n][..n - 1] == rs[..n - 1];
      RedactedItemsCompliant(xs, rs, n - 1);
      RedactedForAiIsCompliant(xs[n - 1]);
    }
  }

  /** A response passes the audit once redacted, provided no sensitive key
    * holds a nested object or list: the audit flags exactly the keys the
    * redaction masks. */
  lemma {:induction false} RedactedResponseIsCompliant(v: Json, patternHit: string -> bool)
    requires SensitiveValuesAreScalars(v)
    ensures AuditOf(RedactSensitiveData(v, patternHit)).violations == []
    decreases v
  {
    match v
    case Object(fs) =>
      var rs := RedactSensitiveData(v, patternHit).fields;
      ResponseFieldsCompliant(fs, rs, |fs|, patternHit);
      assert rs[..|rs|] == rs;
    case Array(xs) =>
      var rs := RedactSensitiveData(v, patternHit).items;
      ResponseItemsCompliant(xs, rs, |xs|, patternHit);
      assert rs[..|rs|] == rs;
    case _ =>
  }

  lemma {:induction false} ResponseFieldsCompliant(fs: seq<Field>, rs: seq<Field>, n: nat, patternHit: string -> bool)
    requires n <= |fs| == |rs|
    requires forall i :: 0 <= i < |fs| ==> rs[i] == Field(fs[i].key,
      if IsContainer(fs[i].value) then RedactSensitiveData(fs[i].value, patternHit)
      else Str(RedactField(fs[i].key, ScalarText(fs[i].value), patternHit)))
    requires forall i :: 0 <= i < |fs| ==>
      (IsSensitiveKey(fs[i].key, SensitiveKeys) ==> !IsContainer(fs[i].value)) && SensitiveValuesAreScalars(fs[i].value)
    ensures AuditFields(rs[..n]).violations == []
    decreases fs, n
  {
    if n > 0 {
      assert rs[..n][..n - 1] == rs[..n - 1];
      ResponseFieldsCompliant(fs, rs, n - 1, patternHit);
      var f := fs[n - 1];
      if IsContainer(f.value) {
        RedactedResponseIsCompliant(f.value, patternHit);
      } else if IsSensitiveKey(f.key, SensitiveKeys) {
        MaskIsProperlyMasked(ScalarText(f.value));
      }
    }
  }

  lemma {:induction false} ResponseItemsCompliant(xs: seq<Json>, rs: seq<Json>, n: nat, patternHit: string -> bool)
    requires n <= |xs| == |rs|
    requires forall i :: 0 <= i < |xs| ==> rs[i] == RedactSensitiveData(xs[i], patternHit)
    requires forall i :: 0 <= i < |xs| ==> SensitiveValuesAreScalars(xs[i])
    ensures AuditItems(rs[..n]).violations == []
    decreases xs, n
  {
    if n > 0 {
      assert rs[..n][..n - 1] == rs[..n - 1];
      ResponseItemsCompliant(xs, rs, n - 1, patternHit);
      RedactedResponseIsCompliant(xs[n - 1], patternHit);
    }
  }
}
