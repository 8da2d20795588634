/** The identifier and string validators of src/index.ts (lines 22-54). Each returns normally
    or throws an `Error` with a fixed message; here that is `Pass` or `Fail(message)`. */
module Validators {
  import opened Wrappers
  import opened JsValues

  /** The regular expression `/^\d+$/` (no `u` flag, no `m` flag): one or more ASCII digits
      spanning the whole string. Written as the matcher consumes it, one digit at a time. */
  function MatchesDigits(s: string): (r: bool)
    ensures r <==> |s| > 0 && forall i :: 0 <= i < |s| ==> IsDecimalDigit(s[i])
  {
    |s| > 0 && IsDecimalDigit(s[0]) && (|s| == 1 || MatchesDigits(s[1..]))
  }

  /** The identifiers every ID validator accepts: non-empty strings of ASCII digits. */
  predicate IsNumericId(v: Value)
  {
    v.Str? && |v.s| > 0 && forall i :: 0 <= i < |v.s| ==> IsDecimalDigit(v.s[i])
  }

  /** What an ID validator reports about a rejected identifier: a missing or non-string
      value, or a string with a character other than a digit. */
  function IdProblem(id: Value): string
  {
    if id.Str? && id.s != "" then " must contain only digits" else " must be a non-empty string"
  }

  /** The body shared by `validateTestCaseId`, `validateProjectId` and `validateSuiteId`,
      which differ only in the subject at the head of their messages. */
  function ValidateNumericId(id: Value, subject: string): (r: Check)
    ensures r == Pass <==> IsNumericId(id)
    ensures r.Fail? ==> r.error == subject + IdProblem(id)
  {
    if !Truthy(id) || !id.Str? then Fail(subject + " must be a non-empty string")
    else if !MatchesDigits(id.s) then Fail(subject + " must contain only digits")
    else Pass
  }

  function ValidateTestCaseId(id: Value): (r: Check)
    ensures r == Pass <==> IsNumericId(id)
    ensures r.Fail? ==> r.error == "Test case ID" + IdProblem(id)
  {
    ValidateNumericId(id, "Test case ID")
  }

  function ValidateProjectId(id: Value): (r: Check)
    ensures r == Pass <==> IsNumericId(id)
    ensures r.Fail? ==> r.error == "Project ID" + IdProblem(id)
  {
    ValidateNumericId(id, "Project ID")
  }

  function ValidateSuiteId(id: Value): (r: Check)
    ensures r == Pass <==> IsNumericId(id)
    ensures r.Fail? ==> r.error == "Suite ID" + IdProblem(id)
  {
    ValidateNumericId(id, "Suite ID")
  }

  /** `validateNonEmptyString`: rejects non-strings, the empty string and strings that are
      whitespace only, all with the same message. */
  function ValidateNonEmptyString(v: Value, fieldName: string): (r: Check)
    ensures r == Pass <==> v.Str? && !AllWhitespace(v.s)
    ensures r.Fail? ==> r.error == fieldName + " must be a non-empty string"
  {
    if !Truthy(v) || !v.Str? then Fail(fieldName + " must be a non-empty string")
    else
      TrimEmptyIffAllWhitespace(v.s);
      if |Trim(v.s)| == 0 then Fail(fieldName + " must be a non-empty string") else Pass
  }

  /** The external test-case form `PREFIX-digits` is not accepted: only all-digit IDs are. */
  lemma ExternalFormRejected()
    ensures ValidateTestCaseId(Str("ACX-50140")) == Fail("Test case ID" + " must contain only digits")
  {
    var external := "ACX-50140";
    assert !IsDecimalDigit(external[0]);
  }

  lemma DigitsAccepted()
    ensures ValidateTestCaseId(Str("50140")) == Pass
  {
    var numeric := "50140";
    assert numeric == ['5', '0', '1', '4', '0'];
    assert IsNumericId(Str(numeric));
  }

  /** A number is not an identifier, even a positive one: the validators demand a string. */
  lemma NumberIdRejected(n: int)
    ensures ValidateProjectId(Num(n)) == Fail("Project ID" + " must be a non-empty string")
  {
  }
}
