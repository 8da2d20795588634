/** The parameter mappers of `TestLinkAPI` (src/index.ts:108-244): for each operation, the
    validation it performs before any call and the one backend call it then makes, as a
    `Call` (backend method and parameter record, before the key is added by `callAPI`). */
module Mappers {
  import opened Wrappers
  import opened JsValues
  import opened Validators
  import opened Rpc

  datatype Call = Call(name: string, params: map<Param, Value>)

  /** A validation failure ends the operation with its message; otherwise `call` is made. */
  function Gate(check: Check, call: Result<Call>): (r: Result<Call>)
    ensures check.Fail? ==> r == Err(check.error)
    ensures check.Pass? ==> r == call
  {
    match check
    case Fail(e) => Err(e)
    case Pass => call
  }

  /** `getTestCase` (src/index.ts:108-114). */
  function ReadCall(testCaseId: Value): (r: Result<Call>)
    ensures r.Ok? <==> IsNumericId(testCaseId)
    ensures r.Err? ==> r.error == "Test case ID" + IdProblem(testCaseId)
    ensures r.Ok? ==> r.value.name == "tl.getTestCase"
    ensures r.Ok? ==> r.value.params.Keys == {TestCaseId, Version}
    ensures r.Ok? ==> r.value.params[TestCaseId] == testCaseId
    ensures r.Ok? ==> r.value.params[Version] == Null
  {
    Gate(ValidateTestCaseId(testCaseId),
      Ok(Call("tl.getTestCase", map[TestCaseId := testCaseId, Version := Null])))
  }

  // ---------------------------------------------------------------------------------------
  // updateTestCase (src/index.ts:116-135)

  /** The backend fields `updateTestCase` may send besides `testcaseid`. The first four are
      forwarded when truthy, the last three whenever they are not `undefined`. */
  const UpdateTextFields: set<Param> := {TestCaseName, Summary, Preconditions, Steps}
  const UpdateNumberFields: set<Param> := {Importance, ExecutionType, Status}

  /** The caller-facing name of a backend field of `updateTestCase`: two fields are renamed. */
  function CallerName(field: Param): string
  {
    if field == TestCaseName then "name"
    else if field == ExecutionType then "execution_type"
    else WireName(field)
  }

  /** Whether `updateTestCase` forwards the backend field `field` for the caller's `data`. */
  predicate Forwarded(field: Param, data: Value)
  {
    if field in UpdateTextFields then Truthy(Get(data, CallerName(field)))
    else field in UpdateNumberFields && Get(data, CallerName(field)) != Undefined
  }

  /** The record `updateTestCase` sends, described by backend field: the ID, and every
      optional field that is forwarded, carrying the caller's value. */
  function UpdateRecord(testCaseId: Value, data: Value): map<Param, Value>
  {
    map field | field in {TestCaseId} + UpdateTextFields + UpdateNumberFields
                && (field == TestCaseId || Forwarded(field, data))
      :: if field == TestCaseId then testCaseId else Get(data, CallerName(field))
  }

  /** The update record field by field: it always names the test case and otherwise holds
      only what the caller supplied, under the backend's names: the text fields when truthy,
      the numeric fields whenever present, including 0. */
  predicate IsUpdateRecordFor(p: map<Param, Value>, testCaseId: Value, data: Value)
  {
    && (forall f :: f in p ==> f in {TestCaseId} + UpdateTextFields + UpdateNumberFields)
    && TestCaseId in p && p[TestCaseId] == testCaseId
    && TextFieldsForwarded(p, data) && NumberFieldsForwarded(p, data)
  }

  /** The text fields: present exactly when the caller's value is truthy, and then that value. */
  predicate TextFieldsForwarded(p: map<Param, Value>, data: Value)
  {
    && (TestCaseName in p <==> Truthy(Get(data, "name")))
    && (Summary in p <==> Truthy(Get(data, "summary")))
    && (Preconditions in p <==> Truthy(Get(data, "preconditions")))
    && (Steps in p <==> Truthy(Get(data, "steps")))
    && (TestCaseName in p ==> p[TestCaseName] == Get(data, "name"))
    && (Summary in p ==> p[Summary] == Get(data, "summary"))
    && (Preconditions in p ==> p[Preconditions] == Get(data, "preconditions"))
    && (Steps in p ==> p[Steps] == Get(data, "steps"))
  }

  /** The numeric fields: present exactly when the caller supplied them at all, 0 included,
      and then the supplied value. */
  predicate NumberFieldsForwarded(p: map<Param, Value>, data: Value)
  {
    && (Importance in p <==> Get(data, "importance") != Undefined)
    && (ExecutionType in p <==> Get(data, "execution_type") != Undefined)
    && (Status in p <==> Get(data, "status") != Undefined)
    && (Importance in p ==> p[Importance] == Get(data, "importance"))
    && (ExecutionType in p ==> p[ExecutionType] == Get(data, "execution_type"))
    && (Status in p ==> p[Status] == Get(data, "status"))
  }

  lemma UpdateRecordFields(testCaseId: Value, data: Value)
    ensures IsUpdateRecordFor(UpdateRecord(testCaseId, data), testCaseId, data)
  {
    UpdateRecordText(testCaseId, data);
    UpdateRecordNumbers(testCaseId, data);
  }

  lemma UpdateRecordText(testCaseId: Value, data: Value)
    ensures TextFieldsForwarded(UpdateRecord(testCaseId, data), data)
  {
  }

  lemma UpdateRecordNumbers(testCaseId: Value, data: Value)
    ensures NumberFieldsForwarded(UpdateRecord(testCaseId, data), data)
  {
  }

  /** The field-by-field description determines the record. */
  lemma UpdateRecordUnique(p: map<Param, Value>, q: map<Param, Value>, testCaseId: Value, data: Value)
    requires IsUpdateRecordFor(p, testCaseId, data) && IsUpdateRecordFor(q, testCaseId, data)
    ensures p == q
  {
    assert p.Keys == q.Keys;
  }

  /** `updateParams` as src/index.ts:122-132 builds it, one conditional assignment at a time. */
  method BuildUpdateParams(testCaseId: Value, data: Value) returns (updateParams: map<Param, Value>)
    ensures IsUpdateRecordFor(updateParams, testCaseId, data)
  {
    var name, summary, preconditions, steps :=
      Get(data, "name"), Get(data, "summary"), Get(data, "preconditions"), Get(data, "steps");
    var importance, executionType, status :=
      Get(data, "importance"), Get(data, "execution_type"), Get(data, "status");
    updateParams := map[TestCaseId := testCaseId];
    if Truthy(name) { updateParams := updateParams[TestCaseName := name]; }
    if Truthy(summary) { updateParams := updateParams[Summary := summary]; }
    if Truthy(preconditions) { updateParams := updateParams[Preconditions := preconditions]; }
    if Truthy(steps) { updateParams := updateParams[Steps := steps]; }
    if importance != Undefined { updateParams := updateParams[Importance := importance]; }
    if executionType != Undefined { updateParams := updateParams[ExecutionType := executionType]; }
    if status != Undefined { updateParams := updateParams[Status := status]; }
  }

  function UpdateCall(testCaseId: Value, data: Value): (r: Result<Call>)
    ensures !IsNumericId(testCaseId) ==> r == Err("Test case ID" + IdProblem(testCaseId))
    ensures IsNumericId(testCaseId) && !IsObject(data) ==> r == Err("Update data must be an object")
    ensures r.Ok? <==> IsNumericId(testCaseId) && IsObject(data)
    ensures r.Ok? ==> r.value == Call("tl.updateTestCase", UpdateRecord(testCaseId, data))
  {
    Gate(ValidateTestCaseId(testCaseId),
      if !IsObject(data) then Err("Update data must be an object")
      else Ok(Call("tl.updateTestCase", UpdateRecord(testCaseId, data))))
  }

  // ---------------------------------------------------------------------------------------
  // createTestCase (src/index.ts:137-163)

  const MissingRequiredFields := "Missing required fields: testprojectid, testsuiteid, name, authorlogin"

  predicate HasRequiredFields(data: Value)
  {
    Truthy(Get(data, "testprojectid")) && Truthy(Get(data, "testsuiteid"))
    && Truthy(Get(data, "name")) && Truthy(Get(data, "authorlogin"))
  }

  /** `v || fallback` */
  function OrElse(v: Value, fallback: Value): (r: Value)
    ensures Truthy(v) ==> r == v
    ensures !Truthy(v) ==> r == fallback
  {
    if Truthy(v) then v else fallback
  }

  /** The literal `createParams` of src/index.ts:149-160. */
  function CreateRecord(data: Value): map<Param, Value>
  {
    map[
      TestProjectId := Get(data, "testprojectid"),
      TestSuiteId := Get(data, "testsuiteid"),
      TestCaseName := Get(data, "name"),
      AuthorLogin := Get(data, "authorlogin"),
      Summary := OrElse(Get(data, "summary"), Str("")),
      Preconditions := OrElse(Get(data, "preconditions"), Str("")),
      Steps := OrElse(Get(data, "steps"), Arr([])),
      Importance := OrElse(Get(data, "importance"), Num(2)),
      ExecutionType := OrElse(Get(data, "execution_type"), Num(1)),
      Status := OrElse(Get(data, "status"), Num(1))
    ]
  }

  /** The format checks that follow the presence check. */
  function CreateChecks(data: Value): Check
  {
    var project := ValidateProjectId(Get(data, "testprojectid"));
    var suite := ValidateSuiteId(Get(data, "testsuiteid"));
    var name := ValidateNonEmptyString(Get(data, "name"), "Test case name");
    var author := ValidateNonEmptyString(Get(data, "authorlogin"), "Author login");
    if project.Fail? then project
    else if suite.Fail? then suite
    else if name.Fail? then name
    else author
  }

  predicate IsNonBlank(v: Value)
  {
    v.Str? && !AllWhitespace(v.s)
  }

  function CreateCall(data: Value): (r: Result<Call>)
    ensures !IsObject(data) ==> r == Err("Test case data must be an object")
    // the presence check precedes, and so overrides, every format check
    ensures IsObject(data) && !HasRequiredFields(data) ==> r == Err(MissingRequiredFields)
    // then the format checks, in order, each reporting its own message
    ensures IsObject(data) && HasRequiredFields(data) && !IsNumericId(Get(data, "testprojectid")) ==>
              r == Err("Project ID" + IdProblem(Get(data, "testprojectid")))
    ensures IsObject(data) && HasRequiredFields(data) && IsNumericId(Get(data, "testprojectid"))
            && !IsNumericId(Get(data, "testsuiteid")) ==>
              r == Err("Suite ID" + IdProblem(Get(data, "testsuiteid")))
    ensures IsObject(data) && HasRequiredFields(data) && IsNumericId(Get(data, "testprojectid"))
            && IsNumericId(Get(data, "testsuiteid")) && !IsNonBlank(Get(data, "name")) ==>
              r == Err("Test case name" + " must be a non-empty string")
    ensures IsObject(data) && HasRequiredFields(data) && IsNumericId(Get(data, "testprojectid"))
            && IsNumericId(Get(data, "testsuiteid")) && IsNonBlank(Get(data, "name"))
            && !IsNonBlank(Get(data, "authorlogin")) ==>
              r == Err("Author login" + " must be a non-empty string")
    ensures r.Ok? <==> IsObject(data)
                       && IsNumericId(Get(data, "testprojectid")) && IsNumericId(Get(data, "testsuiteid"))
                       && IsNonBlank(Get(data, "name")) && IsNonBlank(Get(data, "authorlogin"))
    ensures r.Ok? ==> r.value == Call("tl.createTestCase", CreateRecord(data))
  {
    if !IsObject(data) then Err("Test case data must be an object")
    else if !HasRequiredFields(data) then Err(MissingRequiredFields)
    else Gate(CreateChecks(data), Ok(Call("tl.createTestCase", CreateRecord(data))))
  }

  /** The create record has exactly ten fields; the optional ones take their defaults when
      the caller's value is falsy, so a supplied 0 is replaced as well. */
  lemma CreateRecordDefaults(data: Value)
    ensures CreateRecord(data).Keys == {TestProjectId, TestSuiteId, TestCaseName, AuthorLogin,
                                        Summary, Preconditions, Steps, Importance,
                                        ExecutionType, Status}
    ensures !Truthy(Get(data, "summary")) ==> CreateRecord(data)[Summary] == Str("")
    ensures !Truthy(Get(data, "preconditions")) ==> CreateRecord(data)[Preconditions] == Str("")
    ensures !Truthy(Get(data, "steps")) ==> CreateRecord(data)[Steps] == Arr([])
    ensures !Truthy(Get(data, "importance")) ==> CreateRecord(data)[Importance] == Num(2)
    ensures !Truthy(Get(data, "execution_type")) ==> CreateRecord(data)[ExecutionType] == Num(1)
    ensures !Truthy(Get(data, "status")) ==> CreateRecord(data)[Status] == Num(1)
    ensures Get(data, "importance") == Num(0) ==> CreateRecord(data)[Importance] == Num(2)
    ensures CreateRecord(data)[TestCaseName] == Get(data, "name")
  {
  }

  /** A missing author login is reported with the list of all four required fields, even when
      the other fields are malformed, and no call is planned. */
  lemma CreateWithoutAuthor(data: Value)
    requires IsObject(data) && !Truthy(Get(data, "authorlogin"))
    ensures CreateCall(data) == Err(MissingRequiredFields)
  {
  }

  // ---------------------------------------------------------------------------------------
  // the remaining single-call operations (src/index.ts:165-204)

  /** `deleteTestCase`: a real `tl.deleteTestCase` call, not a status update. */
  function DeleteCall(testCaseId: Value): (r: Result<Call>)
    ensures r.Ok? <==> IsNumericId(testCaseId)
    ensures r.Err? ==> r.error == "Test case ID" + IdProblem(testCaseId)
    ensures r.Ok? ==> r.value.name == "tl.deleteTestCase"
    ensures r.Ok? ==> r.value.params.Keys == {TestCaseId}
    ensures r.Ok? ==> r.value.params[TestCaseId] == testCaseId
  {
    Gate(ValidateTestCaseId(testCaseId), Ok(Call("tl.deleteTestCase", map[TestCaseId := testCaseId])))
  }

  /** `getTestProjects`: no validation and an empty record. */
  function ProjectsCall(): (r: Result<Call>)
    ensures r.Ok? && r.value.name == "tl.getProjects" && r.value.params == map[]
  {
    Ok(Call("tl.getProjects", map[]))
  }

  /** `getTestSuites` */
  function SuitesCall(projectId: Value): (r: Result<Call>)
    ensures r.Ok? <==> IsNumericId(projectId)
    ensures r.Err? ==> r.error == "Project ID" + IdProblem(projectId)
    ensures r.Ok? ==> r.value.name == "tl.getFirstLevelTestSuitesForTestProject"
    ensures r.Ok? ==> r.value.params.Keys == {TestProjectId}
    ensures r.Ok? ==> r.value.params[TestProjectId] == projectId
  {
    Gate(ValidateProjectId(projectId),
      Ok(Call("tl.getFirstLevelTestSuitesForTestProject", map[TestProjectId := projectId])))
  }

  /** `getTestSuiteByID` */
  function SuiteByIdCall(suiteId: Value): (r: Result<Call>)
    ensures r.Ok? <==> IsNumericId(suiteId)
    ensures r.Err? ==> r.error == "Suite ID" + IdProblem(suiteId)
    ensures r.Ok? ==> r.value.name == "tl.getTestSuiteByID"
    ensures r.Ok? ==> r.value.params.Keys == {TestSuiteId}
    ensures r.Ok? ==> r.value.params[TestSuiteId] == suiteId
  {
    Gate(ValidateSuiteId(suiteId), Ok(Call("tl.getTestSuiteByID", map[TestSuiteId := suiteId])))
  }

  /** `getTestCasesForTestSuite`: always the whole subtree, with full details. */
  function SuiteCasesCall(suiteId: Value): (r: Result<Call>)
    ensures r.Ok? <==> IsNumericId(suiteId)
    ensures r.Err? ==> r.error == "Suite ID" + IdProblem(suiteId)
    ensures r.Ok? ==> r.value.name == "tl.getTestCasesForTestSuite"
    ensures r.Ok? ==> r.value.params.Keys == {TestSuiteId, Deep, Details}
    ensures r.Ok? ==> r.value.params[TestSuiteId] == suiteId
    ensures r.Ok? ==> r.value.params[Deep] == Bool(true)
    ensures r.Ok? ==> r.value.params[Details] == Str("full")
  {
    Gate(ValidateSuiteId(suiteId),
      Ok(Call("tl.getTestCasesForTestSuite",
        map[TestSuiteId := suiteId, Deep := Bool(true), Details := Str("full")])))
  }

  /** `searchTestCases`: the validated project ID travels as `testprojectname`. */
  function SearchCall(projectId: Value, searchText: Value): (r: Result<Call>)
    ensures r.Ok? <==> IsNumericId(projectId) && IsNonBlank(searchText)
    ensures !IsNumericId(projectId) ==> r == Err("Project ID" + IdProblem(projectId))
    ensures IsNumericId(projectId) && !IsNonBlank(searchText) ==> r == Err("Search text" + " must be a non-empty string")
    ensures r.Ok? ==> r.value.name == "tl.getTestCaseIDByName"
    ensures r.Ok? ==> r.value.params.Keys == {TestCaseName, TestProjectName}
    ensures r.Ok? ==> r.value.params[TestCaseName] == searchText
    ensures r.Ok? ==> r.value.params[TestProjectName] == projectId
  {
    Gate(ValidateProjectId(projectId),
      Gate(ValidateNonEmptyString(searchText, "Search text"),
        Ok(Call("tl.getTestCaseIDByName", map[TestCaseName := searchText, TestProjectName := projectId]))))
  }

  // ---------------------------------------------------------------------------------------
  // createTestSuite (src/index.ts:226-244)

  /** The parameter default `details: string = ''`, which applies to `undefined` only. */
  function DetailsOrDefault(details: Value): Value
  {
    if details == Undefined then Str("") else details
  }

  /** The checks of src/index.ts:227-231: the parent suite is checked only when given. */
  function SuiteChecks(projectId: Value, suiteName: Value, parentId: Value): Check
  {
    var project := ValidateProjectId(projectId);
    var name := ValidateNonEmptyString(suiteName, "Suite name");
    if project.Fail? then project
    else if name.Fail? then name
    else if Truthy(parentId) then ValidateSuiteId(parentId)
    else Pass
  }

  /** The record `createTestSuite` sends: the parent is present exactly when it was given. */
  function SuiteRecord(projectId: Value, suiteName: Value, details: Value, parentId: Value): (p: map<Param, Value>)
    ensures p.Keys == {TestProjectId, TestSuiteName, Details} + (if Truthy(parentId) then {ParentId} else {})
    ensures p[TestProjectId] == projectId && p[TestSuiteName] == suiteName
    ensures p[Details] == DetailsOrDefault(details)
    ensures ParentId in p ==> p[ParentId] == parentId
  {
    var base := map[TestProjectId := projectId, TestSuiteName := suiteName, Details := DetailsOrDefault(details)];
    if Truthy(parentId) then base[ParentId := parentId] else base
  }

  function CreateSuiteCall(projectId: Value, suiteName: Value, details: Value, parentId: Value): (r: Result<Call>)
    ensures r.Ok? <==> IsNumericId(projectId) && IsNonBlank(suiteName) && (Truthy(parentId) ==> IsNumericId(parentId))
    ensures !IsNumericId(projectId) ==> r == Err("Project ID" + IdProblem(projectId))
    ensures IsNumericId(projectId) && !IsNonBlank(suiteName) ==> r == Err("Suite name" + " must be a non-empty string")
    ensures IsNumericId(projectId) && IsNonBlank(suiteName) && Truthy(parentId) && !IsNumericId(parentId) ==>
              r == Err("Suite ID" + IdProblem(parentId))
    ensures r.Ok? ==> r.value == Call("tl.createTestSuite", SuiteRecord(projectId, suiteName, details, parentId))
  {
    Gate(SuiteChecks(projectId, suiteName, parentId),
      Ok(Call("tl.createTestSuite", SuiteRecord(projectId, suiteName, details, parentId))))
  }

  // ---------------------------------------------------------------------------------------

  /** No mapper puts `devKey` in its record, so the key `callAPI` adds is never overridden. */
  predicate LeavesKeyAlone(r: Result<Call>)
  {
    r.Ok? ==> DevKey !in r.value.params
  }

  lemma IdMappersLeaveKeyAlone(id: Value)
    ensures LeavesKeyAlone(ReadCall(id)) && LeavesKeyAlone(DeleteCall(id))
    ensures LeavesKeyAlone(SuitesCall(id)) && LeavesKeyAlone(SuiteByIdCall(id))
    ensures LeavesKeyAlone(SuiteCasesCall(id)) && LeavesKeyAlone(ProjectsCall())
  {
  }

  lemma SearchAndSuiteLeaveKeyAlone(projectId: Value, text: Value, details: Value, parentId: Value)
    ensures LeavesKeyAlone(SearchCall(projectId, text))
    ensures LeavesKeyAlone(CreateSuiteCall(projectId, text, details, parentId))
  {
  }

  lemma UpdateLeavesKeyAlone(testCaseId: Value, data: Value)
    ensures LeavesKeyAlone(UpdateCall(testCaseId, data))
  {
    UpdateRecordFields(testCaseId, data);
  }

  lemma CreateLeavesKeyAlone(data: Value)
    ensures LeavesKeyAlone(CreateCall(data))
  {
    CreateRecordDefaults(data);
  }
}
