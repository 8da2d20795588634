/** `TestLinkAPI` (src/index.ts:56-254): the configured endpoint, the one method that talks to
    the backend (`callAPI`), and the operations built on it. The backend is an oracle from
    request to reply; every request the object sends is recorded in a ghost trace, so the
    contracts can say which calls an operation issues, with which record, and in which order. */
module Api {
  import opened Wrappers
  import opened JsValues
  import opened Validators
  import opened Rpc
  import opened Mappers

  /** The configuration a `TestLinkAPI` holds and the backend it posts to. */
  datatype Endpoint = Endpoint(apiUrl: string, apiKey: string, backend: Request -> Reply)

  /** The request `callAPI` posts for a planned call. */
  function Posted(e: Endpoint, c: Call): Request
  {
    Envelope(e.apiKey, c.name, c.params)
  }

  /** What an operation with one planned call returns or throws: the validation error, or the
      classified reply to the posted request. */
  function Perform(e: Endpoint, plan: Result<Call>): Result<Value>
  {
    match plan
    case Err(m) => Err(m)
    case Ok(c) => Classify(e.apiUrl, e.backend(Posted(e, c)))
  }

  /** The requests an operation with one planned call sends: none when validation fails. */
  function Issued(e: Endpoint, plan: Result<Call>): seq<Request>
  {
    match plan
    case Err(_) => []
    case Ok(c) => [Posted(e, c)]
  }

  /** Every request carries `devKey` set to the configured key. */
  predicate KeyedBy(apiKey: string, requests: seq<Request>)
  {
    forall i :: 0 <= i < |requests| ==>
      DevKey in requests[i].record && requests[i].record[DevKey] == Str(apiKey)
  }

  /** A plan that leaves `devKey` alone issues only requests carrying the configured key,
      and a failed validation issues nothing. */
  lemma IssuedCarriesKey(e: Endpoint, plan: Result<Call>)
    requires LeavesKeyAlone(plan)
    ensures KeyedBy(e.apiKey, Issued(e, plan))
    ensures plan.Err? <==> Issued(e, plan) == []
  {
    if plan.Ok? {
      var q := Posted(e, plan.value);
      assert q.record[DevKey] == Str(e.apiKey);
      assert Issued(e, plan) == [q];
    }
  }

  lemma KeyedByAppend(apiKey: string, a: seq<Request>, b: seq<Request>)
    requires KeyedBy(apiKey, a) && KeyedBy(apiKey, b)
    ensures KeyedBy(apiKey, a + b)
  {
    forall i | 0 <= i < |a + b|
      ensures DevKey in (a + b)[i].record && (a + b)[i].record[DevKey] == Str(apiKey)
    {
      if i >= |a| { assert (a + b)[i] == b[i - |a|]; }
    }
  }

  // ---------------------------------------------------------------------------------------
  // bulkUpdateTestCases (src/index.ts:206-224)

  const NotAnIdArray := "Test case IDs must be a non-empty array"

  /** The record pushed for one ID: `{ id, success: true, result }` or
      `{ id, success: false, error: error.message }`. */
  function BulkRecord(id: Value, outcome: Result<Value>): (r: Value)
    ensures r.Obj? && "id" in r.fields && "success" in r.fields
    ensures r.fields["id"] == id
    ensures r.fields["success"] == Bool(outcome.Ok?)
    ensures outcome.Ok? ==> "result" in r.fields && r.fields["result"] == outcome.value
    ensures outcome.Err? ==> "error" in r.fields && r.fields["error"] == Str(outcome.error)
  {
    match outcome
    case Ok(v) => Obj(map["id" := id, "success" := Bool(true), "result" := v])
    case Err(m) => Obj(map["id" := id, "success" := Bool(false), "error" := Str(m)])
  }

  /** What the update of one ID returns or throws, and the requests it sends. */
  function UpdateOutcome(e: Endpoint, data: Value): Value -> Result<Value>
  {
    id => Perform(e, UpdateCall(id, data))
  }

  function UpdateRequests(e: Endpoint, data: Value): Value -> seq<Request>
  {
    id => Issued(e, UpdateCall(id, data))
  }

  /** The records the loop pushes for `ids`, in input order, given each ID's outcome. */
  function BulkRecords(ids: seq<Value>, outcomeOf: Value -> Result<Value>): seq<Value>
  {
    if ids == [] then []
    else
      var id := ids[|ids| - 1];
      BulkRecords(ids[..|ids| - 1], outcomeOf) + [BulkRecord(id, outcomeOf(id))]
  }

  /** The requests the loop sends for `ids`, given the requests of each ID's update. */
  function BulkRequests(ids: seq<Value>, requestsOf: Value -> seq<Request>): seq<Request>
  {
    if ids == [] then []
    else BulkRequests(ids[..|ids| - 1], requestsOf) + requestsOf(ids[|ids| - 1])
  }

  /** What `bulkUpdateTestCases` returns or throws. */
  function BulkOutcome(e: Endpoint, ids: Value, data: Value): Result<Value>
  {
    if !ids.Arr? || ids.items == [] then Err(NotAnIdArray)
    else if !IsObject(data) then Err("Update data must be an object")
    else Ok(Arr(BulkRecords(ids.items, UpdateOutcome(e, data))))
  }

  /** The requests `bulkUpdateTestCases` sends: none when the arguments are rejected. */
  function BulkCalls(e: Endpoint, ids: Value, data: Value): seq<Request>
  {
    if !ids.Arr? || ids.items == [] || !IsObject(data) then []
    else BulkRequests(ids.items, UpdateRequests(e, data))
  }

  /** One record per ID, in input order, each recording that ID's own outcome: a failing ID
      does not stop or alter the records of the IDs after it. */
  lemma {:induction false} BulkRecordsPerId(ids: seq<Value>, outcomeOf: Value -> Result<Value>)
    ensures |BulkRecords(ids, outcomeOf)| == |ids|
    ensures forall k :: 0 <= k < |ids| ==> BulkRecords(ids, outcomeOf)[k] == BulkRecord(ids[k], outcomeOf(ids[k]))
  {
    if ids != [] {
      var front := ids[..|ids| - 1];
      var last := BulkRecord(ids[|ids| - 1], outcomeOf(ids[|ids| - 1]));
      BulkRecordsPerId(front, outcomeOf);
      assert BulkRecords(ids, outcomeOf) == BulkRecords(front, outcomeOf) + [last];
      forall k | 0 <= k < |ids|
        ensures BulkRecords(ids, outcomeOf)[k] == BulkRecord(ids[k], outcomeOf(ids[k]))
      {
        if k < |front| {
          assert ids[k] == front[k];
          assert BulkRecords(ids, outcomeOf)[k] == BulkRecords(front, outcomeOf)[k];
        }
      }
    }
  }

  /** Each record of a bulk update reports success exactly when that ID's update returned,
      and carries that ID's result or error message. */
  lemma BulkReportsEachUpdate(e: Endpoint, ids: seq<Value>, data: Value, k: nat)
    requires k < |ids|
    ensures k < |BulkRecords(ids, UpdateOutcome(e, data))|
    ensures BulkRecords(ids, UpdateOutcome(e, data))[k]
         == BulkRecord(ids[k], Perform(e, UpdateCall(ids[k], data)))
  {
    BulkRecordsPerId(ids, UpdateOutcome(e, data));
  }

  /** One more iteration of the loop appends that ID's record and requests. */
  lemma BulkStep(ids: seq<Value>, i: nat, outcomeOf: Value -> Result<Value>,
                 requestsOf: Value -> seq<Request>, start: seq<Request>)
    requires i < |ids|
    ensures BulkRecords(ids[..i + 1], outcomeOf)
         == BulkRecords(ids[..i], outcomeOf) + [BulkRecord(ids[i], outcomeOf(ids[i]))]
    ensures start + BulkRequests(ids[..i + 1], requestsOf)
         == start + BulkRequests(ids[..i], requestsOf) + requestsOf(ids[i])
  {
    assert ids[..i + 1][..i] == ids[..i];
  }

  /** One iteration of the bulk loop: the update of ID i, with its outcome and requests,
      extends the records and the requests of the first i IDs to those of the first i + 1. */
  lemma UpdateEachStep(e: Endpoint, data: Value, ids: seq<Value>, i: nat, results: seq<Value>,
                       outcome: Result<Value>, start: seq<Request>, before: seq<Request>, after: seq<Request>)
    requires i < |ids|
    requires results == BulkRecords(ids[..i], UpdateOutcome(e, data))
    requires before == start + BulkRequests(ids[..i], UpdateRequests(e, data))
    requires outcome == Perform(e, UpdateCall(ids[i], data))
    requires after == before + Issued(e, UpdateCall(ids[i], data))
    ensures results + [BulkRecord(ids[i], outcome)] == BulkRecords(ids[..i + 1], UpdateOutcome(e, data))
    ensures after == start + BulkRequests(ids[..i + 1], UpdateRequests(e, data))
  {
    BulkStep(ids, i, UpdateOutcome(e, data), UpdateRequests(e, data), start);
  }

  /** Requests that each carry `devKey` set to the configured key and name `tl.updateTestCase`. */
  predicate UpdatesKeyedBy(apiKey: string, requests: seq<Request>)
  {
    KeyedBy(apiKey, requests) && forall i :: 0 <= i < |requests| ==> requests[i].name == "tl.updateTestCase"
  }

  /** The bulk loop sends at most one request per ID, each of them an update carrying the
      configured key, as long as each ID's update does. */
  lemma {:induction false} BulkRequestsAreUpdates(apiKey: string, ids: seq<Value>, requestsOf: Value -> seq<Request>)
    requires forall id :: |requestsOf(id)| <= 1 && UpdatesKeyedBy(apiKey, requestsOf(id))
    ensures |BulkRequests(ids, requestsOf)| <= |ids|
    ensures UpdatesKeyedBy(apiKey, BulkRequests(ids, requestsOf))
  {
    if ids != [] {
      var front := BulkRequests(ids[..|ids| - 1], requestsOf);
      var last := requestsOf(ids[|ids| - 1]);
      BulkRequestsAreUpdates(apiKey, ids[..|ids| - 1], requestsOf);
      KeyedByAppend(apiKey, front, last);
      forall i | 0 <= i < |front + last| ensures (front + last)[i].name == "tl.updateTestCase" {
        if i >= |front| { assert (front + last)[i] == last[i - |front|]; }
      }
    }
  }

  /** The update of a single ID sends at most one request, an update carrying the key. */
  lemma UpdateSendsOneKeyedUpdate(e: Endpoint, id: Value, data: Value)
    ensures |Issued(e, UpdateCall(id, data))| <= 1
    ensures UpdatesKeyedBy(e.apiKey, Issued(e, UpdateCall(id, data)))
  {
    var plan := UpdateCall(id, data);
    UpdateLeavesKeyAlone(id, data);
    IssuedCarriesKey(e, plan);
    if plan.Ok? {
      assert Issued(e, plan) == [Posted(e, plan.value)];
      assert plan.value.name == "tl.updateTestCase";
    }
  }

  lemma UpdateRequestsAreUpdates(e: Endpoint, data: Value)
    ensures forall id :: |UpdateRequests(e, data)(id)| <= 1 && UpdatesKeyedBy(e.apiKey, UpdateRequests(e, data)(id))
  {
    forall id ensures |UpdateRequests(e, data)(id)| <= 1 && UpdatesKeyedBy(e.apiKey, UpdateRequests(e, data)(id)) {
      UpdateSendsOneKeyedUpdate(e, id, data);
    }
  }

  /** A bulk update sends only `tl.updateTestCase` requests, at most one per ID, each with
      the configured key. */
  lemma BulkSendsOnlyUpdates(e: Endpoint, ids: Value, data: Value)
    ensures ids.Arr? ==> |BulkCalls(e, ids, data)| <= |ids.items|
    ensures UpdatesKeyedBy(e.apiKey, BulkCalls(e, ids, data))
  {
    if ids.Arr? && ids.items != [] && IsObject(data) {
      UpdateRequestsAreUpdates(e, data);
      BulkRequestsAreUpdates(e.apiKey, ids.items, UpdateRequests(e, data));
    }
  }

  /** An empty or non-array ID list, or non-object data, is rejected before any call. */
  lemma BulkRejectsBeforeCalls(e: Endpoint, ids: Value, data: Value)
    requires !ids.Arr? || ids.items == [] || !IsObject(data)
    ensures BulkOutcome(e, ids, data).Err?
    ensures BulkCalls(e, ids, data) == []
    ensures !ids.Arr? || ids.items == [] ==> BulkOutcome(e, ids, data) == Err(NotAnIdArray)
  {
  }

  // ---------------------------------------------------------------------------------------
  // archiveTestCase (src/index.ts:246-253)

  const ArchivedPrefix := "[ARCHIVED] "

  /** The summary `archiveTestCase` writes, as the code computes it: the value `getTestCase`
      returned is indexed with `[0]` before `.summary` is read, although `callAPI` has
      already taken element 0 of the reply. */
  function ArchivedSummaryAsWritten(record: Value): (r: Result<string>)
    ensures r.Err? <==> IsNullish(record) || IsNullish(Index0(record))
    ensures r.Ok? ==> r.value == ArchivedPrefix + ToJsString(Get(Index0(record), "summary"))
  {
    match ReadIndex0(record)
    case Err(m) => Err(m)
    case Ok(first) =>
      match ReadProperty(first, "summary")
      case Err(m) => Err(m)
      case Ok(summary) => Ok(ArchivedPrefix + ToJsString(summary))
  }

  /** The summary `archiveTestCase` is evidently meant to write: the prefix followed by the
      summary of the test case that was read. Reading `.summary` still throws when the read
      returned nothing. */
  function ArchivedSummary(record: Value): (r: Result<string>)
    ensures r.Err? <==> IsNullish(record)
    ensures r.Err? ==> r.error == TypeErrorReading(record, "summary")
    ensures r.Ok? ==> r.value == ArchivedPrefix + ToJsString(Get(record, "summary"))
  {
    match ReadProperty(record, "summary")
    case Err(m) => Err(m)
    case Ok(summary) => Ok(ArchivedPrefix + ToJsString(summary))
  }

  /** The update data `{ status: 7, summary }` that `archiveTestCase` passes on. */
  function ArchiveData(summary: string): Value
  {
    Obj(map["status" := Num(7), "summary" := Str(summary)])
  }

  /** The record the archiving update sends: the ID, status 7 and the new summary, nothing
      else. */
  lemma ArchiveUpdateRecord(testCaseId: Value, summary: string)
    requires IsNumericId(testCaseId) && summary != ""
    ensures UpdateCall(testCaseId, ArchiveData(summary))
         == Ok(Call("tl.updateTestCase", map[TestCaseId := testCaseId, Summary := Str(summary), Status := Num(7)]))
  {
    var data := ArchiveData(summary);
    var expected := map[TestCaseId := testCaseId, Summary := Str(summary), Status := Num(7)];
    assert Get(data, "summary") == Str(summary) && Get(data, "status") == Num(7);
    assert Get(data, "name") == Undefined && Get(data, "preconditions") == Undefined;
    assert Get(data, "steps") == Undefined && Get(data, "importance") == Undefined;
    assert Get(data, "execution_type") == Undefined;
    assert IsUpdateRecordFor(expected, testCaseId, data);
    UpdateRecordFields(testCaseId, data);
    UpdateRecordUnique(expected, UpdateRecord(testCaseId, data), testCaseId, data);
  }

  /** What `archiveTestCase` returns or throws: the ID check, then the read, then the update
      built from what was read. An error in the read step is not re-wrapped. */
  function ArchiveOutcome(e: Endpoint, testCaseId: Value): Result<Value>
  {
    if !IsNumericId(testCaseId) then Err("Test case ID" + IdProblem(testCaseId))
    else
      match Perform(e, ReadCall(testCaseId))
      case Err(m) => Err(m)
      case Ok(record) =>
        match ArchivedSummary(record)
        case Err(m) => Err(m)
        case Ok(summary) => Perform(e, UpdateCall(testCaseId, ArchiveData(summary)))
  }

  /** The requests `archiveTestCase` sends. */
  function ArchiveRequests(e: Endpoint, testCaseId: Value): seq<Request>
  {
    if !IsNumericId(testCaseId) then []
    else
      var read := Perform(e, ReadCall(testCaseId));
      if read.Err? || ArchivedSummary(read.value).Err? then Issued(e, ReadCall(testCaseId))
      else Issued(e, ReadCall(testCaseId))
           + Issued(e, UpdateCall(testCaseId, ArchiveData(ArchivedSummary(read.value).value)))
  }

  /** What `archiveTestCase` returns or throws as the code is written, with the extra `[0]`
      of `ArchivedSummaryAsWritten`. */
  function ArchiveOutcomeAsWritten(e: Endpoint, testCaseId: Value): Result<Value>
  {
    if !IsNumericId(testCaseId) then Err("Test case ID" + IdProblem(testCaseId))
    else
      match Perform(e, ReadCall(testCaseId))
      case Err(m) => Err(m)
      case Ok(record) =>
        match ArchivedSummaryAsWritten(record)
        case Err(m) => Err(m)
        case Ok(summary) => Perform(e, UpdateCall(testCaseId, ArchiveData(summary)))
  }

  /** The requests `archiveTestCase` sends as the code is written. */
  function ArchiveRequestsAsWritten(e: Endpoint, testCaseId: Value): seq<Request>
  {
    if !IsNumericId(testCaseId) then []
    else
      var read := Perform(e, ReadCall(testCaseId));
      if read.Err? || ArchivedSummaryAsWritten(read.value).Err? then Issued(e, ReadCall(testCaseId))
      else Issued(e, ReadCall(testCaseId))
           + Issued(e, UpdateCall(testCaseId, ArchiveData(ArchivedSummaryAsWritten(read.value).value)))
  }

  /** As written, archiving a test case whose record reads back as a plain object (one with
      no property "0") sends the read, then throws the TypeError of `.summary` on `undefined`
      and sends no update: nothing is archived. */
  lemma ArchiveAsWrittenStopsAfterRead(e: Endpoint, testCaseId: Value)
    requires IsNumericId(testCaseId)
    requires Perform(e, ReadCall(testCaseId)).Ok?
    requires Perform(e, ReadCall(testCaseId)).value.Obj? && "0" !in Perform(e, ReadCall(testCaseId)).value.fields
    ensures ArchiveRequestsAsWritten(e, testCaseId)
         == [Envelope(e.apiKey, "tl.getTestCase", map[TestCaseId := testCaseId, Version := Null])]
    ensures ArchiveOutcomeAsWritten(e, testCaseId) == Err(TypeErrorReading(Undefined, "summary"))
  {
    var record := Perform(e, ReadCall(testCaseId)).value;
    assert Index0(record) == Undefined;
  }

  /** Archiving reads before it writes, and a failed read sends no update and ends the
      operation with the read's own error. */
  lemma ArchiveReadsFirst(e: Endpoint, testCaseId: Value)
    requires IsNumericId(testCaseId)
    ensures |ArchiveRequests(e, testCaseId)| >= 1
    ensures ArchiveRequests(e, testCaseId)[0]
         == Envelope(e.apiKey, "tl.getTestCase", map[TestCaseId := testCaseId, Version := Null])
    ensures Perform(e, ReadCall(testCaseId)).Err? ==>
              |ArchiveRequests(e, testCaseId)| == 1
              && ArchiveOutcome(e, testCaseId) == Perform(e, ReadCall(testCaseId))
  {
  }

  /** A successful read of a record is followed by exactly one update, which sends status 7
      and the prefixed summary of the record read, and whose outcome is the outcome of
      archiving. */
  lemma ArchiveUpdatesAfterRead(e: Endpoint, testCaseId: Value)
    requires IsNumericId(testCaseId)
    requires Perform(e, ReadCall(testCaseId)).Ok? && !IsNullish(Perform(e, ReadCall(testCaseId)).value)
    ensures var record := Perform(e, ReadCall(testCaseId)).value;
            var update := Call("tl.updateTestCase",
                               map[TestCaseId := testCaseId,
                                   Summary := Str(ArchivedPrefix + ToJsString(Get(record, "summary"))),
                                   Status := Num(7)]);
            && ArchiveRequests(e, testCaseId)
               == [Envelope(e.apiKey, "tl.getTestCase", map[TestCaseId := testCaseId, Version := Null]),
                   Posted(e, update)]
            && ArchiveOutcome(e, testCaseId) == Perform(e, Ok(update))
  {
    var summary := ArchivedSummary(Perform(e, ReadCall(testCaseId)).value).value;
    ArchiveUpdateRecord(testCaseId, summary);
  }

  /** Archiving sends at most two requests, each carrying the configured key. */
  lemma ArchiveCarriesKey(e: Endpoint, testCaseId: Value)
    ensures |ArchiveRequests(e, testCaseId)| <= 2
    ensures KeyedBy(e.apiKey, ArchiveRequests(e, testCaseId))
  {
    if IsNumericId(testCaseId) {
      var read := Perform(e, ReadCall(testCaseId));
      IdMappersLeaveKeyAlone(testCaseId);
      IssuedCarriesKey(e, ReadCall(testCaseId));
      if read.Ok? && ArchivedSummary(read.value).Ok? {
        var update := UpdateCall(testCaseId, ArchiveData(ArchivedSummary(read.value).value));
        UpdateLeavesKeyAlone(testCaseId, ArchiveData(ArchivedSummary(read.value).value));
        IssuedCarriesKey(e, update);
        KeyedByAppend(e.apiKey, Issued(e, ReadCall(testCaseId)), Issued(e, update));
      }
    }
  }

  /** The archived-summary defect on a concrete record: for the plain record
      `{ summary: "Login works" }` the code as written throws, while the intended reading
      gives the prefixed summary. */
  lemma ArchivedSummaryOfPlainRecord()
    ensures ArchivedSummaryAsWritten(Obj(map["summary" := Str("Login works")]))
         == Err(TypeErrorReading(Undefined, "summary"))
    ensures ArchivedSummary(Obj(map["summary" := Str("Login works")])) == Ok(ArchivedPrefix + "Login works")
  {
    var record := Obj(map["summary" := Str("Login works")]);
    assert "0" !in record.fields;
    assert Index0(record) == Undefined;
  }

  // ---------------------------------------------------------------------------------------

  /** A `TestLinkAPI` bound to one TestLink installation. `trace` records every request posted
      so far, oldest first. */
  class TestLinkApi {
    const apiUrl: string
    const apiKey: string
    const backend: Request -> Reply
    ghost var trace: seq<Request>

    function Config(): Endpoint
    {
      Endpoint(apiUrl, apiKey, backend)
    }

    /** Every request sent so far carries the configured key. */
    ghost predicate Valid()
      reads this
    {
      KeyedBy(apiKey, trace)
    }

    /** The constructor of src/index.ts:60-63: the XML-RPC path is appended to the base URL. */
    constructor(url: string, key: string, backend: Request -> Reply)
      ensures apiUrl == url + ApiPath && apiKey == key && this.backend == backend
      ensures trace == [] && Valid()
    {
      apiUrl := url + ApiPath;
      apiKey := key;
      this.backend := backend;
      trace := [];
    }

    /** `callAPI` (src/index.ts:65-106): post one request and classify the reply. */
    method CallApi(name: string, params: map<Param, Value>) returns (r: Result<Value>)
      modifies this
      ensures trace == old(trace) + [Envelope(apiKey, name, params)]
      ensures r == Classify(apiUrl, backend(Envelope(apiKey, name, params)))
    {
      var request := Envelope(apiKey, name, params);
      trace := trace + [request];
      r := Classify(apiUrl, backend(request));
    }

    method GetTestCase(testCaseId: Value) returns (r: Result<Value>)
      modifies this
      ensures r == Perform(Config(), ReadCall(testCaseId))
      ensures trace == old(trace) + Issued(Config(), ReadCall(testCaseId))
    {
      var check := ValidateTestCaseId(testCaseId);
      if check.Fail? { return Err(check.error); }
      r := CallApi("tl.getTestCase", map[TestCaseId := testCaseId, Version := Null]);
    }

    method UpdateTestCase(testCaseId: Value, data: Value) returns (r: Result<Value>)
      modifies this
      ensures r == Perform(Config(), UpdateCall(testCaseId, data))
      ensures trace == old(trace) + Issued(Config(), UpdateCall(testCaseId, data))
    {
      var check := ValidateTestCaseId(testCaseId);
      if check.Fail? { return Err(check.error); }
      if !IsObject(data) { return Err("Update data must be an object"); }
      var updateParams := BuildUpdateParams(testCaseId, data);
      UpdateRecordFields(testCaseId, data);
      UpdateRecordUnique(updateParams, UpdateRecord(testCaseId, data), testCaseId, data);
      r := CallApi("tl.updateTestCase", updateParams);
    }

    method CreateTestCase(data: Value) returns (r: Result<Value>)
      modifies this
      ensures r == Perform(Config(), CreateCall(data))
      ensures trace == old(trace) + Issued(Config(), CreateCall(data))
    {
      if !IsObject(data) { return Err("Test case data must be an object"); }
      if !HasRequiredFields(data) { return Err(MissingRequiredFields); }
      var check := CreateChecks(data);
      if check.Fail? { return Err(check.error); }
      r := CallApi("tl.createTestCase", CreateRecord(data));
    }

    method DeleteTestCase(testCaseId: Value) returns (r: Result<Value>)
      modifies this
      ensures r == Perform(Config(), DeleteCall(testCaseId))
      ensures trace == old(trace) + Issued(Config(), DeleteCall(testCaseId))
    {
      var check := ValidateTestCaseId(testCaseId);
      if check.Fail? { return Err(check.error); }
      r := CallApi("tl.deleteTestCase", map[TestCaseId := testCaseId]);
    }

    method GetTestProjects() returns (r: Result<Value>)
      modifies this
      ensures r == Perform(Config(), ProjectsCall())
      ensures trace == old(trace) + Issued(Config(), ProjectsCall())
    {
      r := CallApi("tl.getProjects", map[]);
    }

    method GetTestSuites(projectId: Value) returns (r: Result<Value>)
      modifies this
      ensures r == Perform(Config(), SuitesCall(projectId))
      ensures trace == old(trace) + Issued(Config(), SuitesCall(projectId))
    {
      var check := ValidateProjectId(projectId);
      if check.Fail? { return Err(check.error); }
      r := CallApi("tl.getFirstLevelTestSuitesForTestProject", map[TestProjectId := projectId]);
    }

    method GetTestSuiteById(suiteId: Value) returns (r: Result<Value>)
      modifies this
      ensures r == Perform(Config(), SuiteByIdCall(suiteId))
      ensures trace == old(trace) + Issued(Config(), SuiteByIdCall(suiteId))
    {
      var check := ValidateSuiteId(suiteId);
      if check.Fail? { return Err(check.error); }
      r := CallApi("tl.getTestSuiteByID", map[TestSuiteId := suiteId]);
    }

    method GetTestCasesForTestSuite(suiteId: Value) returns (r: Result<Value>)
      modifies this
      ensures r == Perform(Config(), SuiteCasesCall(suiteId))
      ensures trace == old(trace) + Issued(Config(), SuiteCasesCall(suiteId))
    {
      var check := ValidateSuiteId(suiteId);
      if check.Fail? { return Err(check.error); }
      r := CallApi("tl.getTestCasesForTestSuite",
                   map[TestSuiteId := suiteId, Deep := Bool(true), Details := Str("full")]);
    }

    method SearchTestCases(projectId: Value, searchText: Value) returns (r: Result<Value>)
      modifies this
      ensures r == Perform(Config(), SearchCall(projectId, searchText))
      ensures trace == old(trace) + Issued(Config(), SearchCall(projectId, searchText))
    {
      var check := ValidateProjectId(projectId);
      if check.Fail? { return Err(check.error); }
      check := ValidateNonEmptyString(searchText, "Search text");
      if check.Fail? { return Err(check.error); }
      r := CallApi("tl.getTestCaseIDByName", map[TestCaseName := searchText, TestProjectName := projectId]);
    }

    /** `createTestSuite` (src/index.ts:226-244): `params.parentid` is added only when a
        parent was given. */
    method CreateTestSuite(projectId: Value, suiteName: Value, details: Value, parentId: Value)
      returns (r: Result<Value>)
      modifies this
      ensures r == Perform(Config(), CreateSuiteCall(projectId, suiteName, details, parentId))
      ensures trace == old(trace) + Issued(Config(), CreateSuiteCall(projectId, suiteName, details, parentId))
    {
      var check := ValidateProjectId(projectId);
      if check.Fail? { return Err(check.error); }
      check := ValidateNonEmptyString(suiteName, "Suite name");
      if check.Fail? { return Err(check.error); }
      if Truthy(parentId) {
        check := ValidateSuiteId(parentId);
        if check.Fail? { return Err(check.error); }
      }
      var params := map[TestProjectId := projectId, TestSuiteName := suiteName,
                        Details := DetailsOrDefault(details)];
      if Truthy(parentId) {
        params := params[ParentId := parentId];
      }
      r := CallApi("tl.createTestSuite", params);
    }

    /** `bulkUpdateTestCases` (src/index.ts:206-224): one update per ID, in order, each
        failure caught and recorded. */
    method BulkUpdateTestCases(ids: Value, data: Value) returns (r: Result<Value>)
      modifies this
      ensures r == BulkOutcome(Config(), ids, data)
      ensures trace == old(trace) + BulkCalls(Config(), ids, data)
    {
      if !ids.Arr? || ids.items == [] { return Err(NotAnIdArray); }
      if !IsObject(data) { return Err("Update data must be an object"); }
      var results := UpdateEach(ids.items, data);
      r := Ok(Arr(results));
    }

    /** The loop of src/index.ts:214-222: the update of each ID is attempted in turn and what
        it returned or threw is pushed as that ID's record. */
    method UpdateEach(ids: seq<Value>, data: Value) returns (results: seq<Value>)
      modifies this
      ensures results == BulkRecords(ids, UpdateOutcome(Config(), data))
      ensures trace == old(trace) + BulkRequests(ids, UpdateRequests(Config(), data))
    {
      results := [];
      for i := 0 to |ids|
        invariant results == BulkRecords(ids[..i], UpdateOutcome(Config(), data))
        invariant trace == old(trace) + BulkRequests(ids[..i], UpdateRequests(Config(), data))
      {
        var id := ids[i];
        ghost var before := trace;
        var outcome := UpdateTestCase(id, data);
        UpdateEachStep(Config(), data, ids, i, results, outcome, old(trace), before, trace);
        results := results + [BulkRecord(id, outcome)];
      }
      assert ids[..|ids|] == ids;
    }

    /** `archiveTestCase` (src/index.ts:246-253) with the read summary taken from the record
        `getTestCase` returns; the code's extra `[0]` is modelled by
        `ArchivedSummaryAsWritten`. */
    method ArchiveTestCase(testCaseId: Value) returns (r: Result<Value>)
      modifies this
      ensures r == ArchiveOutcome(Config(), testCaseId)
      ensures trace == old(trace) + ArchiveRequests(Config(), testCaseId)
    {
      var check := ValidateTestCaseId(testCaseId);
      if check.Fail? { return Err(check.error); }
      var read := GetTestCase(testCaseId);
      if read.Err? { return Err(read.error); }
      var summary := ArchivedSummary(read.value);
      if summary.Err? { return Err(summary.error); }
      r := UpdateTestCase(testCaseId, ArchiveData(summary.value));
    }
  }
}
