/** The MCP tool surface of src/index.ts: the advertised tool list (lines 270-479) and the
    `CallTool` handler (lines 481-561), which checks that arguments were sent, dispatches on
    the tool name to one `TestLinkAPI` operation, and turns what the operation returned or
    threw into a tool result. */
module Dispatcher {
  import opened Wrappers
  import opened JsValues
  import opened Validators
  import opened Rpc
  import opened Mappers
  import opened Api

  /** The eleven tools. */
  datatype Tool =
    | ReadTestCase | UpdateTestCase | CreateTestCase | DeleteTestCase | ListProjects
    | ListTestSuites | ListTestCasesInSuite | SearchTestCases | BulkUpdateTestCases
    | CreateTestSuite | ArchiveTestCase

  function ToolName(t: Tool): string
  {
    match t
    case ReadTestCase => "read_test_case"
    case UpdateTestCase => "update_test_case"
    case CreateTestCase => "create_test_case"
    case DeleteTestCase => "delete_test_case"
    case ListProjects => "list_projects"
    case ListTestSuites => "list_test_suites"
    case ListTestCasesInSuite => "list_test_cases_in_suite"
    case SearchTestCases => "search_test_cases"
    case BulkUpdateTestCases => "bulk_update_test_cases"
    case CreateTestSuite => "create_test_suite"
    case ArchiveTestCase => "archive_test_case"
  }

  /** The `switch (name)` of the handler: the tool a name selects, or none (the `default`). */
  function ToolNamed(name: string): Option<Tool>
  {
    if name == "read_test_case" then Some(ReadTestCase)
    else if name == "update_test_case" then Some(UpdateTestCase)
    else if name == "create_test_case" then Some(CreateTestCase)
    else if name == "delete_test_case" then Some(DeleteTestCase)
    else if name == "list_projects" then Some(ListProjects)
    else if name == "list_test_suites" then Some(ListTestSuites)
    else if name == "list_test_cases_in_suite" then Some(ListTestCasesInSuite)
    else if name == "search_test_cases" then Some(SearchTestCases)
    else if name == "bulk_update_test_cases" then Some(BulkUpdateTestCases)
    else if name == "create_test_suite" then Some(CreateTestSuite)
    else if name == "archive_test_case" then Some(ArchiveTestCase)
    else None
  }

  /** Every tool is reached by its own name, and a name reaches a tool only if it is that
      tool's name. */
  lemma ToolNameRoundTrip(t: Tool)
    ensures ToolNamed(ToolName(t)) == Some(t)
  {
  }

  lemma ToolNamedOnlyByName(name: string)
    ensures ToolNamed(name).Some? ==> ToolName(ToolNamed(name).value) == name
  {
  }

  /** The names the `ListTools` handler advertises, in the order of the `tools` array. */
  const AdvertisedTools: seq<string> :=
    ["read_test_case", "update_test_case", "create_test_case", "delete_test_case",
     "list_projects", "list_test_suites", "list_test_cases_in_suite", "search_test_cases",
     "bulk_update_test_cases", "create_test_suite", "archive_test_case"]

  /** The advertised list and the dispatcher agree: every advertised name is dispatched, and
      every tool the dispatcher knows is advertised. */
  lemma AdvertisedToolsDispatched(t: Tool, i: nat)
    ensures i < |AdvertisedTools| ==> ToolNamed(AdvertisedTools[i]).Some?
    ensures ToolName(t) in AdvertisedTools
  {
  }

  /** The tools whose operation issues at most one backend call. */
  predicate IsSingleCall(t: Tool)
  {
    t != BulkUpdateTestCases && t != ArchiveTestCase
  }

  /** The call a single-call tool plans from its arguments, read off `args` the way the
      handler passes them on. */
  function ToolPlan(t: Tool, args: Value): Result<Call>
    requires IsSingleCall(t)
  {
    match t
    case ReadTestCase => ReadCall(Get(args, "test_case_id"))
    case UpdateTestCase => UpdateCall(Get(args, "test_case_id"), Get(args, "data"))
    case CreateTestCase => CreateCall(Get(args, "data"))
    case DeleteTestCase => DeleteCall(Get(args, "test_case_id"))
    case ListProjects => ProjectsCall()
    case ListTestSuites => SuitesCall(Get(args, "project_id"))
    case ListTestCasesInSuite => SuiteCasesCall(Get(args, "suite_id"))
    case SearchTestCases => SearchCall(Get(args, "project_id"), Get(args, "search_text"))
    case CreateTestSuite =>
      CreateSuiteCall(Get(args, "project_id"), Get(args, "suite_name"),
                      OrElse(Get(args, "details"), Str("")), Get(args, "parent_id"))
  }

  /** No argument of a single-call tool can put `devKey` into its record. */
  lemma ToolPlanLeavesKeyAlone(t: Tool, args: Value)
    requires IsSingleCall(t)
    ensures LeavesKeyAlone(ToolPlan(t, args))
  {
    match t
    case ReadTestCase => IdMappersLeaveKeyAlone(Get(args, "test_case_id"));
    case DeleteTestCase => IdMappersLeaveKeyAlone(Get(args, "test_case_id"));
    case ListProjects => IdMappersLeaveKeyAlone(Undefined);
    case ListTestSuites => IdMappersLeaveKeyAlone(Get(args, "project_id"));
    case ListTestCasesInSuite => IdMappersLeaveKeyAlone(Get(args, "suite_id"));
    case UpdateTestCase => UpdateLeavesKeyAlone(Get(args, "test_case_id"), Get(args, "data"));
    case CreateTestCase => CreateLeavesKeyAlone(Get(args, "data"));
    case SearchTestCases =>
      SearchAndSuiteLeaveKeyAlone(Get(args, "project_id"), Get(args, "search_text"), Undefined, Undefined);
    case CreateTestSuite =>
      SearchAndSuiteLeaveKeyAlone(Get(args, "project_id"), Get(args, "suite_name"),
                                  OrElse(Get(args, "details"), Str("")), Get(args, "parent_id"));
  }

  /** What the selected operation returns or throws. */
  function ToolOutcome(e: Endpoint, t: Tool, args: Value): Result<Value>
  {
    if t == BulkUpdateTestCases then BulkOutcome(e, Get(args, "test_case_ids"), Get(args, "data"))
    else if t == ArchiveTestCase then ArchiveOutcome(e, Get(args, "test_case_id"))
    else Perform(e, ToolPlan(t, args))
  }

  /** The requests the selected operation sends. */
  function ToolRequests(e: Endpoint, t: Tool, args: Value): seq<Request>
  {
    if t == BulkUpdateTestCases then BulkCalls(e, Get(args, "test_case_ids"), Get(args, "data"))
    else if t == ArchiveTestCase then ArchiveRequests(e, Get(args, "test_case_id"))
    else Issued(e, ToolPlan(t, args))
  }

  /** A tool result: `{ content: [{ type: 'text', text }] }`, where `text` is the returned
      value serialised, or the same with `isError: true` and the error's message. */
  datatype ToolResult = Content(payload: Value) | ErrorResult(text: string)

  /** What the handler does: return a tool result, or throw to the MCP layer. */
  datatype Handled = Returned(result: ToolResult) | Thrown(message: string)

  /** The `catch` of the handler: every error becomes a tool result. */
  function Report(outcome: Result<Value>): (r: ToolResult)
    ensures r.Content? <==> outcome.Ok?
    ensures r.Content? ==> r.payload == outcome.value
    ensures r.ErrorResult? ==> r.text == "Error: " + outcome.error
  {
    match outcome
    case Ok(v) => Content(v)
    case Err(m) => ErrorResult("Error: " + m)
  }

  /** The handler's answer to a call of tool `name` with `args`. */
  function Respond(e: Endpoint, name: string, args: Value): (h: Handled)
    // only missing arguments escape the handler; everything else becomes a tool result
    ensures h.Thrown? <==> !Truthy(args)
    ensures h.Thrown? ==> h.message == "Missing arguments in request"
    ensures Truthy(args) && ToolNamed(name).None? ==>
              h == Returned(ErrorResult("Error: " + ("Unknown tool: " + name)))
  {
    if !Truthy(args) then Thrown("Missing arguments in request")
    else
      match ToolNamed(name)
      case None => Returned(Report(Err("Unknown tool: " + name)))
      case Some(t) => Returned(Report(ToolOutcome(e, t, args)))
  }

  /** The requests the handler sends for a call of tool `name` with `args`. */
  function Requests(e: Endpoint, name: string, args: Value): (qs: seq<Request>)
    ensures !Truthy(args) || ToolNamed(name).None? ==> qs == []
  {
    if !Truthy(args) then []
    else
      match ToolNamed(name)
      case None => []
      case Some(t) => ToolRequests(e, t, args)
  }

  /** Whatever the tool and the arguments, every request the handler sends carries the
      configured key: no argument can replace `devKey`. */
  lemma HandlerRequestsKeyed(e: Endpoint, name: string, args: Value)
    ensures KeyedBy(e.apiKey, Requests(e, name, args))
    ensures |Requests(e, name, args)| <= 2 || ToolNamed(name) == Some(BulkUpdateTestCases)
  {
    if Truthy(args) && ToolNamed(name).Some? {
      var t := ToolNamed(name).value;
      if t == BulkUpdateTestCases {
        BulkSendsOnlyUpdates(e, Get(args, "test_case_ids"), Get(args, "data"));
      } else if t == ArchiveTestCase {
        ArchiveCarriesKey(e, Get(args, "test_case_id"));
      } else {
        ToolPlanLeavesKeyAlone(t, args);
        IssuedCarriesKey(e, ToolPlan(t, args));
      }
    }
  }

  /** An error code 2000 in the reply to a single-call tool reaches the client as an error
      result carrying both prefixes: the handler's and the one `callAPI` re-throws with. */
  lemma AuthenticationFailureReported(e: Endpoint, name: string, t: Tool, args: Value, first: Value, rest: seq<Value>)
    requires Truthy(args) && ToolNamed(name) == Some(t) && IsSingleCall(t) && ToolPlan(t, args).Ok?
    requires e.backend(Posted(e, ToolPlan(t, args).value)) == Delivered(Arr([first] + rest))
    requires Get(first, "code") == Num(2000)
    ensures Respond(e, name, args)
         == Returned(ErrorResult("Error: " + (Rethrown + "TestLink Authentication Failed: Invalid API key")))
  {
    AuthenticationFailure(e.apiUrl, first, rest);
  }

  // The lemmas below take the tool's name as a parameter fixed by `ToolNamed` rather than as
  // a string literal, which keeps the verifier from comparing literal strings character by
  // character; `ToolNameRoundTrip` shows the only such name is the tool's own.

  /** A delete with an identifier that is not all digits is refused with the validator's
      message and sends nothing. */
  lemma DeleteWithBadIdSendsNothing(e: Endpoint, name: string, args: Value)
    requires ToolNamed(name) == Some(DeleteTestCase)
    requires Truthy(args) && !IsNumericId(Get(args, "test_case_id"))
    ensures Respond(e, name, args)
         == Returned(ErrorResult("Error: " + ("Test case ID" + IdProblem(Get(args, "test_case_id")))))
    ensures Requests(e, name, args) == []
  {
  }

  /** A valid delete sends exactly one `tl.deleteTestCase` for the given identifier. */
  lemma DeleteSendsOneDelete(e: Endpoint, name: string, args: Value)
    requires ToolNamed(name) == Some(DeleteTestCase)
    requires Truthy(args) && IsNumericId(Get(args, "test_case_id"))
    ensures Requests(e, name, args)
         == [Envelope(e.apiKey, "tl.deleteTestCase", map[TestCaseId := Get(args, "test_case_id")])]
  {
  }

  /** A `create_test_case` whose data lacks an author sends nothing and reports the
      missing-fields error. */
  lemma CreateWithoutAuthorSendsNothing(e: Endpoint, name: string, args: Value)
    requires ToolNamed(name) == Some(CreateTestCase)
    requires Truthy(args) && IsObject(Get(args, "data")) && !Truthy(Get(Get(args, "data"), "authorlogin"))
    ensures Respond(e, name, args) == Returned(ErrorResult("Error: " + MissingRequiredFields))
    ensures Requests(e, name, args) == []
  {
    CreateWithoutAuthor(Get(args, "data"));
  }

  /** The `CallTool` handler run against a `TestLinkAPI`. */
  method HandleCallTool(api: TestLinkApi, name: string, args: Value) returns (h: Handled)
    modifies api
    ensures h == Respond(api.Config(), name, args)
    ensures api.trace == old(api.trace) + Requests(api.Config(), name, args)
    ensures old(api.Valid()) ==> api.Valid()
  {
    if !Truthy(args) {
      return Thrown("Missing arguments in request");
    }
    var outcome: Result<Value>;
    match ToolNamed(name) {
      case None =>
        outcome := Err("Unknown tool: " + name);
      case Some(t) =>
        outcome := RunTool(api, t, args);
    }
    h := Returned(Report(outcome));
    if old(api.Valid()) {
      HandlerRequestsKeyed(api.Config(), name, args);
      KeyedByAppend(api.apiKey, old(api.trace), Requests(api.Config(), name, args));
    }
  }

  /** The `switch` cases: each passes its arguments on to one operation. */
  method RunTool(api: TestLinkApi, t: Tool, args: Value) returns (r: Result<Value>)
    modifies api
    ensures r == ToolOutcome(api.Config(), t, args)
    ensures api.trace == old(api.trace) + ToolRequests(api.Config(), t, args)
  {
    match t {
      case ReadTestCase =>
        r := api.GetTestCase(Get(args, "test_case_id"));
      case UpdateTestCase =>
        r := api.UpdateTestCase(Get(args, "test_case_id"), Get(args, "data"));
      case CreateTestCase =>
        r := api.CreateTestCase(Get(args, "data"));
      case DeleteTestCase =>
        r := api.DeleteTestCase(Get(args, "test_case_id"));
      case ListProjects =>
        r := api.GetTestProjects();
      case ListTestSuites =>
        r := api.GetTestSuites(Get(args, "project_id"));
      case ListTestCasesInSuite =>
        r := api.GetTestCasesForTestSuite(Get(args, "suite_id"));
      case SearchTestCases =>
        r := api.SearchTestCases(Get(args, "project_id"), Get(args, "search_text"));
      case BulkUpdateTestCases =>
        r := api.BulkUpdateTestCases(Get(args, "test_case_ids"), Get(args, "data"));
      case CreateTestSuite =>
        r := api.CreateTestSuite(Get(args, "project_id"), Get(args, "suite_name"),
                                 OrElse(Get(args, "details"), Str("")), Get(args, "parent_id"));
      case ArchiveTestCase =>
        r := api.ArchiveTestCase(Get(args, "test_case_id"));
    }
  }
}
