# TestLink MCP server: a Dafny model of its request layer

The TestLink MCP server exposes eleven tools (read, update, create, delete, list, search,
bulk-update and archive test cases; list projects and suites; create suites) over the Model
Context Protocol. All of its logic is in `src/index.ts`. This project models that logic:

- **Argument validators** (`validators.dfy`). These are `validateTestCaseId`,
  `validateProjectId`, `validateSuiteId` and `validateNonEmptyString`. Each passes or fails
  with a fixed message.
- **JavaScript values** (`js_values.dfy`). Tool arguments and backend replies are loosely
  typed, so they are modelled as a `Value` datatype. The module also holds the JavaScript
  rules the code depends on: truthiness, `typeof … === 'object'`, property reads that throw
  on `null`/`undefined` (with V8's message), `String(v)` and `trim()`.
- **`callAPI`** (`rpc.dfy`). This covers the request envelope `{ devKey, ...params }` and
  the classification of a reply. Backend error codes 2000, 3000, 7000 and any other code are
  covered, as are the transport conditions ECONNREFUSED, ETIMEDOUT, 404 and 5xx. The result
  is either the returned value or the message thrown.
- **The parameter mappers** (`mappers.dfy`). There is one pure *plan* per `TestLinkAPI`
  method. A plan is the validation error, or the one backend call (method name and
  parameter record) that the method makes. `updateTestCase`'s field-by-field construction
  is also modelled as the imperative method the source has.
- **The `TestLinkAPI` class** (`api.dfy`). It holds the configured URL and key and a backend
  oracle (request → reply). A ghost `trace` records every request posted. Each method is
  proved to return what the specification function says and to append exactly the specified
  requests to the trace. This covers the loop of `bulkUpdateTestCases` and the read-then-update
  of `archiveTestCase`.
- **The `CallTool` handler** (`dispatcher.dfy`). It checks that arguments are present,
  switches on the tool name, and turns every error into an `Error: …` tool result. It also
  agrees with the advertised tool list.

Where the project's design documentation describes behaviour that `src/index.ts` does not
have, the model follows the code. The one exception is the summary that `archiveTestCase`
reads back: the code as written is modelled and its defect exhibited (see "## Findings"),
and the class method, and so the `archive_test_case` tool, uses the corrected reading.
Elsewhere:

- Only all-digit test-case IDs are accepted. There is no external `PREFIX-digits` form and
  no numeric-suffix extraction.
- IDs are sent as strings, not converted to integers.
- `delete_test_case` sends a real `tl.deleteTestCase` rather than a status-7 update.
- There is no "unsupported operation" error, and only the eleven tools exist.
- Errors reach the client as the text `Error: <message>`, not as a structured record.
- A call without arguments throws past the handler instead of becoming an error result.
- The errors that `callAPI` classifies by code are wrapped a second time with
  `API call failed: `, because they are thrown inside its own `try`. This is modelled as
  written.

## Model

| member | source | states |
|---|---|---|
| JsValues.Get | src/index.ts:126-132 | a named property of an object is its field, and of anything else is `undefined` |
| JsValues.Index0 | src/index.ts:77-78 | `v[0]` is the first element of a non-empty array, the first character of a non-empty string, and `undefined` on primitives |
| JsValues.ReadProperty | src/index.ts:251 | reading a property throws exactly on `null`/`undefined`, and otherwise yields the property |
| JsValues.ReadIndex0 | src/index.ts:77 | `data[0]` throws exactly on `null`/`undefined` data, and otherwise yields element 0 |
| JsValues.TrimEmptyIffAllWhitespace | src/index.ts:51 | `s.trim().length === 0` holds exactly when every character of `s` is ECMAScript whitespace |
| Validators.MatchesDigits | src/index.ts:27 | `/^\d+$/` matches exactly the non-empty strings of ASCII digits |
| Validators.ValidateNumericId | src/index.ts:23-48 | passes exactly on non-empty all-digit strings; otherwise fails with "must be a non-empty string" for falsy or non-string input and with "must contain only digits" for any other string |
| Validators.ValidateTestCaseId | src/index.ts:23-30 | the same, with subject "Test case ID" |
| Validators.ValidateProjectId | src/index.ts:32-39 | the same, with subject "Project ID" |
| Validators.ValidateSuiteId | src/index.ts:41-48 | the same, with subject "Suite ID" |
| Validators.ValidateNonEmptyString | src/index.ts:50-54 | passes exactly on strings that are not whitespace only; the failure message names the field |
| Validators.ExternalFormRejected | src/index.ts:27-29 | the external form `ACX-50140` is rejected as not all digits |
| Validators.DigitsAccepted | src/index.ts:27 | `50140` is accepted |
| Validators.NumberIdRejected | src/index.ts:33-35 | a number, even a positive one, is rejected as not a non-empty string |
| Rpc.WireNameRoundTrip | src/index.ts:110-243 | every backend parameter name denotes exactly one parameter, so a record keyed by parameter determines the record on the wire |
| Rpc.WireNamesDistinct | src/index.ts:110-243 | no two parameters share a backend name |
| Rpc.Envelope | src/index.ts:66-69 | the posted record has the mapper's keys plus `devKey`; the mapper's values are kept, and `devKey` is the configured key unless the mapper set it |
| Rpc.BackendErrorMessage | src/index.ts:78-90 | codes 2000, 3000 and 7000 give the authentication, permission and not-found messages; any other code gives `TestLink API Error (code): message`, where a falsy message reads `Unknown error` |
| Rpc.Classify | src/index.ts:71-105 | a result is returned only for a delivered reply whose first element has a falsy `code`, and it is that element; a truthy code throws the code's message with the `API call failed: ` prefix; a null body throws the prefixed TypeError; a transport failure throws its own message |
| Rpc.AuthenticationFailure | src/index.ts:82-83 | code 2000 surfaces as `API call failed: TestLink Authentication Failed: Invalid API key` |
| Rpc.BackendCodesAlwaysFail | src/index.ts:77-104 | any truthy code fails, and its message starts with `API call failed: ` |
| Rpc.ConnectionConditionsFirst | src/index.ts:95-98 | ECONNREFUSED and ETIMEDOUT give their messages whatever the HTTP status |
| Rpc.OtherTransportFailures | src/index.ts:99-104 | any other transport failure with no 404 or 5xx status gives `API call failed: <message>` |
| Mappers.Gate | src/index.ts:109-110 | a failed validation ends the operation with its message, before the call |
| Mappers.ReadCall | src/index.ts:108-114 | a call is planned exactly for a numeric ID; it is `tl.getTestCase` with exactly `testcaseid` and `version: null` |
| Mappers.UpdateRecordFields | src/index.ts:122-132 | the update record has the ID and only the optional fields the caller supplied, each carrying the caller's value |
| Mappers.UpdateRecordText | src/index.ts:126-129 | `testcasename` (from `name`), `summary`, `preconditions` and `steps` are present exactly when the caller's value is truthy |
| Mappers.UpdateRecordNumbers | src/index.ts:130-132 | `importance`, `executiontype` (from `execution_type`) and `status` are present exactly when not `undefined`, 0 included |
| Mappers.UpdateRecordUnique | src/index.ts:122-132 | the field-by-field description determines the record |
| Mappers.BuildUpdateParams | src/index.ts:122-132 | the record built by seven conditional assignments satisfies the field-by-field description |
| Mappers.UpdateCall | src/index.ts:116-135 | a non-numeric ID is rejected first and non-object data second, both before any call; otherwise one `tl.updateTestCase` with the update record |
| Mappers.OrElse | src/index.ts:154-159 | JavaScript's logical-or default is `v` when `v` is truthy and `fallback` otherwise |
| Mappers.CreateCall | src/index.ts:137-163 | non-object data is rejected first; a missing required field is reported with the one message listing all four, before any format check; then the project ID, the suite ID, the name and the author are checked in that order, each failure with its own message; a call is planned exactly when all pass |
| Mappers.CreateRecordDefaults | src/index.ts:149-160 | the create record has exactly ten fields; falsy optional values, a supplied 0 included, take the defaults `''`, `''`, `[]`, 2, 1, 1 |
| Mappers.CreateWithoutAuthor | src/index.ts:141-142 | data without an author is rejected with the missing-fields message, whatever else it holds |
| Mappers.DeleteCall | src/index.ts:165-168 | a numeric ID plans a real `tl.deleteTestCase` with only `testcaseid`; anything else is rejected |
| Mappers.ProjectsCall | src/index.ts:170-172 | `tl.getProjects` with an empty record, always |
| Mappers.SuitesCall | src/index.ts:174-179 | a numeric project ID plans `tl.getFirstLevelTestSuitesForTestProject` with only `testprojectid` |
| Mappers.SuiteByIdCall | src/index.ts:181-186 | a numeric suite ID plans `tl.getTestSuiteByID` with only `testsuiteid` |
| Mappers.SuiteCasesCall | src/index.ts:188-195 | a numeric suite ID plans `tl.getTestCasesForTestSuite` with `deep: true` and `details: 'full'` |
| Mappers.SearchCall | src/index.ts:197-204 | a call is planned exactly for a numeric project ID and a non-blank search text; the project ID is checked first; the text goes in `testcasename` and the project ID in `testprojectname` |
| Mappers.SuiteRecord | src/index.ts:233-241 | the suite record has `parentid` exactly when a parent was given, and `details` defaults to `''` only when `undefined` |
| Mappers.CreateSuiteCall | src/index.ts:226-244 | a call is planned exactly for a numeric project ID, a non-blank name and a parent that is absent or numeric; the project ID, the name and a given parent are checked in that order, each failure with its own message |
| Mappers.IdMappersLeaveKeyAlone | src/index.ts:108-195 | the read, delete, project and suite plans never put `devKey` in their record |
| Mappers.SearchAndSuiteLeaveKeyAlone | src/index.ts:197-244 | the search and create-suite plans never put `devKey` in their record |
| Mappers.UpdateLeavesKeyAlone | src/index.ts:122-132 | no update data can put `devKey` in the update record |
| Mappers.CreateLeavesKeyAlone | src/index.ts:149-160 | no create data can put `devKey` in the create record |
| Api.IssuedCarriesKey | src/index.ts:65-69 | a plan that leaves `devKey` alone sends only requests keyed by the configured key, and a rejected plan sends nothing |
| Api.KeyedByAppend | src/index.ts:65-69 | keyed request sequences stay keyed when concatenated |
| Api.BulkRecord | src/index.ts:218-220 | the per-ID record carries the ID, `success` equal to whether the update returned, and the result or the error message |
| Api.BulkRecordsPerId | src/index.ts:214-223 | one record per ID, in input order, each built from that ID's own outcome |
| Api.BulkReportsEachUpdate | src/index.ts:215-221 | record k reports the outcome of updating ID k with the shared data |
| Api.BulkStep | src/index.ts:215-222 | one more iteration appends one record and that ID's requests |
| Api.UpdateEachStep | src/index.ts:215-221 | one iteration, updating ID i, extends the records and requests of the first i IDs to those of the first i + 1 |
| Api.BulkRequestsAreUpdates | src/index.ts:215-222 | the loop sends at most one request per ID, each an update carrying the key |
| Api.UpdateSendsOneKeyedUpdate | src/index.ts:116-134 | a single update sends at most one request, a keyed `tl.updateTestCase` |
| Api.UpdateRequestsAreUpdates | src/index.ts:217 | the same holds for the update of every ID |
| Api.BulkSendsOnlyUpdates | src/index.ts:206-224 | a bulk update sends at most one keyed `tl.updateTestCase` per ID and nothing else |
| Api.BulkRejectsBeforeCalls | src/index.ts:207-212 | an empty or non-array ID list, or non-object data, fails before any call |
| Api.ArchivedSummaryAsWritten | src/index.ts:251 | the code's `(…)[0].summary` throws exactly when the record or its element 0 is nullish |
| Api.ArchivedSummary | src/index.ts:251 | corrected: throws exactly on a nullish record, and otherwise gives `[ARCHIVED] ` followed by the record's summary |
| Api.ArchiveUpdateRecord | src/index.ts:249-252 | the archiving update sends exactly the ID, the new summary and `status: 7` |
| Api.ArchiveReadsFirst | src/index.ts:246-253 | archiving a valid ID first sends the `tl.getTestCase` read; a failed read sends nothing else and its error is the outcome |
| Api.ArchiveUpdatesAfterRead | src/index.ts:246-253 | corrected reading: after a successful read exactly one update follows, with status 7 and the prefixed summary read, and its outcome is the outcome of archiving |
| Api.ArchiveCarriesKey | src/index.ts:246-253 | archiving sends at most two requests, each keyed |
| Api.ArchiveAsWrittenStopsAfterRead | src/index.ts:246-253 | as written: when the record read back is a plain object, archiving sends only the read and throws the TypeError of `.summary` on `undefined` |
| Api.ArchivedSummaryOfPlainRecord | src/index.ts:251 | on `{ summary: "Login works" }` the code as written throws, while the corrected reading gives `[ARCHIVED] Login works` |
| Api.TestLinkApi.constructor | src/index.ts:60-63 | the API URL is the base URL with the XML-RPC path appended; nothing has been sent |
| Api.TestLinkApi.CallApi | src/index.ts:65-106 | posts exactly one envelope and returns its classification |
| Api.TestLinkApi.GetTestCase | src/index.ts:108-114 | returns the read plan's outcome and sends exactly the plan's requests |
| Api.TestLinkApi.UpdateTestCase | src/index.ts:116-135 | the same for the update plan, with the record built by mutation |
| Api.TestLinkApi.CreateTestCase | src/index.ts:137-163 | the same for the create plan |
| Api.TestLinkApi.DeleteTestCase | src/index.ts:165-168 | the same for the delete plan |
| Api.TestLinkApi.GetTestProjects | src/index.ts:170-172 | the same for the projects plan |
| Api.TestLinkApi.GetTestSuites | src/index.ts:174-179 | the same for the first-level suites plan |
| Api.TestLinkApi.GetTestSuiteById | src/index.ts:181-186 | the same for the suite-by-ID plan |
| Api.TestLinkApi.GetTestCasesForTestSuite | src/index.ts:188-195 | the same for the suite-cases plan |
| Api.TestLinkApi.SearchTestCases | src/index.ts:197-204 | the same for the search plan |
| Api.TestLinkApi.CreateTestSuite | src/index.ts:226-244 | the same for the create-suite plan, with `parentid` added by mutation |
| Api.TestLinkApi.BulkUpdateTestCases | src/index.ts:206-224 | returns the array of per-ID records, or the argument error, and sends the bulk requests |
| Api.TestLinkApi.UpdateEach | src/index.ts:214-223 | the loop returns exactly the per-ID records and appends exactly each ID's update requests, in order |
| Api.TestLinkApi.ArchiveTestCase | src/index.ts:246-253 | corrected reading: returns the archive outcome and sends the read and then, if it succeeds, the update |
| Dispatcher.ToolNameRoundTrip | src/index.ts:490-550 | every tool is reached by its own name |
| Dispatcher.ToolNamedOnlyByName | src/index.ts:490-550 | a name reaches a tool only if it is that tool's name |
| Dispatcher.AdvertisedToolsDispatched | src/index.ts:270-479 | every advertised tool name is dispatched, and every dispatched tool is advertised |
| Dispatcher.ToolPlanLeavesKeyAlone | src/index.ts:490-548 | no tool argument can put `devKey` into a single-call tool's record |
| Dispatcher.Report | src/index.ts:553-560 | a returned value becomes content; an error becomes `Error: <message>` |
| Dispatcher.Respond | src/index.ts:481-562 | the handler throws exactly when the arguments are missing; an unknown tool gives `Error: Unknown tool: <name>` |
| Dispatcher.Requests | src/index.ts:481-552 | missing arguments or an unknown tool send nothing |
| Dispatcher.HandlerRequestsKeyed | src/index.ts:481-552 | every request any tool call sends carries the configured key; only bulk update sends more than two |
| Dispatcher.AuthenticationFailureReported | src/index.ts:82-104 | code 2000 in the reply to a single-call tool reaches the client as `Error: API call failed: TestLink Authentication Failed: Invalid API key` |
| Dispatcher.DeleteWithBadIdSendsNothing | src/index.ts:505-507 | a delete with a non-numeric ID reports the validator's message and sends nothing |
| Dispatcher.DeleteSendsOneDelete | src/index.ts:505-507 | a delete with a numeric ID sends exactly one keyed `tl.deleteTestCase` for that ID |
| Dispatcher.CreateWithoutAuthorSendsNothing | src/index.ts:500-502 | a create without an author reports the missing-fields message and sends nothing |
| Dispatcher.HandleCallTool | src/index.ts:481-562 | returns the specified response, appends exactly the specified requests, and keeps the trace keyed |
| Dispatcher.RunTool | src/index.ts:489-548 | each case passes its arguments to its operation, so its outcome and requests are the tool's |

## Left out

- The HTTP POST itself is not modelled: the axios call, its 30-second timeout and its JSON
  headers. The backend is a function from request to reply (`Delivered` body or `Failed`
  with code, status and message). Each reply depends only on the request, so a backend whose
  answers change between calls is not captured.
- The MCP `Server`, its stdio transport, `main` and the `ListTools` handler are not
  modelled; they are SDK plumbing. Only the tool names of the `tools` array are modelled, as
  `AdvertisedTools`; the input schemas are data.
- Startup is not modelled: `dotenv`, the environment defaults and `process.exit` on a
  missing key.
- Asynchrony is not modelled. Every `await` is treated as sequential.
- `JSON.stringify` is not modelled. A successful tool result carries the returned value
  itself, not its pretty-printed text.
- Numbers are integers. Floating point, `NaN`, `-0` and non-integer codes or statuses are
  not modelled.
- `String(v)` of an object is always `[object Object]`; custom `toString` is not modelled.
- Record keys are the finite `Param` enumeration rather than strings. `Rpc.WireNameRoundTrip`
  shows this loses nothing: no two parameters share a backend name.
- TypeScript's `as string` casts are not modelled, because they do nothing at run time. The
  model passes whatever value the arguments hold.
- `test.js` is not part of this model. It is a connection smoke test over an external
  client.
- Api.TestLinkApi.ArchiveTestCase: follows the corrected `.summary` read of `ArchivedSummary`, not the code's `[0].summary`; so for a plain record it sends the update the program never sends, and the `archive_test_case` path of `Dispatcher.HandleCallTool` inherits this. The code as written is `ArchiveOutcomeAsWritten`/`ArchiveRequestsAsWritten`, with `Api.ArchiveAsWrittenStopsAfterRead`.
- Api.ArchiveUpdatesAfterRead: states the corrected behaviour; as written, a successful read of a plain record throws at src/index.ts:251 and sends no update (`Api.ArchiveAsWrittenStopsAfterRead`).
- JsValues.Index0: strings are sequences of Unicode scalar values, not UTF-16 code units, so `s[0]` of a string starting outside the Basic Multilingual Plane is the whole character rather than a lone surrogate. Every other use of characters (the digit pattern, `trim`, truthiness, concatenation) agrees under either encoding.
- Dispatcher.Respond: a successful tool result is modelled as the returned value, not the
  `{ type: 'text', text }` content array around its serialisation.

## Findings

| source | as written | input that shows it | evidently intended | confidence | as-written member | corrected member |
|---|---|---|---|---|---|---|
| src/index.ts:251 | `(await this.getTestCase(id))[0].summary` indexes again the record that `callAPI` has already taken as element 0 of the reply (src/index.ts:93) | a test case whose record is `{ summary: "Login works" }`: the `[0]` of an object is `undefined`, so reading `.summary` throws `Cannot read properties of undefined (reading 'summary')`, and nothing is archived | `'[ARCHIVED] ' + (await this.getTestCase(id)).summary`, giving `[ARCHIVED] Login works` | high (not executed) | Api.ArchivedSummaryAsWritten, Api.ArchivedSummaryOfPlainRecord, Api.ArchiveAsWrittenStopsAfterRead | Api.ArchivedSummary |
