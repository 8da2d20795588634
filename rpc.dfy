/** The request envelope and the reply classification of `TestLinkAPI.callAPI`
    (src/index.ts:65-106). The HTTP POST itself is not modelled: what it produces is a
    `Reply`, which `Classify` turns into the value `callAPI` returns or the message it throws. */
module Rpc {
  import opened Wrappers
  import opened JsValues

  /** The path `callAPI` posts to, appended to the configured base URL by the constructor. */
  const ApiPath := "/lib/api/xmlrpc/v1/xmlrpc.php"

  /** The parameter names the mappers and `callAPI` put in a request record. A record is keyed
      by these; `WireName` gives the name each carries on the wire. */
  datatype Param =
    | DevKey | TestCaseId | Version | TestCaseName | Summary | Preconditions | Steps
    | Importance | ExecutionType | Status | TestProjectId | TestSuiteId | AuthorLogin
    | Deep | Details | TestProjectName | TestSuiteName | ParentId

  function WireName(p: Param): string
  {
    match p
    case DevKey => "devKey"
    case TestCaseId => "testcaseid"
    case Version => "version"
    case TestCaseName => "testcasename"
    case Summary => "summary"
    case Preconditions => "preconditions"
    case Steps => "steps"
    case Importance => "importance"
    case ExecutionType => "executiontype"
    case Status => "status"
    case TestProjectId => "testprojectid"
    case TestSuiteId => "testsuiteid"
    case AuthorLogin => "authorlogin"
    case Deep => "deep"
    case Details => "details"
    case TestProjectName => "testprojectname"
    case TestSuiteName => "testsuitename"
    case ParentId => "parentid"
  }

  /** The parameter a wire name denotes, if any. */
  function ParamNamed(s: string): Option<Param>
  {
    if s == "devKey" then Some(DevKey)
    else if s == "testcaseid" then Some(TestCaseId)
    else if s == "version" then Some(Version)
    else if s == "testcasename" then Some(TestCaseName)
    else if s == "summary" then Some(Summary)
    else if s == "preconditions" then Some(Preconditions)
    else if s == "steps" then Some(Steps)
    else if s == "importance" then Some(Importance)
    else if s == "executiontype" then Some(ExecutionType)
    else if s == "status" then Some(Status)
    else if s == "testprojectid" then Some(TestProjectId)
    else if s == "testsuiteid" then Some(TestSuiteId)
    else if s == "authorlogin" then Some(AuthorLogin)
    else if s == "deep" then Some(Deep)
    else if s == "details" then Some(Details)
    else if s == "testprojectname" then Some(TestProjectName)
    else if s == "testsuitename" then Some(TestSuiteName)
    else if s == "parentid" then Some(ParentId)
    else None
  }

  /** Every parameter is recovered from its wire name, so no two parameters share a name and a
      record keyed by `Param` determines the record on the wire. */
  lemma WireNameRoundTrip(p: Param)
    ensures ParamNamed(WireName(p)) == Some(p)
  {
  }

  lemma WireNamesDistinct(p: Param, q: Param)
    ensures WireName(p) == WireName(q) ==> p == q
  {
    WireNameRoundTrip(p);
    WireNameRoundTrip(q);
  }

  /** One request as posted: the backend method name and the single parameter record. */
  datatype Request = Request(name: string, record: map<Param, Value>)

  /** What the POST produced: a 2xx reply whose body parsed to `data`, or a rejection carrying
      the client error's `code` (e.g. "ECONNREFUSED"), its `response.status` and its `message`. */
  datatype Reply =
    | Delivered(data: Value)
    | Failed(code: Option<string>, status: Option<int>, message: string)

  /** `{ method, params: [{ devKey: apiKey, ...params }] }`: the key first, then the mapper's
      fields spread over it. */
  function Envelope(apiKey: string, name: string, params: map<Param, Value>): (q: Request)
    ensures q.name == name
    ensures q.record.Keys == params.Keys + {DevKey}
    ensures forall k :: k in params ==> q.record[k] == params[k]
    ensures DevKey !in params ==> q.record[DevKey] == Str(apiKey)
  {
    Request(name, map[DevKey := Str(apiKey)] + params)
  }

  /** The message thrown for a reply whose first element carries a truthy `code`
      (src/index.ts:78-90); `message` falls back to 'Unknown error' when falsy. */
  function BackendErrorMessage(code: Value, message: Value): (m: string)
    ensures code == Num(2000) ==> m == "TestLink Authentication Failed: Invalid API key"
    ensures code == Num(3000) ==> m == "TestLink Permission Denied: " + ErrorText(message)
    ensures code == Num(7000) ==> m == "TestLink Object Not Found: " + ErrorText(message)
    ensures code !in {Num(2000), Num(3000), Num(7000)} ==>
              m == "TestLink API Error (" + ToJsString(code) + "): " + ErrorText(message)
  {
    var text := ErrorText(message);
    if code == Num(2000) then "TestLink Authentication Failed: Invalid API key"
    else if code == Num(3000) then "TestLink Permission Denied: " + text
    else if code == Num(7000) then "TestLink Object Not Found: " + text
    else "TestLink API Error (" + ToJsString(code) + "): " + text
  }

  /** `message || 'Unknown error'` rendered into a template. */
  function ErrorText(message: Value): string
  {
    if Truthy(message) then ToJsString(message) else "Unknown error"
  }

  /** The `catch` block of `callAPI` (src/index.ts:94-105) applied to a client error. */
  function TransportMessage(apiUrl: string, code: Option<string>, status: Option<int>, message: string): string
  {
    if code == Some("ECONNREFUSED") then
      "Cannot connect to TestLink at " + apiUrl + ". Please check TESTLINK_URL."
    else if code == Some("ETIMEDOUT") then
      "TestLink API request timed out after 30 seconds"
    else if status == Some(404) then
      "TestLink API endpoint not found. Please check TestLink configuration."
    else if status.Some? && status.value >= 500 then
      "TestLink server error (" + IntToDecimal(status.value) + "): " + message
    else
      "API call failed: " + message
  }

  /** Everything thrown inside the `try` of `callAPI` other than a client error (the
      code-classified errors and a `TypeError` on a `null` body) has no `code` and no
      `response`, so the `catch` re-throws it with this prefix. */
  const Rethrown := "API call failed: "

  /** What `callAPI` returns (`Ok`) or throws (`Err`) for a reply (src/index.ts:77-105). */
  function Classify(apiUrl: string, reply: Reply): (r: Result<Value>)
    // a reply whose first element is error-coded never reaches the caller
    ensures r.Ok? ==> reply.Delivered? && !Truthy(Get(r.value, "code"))
    ensures reply.Failed? ==> r == Err(TransportMessage(apiUrl, reply.code, reply.status, reply.message))
    ensures reply.Delivered? && IsNullish(reply.data) ==> r == Err(Rethrown + TypeErrorReading(reply.data, "0"))
    ensures reply.Delivered? && !IsNullish(reply.data) ==>
              var first := Index0(reply.data);
              var code := Get(first, "code");
              if Truthy(code) then r == Err(Rethrown + BackendErrorMessage(code, Get(first, "message")))
              else r == Ok(first)
  {
    match reply
    case Failed(code, status, message) => Err(TransportMessage(apiUrl, code, status, message))
    case Delivered(data) =>
      if IsNullish(data) then Err(Rethrown + TypeErrorReading(data, "0"))
      else
        var first := Index0(data);
        // `first?.code`: nullish `first` yields undefined, which is falsy
        var code := Get(first, "code");
        if Truthy(code) then Err(Rethrown + BackendErrorMessage(code, Get(first, "message")))
        else Ok(first)
  }

  /** An error code 2000 from any method surfaces as the authentication failure, wrapped
      once more by the `catch` of `callAPI`. */
  lemma AuthenticationFailure(apiUrl: string, first: Value, rest: seq<Value>)
    requires Get(first, "code") == Num(2000)
    ensures Classify(apiUrl, Delivered(Arr([first] + rest)))
         == Err(Rethrown + "TestLink Authentication Failed: Invalid API key")
  {
    assert ([first] + rest)[0] == first;
  }

  /** Every reply the backend marks with a truthy code is an error, whatever else it holds,
      and its message carries the `callAPI` prefix. */
  lemma BackendCodesAlwaysFail(apiUrl: string, data: Value)
    requires !IsNullish(data) && Truthy(Get(Index0(data), "code"))
    ensures Classify(apiUrl, Delivered(data)).Err?
    ensures |Rethrown| <= |Classify(apiUrl, Delivered(data)).error|
    ensures Classify(apiUrl, Delivered(data)).error[..|Rethrown|] == Rethrown
  {
  }

  /** The two named connection conditions are reported before any HTTP status is looked at. */
  lemma ConnectionConditionsFirst(apiUrl: string, status: Option<int>, message: string)
    ensures Classify(apiUrl, Failed(Some("ECONNREFUSED"), status, message))
         == Err("Cannot connect to TestLink at " + apiUrl + ". Please check TESTLINK_URL.")
    ensures Classify(apiUrl, Failed(Some("ETIMEDOUT"), status, message))
         == Err("TestLink API request timed out after 30 seconds")
  {
  }

  /** A rejection with neither a named code nor a 404 or 5xx status passes its own message
      through, prefixed. */
  lemma OtherTransportFailures(apiUrl: string, code: Option<string>, status: Option<int>, message: string)
    requires code != Some("ECONNREFUSED") && code != Some("ETIMEDOUT")
    requires status.Some? ==> status.value != 404 && status.value < 500
    ensures Classify(apiUrl, Failed(code, status, message)) == Err("API call failed: " + message)
  {
  }
}
