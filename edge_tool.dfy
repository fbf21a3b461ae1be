/** The edge compute tool of skills/edge_tool.py: the endpoint URL is the
    configured base with its trailing slashes removed and `/solve` appended,
    the tool describes itself to a language model with a fixed JSON schema,
    and `execute` turns the outcome of one HTTP POST into one of three reply
    shapes. The request itself is not made here: its outcome is an input. */
module EdgeTool {
  import opened Wrappers
  import opened Strings
  import opened Decimal

  const ToolName: string := "edge_compute_sandbox"
  const ToolDescription: string :=
    "Execute complex math, physics, or coding tasks in a secure local physical sandbox. "
    + "Use this ONLY when deterministic calculation or code execution is required. "
    + "Do NOT use this for general knowledge queries."
  const SolvePath: string := "/solve"
  const ParameterName: string := "task_instruction"
  const ParameterDescription: string :=
    "The natural language instruction or math problem for the physical machine to solve (e.g., 'Calculate 2^10')."
  const TimeoutSeconds: nat := 10

  const StatusPrefix: string := "Tool Execution Status: "
  const ReceiptInfix: string := ". Receipt: "
  const FailedPrefix: string := "Tool Execution Failed with status code: "
  const ErrorPrefix: string := "Tool Execution Error (Edge node might be offline): "

  /** A JSON value as the tool builds it; an object keeps its keys in
      insertion order, as a Python dict does. */
  datatype Json =
    | JNull
    | JString(str: string)
    | JArray(items: seq<Json>)
    | JObject(members: seq<(string, Json)>)

  function Lookup(members: seq<(string, Json)>, key: string): Option<Json> {
    if members == [] then None
    else if members[0].0 == key then Some(members[0].1)
    else Lookup(members[1..], key)
  }

  /** The value of the first member whose key matches is what a lookup finds. */
  lemma {:induction false} LookupFirst(members: seq<(string, Json)>, key: string, i: nat)
    requires i < |members| && members[i].0 == key
    requires forall j :: 0 <= j < i ==> members[j].0 != key
    ensures Lookup(members, key) == Some(members[i].1)
  {
    if i > 0 {
      LookupFirst(members[1..], key, i - 1);
    }
  }

  /** `j[key]` for an object, `None` when the key is absent or `j` is not an object. */
  function Member(j: Json, key: string): Option<Json> {
    if j.JObject? then Lookup(j.members, key) else None
  }

  /** `j[path[0]][path[1]]...`. */
  function At(j: Json, path: seq<string>): Option<Json>
    decreases |path|
  {
    if path == [] then Some(j)
    else match Member(j, path[0])
      case None => None
      case Some(child) => At(child, path[1..])
  }

  function Keys(j: Json): seq<string> {
    if j.JObject? then seq(|j.members|, i requires 0 <= i < |j.members| => j.members[i].0) else []
  }

  // ---------------------------------------------------------------------
  // The endpoint URL

  /** `s.rstrip('/')`. The result is the longest prefix of `s` that does not
      end in `/` such that only slashes follow it. */
  function RStripSlash(s: string): (r: string)
    ensures |r| <= |s| && r == s[..|r|]
    ensures forall i :: |r| <= i < |s| ==> s[i] == '/'
    ensures r == [] || r[|r| - 1] != '/'
  {
    if s != [] && s[|s| - 1] == '/' then RStripSlash(s[..|s| - 1]) else s
  }

  /** `k` slashes. */
  function Slashes(k: nat): (s: string)
    ensures |s| == k && forall i :: 0 <= i < k ==> s[i] == '/'
  {
    seq(k, _ => '/')
  }

  /** The three properties in RStripSlash's contract single out its result. */
  lemma RStripSlashUnique(s: string, r: string)
    requires |r| <= |s| && r == s[..|r|]
    requires forall i :: |r| <= i < |s| ==> s[i] == '/'
    requires r == [] || r[|r| - 1] != '/'
    ensures r == RStripSlash(s)
  {
    var t := RStripSlash(s);
    assert t != [] ==> t[|t| - 1] == s[|t| - 1];
    assert r != [] ==> r[|r| - 1] == s[|r| - 1];
  }

  /** Stripping twice is stripping once. */
  lemma RStripSlashIdempotent(s: string)
    ensures RStripSlash(RStripSlash(s)) == RStripSlash(s)
  {
    var r := RStripSlash(s);
    RStripSlashUnique(r, r);
  }

  /** Slashes added at the end make no difference. */
  lemma RStripSlashIgnoresSlashes(s: string, k: nat)
    ensures RStripSlash(s + Slashes(k)) == RStripSlash(s)
  {
    var r := RStripSlash(s);
    var t := s + Slashes(k);
    assert t[..|r|] == s[..|r|];
    RStripSlashUnique(t, r);
  }

  datatype EdgeComputeTool = EdgeComputeTool(apiUrl: string, name: string, description: string)

  /** `EdgeComputeTool(cpolar_url)`: the URL is the base without its trailing
      slashes followed by `/solve`; name and description are fixed. */
  function NewEdgeComputeTool(cpolarUrl: string): (tool: EdgeComputeTool)
    ensures tool.name == "edge_compute_sandbox" && tool.description == ToolDescription
    ensures |tool.apiUrl| >= |SolvePath|
    ensures tool.apiUrl[|tool.apiUrl| - |SolvePath|..] == "/solve"
    ensures var base := tool.apiUrl[..|tool.apiUrl| - |SolvePath|];
      && |base| <= |cpolarUrl| && base == cpolarUrl[..|base|]
      && (forall i :: |base| <= i < |cpolarUrl| ==> cpolarUrl[i] == '/')
      && (base == [] || base[|base| - 1] != '/')
  {
    var url := RStripSlash(cpolarUrl) + SolvePath;
    assert url[..|url| - |SolvePath|] == RStripSlash(cpolarUrl);
    EdgeComputeTool(url, ToolName, ToolDescription)
  }

  /** A base URL and the same URL with any number of slashes appended give
      the same endpoint. */
  lemma ApiUrlIgnoresTrailingSlashes(cpolarUrl: string, k: nat)
    ensures NewEdgeComputeTool(cpolarUrl + Slashes(k)).apiUrl == NewEdgeComputeTool(cpolarUrl).apiUrl
  {
    RStripSlashIgnoresSlashes(cpolarUrl, k);
  }

  /** Building a tool from an endpoint's own base gives the same endpoint:
      the normalisation is idempotent. */
  lemma ApiUrlIdempotent(cpolarUrl: string)
    ensures var url := NewEdgeComputeTool(cpolarUrl).apiUrl;
      NewEdgeComputeTool(url[..|url| - |SolvePath|]).apiUrl == url
  {
    var url := NewEdgeComputeTool(cpolarUrl).apiUrl;
    assert url[..|url| - |SolvePath|] == RStripSlash(cpolarUrl);
    RStripSlashIdempotent(cpolarUrl);
  }

  // ---------------------------------------------------------------------
  // The tool schema

  /** `get_tool_schema()`: the tool's function-calling description. */
  function GetToolSchema(tool: EdgeComputeTool): Json {
    JObject([
      ("type", JString("function")),
      ("function", JObject([
        ("name", JString(tool.name)),
        ("description", JString(tool.description)),
        ("parameters", JObject([
          ("type", JString("object")),
          ("properties", JObject([
            (ParameterName, JObject([
              ("type", JString("string")),
              ("description", JString(ParameterDescription))
            ]))
          ])),
          ("required", JArray([JString(ParameterName)]))
        ]))
      ]))
    ])
  }

  /** Every entry of a parameters object's `required` list is a string that
      names one of its `properties`, declared with type `string`. */
  predicate RequiredAreStringProperties(parameters: Json) {
    match At(parameters, ["required"])
    case Some(JArray(items)) =>
      forall i :: 0 <= i < |items| ==>
        items[i].JString? && At(parameters, ["properties", items[i].str, "type"]) == Some(JString("string"))
    case _ => false
  }

  /** The schema names the tool by its own name and description. */
  lemma SchemaDescribesTool(tool: EdgeComputeTool)
    ensures At(GetToolSchema(tool), ["type"]) == Some(JString("function"))
    ensures At(GetToolSchema(tool), ["function", "name"]) == Some(JString(tool.name))
    ensures At(GetToolSchema(tool), ["function", "description"]) == Some(JString(tool.description))
  {
    var schema := GetToolSchema(tool);
    var fn := schema.members[1].1;
    LookupFirst(schema.members, "function", 1);
    LookupFirst(fn.members, "description", 1);
    assert At(schema, ["function", "name"]) == At(fn, ["name"]);
    assert At(schema, ["function", "description"]) == At(fn, ["description"]);
  }

  /** The schema requires exactly `task_instruction`, and every required
      parameter is declared as a string. */
  lemma SchemaRequiresInstruction(tool: EdgeComputeTool)
    ensures At(GetToolSchema(tool), ["function", "parameters", "required"]) == Some(JArray([JString("task_instruction")]))
    ensures At(GetToolSchema(tool), ["function", "parameters"]).Some?
    ensures RequiredAreStringProperties(At(GetToolSchema(tool), ["function", "parameters"]).value)
  {
    var schema := GetToolSchema(tool);
    var fn := schema.members[1].1;
    var parameters := fn.members[2].1;
    var properties := parameters.members[1].1;
    var instruction := properties.members[0].1;
    LookupFirst(schema.members, "function", 1);
    LookupFirst(fn.members, "parameters", 2);
    LookupFirst(parameters.members, "required", 2);
    LookupFirst(parameters.members, "properties", 1);
    assert At(schema, ["function", "parameters"]) == At(fn, ["parameters"]) == Some(parameters);
    assert At(schema, ["function", "parameters", "required"]) == At(fn, ["parameters", "required"])
      == At(parameters, ["required"]);
    assert At(parameters, ["properties", ParameterName, "type"]) == At(properties, [ParameterName, "type"])
      == At(instruction, ["type"]) == Some(JString("string"));
  }

  // ---------------------------------------------------------------------
  // The request and its outcome

  /** What `execute` posts: to the tool's endpoint, with a JSON content type,
      a body binding the instruction, and a ten-second timeout. */
  datatype HttpRequest = HttpRequest(url: string, headers: Json, payload: Json, timeoutSeconds: nat)

  function Request(tool: EdgeComputeTool, instruction: string): HttpRequest {
    HttpRequest(
      tool.apiUrl,
      JObject([("Content-Type", JString("application/json"))]),
      JObject([(ParameterName, JString(instruction))]),
      TimeoutSeconds)
  }

  /** The payload has exactly one key, `task_instruction`, bound to the
      instruction, and goes to the tool's endpoint. */
  lemma RequestPayload(tool: EdgeComputeTool, instruction: string)
    ensures Request(tool, instruction).url == tool.apiUrl
    ensures Keys(Request(tool, instruction).payload) == ["task_instruction"]
    ensures At(Request(tool, instruction).payload, ["task_instruction"]) == Some(JString(instruction))
  {
    var payload := Request(tool, instruction).payload;
    assert Member(payload, ParameterName) == Some(JString(instruction));
  }

  /** The parsed body of a 200 response, as `data.get(...)` sees it: each
      field is the `str()` of its value, or `None` when the key is absent. A
      body that is not JSON, or not a JSON object, makes `response.json()`
      or `data.get` raise, with the given message. */
  datatype ResponseBody =
    | JsonObject(status: Option<string>, solution: Option<string>)
    | Unparsable(error: string)

  /** What `requests.post` did: answered with a status code and a body, or
      raised (connection refused, timeout, ...) with `str(e)`. */
  datatype HttpOutcome =
    | Responded(statusCode: nat, body: ResponseBody)
    | Raised(error: string)

  /** Python's f-string rendering of `data.get(key)`. */
  function Rendered(field: Option<string>): string {
    match field
    case None => "None"
    case Some(s) => s
  }

  /** `execute`'s reply for the outcome of its POST. Every exception is caught,
      so there is a reply for every outcome. */
  function Execute(outcome: HttpOutcome): string {
    match outcome
    case Raised(e) => ErrorPrefix + e
    case Responded(code, body) =>
      if code == 200 then
        match body
        case JsonObject(status, solution) => StatusPrefix + Rendered(status) + ReceiptInfix + Rendered(solution)
        case Unparsable(e) => ErrorPrefix + e
      else FailedPrefix + NatToString(code)
  }

  /** The three reply shapes, told apart by how the reply begins. */
  datatype ReplyKind = Succeeded | Failed | Errored

  function KindOf(reply: string): Option<ReplyKind> {
    if StartsWith(reply, StatusPrefix) then Some(Succeeded)
    else if StartsWith(reply, FailedPrefix) then Some(Failed)
    else if StartsWith(reply, ErrorPrefix) then Some(Errored)
    else None
  }

  /** The shape `execute` is meant to give each outcome. */
  function ExpectedKind(outcome: HttpOutcome): ReplyKind {
    match outcome
    case Raised(_) => Errored
    case Responded(code, body) =>
      if code != 200 then Failed else if body.JsonObject? then Succeeded else Errored
  }

  /** Every reply has exactly the shape its outcome calls for: a 200 with a
      readable body reports status and receipt, any other code reports a
      failure, and anything raised reports an error. */
  lemma ExecuteKind(outcome: HttpOutcome)
    ensures KindOf(Execute(outcome)) == Some(ExpectedKind(outcome))
  {
    var reply := Execute(outcome);
    if ExpectedKind(outcome) == Failed {
      assert reply[..|FailedPrefix|] == FailedPrefix;
      assert reply[15] == 'F' != StatusPrefix[15];
    } else if ExpectedKind(outcome) == Errored {
      assert reply[..|ErrorPrefix|] == ErrorPrefix;
      assert reply[15] == 'E' != StatusPrefix[15];
      assert reply[15] != FailedPrefix[15];
    } else {
      assert reply[..|StatusPrefix|] == StatusPrefix;
    }
  }

  /** A 200 with a readable body gives the status and the solution, each
      rendered as Python renders it, around the receipt marker. */
  lemma ExecuteSucceeded(status: Option<string>, solution: Option<string>)
    ensures var reply := Execute(Responded(200, JsonObject(status, solution)));
      && StartsWith(reply, "Tool Execution Status: ")
      && reply[|StatusPrefix|..] == Rendered(status) + ". Receipt: " + Rendered(solution)
      && (status.None? ==> reply[|StatusPrefix|..|StatusPrefix| + 4] == "None")
  {
    var reply := Execute(Responded(200, JsonObject(status, solution)));
    assert reply == StatusPrefix + (Rendered(status) + ReceiptInfix + Rendered(solution));
  }

  /** Any other status code is reported in decimal, and reading the
      digits after the prefix gives the code back. */
  lemma ExecuteFailedCode(code: nat, body: ResponseBody)
    requires code != 200
    ensures var reply := Execute(Responded(code, body));
      && StartsWith(reply, "Tool Execution Failed with status code: ")
      && var digits := reply[|FailedPrefix|..];
      && (forall i :: 0 <= i < |digits| ==> IsDigit(digits[i]))
      && ParseDecimal(digits) == code
  {
    var reply := Execute(Responded(code, body));
    assert reply[|FailedPrefix|..] == NatToString(code);
    ParseNatToString(code);
  }

  /** Whatever was raised, the reply is the offline-error prefix followed by
      the exception's message, so the message can be read back. */
  lemma ExecuteErrorMessage(outcome: HttpOutcome, message: string)
    requires outcome == Raised(message) || outcome == Responded(200, Unparsable(message))
    ensures StartsWith(Execute(outcome), "Tool Execution Error (Edge node might be offline): ")
    ensures Execute(outcome)[|ErrorPrefix|..] == message
  {
    assert Execute(outcome) == ErrorPrefix + message;
  }
}
