/**
 * The serverless JSON-RPC endpoint of `api/mcp.py`. Authorization is never
 * refused, status 200 goes out before the body is even read, and every
 * outcome after that is a JSON-RPC reply: parse errors and failures outside
 * the tool call carry a null id, everything else the request's id. Tool
 * calls go to the FastMCP server's registry, whose names and behaviour are
 * inputs here.
 */
module ApiMcp {
  import opened Wrappers
  import opened Strings
  import opened PyJson
  import opened PyErrors
  import opened Mcp

  /** What reading the request body gave. */
  datatype Body =
    /** `int(Content-Length)` or the UTF-8 decoding raised. */
    | Unreadable(e: Exc)
    /** `json.loads` raised `JSONDecodeError`. */
    | Malformed
    | Parsed(v: Json)

  /** A content item of a tool result: one with a `text` attribute, or another kind (an image, say). */
  datatype Content = TextPart(text: string) | OtherPart

  /** What `tool.run(arguments)` on the named registered tool returned or raised. */
  type ToolRun = (string, Json) -> Result<seq<Content>, Exc>

  /** What the handler sends: a status and, unless the request was refused, a JSON body. */
  datatype Reply = Reply(status: int, body: Option<Json>)

  const ServerName: string := "Monarch Money MCP Server"
  const ServerVersion: string := "1.0.0"
  const ServerDescription: string := "Access your Monarch Money financial data via MCP"

  /** `check_authorization`: a bearer header and no header at all are both let through. */
  function CheckAuthorization(authorization: Option<string>): (ok: bool)
    ensures ok
  {
    if authorization.Some? && StartsWith(authorization.value, "Bearer ") then true
    else true
  }

  const StartDate: (string, Json) := ("start_date", Property("string", "Start date in YYYY-MM-DD format", []))
  const EndDate: (string, Json) := ("end_date", Property("string", "End date in YYYY-MM-DD format", []))
  const Limit: (string, Json) :=
    ("limit", Property("integer", "Maximum number of transactions (default: 100, max: 500)", [("default", JInt(100))]))

  const TransactionsTool: ToolSpec :=
    ToolSpec("get_transactions", "Get Monarch Money transactions with optional filtering",
             [StartDate, EndDate, Limit, ("account_id", Property("string", "Optional account ID to filter transactions", []))],
             [])

  const AccountHistoryTool: ToolSpec :=
    ToolSpec("get_account_history", "Get balance history for a specific account",
             [("account_id", Property("string", "Account ID to get history for", [])), StartDate, EndDate],
             ["account_id"])

  lemma TransactionsToolWellFormed()
    ensures WellFormedTool(TransactionsTool)
    ensures Lookup(TransactionsTool.properties, "limit") == Some(Limit.1)
  {
    LookupAt(TransactionsTool.properties, 2, "limit");
  }

  lemma AccountHistoryToolWellFormed()
    ensures WellFormedTool(AccountHistoryTool)
  {
  }

  /** The five tools `tools/list` announces; the limit's schema gives 100 as its default. */
  function Tools(): (tools: seq<ToolSpec>)
    ensures FiveTools(tools)
    ensures Lookup(tools[1].properties, "limit") == Some(Limit.1)
  {
    TransactionsToolWellFormed();
    AccountHistoryToolWellFormed();
    [ ToolSpec("get_accounts", "Get all Monarch Money accounts with balances and details", [], []),
      TransactionsTool,
      ToolSpec("get_budgets", "Get Monarch Money budget information and categories", [], []),
      ToolSpec("get_spending_plan", "Get spending plan for a specific month",
               [("month", Property("string", "Month in YYYY-MM format (defaults to current month)", []))], []),
      AccountHistoryTool ]
  }

  /**
   * `result += content.text` over the items that have a text, in order: the
   * text the single reply item carries.
   */
  function AllText(contents: seq<Content>): string
    decreases |contents|
  {
    if contents == [] then ""
    else
      var last := contents[|contents| - 1];
      AllText(contents[..|contents| - 1]) + (if last.TextPart? then last.text else "")
  }

  /** The loop at the end of a tool call. */
  method CollectText(contents: seq<Content>) returns (result: string)
    ensures result == AllText(contents)
  {
    result := "";
    var i := 0;
    while i < |contents|
      invariant 0 <= i <= |contents|
      invariant result == AllText(contents[..i])
    {
      assert contents[..i + 1][..i] == contents[..i];
      if contents[i].TextPart? {
        result := result + contents[i].text;
      }
      i := i + 1;
    }
    assert contents[..i] == contents;
  }

  /** The texts of two runs of items laid end to end are the two texts laid end to end. */
  lemma {:induction false} AllTextAppend(a: seq<Content>, b: seq<Content>)
    ensures AllText(a + b) == AllText(a) + AllText(b)
    decreases |b|
  {
    if b == [] {
      assert a + b == a;
    } else {
      assert (a + b)[..|a + b| - 1] == a + b[..|b| - 1];
      AllTextAppend(a, b[..|b| - 1]);
    }
  }

  /** Items without a text add nothing, and a lone text item gives exactly its text. */
  lemma AllTextParts(a: seq<Content>, b: seq<Content>, s: string)
    ensures AllText(a + [OtherPart] + b) == AllText(a + b)
    ensures AllText([TextPart(s)]) == s
  {
    AllTextAppend(a + [OtherPart], b);
    AllTextAppend(a, [OtherPart]);
    AllTextAppend(a, b);
    assert AllText([OtherPart]) == AllText([]) + "";
  }

  /**
   * The membership test of the tool name: a string is looked up among the registered
   * names, any other hashable value is never among them, and a list or a
   * dict cannot be hashed.
   */
  function Registered(name: Json, names: set<string>): Result<Option<string>, Exc> {
    match name
      case JStr(s) => Ok(if s in names then Some(s) else None)
      case JArray(_) => Err(Exc(TypeError, "unhashable type: 'list'"))
      case JObject(_) => Err(Exc(TypeError, "unhashable type: 'dict'"))
      case _ => Ok(None)
  }

  /** The inner `try` of `tools/call`: the registry, the lookup and the run; what it raises becomes the -32603 detail. */
  function CallTool(name: Json, arguments: Json, registry: Result<set<string>, Exc>, run: ToolRun): Result<string, Exc> {
    var names :- registry;
    var known :- Registered(name, names);
    match known
      case None => Err(Exc(ValueError, "Unknown tool: " + PyStr(name)))
      case Some(tool) =>
        var contents :- run(tool, arguments);
        Ok(AllText(contents))
  }

  /** The `tools/call` branch: the name and arguments are read from the parameters, and a failed call is -32603. */
  function ToolsCall(params: Json, registry: Result<set<string>, Exc>, run: ToolRun): Result<Answer, Exc> {
    var name :- Get(params, "name", JNull);
    var arguments :- Get(params, "arguments", JObject([]));
    if !Truthy(name) then Ok(Failure(InvalidParams, "Invalid params - missing tool name"))
    else match CallTool(name, arguments, registry, run)
      case Err(e) => Ok(Failure(InternalError, "Internal error: " + e.message))
      case Ok(text) => Ok(Success(JObject([("content", TextContent([text]))])))
  }

  /**
   * The method switch, up to the id every branch attaches to its reply;
   * `Err` is an exception that reaches the outer `except`.
   */
  function Dispatch(rpcMethod: Json, params: Json, registry: Result<set<string>, Exc>, run: ToolRun): (r: Result<Answer, Exc>)
    ensures r.Err? <==> rpcMethod == JStr("tools/call") && !params.JObject?
  {
    if !Truthy(rpcMethod) then Ok(Failure(InvalidRequest, "Invalid Request"))
    else if rpcMethod == JStr("tools/list") then Ok(Success(JObject([("tools", ToolsJson(Tools()))])))
    else if rpcMethod == JStr("tools/call") then ToolsCall(params, registry, run)
    else if rpcMethod == JStr("initialize") then Ok(Success(InitializeResult(ServerName, ServerVersion, ServerDescription)))
    else if rpcMethod == JStr("initialized") then Ok(Success(JObject([])))
    else Ok(Failure(MethodNotFound, "Method not found: " + PyStr(rpcMethod)))
  }

  /** The reply of the outer `except`: no detail and a null id. */
  const OuterFailure: Json := RpcError(InternalError, "Internal error", JNull)

  /**
   * `do_POST`. No request is refused: the status 200 is sent before the
   * body is read, so whatever arrives, a JSON-RPC reply follows it.
   */
  function Post(authorization: Option<string>, body: Body, registry: Result<set<string>, Exc>, run: ToolRun): (r: Reply)
    ensures r.status == 200 && r.body.Some?
  {
    if !CheckAuthorization(authorization) then Reply(401, None)
    else
      var answer := match body
        case Unreadable(_) => OuterFailure
        case Malformed => RpcError(ParseError, "Parse error", JNull)
        case Parsed(v) =>
          if !v.JObject? then OuterFailure
          else
            var f := v.fields;
            match Dispatch(GetOr(f, "method", JNull), GetOr(f, "params", JObject([])), registry, run)
              case Ok(a) => Envelope(a, GetOr(f, "id", JNull))
              case Err(_) => OuterFailure;
      Reply(200, Some(answer))
  }

  /** A body that is not JSON is -32700 with a null id; a missing or empty method is -32600 with the request's id. */
  lemma RequestErrors(authorization: Option<string>, fields: seq<(string, Json)>, registry: Result<set<string>, Exc>,
                      run: ToolRun)
    ensures Post(authorization, Malformed, registry, run).body == Some(RpcError(-32700, "Parse error", JNull))
    ensures !Truthy(GetOr(fields, "method", JNull)) ==>
      Post(authorization, Parsed(JObject(fields)), registry, run).body
        == Some(RpcError(-32600, "Invalid Request", GetOr(fields, "id", JNull)))
  {
  }

  /** `tools/list` answers with the five tools, in order, with the request's id. */
  lemma ToolsListReply(authorization: Option<string>, fields: seq<(string, Json)>, registry: Result<set<string>, Exc>,
                       run: ToolRun)
    requires GetOr(fields, "method", JNull) == JStr("tools/list")
    ensures Post(authorization, Parsed(JObject(fields)), registry, run).body
      == Some(RpcResult(JObject([("tools", ToolsJson(Tools()))]), GetOr(fields, "id", JNull)))
    ensures FiveTools(Tools())
  {
  }

  /**
   * A `tools/call` without a name is -32602, and one naming a tool the
   * registry does not hold is -32603 "Internal error: Unknown tool: ...".
   */
  lemma ToolCallRefusals(params: seq<(string, Json)>, names: set<string>, run: ToolRun)
    ensures var name := GetOr(params, "name", JNull);
      var answer := Dispatch(JStr("tools/call"), JObject(params), Ok(names), run);
      (!Truthy(name) ==> answer == Ok(Failure(-32602, "Invalid params - missing tool name")))
      && (Truthy(name) && name.JStr? && name.s !in names ==>
            answer == Ok(Failure(-32603, "Internal error: Unknown tool: " + name.s)))
  {
    ToolsCallRefusals(params, names, run);
  }

  lemma ToolsCallRefusals(params: seq<(string, Json)>, names: set<string>, run: ToolRun)
    ensures var name := GetOr(params, "name", JNull);
      var answer := ToolsCall(JObject(params), Ok(names), run);
      (!Truthy(name) ==> answer == Ok(Failure(-32602, "Invalid params - missing tool name")))
      && (Truthy(name) && name.JStr? && name.s !in names ==>
            answer == Ok(Failure(-32603, "Internal error: Unknown tool: " + name.s)))
  {
    var name := GetOr(params, "name", JNull);
    if name.JStr? {
      assert "Internal error: " + ("Unknown tool: " + name.s) == "Internal error: Unknown tool: " + name.s;
    }
  }

  /**
   * A registered tool that raises is -32603 with the text of the exception;
   * one that runs is answered with exactly one text item, all the texts of
   * its result joined.
   */
  lemma ToolCallRuns(params: seq<(string, Json)>, names: set<string>, run: ToolRun)
    requires GetOr(params, "name", JNull).JStr? && GetOr(params, "name", JNull).s in names - {""}
    ensures var tool := GetOr(params, "name", JNull).s;
      var outcome := run(tool, GetOr(params, "arguments", JObject([])));
      var answer := Dispatch(JStr("tools/call"), JObject(params), Ok(names), run);
      (outcome.Err? ==> answer == Ok(Failure(-32603, "Internal error: " + outcome.error.message)))
      && (outcome.Ok? ==> answer == Ok(Success(JObject([("content", TextContent([AllText(outcome.value)]))]))))
  {
  }

  /** How `Post` hands an object body to the method switch: the answer goes out with the request's id. */
  lemma PostAnswersWithId(authorization: Option<string>, fields: seq<(string, Json)>, registry: Result<set<string>, Exc>,
                          run: ToolRun)
    ensures var answer := Dispatch(GetOr(fields, "method", JNull), GetOr(fields, "params", JObject([])), registry, run);
      answer.Ok? ==> Post(authorization, Parsed(JObject(fields)), registry, run).body
                       == Some(Envelope(answer.value, GetOr(fields, "id", JNull)))
  {
  }

  /** `initialize` reports protocol version 2025-06-18, `initialized` an empty result, any other name -32601. */
  lemma LifecycleReplies(authorization: Option<string>, fields: seq<(string, Json)>, registry: Result<set<string>, Exc>,
                         run: ToolRun)
    ensures var m := GetOr(fields, "method", JNull);
      var id := GetOr(fields, "id", JNull);
      var reply := Post(authorization, Parsed(JObject(fields)), registry, run).body;
      (m == JStr("initialize") ==> reply == Some(RpcResult(InitializeResult(ServerName, ServerVersion, ServerDescription), id)))
      && (m == JStr("initialized") ==> reply == Some(RpcResult(JObject([]), id)))
      && (Truthy(m) && m !in [JStr("tools/list"), JStr("tools/call"), JStr("initialize"), JStr("initialized")] ==>
            reply == Some(RpcError(-32601, "Method not found: " + PyStr(m), id)))
    ensures Lookup(InitializeResult(ServerName, ServerVersion, ServerDescription).fields, "protocolVersion")
      == Some(JStr("2025-06-18"))
  {
    var m := GetOr(fields, "method", JNull);
    LifecycleAnswers(m, GetOr(fields, "params", JObject([])), registry, run);
    PostAnswersWithId(authorization, fields, registry, run);
    InitializeVersion();
  }

  lemma LifecycleAnswers(m: Json, params: Json, registry: Result<set<string>, Exc>, run: ToolRun)
    ensures var answer := Dispatch(m, params, registry, run);
      (m == JStr("initialize") ==> answer == Ok(Success(InitializeResult(ServerName, ServerVersion, ServerDescription))))
      && (m == JStr("initialized") ==> answer == Ok(Success(JObject([]))))
      && (Truthy(m) && m !in [JStr("tools/list"), JStr("tools/call"), JStr("initialize"), JStr("initialized")] ==>
            answer == Ok(Failure(-32601, "Method not found: " + PyStr(m))))
  {
  }

  lemma InitializeVersion()
    ensures Lookup(InitializeResult(ServerName, ServerVersion, ServerDescription).fields, "protocolVersion")
      == Some(JStr("2025-06-18"))
  {
  }

  /**
   * The request's id comes back on every reply to an object body, except
   * when a `tools/call` brings parameters that are not an object; a body
   * that cannot be read, is not JSON or is not an object gets a null id.
   */
  lemma RepliesEchoId(authorization: Option<string>, body: Body, registry: Result<set<string>, Exc>, run: ToolRun)
    ensures var reply := Post(authorization, body, registry, run).body.value;
      (!(body.Parsed? && body.v.JObject?) ==> ReplyId(reply) == JNull)
      && (body.Parsed? && body.v.JObject? ==>
            var f := body.v.fields;
            (GetOr(f, "method", JNull) != JStr("tools/call") || GetOr(f, "params", JObject([])).JObject?) ==>
              ReplyId(reply) == GetOr(f, "id", JNull))
  {
    if body.Parsed? && body.v.JObject? {
      var f := body.v.fields;
      var m, p := GetOr(f, "method", JNull), GetOr(f, "params", JObject([]));
      PostAnswersWithId(authorization, f, registry, run);
      if Dispatch(m, p, registry, run).Ok? {
        EnvelopeId(Dispatch(m, p, registry, run).value, GetOr(f, "id", JNull));
      }
    } else {
      EnvelopeId(Failure(InternalError, "Internal error"), JNull);
      EnvelopeId(Failure(ParseError, "Parse error"), JNull);
    }
  }
}
