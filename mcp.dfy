/**
 * What the MCP servers share: the JSON-RPC 2.0 reply envelopes with the
 * error codes of section 5.1 of the JSON-RPC 2.0 specification, the
 * `initialize` result, text content items, and the description of a tool
 * as `tools/list` reports it.
 */
module Mcp {
  import opened PyJson

  const ParseError: int := -32700
  const InvalidRequest: int := -32600
  const MethodNotFound: int := -32601
  const InvalidParams: int := -32602
  const InternalError: int := -32603

  const ProtocolVersion: string := "2025-06-18"

  function RpcResult(result: Json, id: Json): Json {
    JObject([("jsonrpc", JStr("2.0")), ("result", result), ("id", id)])
  }

  function RpcError(code: int, message: string, id: Json): Json {
    JObject([("jsonrpc", JStr("2.0")), ("error", JObject([("code", JInt(code)), ("message", JStr(message))])), ("id", id)])
  }

  /** What a method answers, before the request's id is attached. */
  datatype Answer = Success(result: Json) | Failure(code: int, message: string)

  function Envelope(a: Answer, id: Json): Json {
    match a
      case Success(result) => RpcResult(result, id)
      case Failure(code, message) => RpcError(code, message, id)
  }

  /** The `id` of a reply envelope. */
  function ReplyId(reply: Json): Json {
    if reply.JObject? then GetOr(reply.fields, "id", JNull) else JNull
  }

  /** Whatever the answer, its envelope carries the id it was given. */
  lemma EnvelopeId(a: Answer, id: Json)
    ensures ReplyId(Envelope(a, id)) == id
  {
    LookupAt(Envelope(a, id).fields, 2, "id");
  }

  /** The `result` of `initialize`: the protocol version, tools that never change, and who the server is. */
  function InitializeResult(name: string, version: string, description: string): Json {
    JObject([
      ("protocolVersion", JStr(ProtocolVersion)),
      ("capabilities", JObject([("tools", JObject([("listChanged", JBool(false))]))])),
      ("serverInfo", JObject([("name", JStr(name)), ("version", JStr(version)), ("description", JStr(description))]))])
  }

  /** One `{"type": "text", "text": ...}` item per text, in order. */
  function TextContent(texts: seq<string>): Json {
    JArray(seq(|texts|, i requires 0 <= i < |texts| => JObject([("type", JStr("text")), ("text", JStr(texts[i]))])))
  }

  /** A tool as `tools/list` describes it; `properties` maps each argument to its JSON schema. */
  datatype ToolSpec = ToolSpec(name: string, description: string, properties: seq<(string, Json)>, required: seq<string>)

  /** The schema of one argument: its type and description, then any further keywords. */
  function Property(kind: string, description: string, extra: seq<(string, Json)>): Json {
    JObject([("type", JStr(kind)), ("description", JStr(description))] + extra)
  }

  function ToolJson(t: ToolSpec): Json {
    JObject([("name", JStr(t.name)), ("description", JStr(t.description)),
             ("inputSchema", JObject([("type", JStr("object")), ("properties", JObject(t.properties)),
                                      ("required", StrList(t.required))]))])
  }

  function ToolsJson(tools: seq<ToolSpec>): (v: Json)
    ensures v.JArray? && |v.items| == |tools|
    ensures forall i :: 0 <= i < |tools| ==> v.items[i] == ToolJson(tools[i])
  {
    JArray(seq(|tools|, i requires 0 <= i < |tools| => ToolJson(tools[i])))
  }

  /** The five Monarch Money tools, in the order every server lists them. */
  const ToolNames: seq<string> := ["get_accounts", "get_transactions", "get_budgets", "get_spending_plan", "get_account_history"]

  /** A name outside the list is none of the five. */
  lemma UnknownName(name: string)
    requires name !in ToolNames
    ensures name != "get_accounts" && name != "get_transactions" && name != "get_budgets"
      && name != "get_spending_plan" && name != "get_account_history"
  {
  }

  /** Every required argument is among the tool's arguments, and no argument is described twice. */
  predicate WellFormedTool(t: ToolSpec) {
    (forall r :: r in t.required ==> Lookup(t.properties, r).Some?)
    && (forall i, j :: 0 <= i < j < |t.properties| ==> t.properties[i].0 != t.properties[j].0)
  }

  /**
   * The shape all three tool lists share: the five tools in order, each well
   * formed, and only `get_account_history` with a required argument, its
   * `account_id`.
   */
  predicate FiveTools(tools: seq<ToolSpec>) {
    |tools| == |ToolNames|
    && (forall i :: 0 <= i < |tools| ==> tools[i].name == ToolNames[i] && WellFormedTool(tools[i]))
    && (forall i :: 0 <= i < |tools| ==> (tools[i].required != [] <==> tools[i].name == "get_account_history"))
    && tools[4].required == ["account_id"]
  }
}
