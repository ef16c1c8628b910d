/**
 * The FastAPI connector of `claude_connector_server.py`: the OAuth
 * authorization and token endpoints over the hashed store of
 * `secure_oauth.py`, the bearer-token dependency, and the JSON-RPC endpoint
 * that forwards to the MCP server. Form bodies are lists of pairs; when a
 * field repeats, the last value is the one read.
 */
module ClaudeConnector {
  import opened Wrappers
  import opened Strings
  import opened PyJson
  import opened PyErrors
  import opened Monarch
  import opened SecureOAuth
  import opened Mcp

  /** What an endpoint answers; `ServerError` is an exception that escapes the handler. */
  datatype Response =
    | JsonBody(body: Json)
    | Found(location: string, body: Json)
    | LoginPage(clientId: string, redirectUri: string, state: string, scope: string)
    | HttpError(status: int, detail: string)
    | ServerError(e: Exc)

  /** `form_data.get(key)`: the value of the last field with that name. */
  function FormGet(form: seq<(string, string)>, key: string): Option<string>
    decreases |form|
  {
    if form == [] then None
    else if form[|form| - 1].0 == key then Some(form[|form| - 1].1)
    else FormGet(form[..|form| - 1], key)
  }

  /** A field read back is the last one sent under that name. */
  lemma FormGetLast(form: seq<(string, string)>, key: string, value: string, later: seq<(string, string)>)
    requires forall i :: 0 <= i < |later| ==> later[i].0 != key
    ensures FormGet(form + [(key, value)] + later, key) == Some(value)
    decreases |later|
  {
    if later != [] {
      var all := form + [(key, value)] + later;
      assert all[..|all| - 1] == form + [(key, value)] + later[..|later| - 1];
      FormGetLast(form, key, value, later[..|later| - 1]);
    } else {
      assert (form + [(key, value)] + later)[..|form|] == form;
    }
  }

  /** `str(KeyError(key))`: the key in quotes. */
  function KeyErrorText(key: string): string {
    StrRepr(key)
  }

  const DefaultScope: string := "accounts:read transactions:read budgets:read"

  /** `GET /oauth/authorize`: the login page for a code request, 400 for any other response type. */
  function AuthorizePage(responseType: string, clientId: string, redirectUri: Option<string>, state: Option<string>,
                         scope: Option<string>): (r: Response)
    ensures r.HttpError? <==> responseType != "code"
    ensures r.HttpError? ==> r.status == 400
    ensures r.LoginPage? ==> r.clientId == clientId && (!Given(scope) ==> r.scope == DefaultScope)
  {
    if responseType != "code" then HttpError(400, "Unsupported response type")
    else LoginPage(clientId, if Given(redirectUri) then redirectUri.value else [],
                   if Given(state) then state.value else [], if Given(scope) then scope.value else DefaultScope)
  }

  /** The callback: the code, then the state only when one was given; nothing is encoded. */
  function Callback(redirectUri: string, code: string, state: Option<string>): string {
    redirectUri + "?code=" + code + (if Given(state) then "&state=" + state.value else [])
  }

  /** `POST /oauth/authorize`: the three required fields, then the manager's `authorize`. */
  function AuthorizeSubmit(st: Store, kdf: Kdf, form: seq<(string, string)>, login: Login, code: string,
                           emailSalt: seq<byte>, passwordSalt: seq<byte>, now: int): (Store, Response)
    requires |emailSalt| == SaltLength && |passwordSalt| == SaltLength
  {
    if FormGet(form, "client_id").None? then (st, HttpError(400, KeyErrorText("client_id")))
    else if FormGet(form, "email").None? then (st, HttpError(400, KeyErrorText("email")))
    else if FormGet(form, "password").None? then (st, HttpError(400, KeyErrorText("password")))
    else
      var redirectUri := FormGet(form, "redirect_uri");
      match Authorize(st, kdf, FormGet(form, "client_id").value, FormGet(form, "email").value,
                      FormGet(form, "password").value, login, code, emailSalt, passwordSalt, now)
        case Err(e) => (st, HttpError(400, e.message))
        case Ok((st', issued)) =>
          if Given(redirectUri) then
            var url := Callback(redirectUri.value, issued, FormGet(form, "state"));
            (st', Found(url, JObject([("redirect_url", JStr(url))])))
          else (st', JsonBody(JObject([("code", JStr(issued))])))
  }

  /**
   * A submitted form is answered with a redirect carrying the new code (and
   * the state exactly when one was given), or the bare code without a
   * redirect URI; anything that fails is a 400 and stores nothing.
   */
  lemma AuthorizeSubmitRule(st: Store, kdf: Kdf, form: seq<(string, string)>, login: Login, code: string,
                            emailSalt: seq<byte>, passwordSalt: seq<byte>, now: int)
    requires |emailSalt| == SaltLength && |passwordSalt| == SaltLength
    ensures var (st', r) := AuthorizeSubmit(st, kdf, form, login, code, emailSalt, passwordSalt, now);
      (r.HttpError? ==> st' == st && r.status == 400)
      && (r.Found? ==> Given(FormGet(form, "redirect_uri"))
                       && r.location == FormGet(form, "redirect_uri").value + "?code=" + code
                                        + (if Given(FormGet(form, "state")) then "&state=" + FormGet(form, "state").value else []))
      && (r.JsonBody? ==> !Given(FormGet(form, "redirect_uri")) && r.body == JObject([("code", JStr(code))]))
      && (!r.HttpError? ==> login.LoggedIn? && code in st'.codes && !st'.codes[code].used)
  {
  }

  /**
   * The token endpoint raises `HTTPException(400, "Unsupported grant type")`
   * inside its own `try`; the catch-all re-raises it with `str(e)`, which
   * Starlette writes as the status, a colon and the detail.
   */
  const UnsupportedGrantDetail: string := "400: Unsupported grant type"

  /** The token document of a successful exchange. */
  function GrantDocument(g: TokenGrant): Json {
    JObject([("access_token", JStr(g.accessToken)), ("token_type", JStr(g.tokenType)), ("expires_in", JInt(g.expiresIn)),
             ("scope", JStr(g.scope))])
  }

  /** `POST /oauth/token`: the grant type first, then the three required fields, then the manager's exchange. */
  function TokenEndpoint(st: Store, kdf: Kdf, form: seq<(string, string)>, token: string, salt: seq<byte>, now: int): (Store, Response)
    requires |salt| == SaltLength
  {
    if FormGet(form, "grant_type") != Some("authorization_code") then
      (st, HttpError(400, UnsupportedGrantDetail))
    else if FormGet(form, "code").None? then (st, HttpError(400, KeyErrorText("code")))
    else if FormGet(form, "client_id").None? then (st, HttpError(400, KeyErrorText("client_id")))
    else if FormGet(form, "client_secret").None? then (st, HttpError(400, KeyErrorText("client_secret")))
    else
      var (st', r) := ExchangeCodeForToken(st, kdf, FormGet(form, "code").value, FormGet(form, "client_id").value,
                                           FormGet(form, "client_secret").value, token, salt, now);
      match r
        case Err(e) => (st', HttpError(400, e.message))
        case Ok(g) => (st', JsonBody(GrantDocument(g)))
  }

  /** Any grant type but `authorization_code` is refused with 400 before a field is read or the store touched. */
  lemma TokenGrantTypeFirst(st: Store, kdf: Kdf, form: seq<(string, string)>, token: string, salt: seq<byte>, now: int)
    requires |salt| == SaltLength
    requires FormGet(form, "grant_type") != Some("authorization_code")
    ensures TokenEndpoint(st, kdf, form, token, salt, now) == (st, HttpError(400, "400: Unsupported grant type"))
  {
  }

  /** A granted token is a day-long bearer token, and only a client whose secret verifies gets one. */
  lemma TokenEndpointGrants(st: Store, kdf: Kdf, form: seq<(string, string)>, token: string, salt: seq<byte>, now: int)
    requires |salt| == SaltLength
    ensures var r := TokenEndpoint(st, kdf, form, token, salt, now).1;
      r.JsonBody? ==>
        r.body == GrantDocument(TokenGrant(token, "Bearer", 86400, TokenScope))
        && VerifyClient(st, kdf, FormGet(form, "client_id").value, FormGet(form, "client_secret").value)
  {
    if FormGet(form, "grant_type") == Some("authorization_code") && FormGet(form, "code").Some?
       && FormGet(form, "client_id").Some? && FormGet(form, "client_secret").Some? {
      ExchangeChecksClientFirst(st, kdf, FormGet(form, "code").value, FormGet(form, "client_id").value,
                                FormGet(form, "client_secret").value, token, salt, now);
    }
  }

  /**
   * The bearer dependency: the header must be present and start with
   * `Bearer `; the token is what follows the first space, and it must
   * validate. `valid` stands for the store's token validation.
   */
  function BearerToken(authorization: Option<string>, valid: string -> bool): Result<string, Response> {
    if !Given(authorization) || !StartsWith(authorization.value, "Bearer ") then
      Err(HttpError(401, "Missing or invalid authorization header"))
    else
      var token := match SplitFirst(authorization.value, ' ').1 case Some(t) => t case None => [];
      if !valid(token) then Err(HttpError(401, "Invalid or expired token")) else Ok(token)
  }

  lemma BearerTokenRule(authorization: Option<string>, valid: string -> bool)
    ensures var r := BearerToken(authorization, valid);
      (r.Ok? <==> Given(authorization) && StartsWith(authorization.value, "Bearer ") && valid(authorization.value[7..]))
      && (r.Ok? ==> r.value == authorization.value[7..])
      && (r.Err? ==> r.error.HttpError? && r.error.status == 401)
  {
    if Given(authorization) && StartsWith(authorization.value, "Bearer ") {
      var h := authorization.value;
      assert h == "Bearer" + [' '] + h[7..];
      SplitFirstAt("Bearer", ' ', h[7..]);
    }
  }

  /** The name and version `initialize` reports, from the MCP server's configuration. */
  datatype ServerInfo = ServerInfo(name: string, version: string)

  /** What the MCP server's tool handler does with a name and its arguments: the text parts it returns, or what it raises. */
  type ToolCall = (Json, Json) -> Result<seq<string>, Exc>

  const ConnectorDescription: string := "Monarch Money MCP Server for Claude Custom Connectors"

  /** The method switch; `Err` is an exception raised inside the handler's `try`. */
  function Dispatch(rpcMethod: Json, params: Json, id: Json, info: ServerInfo, tools: Result<seq<Json>, Exc>,
                    call: ToolCall): Result<Response, Exc> {
    if rpcMethod == JStr("initialize") then Ok(JsonBody(RpcResult(InitializeResult(info.name, info.version, ConnectorDescription), id)))
    else if rpcMethod == JStr("tools/list") then
      var ts :- tools;
      Ok(JsonBody(RpcResult(JObject([("tools", JArray(ts))]), id)))
    else if rpcMethod == JStr("tools/call") then
      var name :- Get(params, "name", JNull);
      var arguments :- Get(params, "arguments", JObject([]));
      if !Truthy(name) then Ok(HttpError(400, "Missing tool name"))
      else
        var texts :- call(name, arguments);
        Ok(JsonBody(RpcResult(JObject([("content", TextContent(texts))]), id)))
    else Ok(JsonBody(RpcError(-32601, "Method not found: " + PyStr(rpcMethod), id)))
  }

  /**
   * `POST /mcp/rpc` once its bearer dependency has passed. A body that does
   * not parse is an internal error with a null id; a body that parses but is
   * not an object makes the error handler's own `body.get` raise.
   */
  function Rpc(body: Result<Json, Exc>, info: ServerInfo, tools: Result<seq<Json>, Exc>, call: ToolCall): (r: Response)
    ensures r.ServerError? <==> body.Ok? && !body.value.JObject?
  {
    match body
      case Err(e) => JsonBody(RpcError(-32603, "Internal error: " + e.message, JNull))
      case Ok(b) =>
        if !b.JObject? then ServerError(Exc(AttributeError, NoGetMessage(b)))
        else
          var id := GetOr(b.fields, "id", JNull);
          match Dispatch(GetOr(b.fields, "method", JNull), GetOr(b.fields, "params", JObject([])), id, info, tools, call)
            case Ok(r) => r
            case Err(e) => JsonBody(RpcError(-32603, "Internal error: " + e.message, id))
  }

  /** The endpoint: the bearer dependency runs before the body is read. */
  function RpcEndpoint(authorization: Option<string>, valid: string -> bool, body: Result<Json, Exc>, info: ServerInfo,
                       tools: Result<seq<Json>, Exc>, call: ToolCall): Response {
    match BearerToken(authorization, valid)
      case Err(r) => r
      case Ok(_) => Rpc(body, info, tools, call)
  }

  /** Every method, `initialize` and `tools/list` included, is refused with 401 without a valid bearer token. */
  lemma RpcNeedsBearer(authorization: Option<string>, valid: string -> bool, body: Result<Json, Exc>, info: ServerInfo,
                       tools: Result<seq<Json>, Exc>, call: ToolCall)
    requires BearerToken(authorization, valid).Err?
    ensures var r := RpcEndpoint(authorization, valid, body, info, tools, call);
      r.HttpError? && r.status == 401
  {
    BearerTokenRule(authorization, valid);
  }

  /** `initialize` reports protocol version 2025-06-18 and unchanging tools, with the request's id. */
  lemma InitializeReply(fields: seq<(string, Json)>, info: ServerInfo, tools: Result<seq<Json>, Exc>, call: ToolCall)
    requires Lookup(fields, "method") == Some(JStr("initialize"))
    ensures Rpc(Ok(JObject(fields)), info, tools, call) == JsonBody(RpcResult(InitializeResult(info.name, info.version, ConnectorDescription), GetOr(fields, "id", JNull)))
    ensures Lookup(InitializeResult(info.name, info.version, ConnectorDescription).fields, "protocolVersion") == Some(JStr("2025-06-18"))
  {
  }

  /**
   * Any other method name, or a method that is not a string, is answered
   * with -32601 naming it, and the request's id.
   */
  lemma UnknownMethodReply(fields: seq<(string, Json)>, info: ServerInfo, tools: Result<seq<Json>, Exc>, call: ToolCall)
    requires GetOr(fields, "method", JNull) !in [JStr("initialize"), JStr("tools/list"), JStr("tools/call")]
    ensures Rpc(Ok(JObject(fields)), info, tools, call)
      == JsonBody(RpcError(-32601, "Method not found: " + PyStr(GetOr(fields, "method", JNull)), GetOr(fields, "id", JNull)))
  {
  }

  /** A `tools/call` without a name is an HTTP 400, not a JSON-RPC error. */
  lemma MissingToolName(fields: seq<(string, Json)>, params: seq<(string, Json)>, info: ServerInfo,
                        tools: Result<seq<Json>, Exc>, call: ToolCall)
    requires Lookup(fields, "method") == Some(JStr("tools/call")) && Lookup(fields, "params") == Some(JObject(params))
    requires !Truthy(GetOr(params, "name", JNull))
    ensures Rpc(Ok(JObject(fields)), info, tools, call) == HttpError(400, "Missing tool name")
  {
  }

  /**
   * A raised exception becomes -32603: with a null id when the body never
   * parsed, and with the request's id otherwise; a tool's text parts come
   * back one content item each.
   */
  lemma InternalErrorIds(body: Result<Json, Exc>, info: ServerInfo, tools: Result<seq<Json>, Exc>, call: ToolCall)
    ensures body.Err? ==>
      Rpc(body, info, tools, call) == JsonBody(RpcError(-32603, "Internal error: " + body.error.message, JNull))
    ensures body.Ok? && body.value.JObject? ==>
      var f := body.value.fields;
      var d := Dispatch(GetOr(f, "method", JNull), GetOr(f, "params", JObject([])), GetOr(f, "id", JNull), info, tools, call);
      d.Err? ==> Rpc(body, info, tools, call) == JsonBody(RpcError(-32603, "Internal error: " + d.error.message, GetOr(f, "id", JNull)))
  {
  }

  /** A successful call returns one text item per text part, in order. */
  lemma ToolCallContent(texts: seq<string>, i: nat)
    requires i < |texts|
    ensures TextContent(texts).JArray? && |TextContent(texts).items| == |texts|
    ensures TextContent(texts).items[i] == JObject([("type", JStr("text")), ("text", JStr(texts[i]))])
  {
  }

  /** The connector's endpoints over the OAuth manager's store. */
  class Connector {
    const manager: SecureOAuthManager

    constructor (manager: SecureOAuthManager)
      ensures this.manager == manager
    {
      this.manager := manager;
    }

    method OAuthAuthorizePost(kdf: Kdf, form: seq<(string, string)>, login: Login, code: string, emailSalt: seq<byte>,
                              passwordSalt: seq<byte>, now: int) returns (r: Response)
      requires |emailSalt| == SaltLength && |passwordSalt| == SaltLength
      modifies manager.storage
      ensures (manager.storage.Snapshot(), r)
        == AuthorizeSubmit(old(manager.storage.Snapshot()), kdf, form, login, code, emailSalt, passwordSalt, now)
    {
      var clientId := FormGet(form, "client_id");
      var email := FormGet(form, "email");
      var password := FormGet(form, "password");
      if clientId.None? {
        return HttpError(400, KeyErrorText("client_id"));
      }
      if email.None? {
        return HttpError(400, KeyErrorText("email"));
      }
      if password.None? {
        return HttpError(400, KeyErrorText("password"));
      }
      var redirectUri := FormGet(form, "redirect_uri");
      var issued := manager.AuthorizeUser(kdf, clientId.value, email.value, password.value, login, code, emailSalt,
                                          passwordSalt, now);
      if issued.Err? {
        return HttpError(400, issued.error.message);
      }
      if Given(redirectUri) {
        var url := Callback(redirectUri.value, issued.value, FormGet(form, "state"));
        r := Found(url, JObject([("redirect_url", JStr(url))]));
      } else {
        r := JsonBody(JObject([("code", JStr(issued.value))]));
      }
    }

    method OAuthToken(kdf: Kdf, form: seq<(string, string)>, token: string, salt: seq<byte>, now: int) returns (r: Response)
      requires |salt| == SaltLength
      modifies manager.storage
      ensures (manager.storage.Snapshot(), r) == TokenEndpoint(old(manager.storage.Snapshot()), kdf, form, token, salt, now)
    {
      if FormGet(form, "grant_type") != Some("authorization_code") {
        return HttpError(400, UnsupportedGrantDetail);
      }
      var code := FormGet(form, "code");
      var clientId := FormGet(form, "client_id");
      var secret := FormGet(form, "client_secret");
      if code.None? {
        return HttpError(400, KeyErrorText("code"));
      }
      if clientId.None? {
        return HttpError(400, KeyErrorText("client_id"));
      }
      if secret.None? {
        return HttpError(400, KeyErrorText("client_secret"));
      }
      var g := manager.ExchangeCode(kdf, code.value, clientId.value, secret.value, token, salt, now);
      match g {
        case Err(e) => r := HttpError(400, e.message);
        case Ok(grant) => r := JsonBody(GrantDocument(grant));
      }
    }
  }
}
