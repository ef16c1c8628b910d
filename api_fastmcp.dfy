/**
 * The serverless wrapper of `api/fastmcp.py`: it imports the FastMCP
 * server (whose configuration check can fail), answers preflights, checks
 * an optional API key, and describes the server.
 */
module ApiFastmcp {
  import opened Wrappers
  import opened Strings
  import opened PyJson
  import opened PyErrors
  import opened Monarch
  import opened Mcp
  import opened Serverless

  /** `API_KEY`, and the `MONARCH_EMAIL` and `MONARCH_PASSWORD` the imported server checks. */
  datatype Config = Config(apiKey: Option<string>, email: Option<string>, password: Option<string>)

  const Cors: seq<(string, string)> := [
    ("Content-Type", "application/json"),
    ("Access-Control-Allow-Origin", "*"),
    ("Access-Control-Allow-Methods", "POST, OPTIONS"),
    ("Access-Control-Allow-Headers", "Content-Type, Authorization, X-API-Key")]

  const AuthRequired: Json := JObject([
    ("error", JStr("Authentication required")),
    ("message", JStr("Provide Authorization: Bearer <token> or X-API-Key header"))])

  const Info: Json := JObject([
    ("name", JStr("Monarch Money MCP Server")),
    ("description", JStr("FastMCP-based server for Monarch Money data")),
    ("protocol", JStr("Model Context Protocol")),
    ("transport", JStr("STDIO (not HTTP)")),
    ("message", JStr("This server is designed to run with STDIO transport. For HTTP access, use the /api endpoint instead.")),
    ("tools", StrList(ToolNames)),
    ("instructions", JStr("Connect using MCP client with STDIO transport to: uv run fastmcp_server.py"))])

  /**
   * The `authenticated` flag: a header starting with `Bearer ` is judged by
   * its token alone; only without one is `x-api-key` compared.
   */
  function Authenticated(apiKey: string, headers: seq<(string, string)>): (b: bool)
    ensures var auth := StrGet(headers, "authorization", "");
      StartsWith(auth, "Bearer ") ==> (b <==> auth[7..] == apiKey)
    ensures var auth := StrGet(headers, "authorization", "");
      !StartsWith(auth, "Bearer ") ==> (b <==> StrGet(headers, "x-api-key", "") == apiKey)
  {
    var auth := StrGet(headers, "authorization", "");
    if StartsWith(auth, "Bearer ") then auth[7..] == apiKey
    else StrGet(headers, "x-api-key", "") == apiKey
  }

  /** `handler`. A failed import is answered with 500 before anything else, preflights included. */
  function Handler(e: Event, cfg: Config): (r: Response)
    ensures ValidateConfig(cfg.email, cfg.password).Err? ==>
      r == Response(500, [("Content-Type", "application/json")],
                    JsonBody(JObject([("error", JStr("Internal server error")), ("message", JStr(MissingConfig.message))])))
    ensures ValidateConfig(cfg.email, cfg.password).Ok? ==>
      (r.status == 200 <==> e.httpMethod == Some("OPTIONS") || !Given(cfg.apiKey) || Authenticated(cfg.apiKey.value, e.headers))
      && (r.status != 200 ==> r == Response(401, Cors, JsonBody(AuthRequired)))
      && (r.status == 200 && e.httpMethod != Some("OPTIONS") ==> r.body == JsonBody(Info))
  {
    match ValidateConfig(cfg.email, cfg.password)
      case Err(x) =>
        Response(500, [("Content-Type", "application/json")],
                 JsonBody(JObject([("error", JStr("Internal server error")), ("message", JStr(x.message))])))
      case Ok(_) =>
        if e.httpMethod == Some("OPTIONS") then Response(200, Cors, NoBody)
        else if Given(cfg.apiKey) && !Authenticated(cfg.apiKey.value, e.headers) then
          Response(401, Cors, JsonBody(AuthRequired))
        else Response(200, Cors, JsonBody(Info))
  }

  /** A Bearer header that is wrong is refused even when `x-api-key` holds the right key. */
  lemma WrongBearerShadowsApiKey(e: Event, cfg: Config, token: string)
    requires ValidateConfig(cfg.email, cfg.password).Ok? && Given(cfg.apiKey) && token != cfg.apiKey.value
    requires e.httpMethod == Some("POST")
    requires e.headers == [("authorization", "Bearer " + token), ("x-api-key", cfg.apiKey.value)]
    ensures Handler(e, cfg).status == 401
  {
    assert StrGet(e.headers, "authorization", "") == "Bearer " + token;
    assert ("Bearer " + token)[7..] == token;
  }

  /** With either header holding the key the server's description is returned, listing the five tools. */
  lemma EitherHeaderAuthenticates(e: Event, cfg: Config)
    requires ValidateConfig(cfg.email, cfg.password).Ok? && Given(cfg.apiKey) && e.httpMethod == Some("POST")
    requires e.headers == [("authorization", "Bearer " + cfg.apiKey.value)] || e.headers == [("x-api-key", cfg.apiKey.value)]
    ensures Handler(e, cfg) == Response(200, Cors, JsonBody(Info))
    ensures Info.fields[5] == ("tools", StrList(ToolNames)) && |ToolNames| == 5
  {
    var key := cfg.apiKey.value;
    if e.headers == [("authorization", "Bearer " + key)] {
      assert StartsWith("Bearer " + key, "Bearer ");
      assert ("Bearer " + key)[7..] == key;
    } else {
      assert StrGet(e.headers, "authorization", "") == "";
    }
  }
}
