/**
 * The minimal OAuth endpoint of `api/oauth-simple.py`: it registers any
 * client, authorizes any request by handing out a fresh code, and trades any
 * code for a token as long as the grant type is `authorization_code`.
 * Nothing is stored; the random values are inputs.
 */
module OAuthSimple {
  import opened Wrappers
  import opened Strings
  import opened PyJson
  import opened PyErrors
  import opened Serverless

  /** The `secrets.token_urlsafe` values one request may draw. */
  datatype Draw = Draw(clientSuffix: string, clientSecret: string, authCode: string, accessToken: string)

  const DefaultRedirect: string := "https://cesar-money-mcp.vercel.app/oauth/callback"
  const IssuedAt: int := 1640995200
  const Scope: string := "mcp:read mcp:write"

  const Cors: seq<(string, string)> := [
    ("Content-Type", "application/json"),
    ("Access-Control-Allow-Origin", "*"),
    ("Access-Control-Allow-Methods", "GET, POST, OPTIONS"),
    ("Access-Control-Allow-Headers", "Content-Type, Authorization")]

  // ------------------------------------------------------------------ routing

  datatype Endpoint = Register | Authorize | Token | NotFound

  /** The endpoint a path names: a substring test, with register before authorize before token. */
  function Route(path: string): (r: Endpoint)
    ensures r == Register <==> Contains(path, "register")
    ensures r == Authorize <==> !Contains(path, "register") && Contains(path, "authorize")
    ensures r == Token <==> !Contains(path, "register") && !Contains(path, "authorize") && Contains(path, "token")
  {
    if Contains(path, "register") then Register
    else if Contains(path, "authorize") then Authorize
    else if Contains(path, "token") then Token
    else NotFound
  }

  // ------------------------------------------------------------- registration

  /** The request data of a registration: the parsed body of a POST, `{}` when there is none or it is not JSON. */
  function RegistrationData(e: Event, loads: Loads): (v: Json)
    ensures Method(e) != "POST" ==> v == JObject([])
  {
    if Method(e) != "POST" then JObject([])
    else
      var body := if e.body.Some? then e.body.value else "{}";
      if body == "" then JObject([])
      else match loads(body)
        case Some(v) => v
        case None => JObject([])
  }

  /** The registration response; request data that is JSON but no object raises. */
  function Registration(data: Json, draw: Draw): (r: Result<Json, Exc>)
    ensures r.Ok? <==> data.JObject?
  {
    var uris :- Get(data, "redirect_uris", JArray([JStr(DefaultRedirect)]));
    Ok(JObject([
      ("client_id", JStr("mcp_" + draw.clientSuffix)),
      ("client_secret", JStr(draw.clientSecret)),
      ("client_id_issued_at", JInt(IssuedAt)),
      ("client_secret_expires_at", JInt(0)),
      ("redirect_uris", uris),
      ("grant_types", JArray([JStr("authorization_code")])),
      ("response_types", JArray([JStr("code")])),
      ("scope", JStr(Scope)),
      ("token_endpoint_auth_method", JStr("client_secret_basic"))]))
  }

  /**
   * Registration echoes the caller's `redirect_uris` and otherwise lists
   * the single default URI; the client id is `mcp_` and the drawn suffix.
   */
  lemma RegistrationEchoesUris(data: Json, draw: Draw)
    requires data.JObject?
    ensures var fields := Registration(data, draw).value.fields;
      fields[0] == ("client_id", JStr("mcp_" + draw.clientSuffix))
      && fields[4] == ("redirect_uris", match Lookup(data.fields, "redirect_uris")
                                          case Some(u) => u
                                          case None => JArray([JStr(DefaultRedirect)]))
  {
  }

  /** A body that is not JSON registers like an empty one. */
  lemma UnparsableBodyIsEmpty(e: Event, loads: Loads, draw: Draw)
    requires Method(e) == "POST" && e.body.Some? && e.body.value != "" && loads(e.body.value).None?
    ensures RegistrationData(e, loads) == JObject([])
    ensures Registration(RegistrationData(e, loads), draw).value.fields[4] == ("redirect_uris", JArray([JStr(DefaultRedirect)]))
  {
  }

  // ------------------------------------------------------------ authorization

  /** The callback URL: the redirect URI, `?`, and the `code` and (when given) `state` parameters joined by `&`. */
  function Callback(redirectUri: string, code: string, state: string): string {
    var params := ["code=" + code] + (if state != "" then ["state=" + state] else []);
    redirectUri + "?" + Join(params, '&')
  }

  /** The callback carries the code, and the state only when there is one. */
  lemma CallbackShape(redirectUri: string, code: string, state: string)
    ensures Callback(redirectUri, code, state)
      == redirectUri + "?code=" + code + (if state != "" then "&state=" + state else "")
  {
    var params := ["code=" + code] + (if state != "" then ["state=" + state] else []);
    if state != "" {
      assert params[1..] == ["state=" + state];
      assert Join(params, '&') == "code=" + code + ['&'] + ("state=" + state);
      assert redirectUri + "?" + ("code=" + code + ['&'] + ("state=" + state))
        == redirectUri + "?code=" + code + "&state=" + state;
    } else {
      assert Join(params, '&') == "code=" + code;
      assert redirectUri + "?" + ("code=" + code) == redirectUri + "?code=" + code + "";
    }
  }

  /** The authorize page links to the callback for the query's `redirect_uri` and `state` (both "" when absent). */
  function AuthorizeLink(e: Event, draw: Draw): string {
    var q := if e.query.Some? then e.query.value else [];
    Callback(StrGet(q, "redirect_uri", ""), draw.authCode, StrGet(q, "state", ""))
  }

  // ----------------------------------------------------------- token exchange

  /** The key and value of a form piece `key=value`, split at the first `=`; `None` for a piece without `=`. */
  function FormPair(piece: string): (r: Option<(string, string)>)
    ensures r.None? <==> '=' !in piece
    ensures r.Some? ==> piece == r.value.0 + "=" + r.value.1 && '=' !in r.value.0
  {
    match SplitFirst(piece, '=')
      case (key, Some(value)) => Some((key, value))
      case (_, None) => None
  }

  /** The dict the form loop builds from the pieces, one assignment per piece with an `=`. */
  function FormFields(pieces: seq<string>): map<string, string>
    decreases |pieces|
  {
    if pieces == [] then map[]
    else
      var m := FormFields(pieces[..|pieces| - 1]);
      match FormPair(pieces[|pieces| - 1])
        case Some((key, value)) => m[key := value]
        case None => m
  }

  /**
   * The form loop of the token branch: the body is cut at every `&`, and each
   * piece holding an `=` stores its value under its key, later pieces
   * overwriting earlier ones.
   */
  method ParseForm(body: string) returns (m: map<string, string>)
    ensures m == FormFields(Split(body, '&'))
  {
    var pieces := Split(body, '&');
    m := map[];
    for i := 0 to |pieces|
      invariant m == FormFields(pieces[..i])
    {
      assert pieces[..i + 1][..i] == pieces[..i];
      match FormPair(pieces[i]) {
        case Some((key, value)) =>
          m := m[key := value];
        case None =>
      }
    }
    assert pieces[..|pieces|] == pieces;
  }

  /** A key is set exactly when some piece assigns it. */
  lemma {:induction false} FormFieldsKeys(pieces: seq<string>, key: string)
    ensures key in FormFields(pieces) <==>
      exists i :: 0 <= i < |pieces| && FormPair(pieces[i]).Some? && FormPair(pieces[i]).value.0 == key
    decreases |pieces|
  {
    if pieces != [] {
      var init := pieces[..|pieces| - 1];
      FormFieldsKeys(init, key);
      assert forall i :: 0 <= i < |init| ==> init[i] == pieces[i];
      if key in FormFields(pieces) && key !in FormFields(init) {
        assert FormPair(pieces[|pieces| - 1]).value.0 == key;
      }
    }
  }

  /** The value of a key is the one its last assigning piece gives. */
  lemma {:induction false} FormFieldsLastWins(pieces: seq<string>, i: nat, key: string, value: string)
    requires i < |pieces| && FormPair(pieces[i]) == Some((key, value))
    requires forall j :: i < j < |pieces| && FormPair(pieces[j]).Some? ==> FormPair(pieces[j]).value.0 != key
    ensures key in FormFields(pieces) && FormFields(pieces)[key] == value
    decreases |pieces|
  {
    var init := pieces[..|pieces| - 1];
    if i < |pieces| - 1 {
      assert forall j :: 0 <= j < |init| ==> init[j] == pieces[j];
      FormFieldsLastWins(init, i, key, value);
    }
  }

  /** A piece without `=` changes nothing, wherever it stands. */
  lemma {:induction false} FormFieldsDropsPlain(before: seq<string>, piece: string, after: seq<string>)
    requires '=' !in piece
    ensures FormFields(before + [piece] + after) == FormFields(before + after)
    decreases |after|
  {
    if after == [] {
      assert (before + [piece] + after)[..|before| + 1 - 1] == before;
      assert before + after == before;
    } else {
      var last := after[|after| - 1];
      var rest := after[..|after| - 1];
      FormFieldsDropsPlain(before, piece, rest);
      assert (before + [piece] + after)[..|before + [piece] + after| - 1] == before + [piece] + rest;
      assert (before + after)[..|before + after| - 1] == before + rest;
    }
  }

  /** The request data of a token request. */
  datatype TokenRequest = JsonRequest(data: Json) | FormRequest(fields: map<string, string>)

  /** A body starting with `{` is JSON (`{}` when it does not parse), any other non-empty body a form. */
  function TokenData(e: Event, loads: Loads): TokenRequest {
    var body := if e.body.Some? then e.body.value else "";
    if body == "" then JsonRequest(JObject([]))
    else if StartsWith(body, "{") then
      match loads(body)
        case Some(v) => JsonRequest(v)
        case None => JsonRequest(JObject([]))
    else FormRequest(FormFields(Split(body, '&')))
  }

  /** The grant type of the request data; `get` fails on data that is not a dict. */
  function GrantType(req: TokenRequest): Result<Json, Exc> {
    match req
      case JsonRequest(data) => Get(data, "grant_type", JNull)
      case FormRequest(fields) => Ok(if "grant_type" in fields then JStr(fields["grant_type"]) else JNull)
  }

  const Unsupported: Json := JObject([("error", JStr("unsupported_grant_type"))])

  /** The token exchange: any code and client are accepted once the grant type is right. */
  function Exchange(req: TokenRequest, draw: Draw): (r: Result<Response, Exc>)
    ensures r.Ok? ==> (r.value.status == 200 <==> GrantType(req) == Ok(JStr("authorization_code")))
    ensures r.Ok? && r.value.status != 200 ==> r.value == Response(400, Cors, JsonBody(Unsupported))
    ensures r.Err? <==> GrantType(req).Err?
  {
    var grant :- GrantType(req);
    if grant != JStr("authorization_code") then Ok(Response(400, Cors, JsonBody(Unsupported)))
    else Ok(Response(200, Cors, JsonBody(JObject([("access_token", JStr(draw.accessToken)), ("token_type", JStr("Bearer")),
                                                  ("expires_in", JInt(3600)), ("scope", JStr(Scope))]))))
  }

  /**
   * A form body is accepted exactly when its last `grant_type` piece says
   * `authorization_code`, and never without one.
   */
  lemma FormGrant(pieces: seq<string>, i: nat, value: string, draw: Draw)
    requires i < |pieces| && FormPair(pieces[i]) == Some(("grant_type", value))
    requires forall j :: i < j < |pieces| && FormPair(pieces[j]).Some? ==> FormPair(pieces[j]).value.0 != "grant_type"
    ensures Exchange(FormRequest(FormFields(pieces)), draw).value.status == 200 <==> value == "authorization_code"
  {
    var fields := FormFields(pieces);
    FormFieldsLastWins(pieces, i, "grant_type", value);
    FormGrantDecides(fields, value, draw);
  }

  /** A form's `grant_type` decides the exchange by that string alone. */
  lemma FormGrantDecides(fields: map<string, string>, value: string, draw: Draw)
    requires "grant_type" in fields && fields["grant_type"] == value
    ensures Exchange(FormRequest(fields), draw).Ok?
    ensures Exchange(FormRequest(fields), draw).value.status == 200 <==> value == "authorization_code"
  {
    assert GrantType(FormRequest(fields)) == Ok(JStr(value));
  }

  lemma FormWithoutGrant(pieces: seq<string>, draw: Draw)
    requires forall j :: 0 <= j < |pieces| && FormPair(pieces[j]).Some? ==> FormPair(pieces[j]).value.0 != "grant_type"
    ensures Exchange(FormRequest(FormFields(pieces)), draw) == Ok(Response(400, Cors, JsonBody(Unsupported)))
  {
    FormFieldsKeys(pieces, "grant_type");
  }

  // ------------------------------------------------------------------ handler

  function ServerError(e: Exc): Response {
    Response(500, [("Content-Type", "application/json")],
             JsonBody(JObject([("error", JStr("server_error")), ("error_description", JStr(e.message))])))
  }

  /** `handler`: an exception raised by a branch is answered with 500. */
  function Handler(e: Event, loads: Loads, draw: Draw): (r: Response)
    ensures Method(e) == "OPTIONS" ==> r == Response(200, Cors, NoBody)
    ensures Method(e) != "OPTIONS" ==> match Route(Path(e))
      case Register => r.status in {200, 500}
      case Authorize => r == Response(200, [("Content-Type", "text/html")], Page(AuthorizeLink(e, draw)))
      case Token => r.status in {200, 400, 500}
      case NotFound => r == Response(404, Cors, JsonBody(JObject([("error", JStr("not_found"))])))
  {
    if Method(e) == "OPTIONS" then Response(200, Cors, NoBody)
    else match Route(Path(e))
      case Register =>
        (match Registration(RegistrationData(e, loads), draw)
          case Ok(v) => Response(200, Cors, JsonBody(v))
          case Err(x) => ServerError(x))
      case Authorize => Response(200, [("Content-Type", "text/html")], Page(AuthorizeLink(e, draw)))
      case Token =>
        (match Exchange(TokenData(e, loads), draw)
          case Ok(resp) => resp
          case Err(x) => ServerError(x))
      case NotFound => Response(404, Cors, JsonBody(JObject([("error", JStr("not_found"))])))
  }

  /** A form body reaches the exchange as the dict the form loop builds. */
  lemma FormBodyIsParsed(e: Event, loads: Loads)
    requires e.body.Some? && e.body.value != "" && !StartsWith(e.body.value, "{")
    ensures TokenData(e, loads) == FormRequest(FormFields(Split(e.body.value, '&')))
  {
  }
}
