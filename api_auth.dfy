/**
 * The login and token-introspection endpoints of `api/auth.py`: an admin
 * logs in with a username and a password whose SHA-256 digest is
 * configured, and receives a signed JWT; the token endpoint reads a
 * bearer token back. The digest, the JWT codec and the clock are inputs.
 */
module ApiAuth {
  import opened Wrappers
  import opened Strings
  import opened PyJson
  import opened PyErrors
  import opened Monarch
  import opened Serverless

  // ------------------------------------------------------------ configuration

  /**
   * The environment, read once when the module loads. `JWT_SECRET` and
   * `ADMIN_PASSWORD_HASH` may be unset; `ADMIN_USERNAME` defaults to "admin",
   * `ALLOWED_ORIGINS` to "*".
   */
  datatype Config = Config(jwtSecret: Option<string>, adminUsername: string, adminHash: Option<string>,
                           expiryHours: int, allowedOrigins: seq<string>)

  const DefaultUsername: string := "admin"
  const DefaultHours: string := "24"

  /**
   * The module-level constants. `int(TOKEN_EXPIRY_HOURS)` can raise, and
   * then the module does not load; the origin list always has an entry.
   */
  function LoadConfig(jwtSecret: Option<string>, adminUsername: Option<string>, adminHash: Option<string>,
                      expiryHours: Option<string>, allowedOrigins: Option<string>): (r: Result<Config, Exc>)
    ensures var hours := if expiryHours.Some? then expiryHours.value else DefaultHours;
      r.Ok? <==> PyInt(hours).Some?
    ensures r.Ok? ==> |r.value.allowedOrigins| >= 1
    ensures r.Ok? && adminUsername.None? ==> r.value.adminUsername == DefaultUsername
  {
    var hours :- IntOfStr(if expiryHours.Some? then expiryHours.value else DefaultHours);
    Ok(Config(jwtSecret, if adminUsername.Some? then adminUsername.value else DefaultUsername, adminHash, hours,
              Split(if allowedOrigins.Some? then allowedOrigins.value else "*", ',')))
  }

  // ------------------------------------------------------------------ hashing

  const HexDigits: string := "0123456789abcdef"

  predicate IsHexDigest(s: string) {
    |s| == 64 && forall i :: 0 <= i < |s| ==> s[i] in HexDigits
  }

  /** The SHA-256 hex digest of a text: a library call, whose result is 64 lower-case hex digits. */
  type Sha256Hex = f: string -> string | forall s :: IsHexDigest(f(s))
    witness (s: string) => seq(64, i => '0')

  /** `hash_password`; a password that is not a string has no `encode`. */
  function HashPassword(password: Json, sha: Sha256Hex): (r: Result<string, Exc>)
    ensures r.Ok? <==> password.JStr?
    ensures r.Ok? ==> IsHexDigest(r.value) && r.value == sha(password.s)
    ensures r.Err? ==> r.error.kind == AttributeError
  {
    if password.JStr? then Ok(sha(password.s))
    else Err(Exc(AttributeError, "'" + TypeName(password) + "' object has no attribute 'encode'"))
  }

  // ------------------------------------------------------------------- tokens

  const Scope: string := "monarch:read monarch:write"
  const SecretMissing: Exc := Exc(ValueError, "JWT_SECRET not configured")

  /**
   * HS256 JWT encoding of a payload with a secret, and decoding of a token
   * with that secret at a given time, `None` where decoding raises (a bad
   * signature, an expired token).
   */
  datatype Jwt = Jwt(encode: (seq<(string, Json)>, string) -> string,
                     decode: (string, string, int) -> Option<seq<(string, Json)>>)

  /** The claims of a token issued at `now` (in whole seconds) for `hours` hours. */
  function Payload(userId: Json, clientId: Json, now: int, hours: int, jti: string): seq<(string, Json)> {
    [("sub", userId), ("iat", JInt(now)), ("exp", JInt(now + hours * 3600)), ("jti", JStr(jti)), ("scope", JStr(Scope))]
    + (if Truthy(clientId) then [("client_id", clientId)] else [])
  }

  /** Every claim is there once, `exp` lies `hours` hours after `iat`, and `client_id` is present only when given. */
  lemma PayloadClaims(userId: Json, clientId: Json, now: int, hours: int, jti: string)
    ensures var p := Payload(userId, clientId, now, hours, jti);
      Lookup(p, "sub") == Some(userId) && Lookup(p, "iat") == Some(JInt(now))
      && Lookup(p, "exp") == Some(JInt(now + hours * 3600)) && Lookup(p, "jti") == Some(JStr(jti))
      && Lookup(p, "scope") == Some(JStr(Scope))
      && Lookup(p, "client_id") == (if Truthy(clientId) then Some(clientId) else None)
  {
    var p := Payload(userId, clientId, now, hours, jti);
    LookupAt(p, 2, "exp");
    LookupAt(p, 3, "jti");
    LookupAt(p, 4, "scope");
    LookupFinds(p, "client_id");
    if Truthy(clientId) {
      LookupAt(p, 5, "client_id");
    }
  }

  /** The grant `generate_token` returns. */
  function Grant(token: string, hours: int, expiresAt: string): Json {
    JObject([("access_token", JStr(token)), ("token_type", JStr("Bearer")), ("expires_in", JInt(hours * 3600)),
             ("expires_at", JStr(expiresAt)), ("scope", JStr(Scope))])
  }

  /**
   * `generate_token`; `jti` is the random `token_urlsafe(16)` and `isoformat`
   * prints the expiry time.
   */
  function GenerateToken(cfg: Config, userId: Json, clientId: Json, jwt: Jwt, now: int, jti: string,
                         isoformat: int -> string): (r: Result<Json, Exc>)
    ensures r.Err? <==> !Given(cfg.jwtSecret)
    ensures r.Err? ==> r.error == SecretMissing
    ensures r.Ok? ==> r.value == Grant(jwt.encode(Payload(userId, clientId, now, cfg.expiryHours, jti), cfg.jwtSecret.value),
                                       cfg.expiryHours, isoformat(now + cfg.expiryHours * 3600))
  {
    if !Given(cfg.jwtSecret) then Err(SecretMissing)
    else
      var payload := Payload(userId, clientId, now, cfg.expiryHours, jti);
      Ok(Grant(jwt.encode(payload, cfg.jwtSecret.value), cfg.expiryHours, isoformat(now + cfg.expiryHours * 3600)))
  }

  /** `verify_token`: the claims of a token signed with the configured secret and not expired at `now`. */
  function VerifyToken(cfg: Config, token: string, jwt: Jwt, now: int): (r: Option<seq<(string, Json)>>)
    ensures !Given(cfg.jwtSecret) ==> r.None?
    ensures Given(cfg.jwtSecret) ==> r == jwt.decode(token, cfg.jwtSecret.value, now)
  {
    if !Given(cfg.jwtSecret) then None else jwt.decode(token, cfg.jwtSecret.value, now)
  }

  // ---------------------------------------------------------------- responses

  const JsonType: (string, string) := ("Content-Type", "application/json")
  const AnyOrigin: (string, string) := ("Access-Control-Allow-Origin", "*")
  const LoginHeaders: seq<(string, string)> := [JsonType, AnyOrigin, ("Access-Control-Allow-Credentials", "true")]
  const InfoHeaders: seq<(string, string)> := [JsonType, AnyOrigin]

  function OAuthError(error: string, description: string): Json {
    JObject([("error", JStr(error)), ("error_description", JStr(description))])
  }

  /** The origin a preflight allows: the caller's when it is listed or `*` is, the first listed one otherwise. */
  function AllowedOrigin(origins: seq<string>, origin: string): (r: string)
    requires |origins| >= 1
    ensures r == origin <==> origin in origins || "*" in origins || origins[0] == origin
    ensures origin in origins || "*" in origins ==> r == origin
    ensures !(origin in origins || "*" in origins) ==> r == origins[0]
  {
    if origin in origins || "*" in origins then origin else origins[0]
  }

  /** `handle_preflight`; a request without an `origin` header counts as origin `*`. */
  function Preflight(e: Event, cfg: Config): (r: Response)
    requires |cfg.allowedOrigins| >= 1
    ensures r.status == 200 && r.body == NoBody && |r.headers| == 5
    ensures var allowed := AllowedOrigin(cfg.allowedOrigins, StrGet(e.headers, "origin", "*"));
      r.headers[0] == ("Access-Control-Allow-Origin", allowed)
      && r.headers[3] == ("Access-Control-Allow-Credentials", if allowed != "*" then "true" else "false")
  {
    var allowed := AllowedOrigin(cfg.allowedOrigins, StrGet(e.headers, "origin", "*"));
    Response(200, [("Access-Control-Allow-Origin", allowed),
                   ("Access-Control-Allow-Methods", "GET, POST, OPTIONS"),
                   ("Access-Control-Allow-Headers", "Content-Type, Authorization"),
                   ("Access-Control-Allow-Credentials", if allowed != "*" then "true" else "false"),
                   ("Access-Control-Max-Age", "86400")], NoBody)
  }

  /** With `*` configured every origin is echoed, and a credentialed answer is sent for every named origin. */
  lemma WildcardEchoesOrigin(e: Event, cfg: Config, origin: string)
    requires |cfg.allowedOrigins| >= 1 && "*" in cfg.allowedOrigins
    requires e.headers == [("origin", origin)]
    ensures Preflight(e, cfg).headers[0] == ("Access-Control-Allow-Origin", origin)
    ensures Preflight(e, cfg).headers[3].1 == "true" <==> origin != "*"
  {
  }

  /** An unlisted origin gets the first configured one, never its own. */
  lemma UnlistedOrigin(e: Event, cfg: Config, origin: string)
    requires |cfg.allowedOrigins| >= 1 && "*" !in cfg.allowedOrigins && origin !in cfg.allowedOrigins
    requires e.headers == [("origin", origin)]
    ensures Preflight(e, cfg).headers[0] == ("Access-Control-Allow-Origin", cfg.allowedOrigins[0])
    ensures Preflight(e, cfg).headers[3] == ("Access-Control-Allow-Credentials", "true")
  {
  }

  // -------------------------------------------------------------------- login

  /** The credentials check of `handle_login`, on the body's `username`, `password` and `client_id`. */
  function Credentials(username: Json, password: Json, clientId: Json, cfg: Config, sha: Sha256Hex, jwt: Jwt,
                       now: int, jti: string, isoformat: int -> string): Result<Response, Exc>
  {
    if !Truthy(username) || !Truthy(password) then
      Ok(Response(400, LoginHeaders, JsonBody(OAuthError("invalid_request", "Username and password required"))))
    else if !Given(cfg.adminHash) then
      var hash :- HashPassword(password, sha);
      Ok(Response(500, LoginHeaders, JsonBody(JObject([
        ("error", JStr("configuration_required")),
        ("error_description", JStr("Set ADMIN_PASSWORD_HASH in environment variables")),
        ("your_password_hash", JStr(hash)),
        ("instructions", JStr("Add this hash to your Vercel environment variables"))]))))
    else if username != JStr(cfg.adminUsername) then
      Ok(Response(401, LoginHeaders, JsonBody(BadCredentials)))
    else
      var hash :- HashPassword(password, sha);
      if hash != cfg.adminHash.value then Ok(Response(401, LoginHeaders, JsonBody(BadCredentials)))
      else match GenerateToken(cfg, username, clientId, jwt, now, jti, isoformat)
        case Ok(grant) => Ok(Response(200, LoginHeaders, JsonBody(grant)))
        case Err(e) => Ok(Response(500, LoginHeaders, JsonBody(OAuthError("server_error", e.message))))
  }

  const BadCredentials: Json := OAuthError("invalid_credentials", "Invalid username or password")

  /**
   * `handle_login`. A body that is not JSON is a 400; a body that is JSON
   * but not an object, or a password that is not a string, raises (`Err`).
   */
  function Login(e: Event, cfg: Config, sha: Sha256Hex, jwt: Jwt, loads: Loads, now: int, jti: string,
                 isoformat: int -> string): Result<Response, Exc>
  {
    match loads(if e.body.Some? then e.body.value else "{}")
      case None => Ok(Response(400, LoginHeaders, JsonBody(OAuthError("invalid_request", "Invalid JSON in request body"))))
      case Some(body) =>
        if !body.JObject? then Err(Exc(AttributeError, NoGetMessage(body)))
        else
          var (username, password, clientId) := LoginFields(body.fields);
          Credentials(username, password, clientId, cfg, sha, jwt, now, jti, isoformat)
  }

  /** The username, password and client id read from the body, each `None` when absent. */
  function LoginFields(body: seq<(string, Json)>): (Json, Json, Json) {
    (GetOr(body, "username", JNull), GetOr(body, "password", JNull), GetOr(body, "client_id", JNull))
  }

  /** A body that is not JSON is a 400, and one that is JSON but no object raises. */
  lemma LoginBadBody(e: Event, cfg: Config, sha: Sha256Hex, jwt: Jwt, loads: Loads, now: int, jti: string,
                     isoformat: int -> string)
    ensures var parsed := loads(if e.body.Some? then e.body.value else "{}");
      var r := Login(e, cfg, sha, jwt, loads, now, jti, isoformat);
      (parsed.None? ==> r.Ok? && r.value.status == 400)
      && (parsed.Some? && !parsed.value.JObject? ==> r.Err? && r.error.kind == AttributeError)
  {
  }

  /** A login form's three fields, read back. */
  lemma LoginFormFields(username: Json, password: Json, clientId: Json)
    ensures LoginFields([("username", username), ("password", password), ("client_id", clientId)])
      == (username, password, clientId)
  {
    var fields := [("username", username), ("password", password), ("client_id", clientId)];
    LookupAt(fields, 1, "password");
    LookupAt(fields, 2, "client_id");
  }

  /** A login form's three fields are what the credentials check sees. */
  lemma LoginReadsFields(e: Event, cfg: Config, sha: Sha256Hex, jwt: Jwt, loads: Loads, now: int, jti: string,
                         isoformat: int -> string, username: Json, password: Json, clientId: Json)
    requires loads(if e.body.Some? then e.body.value else "{}")
      == Some(JObject([("username", username), ("password", password), ("client_id", clientId)]))
    ensures Login(e, cfg, sha, jwt, loads, now, jti, isoformat)
      == Credentials(username, password, clientId, cfg, sha, jwt, now, jti, isoformat)
  {
    LoginFormFields(username, password, clientId);
  }

  /** Without a username or a password the login is a 400, whatever else is configured. */
  lemma LoginNeedsBoth(username: Json, password: Json, clientId: Json, cfg: Config, sha: Sha256Hex, jwt: Jwt, now: int,
                       jti: string, isoformat: int -> string)
    requires !Truthy(username) || !Truthy(password)
    ensures var r := Credentials(username, password, clientId, cfg, sha, jwt, now, jti, isoformat);
      r.Ok? && r.value.status == 400
  {
  }

  /** While no digest is configured, a login answers 500 and reveals the password's digest. */
  lemma FirstSetupRevealsDigest(username: Json, password: string, clientId: Json, cfg: Config, sha: Sha256Hex, jwt: Jwt,
                                now: int, jti: string, isoformat: int -> string)
    requires Truthy(username) && password != [] && !Given(cfg.adminHash)
    ensures var r := Credentials(username, JStr(password), clientId, cfg, sha, jwt, now, jti, isoformat);
      r.Ok? && r.value.status == 500 && r.value.body.value.fields[2] == ("your_password_hash", JStr(sha(password)))
  {
  }

  /**
   * With a digest configured, a string password is refused with 401
   * exactly when the user or the digest differs, and a token is issued
   * exactly when both match and a JWT secret is set.
   */
  lemma LoginVerdict(username: Json, password: string, clientId: Json, cfg: Config, sha: Sha256Hex, jwt: Jwt,
                     now: int, jti: string, isoformat: int -> string)
    requires Truthy(username) && password != [] && Given(cfg.adminHash)
    ensures var r := Credentials(username, JStr(password), clientId, cfg, sha, jwt, now, jti, isoformat);
      var matches := username == JStr(cfg.adminUsername) && sha(password) == cfg.adminHash.value;
      r.Ok? && (r.value.status == 401 <==> !matches) && (r.value.status == 200 <==> matches && Given(cfg.jwtSecret))
  {
  }

  /** A wrong user name is refused before the password is hashed, whatever its type. */
  lemma WrongUserNotHashed(username: Json, password: Json, clientId: Json, cfg: Config, sha: Sha256Hex, jwt: Jwt,
                           now: int, jti: string, isoformat: int -> string)
    requires Truthy(username) && Truthy(password) && Given(cfg.adminHash) && username != JStr(cfg.adminUsername)
    ensures Credentials(username, password, clientId, cfg, sha, jwt, now, jti, isoformat)
      == Ok(Response(401, LoginHeaders, JsonBody(BadCredentials)))
  {
  }

  // --------------------------------------------------------------- token info

  /** The claims `handle_token_info` reports for a verified token. */
  function Claims(payload: seq<(string, Json)>): Json {
    JObject([("active", JBool(true)), ("sub", GetOr(payload, "sub", JNull)), ("scope", GetOr(payload, "scope", JNull)),
             ("client_id", GetOr(payload, "client_id", JNull)), ("exp", GetOr(payload, "exp", JNull)),
             ("iat", GetOr(payload, "iat", JNull)), ("jti", GetOr(payload, "jti", JNull))])
  }

  const Inactive: Json := JObject([("active", JBool(false)), ("error", JStr("invalid_token"))])

  /** `handle_token_info`: the token is what follows the seven characters of `Bearer `. */
  function TokenInfo(e: Event, cfg: Config, jwt: Jwt, now: int): (r: Response)
    ensures var header := StrGet(e.headers, "authorization", "");
      (r.status == 200 <==> StartsWith(header, "Bearer ") && VerifyToken(cfg, header[7..], jwt, now).Some?
                            && VerifyToken(cfg, header[7..], jwt, now).value != [])
      && (r.status == 200 ==> r.body == JsonBody(Claims(VerifyToken(cfg, header[7..], jwt, now).value)))
      && (r.status != 200 ==> r.status == 401)
    ensures var header := StrGet(e.headers, "authorization", "");
      !StartsWith(header, "Bearer ") ==> r.body == JsonBody(OAuthError("invalid_request", "Bearer token required"))
    ensures var header := StrGet(e.headers, "authorization", "");
      StartsWith(header, "Bearer ") && r.status == 401 ==> r.body == JsonBody(Inactive)
  {
    var header := StrGet(e.headers, "authorization", "");
    if !StartsWith(header, "Bearer ") then
      Response(401, InfoHeaders, JsonBody(OAuthError("invalid_request", "Bearer token required")))
    else match VerifyToken(cfg, header[7..], jwt, now)
      case Some(payload) =>
        if payload == [] then Response(401, InfoHeaders, JsonBody(Inactive))
        else Response(200, InfoHeaders, JsonBody(Claims(payload)))
      case None => Response(401, InfoHeaders, JsonBody(Inactive))
  }

  /** The claims of a payload `generate_token` built, as `handle_token_info` reports them. */
  lemma ClaimsOfPayload(userId: Json, clientId: Json, now: int, hours: int, jti: string)
    ensures Claims(Payload(userId, clientId, now, hours, jti)) == JObject([
      ("active", JBool(true)), ("sub", userId), ("scope", JStr(Scope)),
      ("client_id", if Truthy(clientId) then clientId else JNull), ("exp", JInt(now + hours * 3600)),
      ("iat", JInt(now)), ("jti", JStr(jti))])
  {
    PayloadClaims(userId, clientId, now, hours, jti);
  }

  /**
   * A token a successful login returned, presented back while the codec
   * still accepts it, reports the admin as subject, the login's client and
   * an expiry `expiryHours` after issue.
   */
  lemma LoginTokenRoundTrip(clientId: Json, cfg: Config, jwt: Jwt, issued: int, jti: string, isoformat: int -> string,
                            later: int, e: Event)
    requires Given(cfg.jwtSecret)
    requires var payload := Payload(JStr(cfg.adminUsername), clientId, issued, cfg.expiryHours, jti);
      jwt.decode(jwt.encode(payload, cfg.jwtSecret.value), cfg.jwtSecret.value, later) == Some(payload)
    requires var grant := GenerateToken(cfg, JStr(cfg.adminUsername), clientId, jwt, issued, jti, isoformat);
      e.headers == [("authorization", "Bearer " + grant.value.fields[0].1.s)]
    ensures var info := TokenInfo(e, cfg, jwt, later);
      info.status == 200
      && info.body.value.fields[1] == ("sub", JStr(cfg.adminUsername))
      && info.body.value.fields[3] == ("client_id", if Truthy(clientId) then clientId else JNull)
      && info.body.value.fields[4] == ("exp", JInt(issued + cfg.expiryHours * 3600))
  {
    var payload := Payload(JStr(cfg.adminUsername), clientId, issued, cfg.expiryHours, jti);
    var token := jwt.encode(payload, cfg.jwtSecret.value);
    var header := "Bearer " + token;
    assert StartsWith(header, "Bearer ") && header[7..] == token;
    ClaimsOfPayload(JStr(cfg.adminUsername), clientId, issued, cfg.expiryHours, jti);
  }

  // ------------------------------------------------------------------ routing

  /** `handler`. */
  function Handler(e: Event, cfg: Config, sha: Sha256Hex, jwt: Jwt, loads: Loads, now: int, jti: string,
                   isoformat: int -> string): (r: Result<Response, Exc>)
    requires |cfg.allowedOrigins| >= 1
    ensures Method(e) == "OPTIONS" ==> r == Ok(Preflight(e, cfg))
    ensures var path := StripChar(Path(e), '/');
      Method(e) != "OPTIONS" && !(path == "api/auth/login" && Method(e) == "POST")
      && !(path == "api/auth/token" && Method(e) == "GET") ==>
        r.Ok? && r.value.status == 404
        && r.value.body == JsonBody(OAuthError("not_found", "Unknown endpoint: " + path))
    ensures StripChar(Path(e), '/') == "api/auth/login" && Method(e) == "POST" ==> r == Login(e, cfg, sha, jwt, loads, now, jti, isoformat)
    ensures StripChar(Path(e), '/') == "api/auth/token" && Method(e) == "GET" ==> r == Ok(TokenInfo(e, cfg, jwt, now))
  {
    var path := StripChar(Path(e), '/');
    var verb := Method(e);
    if verb == "OPTIONS" then Ok(Preflight(e, cfg))
    else if path == "api/auth/login" && verb == "POST" then Login(e, cfg, sha, jwt, loads, now, jti, isoformat)
    else if path == "api/auth/token" && verb == "GET" then Ok(TokenInfo(e, cfg, jwt, now))
    else Ok(Response(404, InfoHeaders, JsonBody(OAuthError("not_found", "Unknown endpoint: " + path))))
  }
}
