/**
 * The consolidated OAuth handler of `api/oauth.py`. Its clients, codes and
 * tokens live in the SQLite store when that module imports, and in three
 * module-level dicts otherwise; `dbAvailable` says which. GET serves the
 * discovery documents, shows the login form (auto-registering unknown
 * clients), registers clients and exchanges codes; POST processes the login
 * form, exchanges codes and otherwise falls back to GET.
 */
module ApiOAuth {
  import opened Wrappers
  import opened Strings
  import opened PyJson
  import opened PyErrors
  import opened UrlCodec
  import opened QueryNormal
  import Db = OAuthDb

  const Scope: string := "mcp:read mcp:write accounts:read transactions:read budgets:read"
  const ClientIdPrefix: string := "monarchmoney_mcp_"
  const TokenLifetime: int := 3600

  /** A `_fallback_clients` entry. */
  datatype FallbackClient = FallbackClient(secret: string, redirectUris: seq<string>)

  /** What a code stands for: a `_fallback_auth_codes` entry, or the matching columns of an `auth_codes` row. */
  datatype Grant = Grant(clientId: string, email: Option<string>, password: Option<string>)

  /** What a token stands for: a `_fallback_access_tokens` entry, or the matching columns of an `access_tokens` row. */
  datatype Bearer = Bearer(clientId: string, authCode: Option<string>, email: Option<string>, password: Option<string>)

  /** The SQLite tables and the fallback dicts; only one of the two is used, as `dbAvailable` says. */
  datatype State = State(db: Db.Tables, clients: map<string, FallbackClient>, codes: map<string, Grant>,
                         tokens: map<string, Bearer>)

  /** What `get_user_credentials` returns. */
  datatype UserCredentials = UserCredentials(email: string, password: Option<string>)

  /** The random values one request may draw: `token_hex(8)` and four `token_urlsafe(32)` strings. */
  datatype Fresh = Fresh(clientHex: string, clientSecret: string, authCode: string, accessToken: string,
                         refreshToken: string)

  /** The response: a JSON body with its status, the login page, a 302 redirect, or an exception that escapes. */
  datatype Reply =
    | JsonReply(status: int, body: Json)
    | LoginForm(clientId: string, redirectUri: string, state: string, scope: string, banner: string)
    | Redirect(location: string)
    | Crash(e: Exc)

  /** `generate_client_credentials`, with the random parts supplied. */
  function ClientCredentials(hex: string, secret: string): (r: (string, string))
    ensures StartsWith(r.0, ClientIdPrefix) && r.0[|ClientIdPrefix|..] == hex && r.1 == secret
  {
    (ClientIdPrefix + hex, secret)
  }

  /** No authorization code appears, in the store or in the fallback dict. */
  predicate NoNewCodes(s: State, s': State) {
    s'.codes.Keys <= s.codes.Keys && s'.db.codes.Keys <= s.db.codes.Keys
  }

  /** `generate_auth_code`: a code issued for the client and bound to the user's credentials; in the store it lives 600 seconds. */
  function IssueCode(s: State, dbAvailable: bool, code: string, clientId: string, email: Option<string>,
                     password: Option<string>, now: int): (s': State)
    ensures s'.codes.Keys <= s.codes.Keys + {code} && s'.db.codes.Keys <= s.db.codes.Keys + {code}
  {
    if dbAvailable then s.(db := Db.StoreCode(s.db, code, clientId, email, password, Db.DefaultCodeLifetime, now))
    else s.(codes := s.codes[code := Grant(clientId, email, password)])
  }

  /** `generate_access_token`: a token bound to the client, the code it came from and the user's credentials. */
  function IssueToken(s: State, dbAvailable: bool, token: string, clientId: string, authCode: string,
                      email: Option<string>, password: Option<string>, now: int): (s': State)
    ensures s'.codes == s.codes && s'.db.codes == s.db.codes
  {
    if dbAvailable then
      s.(db := Db.StoreToken(s.db, token, clientId, Some(authCode), email, password, Db.DefaultTokenLifetime, now))
    else s.(tokens := s.tokens[token := Bearer(clientId, Some(authCode), email, password)])
  }

  /** The code's record, from the store or from the fallback dict. */
  function FindCode(s: State, dbAvailable: bool, code: string, now: int): (r: (State, Option<Grant>))
    ensures NoNewCodes(s, r.0)
  {
    if dbAvailable then
      var (t, row) := Db.GetCode(s.db, code, now);
      (s.(db := t), if row.Some? then Some(Grant(row.value.clientId, row.value.email, row.value.password)) else None)
    else (s, if code in s.codes then Some(s.codes[code]) else None)
  }

  /** The code removed from the store, or from the fallback dict when present there. */
  function ForgetCode(s: State, dbAvailable: bool, code: string): (s': State)
    ensures NoNewCodes(s, s')
  {
    if dbAvailable then s.(db := Db.DeleteCode(s.db, code)) else s.(codes := s.codes - {code})
  }

  /** `validate_access_token`: the token's record, read through the store's expiry check when there is a store. */
  function FindToken(s: State, dbAvailable: bool, token: string, now: int): (State, Option<Bearer>) {
    if dbAvailable then
      var (t, row) := Db.GetToken(s.db, token, now);
      (s.(db := t), if row.Some? then Some(Bearer(row.value.clientId, row.value.authCode, row.value.email, row.value.password)) else None)
    else (s, if token in s.tokens then Some(s.tokens[token]) else None)
  }

  /** `get_user_credentials`. */
  function UserCredentialsOf(s: State, dbAvailable: bool, token: string, now: int): (State, Option<UserCredentials>) {
    var (s', b) := FindToken(s, dbAvailable, token, now);
    if b.Some? && b.value.email.Some? && b.value.email.value != [] then
      (s', Some(UserCredentials(b.value.email.value, b.value.password)))
    else (s', None)
  }

  /** The metadata document the handler itself serves for `.well-known/oauth-authorization-server`. */
  function ServerMetadata(base: string): Json {
    JObject([
      ("issuer", JStr(base)),
      ("authorization_endpoint", JStr(base + "/oauth?action=authorize")),
      ("token_endpoint", JStr(base + "/oauth?action=token")),
      ("registration_endpoint", JStr(base + "/oauth?action=register")),
      ("response_types_supported", StrList(["code"])),
      ("grant_types_supported", StrList(["authorization_code"])),
      ("code_challenge_methods_supported", StrList(["S256"])),
      ("token_endpoint_auth_methods_supported", StrList(["client_secret_basic", "client_secret_post"])),
      ("scopes_supported", StrList(["mcp:read", "mcp:write", "accounts:read", "transactions:read", "budgets:read"]))])
  }

  /** The document it serves for `.well-known/oauth-protected-resource`. */
  function ResourceMetadata(base: string): Json {
    JObject([
      ("resource", JStr(base)),
      ("authorization_servers", StrList([base])),
      ("bearer_methods_supported", StrList(["header"])),
      ("scopes_supported", StrList(["mcp:read", "mcp:write", "accounts:read", "transactions:read", "budgets:read"]))])
  }

  /** The answer to a GET that matches no branch. */
  function InfoDocument(base: string): Json {
    JObject([
      ("message", JStr("Monarch Money MCP OAuth Server")),
      ("status", JStr("active")),
      ("endpoints", JObject([
        ("register", JStr(base + "/oauth?action=register")),
        ("authorize", JStr(base + "/oauth?action=authorize")),
        ("token", JStr(base + "/oauth?action=token")),
        ("metadata", JStr(base + "/oauth?.well-known/oauth-authorization-server"))]))])
  }

  /** The redirect URIs every registered client gets. */
  function RegisteredUris(base: string): seq<string> {
    ["https://api.agent.ai/api/v3/mcp/flow/redirect",
     "https://agent.ai/oauth/callback",
     "https://claude.ai/oauth/callback",
     "https://claude.ai/api/mcp/auth_callback",
     base + "/callback",
     "http://localhost:3000/callback",
     "mcp://oauth/callback"]
  }

  /** The login form is shown for an authorization request or an error redirect that names a client. */
  predicate ShowsLoginForm(responseType: string, clientId: string, error: string) {
    (responseType == "code" && clientId != []) || (error != [] && clientId != [])
  }

  const DefaultCredentialsError: string := "Invalid Monarch Money credentials. Please check your email and password."

  /** The text of the error box above the form; no box without an `error` parameter. */
  function ErrorBanner(error: string, description: string): string {
    if error == [] then []
    else if error == "invalid_credentials" then (if description != [] then Unquote(description) else DefaultCredentialsError)
    else if description != [] then Unquote(description) else error
  }

  function GrantError(description: string): Reply {
    JsonReply(400, JObject([("error", JStr("invalid_grant")), ("error_description", JStr(description))]))
  }

  function TokenDocument(token: string, refresh: string): Json {
    JObject([("access_token", JStr(token)), ("token_type", JStr("Bearer")), ("expires_in", JInt(TokenLifetime)),
             ("scope", JStr(Scope)), ("refresh_token", JStr(refresh))])
  }

  /**
   * The login-form branch: look the client up and, when it is unknown,
   * register it with the request's redirect URI (none when that is empty).
   */
  function LoginFormStep(s: State, dbAvailable: bool, params: seq<(string, string)>, secret: string, now: int)
    : (r: (State, Reply))
    ensures NoNewCodes(s, r.0)
    ensures r.1.LoginForm? || (dbAvailable && r.1.Crash?)
  {
    var clientId := QsFirst(params, "client_id", "");
    var redirectUri := QsFirst(params, "redirect_uri", "");
    var uris := if redirectUri != [] then [redirectUri] else [];
    var form := LoginForm(clientId, redirectUri, QsFirst(params, "state", ""), QsFirst(params, "scope", ""),
                          ErrorBanner(QsFirst(params, "error", ""), QsFirst(params, "error_description", "")));
    if dbAvailable then
      match Db.GetClient(s.db, clientId)
        case Err(e) => (s, Crash(e))
        case Ok(found) =>
          if found.Some? then (s, form) else (s.(db := Db.StoreClient(s.db, clientId, secret, uris, now)), form)
    else if clientId in s.clients then (s, form)
    else (s.(clients := s.clients[clientId := FallbackClient(secret, uris)]), form)
  }

  /** The registration branch: fresh credentials, the fixed redirect URIs, stored and echoed. */
  function RegisterStep(s: State, dbAvailable: bool, base: string, draw: Fresh, now: int): (r: (State, Reply))
    ensures NoNewCodes(s, r.0)
    ensures r.1.JsonReply?
  {
    var (clientId, secret) := ClientCredentials(draw.clientHex, draw.clientSecret);
    var uris := RegisteredUris(base);
    var s' := if dbAvailable then s.(db := Db.StoreClient(s.db, clientId, secret, uris, now))
              else s.(clients := s.clients[clientId := FallbackClient(secret, uris)]);
    (s', JsonReply(200, JObject([
      ("client_id", JStr(clientId)), ("client_secret", JStr(secret)), ("redirect_uris", StrList(uris)),
      ("grant_types", StrList(["authorization_code"])), ("response_types", StrList(["code"])), ("scope", JStr(Scope))])))
  }

  /** The token exchange both GET and POST perform, on the parameters they each parse. */
  function ExchangeStep(s: State, dbAvailable: bool, params: seq<(string, string)>, draw: Fresh, now: int)
    : (r: (State, Reply))
    ensures NoNewCodes(s, r.0)
    ensures r.1.JsonReply?
  {
    var code := QsFirst(params, "code", "");
    var clientId := QsFirst(params, "client_id", "");
    var (s1, grant) := FindCode(s, dbAvailable, code, now);
    if grant.None? then (s1, GrantError("Invalid authorization code"))
    else if grant.value.clientId != clientId then (s1, GrantError("Client ID mismatch"))
    else
      var s2 := IssueToken(s1, dbAvailable, draw.accessToken, clientId, code, grant.value.email, grant.value.password, now);
      (ForgetCode(s2, dbAvailable, code), JsonReply(200, TokenDocument(draw.accessToken, draw.refreshToken)))
  }

  /**
   * `do_GET`. The discovery documents are matched anywhere in the path; the
   * other branches read the repaired query, except the token branch, which
   * reads `urlparse(path).query` as it is.
   */
  function GetStep(s: State, dbAvailable: bool, path: string, base: string, draw: Fresh, now: int): (r: (State, Reply))
    ensures NoNewCodes(s, r.0)
    ensures r.1.JsonReply? || r.1.LoginForm? || (dbAvailable && r.1.Crash?)
  {
    if Contains(path, ".well-known/oauth-authorization-server") then (s, JsonReply(200, ServerMetadata(base)))
    else if Contains(path, ".well-known/oauth-protected-resource") then (s, JsonReply(200, ResourceMetadata(base)))
    else RouteStep(s, dbAvailable, NormalizedParams(path), ParseQs(UrlQuery(path)), base, draw, now)
  }

  /**
   * The branches of `do_GET` after the discovery documents, given the
   * repaired parameters and the parameters of the query as it is.
   */
  function RouteStep(s: State, dbAvailable: bool, params: seq<(string, string)>, rawParams: seq<(string, string)>,
                     base: string, draw: Fresh, now: int): (r: (State, Reply))
    ensures NoNewCodes(s, r.0)
    ensures r.1.JsonReply? || r.1.LoginForm? || (dbAvailable && r.1.Crash?)
  {
    var action := QsFirst(params, "action", "");
    if ShowsLoginForm(QsFirst(params, "response_type", ""), QsFirst(params, "client_id", ""), QsFirst(params, "error", "")) then
      LoginFormStep(s, dbAvailable, params, draw.clientSecret, now)
    else if action == "register" then RegisterStep(s, dbAvailable, base, draw, now)
    else if action == "token" then ExchangeStep(s, dbAvailable, rawParams, draw, now)
    else (s, JsonReply(200, InfoDocument(base)))
  }

  /** The Monarch Money login: email, password and the stripped MFA secret when one was typed; it succeeds or raises. */
  type Authenticator = (string, string, Option<string>) -> Result<(), Exc>

  /**
   * How the typed credentials are checked: with the library's login when
   * `from monarchmoney import MonarchMoney` succeeds, and otherwise against
   * the `MONARCH_EMAIL` and `MONARCH_PASSWORD` the module read.
   */
  datatype LoginCheck = Library(login: Authenticator) | Environment(email: Option<string>, password: Option<string>)

  /** The fallback reaches the callback with `auth_code` never assigned. */
  const AuthCodeUnbound: Exc :=
    Exc(UnboundLocalError, "cannot access local variable 'auth_code' where it is not associated with a value")

  const MfaMissing: string := "MFA/2FA is required for your account. Please enter your MFA secret key (the base32 string you got when setting up your authenticator app)."
  const MfaWrong: string := "Invalid MFA secret key. Please check that you entered the correct base32 secret key from your MFA setup."
  const BadPassword: string := "Invalid email or password. Please check your Monarch Money credentials."
  const NetworkTrouble: string := "Network error connecting to Monarch Money. Please try again."
  const TooManyAttempts: string := "Too many login attempts. Please wait and try again."

  predicate MentionsMfa(lowered: string) {
    Contains(lowered, "mfa") || Contains(lowered, "two-factor") || Contains(lowered, "multi-factor") || Contains(lowered, "base32")
  }

  predicate MentionsCredentials(lowered: string) {
    Contains(lowered, "invalid") || Contains(lowered, "unauthorized")
  }

  predicate MentionsNetwork(lowered: string) {
    Contains(lowered, "network") || Contains(lowered, "timeout")
  }

  predicate MentionsRateLimit(lowered: string) {
    Contains(lowered, "rate") || Contains(lowered, "limit")
  }

  /** The message shown for a failed login, chosen by the first keyword group the lowercased error text contains. */
  function LoginErrorMessage(error: string, mfaSecret: string): string {
    var lowered := LowerAscii(error);
    if MentionsMfa(lowered) then (if mfaSecret == [] then MfaMissing else MfaWrong)
    else if MentionsCredentials(lowered) then BadPassword
    else if MentionsNetwork(lowered) then NetworkTrouble
    else if MentionsRateLimit(lowered) then TooManyAttempts
    else "Login failed: " + error
  }

  /** Back to the login form, with the fields interpolated as they are and only the message quoted. */
  function ErrorRedirect(clientId: string, redirectUri: string, state: string, message: string): string {
    "/oauth?action=authorize&client_id=" + clientId + "&redirect_uri=" + redirectUri + "&state=" + state
      + "&error=invalid_credentials&error_description=" + Quote(message)
  }

  /** The success redirect: code and state appended unencoded, `state` even when empty. */
  function SuccessRedirect(redirectUri: string, code: string, state: string): string {
    redirectUri + "?code=" + code + "&state=" + state
  }

  /** The fallback's way back to the form, with its fixed, unquoted message. */
  function ServerCredentialsRedirect(clientId: string, redirectUri: string, state: string): string {
    "/oauth?action=authorize&client_id=" + clientId + "&redirect_uri=" + redirectUri + "&state=" + state
      + "&error=invalid_credentials&error_description=Server credentials required"
  }

  /** The MFA secret passed to the login: the stripped text, when any remains. */
  function MfaArgument(mfaSecret: string): Option<string> {
    if Strip(mfaSecret) != [] then Some(Strip(mfaSecret)) else None
  }

  /**
   * The `process` action: log in to Monarch Money with the form's
   * credentials, and issue a code only if that works. Without the library,
   * credentials other than the environment's are sent back to the form, and
   * the environment's own reach the callback with no code assigned.
   */
  function ProcessStep(s: State, dbAvailable: bool, form: seq<(string, string)>, check: LoginCheck, code: string,
                       now: int): (r: (State, Reply))
    ensures r.1.Redirect? || r.1 == Crash(AuthCodeUnbound)
    ensures r.0 == s
            || (check.Library? && check.login(QsFirst(form, "email", ""), QsFirst(form, "password", ""),
                                              MfaArgument(QsFirst(form, "mfa_secret", ""))).Ok?
                && r.0 == IssueCode(s, dbAvailable, code, QsFirst(form, "client_id", ""), Some(QsFirst(form, "email", "")),
                                    Some(QsFirst(form, "password", "")), now))
  {
    ProcessLogin(s, dbAvailable, check, QsFirst(form, "email", ""), QsFirst(form, "password", ""),
                 QsFirst(form, "mfa_secret", ""), QsFirst(form, "client_id", ""), QsFirst(form, "redirect_uri", ""),
                 QsFirst(form, "state", ""), code, now)
  }

  /** The `process` action once the form's fields have been read. */
  function ProcessLogin(s: State, dbAvailable: bool, check: LoginCheck, email: string, password: string,
                        mfaSecret: string, clientId: string, redirectUri: string, state: string, code: string,
                        now: int): (r: (State, Reply))
    ensures r.1.Redirect? || r.1 == Crash(AuthCodeUnbound)
    ensures r.0 == s
            || (check.Library? && check.login(email, password, MfaArgument(mfaSecret)).Ok?
                && r.0 == IssueCode(s, dbAvailable, code, clientId, Some(email), Some(password), now))
  {
    match check
      case Environment(envEmail, envPassword) =>
        if envEmail != Some(email) || envPassword != Some(password) then
          (s, Redirect(ServerCredentialsRedirect(clientId, redirectUri, state)))
        else (s, Crash(AuthCodeUnbound))
      case Library(login) =>
        match login(email, password, MfaArgument(mfaSecret))
          case Err(e) => (s, Redirect(ErrorRedirect(clientId, redirectUri, state, LoginErrorMessage(e.message, mfaSecret))))
          case Ok(_) =>
            (IssueCode(s, dbAvailable, code, clientId, Some(email), Some(password), now),
             Redirect(SuccessRedirect(redirectUri, code, state)))
  }

  /** The `NameError` the POST `register` branch raises: it writes to a dict that does not exist. */
  const RegisterNameError: Exc := Exc(NameError, "name 'oauth_clients' is not defined")

  /** `do_POST`: the action comes from the unrepaired query; the form and token parameters from the body. */
  function PostStep(s: State, dbAvailable: bool, path: string, body: string, base: string, check: LoginCheck,
                draw: Fresh, now: int): (r: (State, Reply))
    ensures r.0.codes.Keys <= s.codes.Keys + {draw.authCode} && r.0.db.codes.Keys <= s.db.codes.Keys + {draw.authCode}
    ensures QsFirst(ParseQs(UrlQuery(path)), "action", "") != "process" ==> NoNewCodes(s, r.0)
  {
    var action := QsFirst(ParseQs(UrlQuery(path)), "action", "");
    if action == "process" then ProcessStep(s, dbAvailable, ParseQs(body), check, draw.authCode, now)
    else if action == "token" then ExchangeStep(s, dbAvailable, ParseQs(body), draw, now)
    else if action == "register" then (s, Crash(RegisterNameError))
    else GetStep(s, dbAvailable, path, base, draw, now)
  }

  // ---------------------------------------------------------------------------
  // Properties
  // ---------------------------------------------------------------------------

  /** The credentials come back exactly when the token is known (and live) and names a non-empty email. */
  lemma UserCredentialsIff(s: State, dbAvailable: bool, token: string, now: int)
    ensures var b := FindToken(s, dbAvailable, token, now).1;
      var r := UserCredentialsOf(s, dbAvailable, token, now).1;
      (r.Some? <==> b.Some? && b.value.email.Some? && b.value.email.value != [])
      && (r.Some? ==> r.value == UserCredentials(b.value.email.value, b.value.password))
    ensures !dbAvailable ==> UserCredentialsOf(s, dbAvailable, token, now).0 == s
  {
  }

  /** A token issued for a code yields that code's user, the client and the code, as long as it is live. */
  lemma IssuedTokenFound(s: State, dbAvailable: bool, token: string, clientId: string, authCode: string,
                         email: Option<string>, password: Option<string>, now: int, later: int)
    requires dbAvailable ==> later <= now + Db.DefaultTokenLifetime
    ensures FindToken(IssueToken(s, dbAvailable, token, clientId, authCode, email, password, now), dbAvailable, token, later).1
      == Some(Bearer(clientId, Some(authCode), email, password))
  {
  }

  /**
   * The login form is shown exactly when the repaired query names a client
   * and either asks for a code or carries an error, whatever the action says.
   */
  lemma LoginFormFirst(s: State, dbAvailable: bool, path: string, base: string, draw: Fresh, now: int)
    requires !Contains(path, ".well-known/oauth-authorization-server") && !Contains(path, ".well-known/oauth-protected-resource")
    ensures var p := NormalizedParams(path);
      var r := GetStep(s, dbAvailable, path, base, draw, now).1;
      var shown := ShowsLoginForm(QsFirst(p, "response_type", ""), QsFirst(p, "client_id", ""), QsFirst(p, "error", ""));
      (shown <==> r.LoginForm? || r.Crash?)
      && (r.LoginForm? ==> r.clientId == QsFirst(p, "client_id", "") && r.clientId != [])
  {
    RouteLoginFormFirst(s, dbAvailable, NormalizedParams(path), ParseQs(UrlQuery(path)), base, draw, now);
  }

  lemma RouteLoginFormFirst(s: State, dbAvailable: bool, params: seq<(string, string)>, rawParams: seq<(string, string)>,
                            base: string, draw: Fresh, now: int)
    ensures var r := RouteStep(s, dbAvailable, params, rawParams, base, draw, now).1;
      var shown := ShowsLoginForm(QsFirst(params, "response_type", ""), QsFirst(params, "client_id", ""), QsFirst(params, "error", ""));
      (shown <==> r.LoginForm? || r.Crash?)
      && (r.LoginForm? ==> r.clientId == QsFirst(params, "client_id", "") && r.clientId != [])
  {
    var shown := ShowsLoginForm(QsFirst(params, "response_type", ""), QsFirst(params, "client_id", ""), QsFirst(params, "error", ""));
    if shown {
      LoginFormReplies(s, dbAvailable, params, draw.clientSecret, now);
    } else if QsFirst(params, "action", "") == "token" {
      ExchangeReplies(s, dbAvailable, rawParams, draw, now);
    }
  }

  /** The login-form branch shows the form for the requested client, unless reading the store raises. */
  lemma LoginFormReplies(s: State, dbAvailable: bool, params: seq<(string, string)>, secret: string, now: int)
    ensures var r := LoginFormStep(s, dbAvailable, params, secret, now).1;
      (r.LoginForm? && r.clientId == QsFirst(params, "client_id", "")) || (dbAvailable && r.Crash?)
  {
  }

  /** The exchange always answers with a JSON body. */
  lemma ExchangeReplies(s: State, dbAvailable: bool, params: seq<(string, string)>, draw: Fresh, now: int)
    ensures ExchangeStep(s, dbAvailable, params, draw, now).1.JsonReply?
  {
  }

  /**
   * Showing the form registers an unknown client with `[redirect_uri]`, or
   * `[]` when the request has none, and leaves a known client's record alone.
   */
  lemma AutoRegistration(s: State, dbAvailable: bool, params: seq<(string, string)>, secret: string, now: int)
    ensures var clientId := QsFirst(params, "client_id", "");
      var redirectUri := QsFirst(params, "redirect_uri", "");
      var (s', r) := LoginFormStep(s, dbAvailable, params, secret, now);
      (!dbAvailable ==>
         s'.db == s.db && s'.codes == s.codes && s'.tokens == s.tokens
         && clientId in s'.clients
         && (clientId in s.clients ==> s' == s)
         && (clientId !in s.clients ==>
               s'.clients == s.clients[clientId := FallbackClient(secret, if redirectUri != [] then [redirectUri] else [])]))
      && (dbAvailable && Db.GetClient(s.db, clientId).Ok? ==>
         (Db.GetClient(s.db, clientId).value.Some? ==> s' == s)
         && (Db.GetClient(s.db, clientId).value.None? ==>
               Db.GetClient(s'.db, clientId) == Ok(Some(Db.ClientInfo(clientId, secret, if redirectUri != [] then [redirectUri] else [], now)))))
  {
    var clientId := QsFirst(params, "client_id", "");
    var redirectUri := QsFirst(params, "redirect_uri", "");
    if dbAvailable && Db.GetClient(s.db, clientId).Ok? && Db.GetClient(s.db, clientId).value.None? {
      Db.StoreClientRoundTrip(s.db, clientId, secret, if redirectUri != [] then [redirectUri] else [], now, clientId + "x");
    }
  }

  /**
   * A failed exchange issues no token. An unknown code changes nothing
   * beyond removing that code if it had expired in the store; a client
   * mismatch changes nothing at all.
   */
  lemma ExchangeFailures(s: State, dbAvailable: bool, params: seq<(string, string)>, draw: Fresh, now: int)
    ensures var code := QsFirst(params, "code", "");
      var (s', r) := ExchangeStep(s, dbAvailable, params, draw, now);
      var grant := FindCode(s, dbAvailable, code, now).1;
      (grant.None? ==> r == GrantError("Invalid authorization code")
                       && s'.tokens == s.tokens && s'.db.tokens == s.db.tokens && s'.clients == s.clients
                       && s'.db.clients == s.db.clients && s'.codes == s.codes
                       && (s'.db.codes == s.db.codes || s'.db.codes == s.db.codes - {code}))
      && (grant.Some? && grant.value.clientId != QsFirst(params, "client_id", "") ==>
            r == GrantError("Client ID mismatch") && s' == s)
  {
  }

  /**
   * A successful exchange binds a new token to the code's user and client,
   * removes the code, and so a replay of the same parameters fails.
   */
  lemma ExchangeSingleUse(s: State, dbAvailable: bool, params: seq<(string, string)>, draw: Fresh, draw2: Fresh,
                          now: int, later: int)
    requires dbAvailable ==> now <= later
    ensures var code := QsFirst(params, "code", "");
      var clientId := QsFirst(params, "client_id", "");
      var grant := FindCode(s, dbAvailable, code, now).1;
      var (s', r) := ExchangeStep(s, dbAvailable, params, draw, now);
      r.JsonReply? && r.status == 200 ==>
        grant.Some? && grant.value.clientId == clientId
        && r.body == TokenDocument(draw.accessToken, draw.refreshToken)
        && (dbAvailable || draw.accessToken in s'.tokens)
        && (!dbAvailable ==> s'.tokens[draw.accessToken] == Bearer(clientId, Some(code), grant.value.email, grant.value.password))
        && (dbAvailable ==> draw.accessToken in s'.db.tokens
                             && s'.db.tokens[draw.accessToken] == Db.TokenRow(clientId, Some(code), grant.value.email,
                                                                             grant.value.password, now, now + TokenLifetime))
        && ExchangeStep(s', dbAvailable, params, draw2, later).1 == GrantError("Invalid authorization code")
  {
  }

  /**
   * The process action stores a code only when the library's login with
   * exactly the typed credentials succeeds. Without the library nothing is
   * stored: other credentials than the environment's go back to the form,
   * and the environment's own end in the `UnboundLocalError`.
   */
  lemma ProcessIssuesOnlyOnLogin(s: State, dbAvailable: bool, form: seq<(string, string)>, check: LoginCheck,
                                 code: string, now: int)
    ensures var email := QsFirst(form, "email", "");
      var password := QsFirst(form, "password", "");
      var mfaSecret := QsFirst(form, "mfa_secret", "");
      var (s', r) := ProcessStep(s, dbAvailable, form, check, code, now);
      check.Library? ==>
        var outcome := check.login(email, password, MfaArgument(mfaSecret));
        r.Redirect?
        && (outcome.Err? ==> s' == s && StartsWith(r.location, "/oauth?action=authorize&client_id="))
        && (outcome.Ok? ==>
              s' == IssueCode(s, dbAvailable, code, QsFirst(form, "client_id", ""), Some(email), Some(password), now)
              && r.location == QsFirst(form, "redirect_uri", "") + "?code=" + code + "&state=" + QsFirst(form, "state", ""))
    ensures var email := QsFirst(form, "email", "");
      var password := QsFirst(form, "password", "");
      var (s', r) := ProcessStep(s, dbAvailable, form, check, code, now);
      check.Environment? ==>
        s' == s
        && (r == Crash(AuthCodeUnbound) <==> check.email == Some(email) && check.password == Some(password))
        && (r != Crash(AuthCodeUnbound) ==> r.Redirect? && StartsWith(r.location, "/oauth?action=authorize&client_id="))
  {
    var clientId, redirectUri, state := QsFirst(form, "client_id", ""), QsFirst(form, "redirect_uri", ""), QsFirst(form, "state", "");
    match check {
      case Library(login) =>
        var outcome := login(QsFirst(form, "email", ""), QsFirst(form, "password", ""), MfaArgument(QsFirst(form, "mfa_secret", "")));
        if outcome.Err? {
          ErrorRedirectPrefix(clientId, redirectUri, state, LoginErrorMessage(outcome.error.message, QsFirst(form, "mfa_secret", "")));
        }
      case Environment(_, _) =>
        ServerCredentialsPrefix(clientId, redirectUri, state);
    }
  }

  /** The fallback's refusal also goes back to the authorization form. */
  lemma ServerCredentialsPrefix(clientId: string, redirectUri: string, state: string)
    ensures StartsWith(ServerCredentialsRedirect(clientId, redirectUri, state), "/oauth?action=authorize&client_id=")
  {
    var prefix := "/oauth?action=authorize&client_id=";
    assert ServerCredentialsRedirect(clientId, redirectUri, state)[..|prefix|] == prefix;
  }

  /** Every failed login is sent back to the authorization form. */
  lemma ErrorRedirectPrefix(clientId: string, redirectUri: string, state: string, message: string)
    ensures StartsWith(ErrorRedirect(clientId, redirectUri, state, message), "/oauth?action=authorize&client_id=")
  {
    var prefix := "/oauth?action=authorize&client_id=";
    assert ErrorRedirect(clientId, redirectUri, state, message)[..|prefix|] == prefix;
  }

  /**
   * The message classification is a priority order: the MFA keywords win
   * over everything, then the credential keywords, then network, then rate
   * limiting; a message with none of them is shown verbatim after a prefix.
   */
  lemma LoginErrorPriority(error: string, mfaSecret: string)
    ensures MentionsMfa(LowerAscii(error)) ==>
      LoginErrorMessage(error, mfaSecret) == (if mfaSecret == [] then MfaMissing else MfaWrong)
    ensures !MentionsMfa(LowerAscii(error)) && MentionsCredentials(LowerAscii(error)) ==>
      LoginErrorMessage(error, mfaSecret) == BadPassword
    ensures !MentionsMfa(LowerAscii(error)) && !MentionsCredentials(LowerAscii(error)) && MentionsNetwork(LowerAscii(error)) ==>
      LoginErrorMessage(error, mfaSecret) == NetworkTrouble
    ensures (!MentionsMfa(LowerAscii(error)) && !MentionsCredentials(LowerAscii(error)) && !MentionsNetwork(LowerAscii(error))
             && MentionsRateLimit(LowerAscii(error))) ==>
      LoginErrorMessage(error, mfaSecret) == TooManyAttempts
    ensures (!MentionsMfa(LowerAscii(error)) && !MentionsCredentials(LowerAscii(error)) && !MentionsNetwork(LowerAscii(error))
             && !MentionsRateLimit(LowerAscii(error))) ==>
      LoginErrorMessage(error, mfaSecret) == "Login failed: " + error
  {
  }

  /** An MFA secret of only whitespace is not passed to the login, yet still counts as "entered" for the message. */
  lemma BlankMfaSecret(error: string, mfaSecret: string)
    requires mfaSecret != [] && Strip(mfaSecret) == []
    requires MentionsMfa(LowerAscii(error))
    ensures MfaArgument(mfaSecret) == None
    ensures LoginErrorMessage(error, mfaSecret) == MfaWrong
  {
  }

  /** The fixed redirect URIs are seven, this server's own callback among them. */
  lemma RegisteredUrisShape(base: string)
    ensures |RegisteredUris(base)| == 7 && base + "/callback" in RegisteredUris(base)
    ensures "https://claude.ai/api/mcp/auth_callback" in RegisteredUris(base)
  {
    assert RegisteredUris(base)[3] == "https://claude.ai/api/mcp/auth_callback";
    assert RegisteredUris(base)[4] == base + "/callback";
  }

  /** Registration issues a `monarchmoney_mcp_` id whose record holds the fixed redirect URIs and the issued secret. */
  lemma RegistrationStoresClient(s: State, dbAvailable: bool, base: string, draw: Fresh, now: int)
    ensures var (s', r) := RegisterStep(s, dbAvailable, base, draw, now);
      var clientId := ClientIdPrefix + draw.clientHex;
      r.JsonReply? && r.status == 200
      && (!dbAvailable ==> s'.clients == s.clients[clientId := FallbackClient(draw.clientSecret, RegisteredUris(base))])
      && (dbAvailable ==> Db.GetClient(s'.db, clientId) == Ok(Some(Db.ClientInfo(clientId, draw.clientSecret, RegisteredUris(base), now))))
  {
    var clientId := ClientIdPrefix + draw.clientHex;
    var uris := RegisteredUris(base);
    Db.StoreClientRoundTrip(s.db, clientId, draw.clientSecret, uris, now, clientId + "x");
    assert RegisterStep(s, dbAvailable, base, draw, now).0.db
      == if dbAvailable then Db.StoreClient(s.db, clientId, draw.clientSecret, uris, now) else s.db;
  }

  /** A POST whose action is none of the three it knows is answered exactly as GET would answer it. */
  lemma PostFallsBackToGet(s: State, dbAvailable: bool, path: string, body: string, base: string, check: LoginCheck,
                           draw: Fresh, now: int)
    requires QsFirst(ParseQs(UrlQuery(path)), "action", "") !in ["process", "token", "register"]
    ensures PostStep(s, dbAvailable, path, body, base, check, draw, now) == GetStep(s, dbAvailable, path, base, draw, now)
  {
  }

  // ---------------------------------------------------------------------------
  // The handler over its store
  // ---------------------------------------------------------------------------

  class Handler {
    /** `DB_AVAILABLE`, fixed when the module is imported. */
    const dbAvailable: bool
    const db: Db.Database
    var clients: map<string, FallbackClient>
    var codes: map<string, Grant>
    var tokens: map<string, Bearer>

    function Snapshot(): State
      reads this, db
    {
      State(db.Snapshot(), clients, codes, tokens)
    }

    constructor (dbAvailable: bool, db: Db.Database)
      ensures this.dbAvailable == dbAvailable && this.db == db
      ensures Snapshot() == State(db.Snapshot(), map[], map[], map[])
    {
      this.dbAvailable := dbAvailable;
      this.db := db;
      clients := map[];
      codes := map[];
      tokens := map[];
    }

    method GenerateAuthCode(code: string, clientId: string, email: Option<string>, password: Option<string>, now: int)
      modifies this, db
      ensures Snapshot() == IssueCode(old(Snapshot()), dbAvailable, code, clientId, email, password, now)
    {
      if dbAvailable {
        db.StoreAuthCode(code, clientId, email, password, Db.DefaultCodeLifetime, now);
      } else {
        codes := codes[code := Grant(clientId, email, password)];
      }
    }

    method GenerateAccessToken(token: string, clientId: string, authCode: string, email: Option<string>,
                               password: Option<string>, now: int)
      modifies this, db
      ensures Snapshot() == IssueToken(old(Snapshot()), dbAvailable, token, clientId, authCode, email, password, now)
    {
      if dbAvailable {
        db.StoreAccessToken(token, clientId, Some(authCode), email, password, Db.DefaultTokenLifetime, now);
      } else {
        tokens := tokens[token := Bearer(clientId, Some(authCode), email, password)];
      }
    }

    method LookupCode(code: string, now: int) returns (grant: Option<Grant>)
      modifies this, db
      ensures (Snapshot(), grant) == FindCode(old(Snapshot()), dbAvailable, code, now)
    {
      if dbAvailable {
        var row := db.GetAuthCode(code, now);
        grant := if row.Some? then Some(Grant(row.value.clientId, row.value.email, row.value.password)) else None;
      } else {
        grant := if code in codes then Some(codes[code]) else None;
      }
    }

    method DropCode(code: string)
      modifies this, db
      ensures Snapshot() == ForgetCode(old(Snapshot()), dbAvailable, code)
    {
      if dbAvailable {
        db.DeleteAuthCode(code);
      } else if code in codes {
        codes := codes - {code};
      }
    }

    method ValidateAccessToken(token: string, now: int) returns (b: Option<Bearer>)
      modifies this, db
      ensures (Snapshot(), b) == FindToken(old(Snapshot()), dbAvailable, token, now)
    {
      if dbAvailable {
        var row := db.GetAccessToken(token, now);
        b := if row.Some? then Some(Bearer(row.value.clientId, row.value.authCode, row.value.email, row.value.password)) else None;
      } else {
        b := if token in tokens then Some(tokens[token]) else None;
      }
    }

    method GetUserCredentials(token: string, now: int) returns (r: Option<UserCredentials>)
      modifies this, db
      ensures (Snapshot(), r) == UserCredentialsOf(old(Snapshot()), dbAvailable, token, now)
    {
      var b := ValidateAccessToken(token, now);
      if b.Some? && b.value.email.Some? && b.value.email.value != [] {
        r := Some(UserCredentials(b.value.email.value, b.value.password));
      } else {
        r := None;
      }
    }

    method ShowLoginForm(params: seq<(string, string)>, secret: string, now: int) returns (r: Reply)
      modifies this, db
      ensures (Snapshot(), r) == LoginFormStep(old(Snapshot()), dbAvailable, params, secret, now)
    {
      var clientId := QsFirst(params, "client_id", "");
      var redirectUri := QsFirst(params, "redirect_uri", "");
      var uris := if redirectUri != [] then [redirectUri] else [];
      r := LoginForm(clientId, redirectUri, QsFirst(params, "state", ""), QsFirst(params, "scope", ""),
                     ErrorBanner(QsFirst(params, "error", ""), QsFirst(params, "error_description", "")));
      if dbAvailable {
        var found := db.GetOAuthClient(clientId);
        if found.Err? {
          return Crash(found.error);
        }
        if found.value.None? {
          db.StoreOAuthClient(clientId, secret, uris, now);
        }
      } else if clientId !in clients {
        clients := clients[clientId := FallbackClient(secret, uris)];
      }
    }

    method Register(base: string, draw: Fresh, now: int) returns (r: Reply)
      modifies this, db
      ensures (Snapshot(), r) == RegisterStep(old(Snapshot()), dbAvailable, base, draw, now)
    {
      var (clientId, secret) := ClientCredentials(draw.clientHex, draw.clientSecret);
      var uris := RegisteredUris(base);
      if dbAvailable {
        db.StoreOAuthClient(clientId, secret, uris, now);
      } else {
        clients := clients[clientId := FallbackClient(secret, uris)];
      }
      r := JsonReply(200, JObject([
        ("client_id", JStr(clientId)), ("client_secret", JStr(secret)), ("redirect_uris", StrList(uris)),
        ("grant_types", StrList(["authorization_code"])), ("response_types", StrList(["code"])), ("scope", JStr(Scope))]));
    }

    method Exchange(params: seq<(string, string)>, draw: Fresh, now: int) returns (r: Reply)
      modifies this, db
      ensures (Snapshot(), r) == ExchangeStep(old(Snapshot()), dbAvailable, params, draw, now)
    {
      var code := QsFirst(params, "code", "");
      var clientId := QsFirst(params, "client_id", "");
      var grant := LookupCode(code, now);
      if grant.None? {
        return GrantError("Invalid authorization code");
      }
      if grant.value.clientId != clientId {
        return GrantError("Client ID mismatch");
      }
      GenerateAccessToken(draw.accessToken, clientId, code, grant.value.email, grant.value.password, now);
      DropCode(code);
      r := JsonReply(200, TokenDocument(draw.accessToken, draw.refreshToken));
    }

    method DoGet(path: string, base: string, draw: Fresh, now: int) returns (r: Reply)
      modifies this, db
      ensures (Snapshot(), r) == GetStep(old(Snapshot()), dbAvailable, path, base, draw, now)
    {
      if Contains(path, ".well-known/oauth-authorization-server") {
        return JsonReply(200, ServerMetadata(base));
      }
      if Contains(path, ".well-known/oauth-protected-resource") {
        return JsonReply(200, ResourceMetadata(base));
      }
      var params := NormalizedParams(path);
      var action := QsFirst(params, "action", "");
      if ShowsLoginForm(QsFirst(params, "response_type", ""), QsFirst(params, "client_id", ""), QsFirst(params, "error", "")) {
        r := ShowLoginForm(params, draw.clientSecret, now);
      } else if action == "register" {
        r := Register(base, draw, now);
      } else if action == "token" {
        r := Exchange(ParseQs(UrlQuery(path)), draw, now);
      } else {
        r := JsonReply(200, InfoDocument(base));
      }
    }

    method Process(form: seq<(string, string)>, check: LoginCheck, code: string, now: int) returns (r: Reply)
      modifies this, db
      ensures (Snapshot(), r) == ProcessStep(old(Snapshot()), dbAvailable, form, check, code, now)
    {
      var email := QsFirst(form, "email", "");
      var password := QsFirst(form, "password", "");
      var mfaSecret := QsFirst(form, "mfa_secret", "");
      var clientId := QsFirst(form, "client_id", "");
      var redirectUri := QsFirst(form, "redirect_uri", "");
      var state := QsFirst(form, "state", "");
      ghost var s0 := Snapshot();
      assert ProcessStep(s0, dbAvailable, form, check, code, now)
          == ProcessLogin(s0, dbAvailable, check, email, password, mfaSecret, clientId, redirectUri, state, code, now);
      if check.Environment? {
        if check.email != Some(email) || check.password != Some(password) {
          return Redirect(ServerCredentialsRedirect(clientId, redirectUri, state));
        }
        return Crash(AuthCodeUnbound);
      }
      var outcome := check.login(email, password, MfaArgument(mfaSecret));
      if outcome.Err? {
        return Redirect(ErrorRedirect(clientId, redirectUri, state, LoginErrorMessage(outcome.error.message, mfaSecret)));
      }
      GenerateAuthCode(code, clientId, Some(email), Some(password), now);
      r := Redirect(SuccessRedirect(redirectUri, code, state));
    }

    method DoPost(path: string, body: string, base: string, check: LoginCheck, draw: Fresh, now: int)
      returns (r: Reply)
      modifies this, db
      ensures (Snapshot(), r) == PostStep(old(Snapshot()), dbAvailable, path, body, base, check, draw, now)
    {
      var action := QsFirst(ParseQs(UrlQuery(path)), "action", "");
      if action == "process" {
        r := Process(ParseQs(body), check, draw.authCode, now);
      } else if action == "token" {
        r := Exchange(ParseQs(body), draw, now);
      } else if action == "register" {
        r := Crash(RegisterNameError);
      } else {
        r := DoGet(path, base, draw, now);
      }
    }
  }
}
