/**
 * The OAuth-enabled MCP server: three in-memory tables (registered clients,
 * pending authorization codes, issued access tokens) changed by the
 * `oauth_register`, `oauth_authorize` and `oauth_token` tools, and the data
 * tools that turn an access token back into the Monarch Money credentials it
 * stands for. The flow is the authorization-code grant of RFC 6749 (the
 * authorization response of section 4.1.2, the token request of section
 * 4.1.3 and the error codes of section 5.2).
 *
 * Every operation is a step function from the tables before to the tables
 * after and the reply; the `Server` class holds the tables and applies the
 * steps.
 */
module FastMcpOAuth {
  import opened Wrappers
  import opened Strings
  import opened PyJson
  import opened PyErrors
  import opened UrlCodec
  import opened Dates
  import opened Summary
  import opened Monarch

  const CodeLifetime: int := 600
  const TokenLifetime: int := 3600
  const DefaultScope: string := "monarch:read monarch:write"
  const MaxTransactions: int := 500

  datatype Client = Client(secret: string, redirectUris: seq<string>, name: string, grantTypes: seq<string>)

  datatype Code = Code(clientId: string, redirectUri: string, email: string, password: string,
                       mfa: Option<string>, scope: string, expiresAt: int)

  datatype Token = Token(clientId: string, email: string, password: string, mfa: Option<string>,
                         scope: string, expiresAt: int)

  /** `OAUTH_CLIENTS`, `OAUTH_CODES` and `ACCESS_TOKENS`. */
  datatype Tables = Tables(clients: map<string, Client>, codes: map<string, Code>, tokens: map<string, Token>)

  /** Monarch Money credentials: from a token, or `MONARCH_EMAIL`, `MONARCH_PASSWORD` and `MONARCH_MFA_SECRET`. */
  datatype Credentials = Credentials(email: Option<string>, password: Option<string>, mfa: Option<string>)

  /** The JSON documents the OAuth tools return, before `json.dumps`. */
  datatype Reply =
    | Registered(clientId: string, client: Client)
    | Authorized(code: string, redirectUrl: string)
    | Issued(accessToken: string, scope: string)
    | Failure(error: string, description: string)

  function ReplyJson(r: Reply): Json {
    match r
      case Registered(id, c) => JObject([
        ("client_id", JStr(id)), ("client_secret", JStr(c.secret)), ("client_name", JStr(c.name)),
        ("redirect_uris", StrList(c.redirectUris)), ("grant_types", StrList(c.grantTypes)),
        ("authorization_endpoint", JStr("https://cesar-money-mcp.vercel.app/oauth/authorize")),
        ("token_endpoint", JStr("https://cesar-money-mcp.vercel.app/oauth/token")),
        ("scope", JStr(DefaultScope))])
      case Authorized(code, url) => JObject([
        ("authorization_code", JStr(code)), ("redirect_url", JStr(url)), ("expires_in", JInt(CodeLifetime)),
        ("message", JStr("Authorization successful. Use the code to exchange for access token."))])
      case Issued(token, scope) => JObject([
        ("access_token", JStr(token)), ("token_type", JStr("Bearer")), ("expires_in", JInt(TokenLifetime)),
        ("scope", JStr(scope))])
      case Failure(error, description) => JObject([("error", JStr(error)), ("error_description", JStr(description))])
  }

  // ------------------------------------------------------------ registration

  /** `oauth_register`: the new client id is `mcp_` followed by a random suffix. */
  function Register(t: Tables, suffix: string, secret: string, redirectUris: seq<string>, name: string,
                    grantTypes: seq<string>): (Tables, Reply)
  {
    var id := "mcp_" + suffix;
    var c := Client(secret, redirectUris, name, grantTypes);
    (t.(clients := t.clients[id := c]), Registered(id, c))
  }

  /**
   * Registration stores the supplied secret, URIs, name and grant types under
   * the new id, leaves every other client, code and token as it was, and
   * echoes the same values; a fresh id adds exactly one client.
   */
  lemma RegisterAddsClient(t: Tables, suffix: string, secret: string, redirectUris: seq<string>, name: string,
                           grantTypes: seq<string>)
    ensures var (t', r) := Register(t, suffix, secret, redirectUris, name, grantTypes);
      var id := "mcp_" + suffix;
      id in t'.clients && t'.clients[id] == Client(secret, redirectUris, name, grantTypes)
      && (forall k :: k != id ==> (k in t'.clients <==> k in t.clients))
      && (forall k :: k != id && k in t.clients ==> t'.clients[k] == t.clients[k])
      && t'.codes == t.codes && t'.tokens == t.tokens
      && r == Registered(id, t'.clients[id])
      && (id !in t.clients ==> |t'.clients| == |t.clients| + 1)
  {
  }

  // ----------------------------------------------------------- authorization

  /** `get_monarch_client(email, password, mfa_secret)`, given what the login call did. */
  function CheckLogin(creds: Credentials, login: Login): (r: Result<(), Exc>)
    ensures r.Err? ==> IsValueError(r.error)
    ensures r.Ok? <==> Given(creds.email) && Given(creds.password) && login == LoggedIn
  {
    if !Given(creds.email) || !Given(creds.password) then Err(Exc(ValueError, "Monarch credentials are required"))
    else match login
      case LoggedIn => Ok(())
      case MfaRequired => Err(Exc(ValueError, "MFA is required but not provided"))
      case LoginFailed(e) => Err(Exc(ValueError, "Failed to authenticate with Monarch Money: " + e.message))
  }

  /** The query of the callback: always the code, and the state only when one was given. */
  function CallbackFields(code: string, state: Option<string>): seq<(string, string)> {
    [("code", code)] + (if Given(state) then [("state", state.value)] else [])
  }

  /** The callback URL: the redirect URI, `?`, and the URL-encoded callback parameters. */
  function Callback(redirectUri: string, code: string, state: Option<string>): string {
    redirectUri + "?" + UrlEncode(CallbackFields(code, state))
  }

  /** `oauth_authorize`, at time `now`, with `code` the random code it draws. */
  function Authorize(t: Tables, clientId: string, redirectUri: string, email: string, password: string,
                     mfa: Option<string>, state: Option<string>, scope: string, login: Login, now: int,
                     code: string): (Tables, Reply)
  {
    if clientId !in t.clients then (t, Failure("invalid_client", "Unknown client_id"))
    else if redirectUri !in t.clients[clientId].redirectUris then (t, Failure("invalid_request", "Invalid redirect_uri"))
    else match CheckLogin(Credentials(Some(email), Some(password), mfa), login)
      case Err(e) => (t, Failure("invalid_credentials", "Monarch Money authentication failed: " + e.message))
      case Ok(_) =>
        var record := Code(clientId, redirectUri, email, password, mfa, scope, now + CodeLifetime);
        (t.(codes := t.codes[code := record]), Authorized(code, Callback(redirectUri, code, state)))
  }

  /**
   * Authorization fails with `invalid_client` for an unknown client, then with
   * `invalid_request` for an unlisted redirect URI, then with
   * `invalid_credentials` when the Monarch login fails, and a failure changes
   * nothing. Otherwise exactly one code is stored, recording the request and
   * expiring ten minutes later.
   */
  lemma AuthorizeOutcome(t: Tables, clientId: string, redirectUri: string, email: string, password: string,
                         mfa: Option<string>, state: Option<string>, scope: string, login: Login, now: int,
                         code: string)
    ensures var (t', r) := Authorize(t, clientId, redirectUri, email, password, mfa, state, scope, login, now, code);
      (clientId !in t.clients ==> r == Failure("invalid_client", "Unknown client_id"))
      && (clientId in t.clients && redirectUri !in t.clients[clientId].redirectUris ==>
            r == Failure("invalid_request", "Invalid redirect_uri"))
      && (r.Authorized? <==> clientId in t.clients && redirectUri in t.clients[clientId].redirectUris
                             && email != [] && password != [] && login == LoggedIn)
      && (!r.Authorized? ==> t' == t && r.Failure?)
      && (r.Authorized? ==>
            r.code == code && t'.clients == t.clients && t'.tokens == t.tokens
            && t'.codes == t.codes[code := Code(clientId, redirectUri, email, password, mfa, scope, now + 600)])
  {
  }

  /** The callback URL's query reads back as the code followed by the state, when a state was given. */
  lemma CallbackQuery(redirectUri: string, code: string, state: Option<string>)
    requires '?' !in redirectUri && '#' !in redirectUri && code != []
    ensures ParseQs(UrlQuery(Callback(redirectUri, code, state))) == CallbackFields(code, state)
    ensures QsFirst(ParseQs(UrlQuery(Callback(redirectUri, code, state))), "code", "") == code
    ensures Given(state) <==> exists i :: 0 <= i < |CallbackFields(code, state)| && CallbackFields(code, state)[i].0 == "state"
  {
    var fields := CallbackFields(code, state);
    UrlEncodeHasNoDelimiters(fields);
    QueryOfJoinedUrl(redirectUri, UrlEncode(fields));
    UrlEncodeRoundTrip(fields);
    CallbackFieldsShape(code, state);
  }

  lemma CallbackFieldsShape(code: string, state: Option<string>)
    ensures QsFirst(CallbackFields(code, state), "code", "") == code
    ensures Given(state) <==> exists i :: 0 <= i < |CallbackFields(code, state)| && CallbackFields(code, state)[i].0 == "state"
  {
    var fields := CallbackFields(code, state);
    assert fields[0] == ("code", code);
    if Given(state) {
      assert fields[1].0 == "state";
    }
  }

  // ------------------------------------------------------------ token request

  /** `oauth_token`, at time `now`, with `token` the random access token it draws. */
  function Exchange(t: Tables, grantType: string, code: string, clientId: string, secret: string,
                    redirectUri: Option<string>, now: int, token: string): (Tables, Reply)
  {
    if grantType != "authorization_code" then
      (t, Failure("unsupported_grant_type", "Only authorization_code grant type is supported"))
    else if clientId !in t.clients then (t, Failure("invalid_client", "Unknown client_id"))
    else if t.clients[clientId].secret != secret then (t, Failure("invalid_client", "Invalid client_secret"))
    else if code !in t.codes then (t, Failure("invalid_grant", "Invalid authorization code"))
    else
      var c := t.codes[code];
      if now > c.expiresAt then (t.(codes := t.codes - {code}), Failure("invalid_grant", "Authorization code expired"))
      else if Given(redirectUri) && redirectUri.value != c.redirectUri then
        (t, Failure("invalid_grant", "Redirect URI mismatch"))
      else
        var record := Token(clientId, c.email, c.password, c.mfa, c.scope, now + TokenLifetime);
        (t.(codes := t.codes - {code}, tokens := t.tokens[token := record]), Issued(token, c.scope))
  }

  /**
   * The token request checks, in this order, the grant type, the client, the
   * secret, the code's presence, its expiry and (only when one is supplied)
   * the redirect URI; the first failing check decides the reply. Only an
   * expired code is deleted on failure.
   */
  lemma ExchangeOrder(t: Tables, grantType: string, code: string, clientId: string, secret: string,
                      redirectUri: Option<string>, now: int, token: string)
    ensures var (t', r) := Exchange(t, grantType, code, clientId, secret, redirectUri, now, token);
      if grantType != "authorization_code" then
        r == Failure("unsupported_grant_type", "Only authorization_code grant type is supported") && t' == t
      else if clientId !in t.clients then r == Failure("invalid_client", "Unknown client_id") && t' == t
      else if t.clients[clientId].secret != secret then r == Failure("invalid_client", "Invalid client_secret") && t' == t
      else if code !in t.codes then r == Failure("invalid_grant", "Invalid authorization code") && t' == t
      else if now > t.codes[code].expiresAt then
        r == Failure("invalid_grant", "Authorization code expired")
        && t' == Tables(t.clients, t.codes - {code}, t.tokens)
      else if Given(redirectUri) && redirectUri.value != t.codes[code].redirectUri then
        r == Failure("invalid_grant", "Redirect URI mismatch") && t' == t
      else
        r == Issued(token, t.codes[code].scope) && code !in t'.codes && t'.clients == t.clients
        && t'.tokens == t.tokens[token := Token(clientId, t.codes[code].email, t.codes[code].password,
                                                t.codes[code].mfa, t.codes[code].scope, now + 3600)]
  {
  }

  /** A code can be exchanged once: replaying it gets `invalid_grant`. */
  lemma ExchangeSingleUse(t: Tables, code: string, clientId: string, secret: string, redirectUri: Option<string>,
                          now: int, token: string, later: int, token2: string)
    requires Exchange(t, "authorization_code", code, clientId, secret, redirectUri, now, token).1.Issued?
    ensures var t' := Exchange(t, "authorization_code", code, clientId, secret, redirectUri, now, token).0;
      Exchange(t', "authorization_code", code, clientId, secret, redirectUri, later, token2).1
        == Failure("invalid_grant", "Invalid authorization code")
  {
  }

  /**
   * The client id a code was issued to is never consulted: a code issued to
   * one client is accepted from any registered client with its own secret.
   */
  lemma ExchangeIgnoresCodeOwner(t: Tables, code: string, owner: string, grantType: string, clientId: string,
                                 secret: string, redirectUri: Option<string>, now: int, token: string)
    requires code in t.codes
    ensures var t2 := t.(codes := t.codes[code := t.codes[code].(clientId := owner)]);
      Exchange(t2, grantType, code, clientId, secret, redirectUri, now, token).1
        == Exchange(t, grantType, code, clientId, secret, redirectUri, now, token).1
  {
  }

  // ------------------------------------------------------------- token lookup

  /** `get_credentials_from_token`: an unknown token raises, an expired one is deleted and raises. */
  function TokenCredentials(t: Tables, token: string, now: int): (Tables, Result<Credentials, Exc>) {
    if token !in t.tokens then (t, Err(Exc(ValueError, "Invalid or expired access token")))
    else
      var d := t.tokens[token];
      if now > d.expiresAt then (t.(tokens := t.tokens - {token}), Err(Exc(ValueError, "Access token expired")))
      else (t, Ok(Credentials(Some(d.email), Some(d.password), d.mfa)))
  }

  lemma TokenLookupOutcome(t: Tables, token: string, now: int)
    ensures var (t', r) := TokenCredentials(t, token, now);
      (token !in t.tokens ==> t' == t && r == Err(Exc(ValueError, "Invalid or expired access token")))
      && (token in t.tokens && now > t.tokens[token].expiresAt ==>
            t' == t.(tokens := t.tokens - {token}) && r == Err(Exc(ValueError, "Access token expired")))
      && (token in t.tokens && now <= t.tokens[token].expiresAt ==>
            t' == t && r == Ok(Credentials(Some(t.tokens[token].email), Some(t.tokens[token].password), t.tokens[token].mfa)))
  {
  }

  /**
   * The whole flow: a code issued at `t1`, exchanged at `t2` within ten
   * minutes and presented at `t3` within the hour yields exactly the
   * credentials that were authorized.
   */
  lemma FlowReturnsAuthorizedCredentials(t: Tables, clientId: string, redirectUri: string, email: string,
                                         password: string, mfa: Option<string>, state: Option<string>, scope: string,
                                         t1: int, code: string, t2: int, token: string, t3: int)
    requires clientId in t.clients && redirectUri in t.clients[clientId].redirectUris
    requires email != [] && password != []
    requires t1 <= t2 <= t1 + CodeLifetime && t2 <= t3 <= t2 + TokenLifetime
    ensures var (ta, ra) := Authorize(t, clientId, redirectUri, email, password, mfa, state, scope, LoggedIn, t1, code);
      var (tb, rb) := Exchange(ta, "authorization_code", code, clientId, t.clients[clientId].secret,
                               Some(redirectUri), t2, token);
      ra.Authorized? && rb == Issued(token, scope)
      && TokenCredentials(tb, token, t3).1 == Ok(Credentials(Some(email), Some(password), mfa))
  {
  }

  // ---------------------------------------------------------------- the tools

  /** `access_token` when one is given, else the environment. */
  function ToolCredentials(t: Tables, accessToken: Option<string>, env: Credentials, now: int)
    : (Tables, Result<Credentials, Exc>)
  {
    if Given(accessToken) then TokenCredentials(t, accessToken.value, now) else (t, Ok(env))
  }

  /** The fetch limit: `min(max(1, limit), 500)`. */
  function Clamp(limit: int): (n: int)
    ensures 1 <= n <= MaxTransactions
    ensures 1 <= limit <= MaxTransactions ==> n == limit
    ensures limit < 1 ==> n == 1
    ensures limit > MaxTransactions ==> n == MaxTransactions
  {
    if limit < 1 then 1 else if limit > MaxTransactions then MaxTransactions else limit
  }

  function TransactionQuery(startDate: Option<string>, endDate: Option<string>, limit: int, accountId: Option<string>,
                            strptime: DateParser): (r: Result<TxQuery, Exc>)
    ensures r.Ok? ==> 1 <= r.value.limit <= MaxTransactions && r.value.limit == Clamp(limit)
    ensures r.Ok? ==> (r.value.accountId.Some? <==> Given(accountId))
  {
    var start :- OptDate(startDate, strptime);
    var end :- OptDate(endDate, strptime);
    Ok(TxQuery(Clamp(limit), start, end, if Given(accountId) then accountId else None))
  }

  function AccountsText(creds: Credentials, login: Login, reply: Fetched, render: Render): Result<string, Exc> {
    var _ :- CheckLogin(creds, login);
    var result :- reply;
    var accounts :- Get(result, "accounts", JArray([]));
    if !Truthy(accounts) then Ok("No accounts found.")
    else
      var items :- Elements(accounts);
      FullListing("Found " + NatToDecimal(|items|) + " accounts:\n\n", items, render)
  }

  /** `get_accounts`: every failure becomes the text "Error fetching accounts: ...". */
  function GetAccounts(t: Tables, accessToken: Option<string>, env: Credentials, now: int, login: Login,
                       reply: Fetched, render: Render): (Tables, string)
  {
    var (t', creds) := ToolCredentials(t, accessToken, env, now);
    var text := match creds
      case Err(e) => Err(e)
      case Ok(c) => AccountsText(c, login, reply, render);
    (t', match text case Ok(s) => s case Err(e) => "Error fetching accounts: " + e.message)
  }

  function TransactionsHeader(n: nat, startDate: Option<string>, endDate: Option<string>, q: TxQuery): string
    requires q.start.Some? ==> startDate.Some?
    requires q.end.Some? ==> endDate.Some?
  {
    "Found " + NatToDecimal(n) + " transactions"
    + (if q.start.Some? then " from " + startDate.value else "")
    + (if q.end.Some? then " to " + endDate.value else "")
    + " (showing up to " + IntToDecimal(q.limit) + "):\n\n"
  }

  function TransactionsText(creds: Credentials, login: Login, startDate: Option<string>, endDate: Option<string>,
                            limit: int, accountId: Option<string>, strptime: DateParser, fetch: TxQuery -> Fetched,
                            render: Render): Result<string, Exc>
  {
    var _ :- CheckLogin(creds, login);
    var q :- TransactionQuery(startDate, endDate, limit, accountId, strptime);
    var result :- fetch(q);
    var all :- Get(result, "allTransactions", JObject([]));
    var txs :- Get(all, "results", JArray([]));
    if !Truthy(txs) then Ok("No transactions found for the specified criteria.")
    else
      var items :- SlicedElements(txs);
      assert q.start.Some? ==> Given(startDate);
      assert q.end.Some? ==> Given(endDate);
      TransactionListing(TransactionsHeader(|items|, startDate, endDate, q), items, render)
  }

  /** `get_transactions`. */
  function GetTransactions(t: Tables, accessToken: Option<string>, env: Credentials, now: int, login: Login,
                           startDate: Option<string>, endDate: Option<string>, limit: int,
                           accountId: Option<string>, strptime: DateParser, fetch: TxQuery -> Fetched,
                           render: Render): (Tables, string)
  {
    var (t', creds) := ToolCredentials(t, accessToken, env, now);
    var text := match creds
      case Err(e) => Err(e)
      case Ok(c) => TransactionsText(c, login, startDate, endDate, limit, accountId, strptime, fetch, render);
    (t', match text case Ok(s) => s case Err(e) => "Error fetching transactions: " + e.message)
  }

  /**
   * The transaction tool asks the client for a limit between 1 and 500 (the
   * caller's limit when it is in range), and a date that does not parse ends
   * the call before anything is fetched: the reply is the same whatever the
   * fetch would have returned.
   */
  lemma TransactionsQueryBounded(creds: Credentials, startDate: Option<string>, endDate: Option<string>, limit: int,
                                 accountId: Option<string>, strptime: DateParser, fetch1: TxQuery -> Fetched,
                                 fetch2: TxQuery -> Fetched, render: Render)
    ensures TransactionQuery(startDate, endDate, limit, accountId, strptime).Ok? ==>
      1 <= TransactionQuery(startDate, endDate, limit, accountId, strptime).value.limit <= MaxTransactions
    ensures TransactionQuery(startDate, endDate, limit, accountId, strptime).Err? ==>
      TransactionsText(creds, LoggedIn, startDate, endDate, limit, accountId, strptime, fetch1, render)
        == TransactionsText(creds, LoggedIn, startDate, endDate, limit, accountId, strptime, fetch2, render)
  {
  }

  function BudgetLine(budget: Json): Result<string, Exc> {
    var name :- Get(budget, "name", JStr("Unnamed Budget"));
    Ok("Budget: " + PyStr(name) + "\n")
  }

  function BudgetsText(creds: Credentials, login: Login, reply: Fetched): Result<string, Exc> {
    var _ :- CheckLogin(creds, login);
    var result :- reply;
    var header := BarChartMisdecoded + " **Budget Information**\n\n";
    if !Truthy(result) then Ok("No budget information available.")
    else if result.JArray? then FullListing(header, result.items, BudgetLine)
    else Ok(header + "Budget data: " + PyStr(result) + "\n")
  }

  /** `get_budgets`. */
  function GetBudgets(t: Tables, accessToken: Option<string>, env: Credentials, now: int, login: Login,
                      reply: Fetched): (Tables, string)
  {
    var (t', creds) := ToolCredentials(t, accessToken, env, now);
    var text := match creds
      case Err(e) => Err(e)
      case Ok(c) => BudgetsText(c, login, reply);
    (t', match text case Ok(s) => s case Err(e) => "Error fetching budgets: " + e.message)
  }

  /**
   * The data tools change the tables only by dropping an expired token that
   * was presented, and an empty or absent token reads the environment.
   */
  lemma ToolsTouchOnlyExpiredToken(t: Tables, accessToken: Option<string>, env: Credentials, now: int)
    ensures var (t', c) := ToolCredentials(t, accessToken, env, now);
      t'.clients == t.clients && t'.codes == t.codes
      && (t'.tokens == t.tokens || (Given(accessToken) && accessToken.value in t.tokens
                                    && now > t.tokens[accessToken.value].expiresAt
                                    && t'.tokens == t.tokens - {accessToken.value}))
      && (!Given(accessToken) ==> c == Ok(env))
  {
  }

  // ---------------------------------------------------------------- the state

  class Server {
    var clients: map<string, Client>
    var codes: map<string, Code>
    var tokens: map<string, Token>

    function Snapshot(): Tables
      reads this
    {
      Tables(clients, codes, tokens)
    }

    constructor()
      ensures Snapshot() == Tables(map[], map[], map[])
    {
      clients := map[];
      codes := map[];
      tokens := map[];
    }

    method OAuthRegister(suffix: string, secret: string, redirectUris: seq<string>, name: string,
                         grantTypes: seq<string>) returns (reply: Reply)
      modifies this
      ensures (Snapshot(), reply) == Register(old(Snapshot()), suffix, secret, redirectUris, name, grantTypes)
    {
      var id := "mcp_" + suffix;
      clients := clients[id := Client(secret, redirectUris, name, grantTypes)];
      reply := Registered(id, clients[id]);
    }

    method OAuthAuthorize(clientId: string, redirectUri: string, email: string, password: string,
                          mfa: Option<string>, state: Option<string>, scope: string, login: Login, now: int,
                          code: string) returns (reply: Reply)
      modifies this
      ensures (Snapshot(), reply)
        == Authorize(old(Snapshot()), clientId, redirectUri, email, password, mfa, state, scope, login, now, code)
    {
      if clientId !in clients {
        return Failure("invalid_client", "Unknown client_id");
      }
      if redirectUri !in clients[clientId].redirectUris {
        return Failure("invalid_request", "Invalid redirect_uri");
      }
      var check := CheckLogin(Credentials(Some(email), Some(password), mfa), login);
      if check.Err? {
        return Failure("invalid_credentials", "Monarch Money authentication failed: " + check.error.message);
      }
      codes := codes[code := Code(clientId, redirectUri, email, password, mfa, scope, now + CodeLifetime)];
      reply := Authorized(code, Callback(redirectUri, code, state));
    }

    method OAuthToken(grantType: string, code: string, clientId: string, secret: string,
                      redirectUri: Option<string>, now: int, token: string) returns (reply: Reply)
      modifies this
      ensures (Snapshot(), reply) == Exchange(old(Snapshot()), grantType, code, clientId, secret, redirectUri, now, token)
    {
      if grantType != "authorization_code" {
        return Failure("unsupported_grant_type", "Only authorization_code grant type is supported");
      }
      if clientId !in clients {
        return Failure("invalid_client", "Unknown client_id");
      }
      if clients[clientId].secret != secret {
        return Failure("invalid_client", "Invalid client_secret");
      }
      if code !in codes {
        return Failure("invalid_grant", "Invalid authorization code");
      }
      var c := codes[code];
      if now > c.expiresAt {
        codes := codes - {code};
        return Failure("invalid_grant", "Authorization code expired");
      }
      if Given(redirectUri) && redirectUri.value != c.redirectUri {
        return Failure("invalid_grant", "Redirect URI mismatch");
      }
      tokens := tokens[token := Token(clientId, c.email, c.password, c.mfa, c.scope, now + TokenLifetime)];
      codes := codes - {code};
      reply := Issued(token, c.scope);
    }

    method CredentialsFromToken(token: string, now: int) returns (r: Result<Credentials, Exc>)
      modifies this
      ensures (Snapshot(), r) == TokenCredentials(old(Snapshot()), token, now)
    {
      if token !in tokens {
        return Err(Exc(ValueError, "Invalid or expired access token"));
      }
      var d := tokens[token];
      if now > d.expiresAt {
        tokens := tokens - {token};
        return Err(Exc(ValueError, "Access token expired"));
      }
      r := Ok(Credentials(Some(d.email), Some(d.password), d.mfa));
    }

    method ResolveCredentials(accessToken: Option<string>, env: Credentials, now: int)
      returns (r: Result<Credentials, Exc>)
      modifies this
      ensures (Snapshot(), r) == ToolCredentials(old(Snapshot()), accessToken, env, now)
    {
      if Given(accessToken) {
        r := CredentialsFromToken(accessToken.value, now);
      } else {
        r := Ok(env);
      }
    }

    method AccountsTool(accessToken: Option<string>, env: Credentials, now: int, login: Login, reply: Fetched,
                        render: Render) returns (text: string)
      modifies this
      ensures (Snapshot(), text) == GetAccounts(old(Snapshot()), accessToken, env, now, login, reply, render)
    {
      var creds := ResolveCredentials(accessToken, env, now);
      var r := if creds.Err? then Err(creds.error) else AccountsText(creds.value, login, reply, render);
      text := if r.Ok? then r.value else "Error fetching accounts: " + r.error.message;
    }

    method TransactionsTool(accessToken: Option<string>, env: Credentials, now: int, login: Login,
                            startDate: Option<string>, endDate: Option<string>, limit: int,
                            accountId: Option<string>, strptime: DateParser, fetch: TxQuery -> Fetched,
                            render: Render) returns (text: string)
      modifies this
      ensures (Snapshot(), text) == GetTransactions(old(Snapshot()), accessToken, env, now, login, startDate, endDate,
                                                    limit, accountId, strptime, fetch, render)
    {
      var creds := ResolveCredentials(accessToken, env, now);
      var r := if creds.Err? then Err(creds.error)
               else TransactionsText(creds.value, login, startDate, endDate, limit, accountId, strptime, fetch, render);
      text := if r.Ok? then r.value else "Error fetching transactions: " + r.error.message;
    }

    method BudgetsTool(accessToken: Option<string>, env: Credentials, now: int, login: Login, reply: Fetched)
      returns (text: string)
      modifies this
      ensures (Snapshot(), text) == GetBudgets(old(Snapshot()), accessToken, env, now, login, reply)
    {
      var creds := ResolveCredentials(accessToken, env, now);
      var r := if creds.Err? then Err(creds.error) else BudgetsText(creds.value, login, reply);
      text := if r.Ok? then r.value else "Error fetching budgets: " + r.error.message;
    }
  }
}
