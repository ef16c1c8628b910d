# Monarch Money MCP servers and their OAuth front ends, in Dafny

This project models the core of `cesar-money-mcp`. The repository has
several Python servers that give an MCP client (Claude) read access to a
Monarch Money account. They come in two families, and each variant is
modelled on its own, because each behaves a little differently:

- **Authorization servers.** They register OAuth clients, hand out
  authorization codes once the user's Monarch Money credentials log in,
  exchange a code for a bearer token, and look a token up again. The
  variants are an in-memory FastMCP server, the serverless `api/oauth.py`
  with its SQLite store `api/oauth_db.py`, the hashed store of
  `secure_oauth.py` with its FastAPI front end `claude_connector_server.py`,
  and the minimal `api/oauth-simple.py`. Two metadata endpoints publish
  the discovery documents of RFC 8414 section 2 and RFC 9728 section 2.
- **Tool servers.** They answer JSON-RPC 2.0 / MCP requests (`initialize`,
  `tools/list`, `tools/call`) and run five read-only tools:
  `get_accounts`, `get_transactions`, `get_budgets`, `get_spending_plan`
  and `get_account_history`. The variants are `mcp_server.py`,
  `mcp_server_compliant.py`, `fastmcp_server.py`, and the serverless
  `api/mcp.py`, `api/index.py`, `api/auth.py` and `api/fastmcp.py`.

## How the model is built

- **One module per source file.** Each module is named after its file:
  `ApiOAuth`, `OAuthDb`, `SecureOAuth`, `ClaudeConnector`, `FastMcpOAuth`,
  `ApiMcp`, `Compliant`, `McpServer`, `FastMcpServer`, `ApiIndex`,
  `ApiAuth`, `ApiFastmcp`, `OAuthSimple`, `Debug` and `Discovery`.
- **Shared leaf modules.** These hold the Python behaviour the servers
  rely on:
  - `Strings`: `split`, `strip`, `str(int)` and `int(str)`.
  - `PyJson`: parsed JSON values, with Python truthiness and `str()`.
  - `PyErrors`: `dict.get`, `len` and iteration, with the exceptions they
    raise.
  - `JsonText`: `json.dumps` and `json.loads` of a list of strings.
  - `Base64`: encoding and decoding.
  - `UrlCodec`: `quote`, `unquote`, `urlencode`, `parse_qs` and `urlsplit`.
  - `Dates`: `date(...)`, `%Y-%m-%d` dates and month ranges.
  - `Summary`: the "first 20 and a count of the rest" text listings.
  - `Monarch`: the outcomes of the external Monarch Money client.
  - `Mcp`: the tool list.
  - `Serverless`: the Vercel event and response shapes.
  - `QueryNormal`: the query repair that two handlers share.
- **State.** Code that mutates dictionaries or tables becomes a `class`
  with `map` fields and `modifies` clauses. Each method is proved equal to
  a pure step function on a snapshot of the state. The properties are
  lemmas about those step functions.
- **Environment as parameters.**
  - The clock is an integer `now`; calendar code takes today's date.
  - Random draws are parameters.
  - Environment variables live in a configuration value.
  - The Monarch Money client is an oracle value: a login outcome, plus a
    `Backend` of fetch results.
  - Library steps that cannot be written out are function-typed
    parameters. These are SHA-256, PBKDF2, JWT encoding and decoding,
    `json.loads` of a request body, `strptime`, and money formatting.
- **Responses.** HTTP responses are status, headers and a body. A JSON
  body is a parsed value, not its text.

## Model

| member | source | states |
|---|---|---|
| Strings.StripCharInfix | api/index.py:242 | `strip(c)` keeps a middle run of its input and removes only copies of `c` at either end |
| Dates.MakeDate | fastmcp_server.py:299-303 | `date(y, m, d)` succeeds exactly for a valid calendar date and then is that date |
| Dates.MonthRangeCovers | mcp_server_compliant.py:411-426 | the month range exists exactly for months of years 1..9999 but December 9999; it starts on the 1st, ends on a 1st after it, and holds exactly that month's days |
| Dates.DecemberRollsOver | fastmcp_server.py:300-301 | December's range ends on January 1 of the next year |
| Dates.UnpackYearMonth | fastmcp_server.py:298 | unpacking `map(int, split('-'))` succeeds iff there are exactly two integer parts; otherwise a `ValueError` |
| Dates.ZeroPad | fastmcp_server.py:320 | `%m`/`%Y` padding yields at least `width` digits |
| Dates.ZeroPadValue | fastmcp_server.py:320 | the padded digits read back as the number |
| Dates.ZeroPadParses | fastmcp_server.py:320 | `int()` of the padded text is the number |
| Dates.ParseMonthOfYearMonthText | fastmcp_server.py:298-303 | parsing the `YYYY-MM` a range is printed under gives the same range |
| Monarch.OptDate | fastmcp_oauth_server.py:335-338 | a given date argument is parsed, and fails exactly when parsing does; an absent one is `None` |
| Monarch.ValidateConfig | fastmcp_server.py:62-69 | the configuration is accepted iff e-mail and password are both set and non-empty; otherwise the "credentials not configured" `ValueError` |
| Monarch.DateArgument | mcp_server.py:187-192 | a falsy argument gives no date, a string argument is parsed as `OptDate` does |
| Monarch.PlanRange | fastmcp_server.py:295-313 | a successful plan range starts on the first of a valid month |
| Monarch.PlanRangeOfMonthText | fastmcp_server.py:295-303 | a month written `YYYY-MM` gives exactly that month's range, and December rolls over into January of the next year |
| Monarch.PlanRangeCurrentMonth | fastmcp_server.py:306-313 | without a month the range is the current month's, December included |
| Summary.BlocksOk | fastmcp_server.py:237-248 | the concatenated blocks exist iff every item renders, and extend block by block |
| Summary.BlocksFirstError | fastmcp_server.py:237-257 | a failing listing fails with the error of the first item that does not render |
| Summary.BlocksErrExtends | fastmcp_server.py:237-257 | once a prefix fails, every longer list fails with the same error |
| Summary.Trailer | fastmcp_server.py:250-251 | the "... and N more transactions" line is present iff there are more than 20 |
| Summary.TransactionListingShape | fastmcp_server.py:236-253 | a transaction summary succeeds iff its first 20 items render, and then it is the header, the first 20 blocks and the trailer |
| Summary.TransactionListingIgnoresTail | fastmcp_server.py:236-251 | items past the 20th change only the count in the trailer |
| Summary.FullListingShape | fastmcp_server.py:163-179 | an accounts summary is the header and every account's block, in order, and fails iff some account fails |
| Summary.BuildListing | fastmcp_server.py:237-251 | the loop that appends each block and then the trailer computes `Listing` |
| Mcp.ToolsJson | api/mcp.py:99-163 | the tool list has one entry per tool, in order |
| Mcp.EnvelopeId | api/mcp.py:77-78 | every JSON-RPC envelope carries the id it was given |
| Serverless.StrGet | api/fastmcp.py:40-62 | `dict.get` on headers: the default when the key is absent, otherwise a stored value for the key |
| Serverless.QueryObject | api/index.py:262-263 | the query parameters of an event are always a dict (`{}` when absent) |
| JsonText.StringListRoundTrip | api/oauth_db.py:63 | `json.loads(json.dumps(uris)) == uris` for a list of strings |
| Base64.RoundTrip | secure_oauth.py:84-99 | `b64decode(b64encode(bytes)) == bytes` |
| UrlCodec.QuoteRoundTrip | api/oauth.py:509 | `unquote(quote(s))` is `s` |
| UrlCodec.QuotedChars | api/oauth.py:509 | quoted text holds only safe characters and `%XX` escapes |
| UrlCodec.QsFirst | api/oauth.py:183-186 | the first value given for a name, else the default |
| UrlCodec.UrlQuery | api/oauth.py:336-337 | `urlparse(path).query` is the text after the first `?` up to any `#` |
| UrlCodec.UrlEncodeRoundTrip | fastmcp_oauth_server.py:154-158 | `parse_qs` reads back what `urlencode` wrote, when no value is empty |
| UrlCodec.UrlEncodeHasNoDelimiters | fastmcp_oauth_server.py:158 | `urlencode` output has no `#` or `?` |
| UrlCodec.QueryOfJoinedUrl | fastmcp_oauth_server.py:158 | the query of `redirect_uri + "?" + query` is `query` when the URI has no `?` or `#` |
| QueryNormal.NoQueryNoParams | api/oauth.py:164-186 | a path without `?` yields no parameters, so each reads as its default |
| QueryNormal.OnlyQueryCounts | api/oauth.py:164-177 | only the text after the first `?` is parsed |
| QueryNormal.NoQuestionMarkSurvives | api/oauth.py:170-174 | no `?` survives the repair |
| QueryNormal.QuestionMarkIsSeparator | api/oauth.py:170-171 | a later `?` reads exactly as `&` |
| QueryNormal.WellFormedQueryUnchanged | api/oauth.py:170-174 | a query without `?`, `%3F`, `%3D` or `%26` is left unchanged |
| Debug.Report | api/debug.py:10-44 | the report echoes the path, reports the query after the first `?`, and shows the repaired parameters `api/oauth.py` reads, with `action`, `response_type` and `client_id` the first value of each; "should show login" holds iff `response_type` is `code` and a client id is present, and then that handler shows its login form; the authorize check holds iff `action` is `authorize` |
| Debug.ReportWithoutQuery | api/debug.py:14-23 | a path without `?` reports empty strings and no parameters |
| Debug.ReportQuery | api/debug.py:14-21 | with a `?`, the reported query is everything after the first one, and its repair is the shared one |
| Discovery.BaseUrl | api/oauth-authorization-server.py:27-37 | `BASE_URL` wins; else `http://` for a localhost Host and `https://` otherwise; else the fixed fallback |
| Discovery.AuthorizationServerMetadata | api/oauth-authorization-server.py:40-54 | the `issuer` of the authorization-server document is the base URL |
| Discovery.ProtectedResourceMetadata | api/oauth-protected-resource.py:40-46 | the `resource` of the protected-resource document is the base URL |
| Discovery.Handle | api/oauth-authorization-server.py:16-74 | only GET and OPTIONS are answered, both with 200 and the three CORS headers; only GET has a body, the endpoint's document for the base URL, sent as `application/json` |
| Discovery.SlashPath | api/oauth-authorization-server.py:42-45 | an endpoint written as base plus `/path` lies under the base |
| Discovery.ServerMember | api/oauth-authorization-server.py:40-54 | a member of the metadata document is found in its runs of members, in order |
| Discovery.AuthorizationServerEndpoints | api/oauth-authorization-server.py:41-45 | the authorization, token, registration and key-set endpoints lie under the base URL |
| Discovery.AuthorizationServerExtraEndpoints | api/oauth-authorization-server.py:51-53 | the introspection, revocation and documentation endpoints lie under the base URL |
| Discovery.AuthorizationServerFlows | api/oauth-authorization-server.py:46-48 | only the `code` response type, the authorization-code grant and S256 are advertised |
| Discovery.ProtectedResourceMetadataShape | api/oauth-protected-resource.py:40-46 | the only authorization server is the base URL; tokens go in the header; the documentation lies under the base URL; the five scopes are listed |
| ApiOAuth.ClientCredentials | api/oauth.py:30-39 | a client id is `monarchmoney_mcp_` followed by the random hex, and the secret is the random draw |
| ApiOAuth.UserCredentialsIff | api/oauth.py:68-84 | credentials are returned iff the token record exists and has a non-empty e-mail; without the database nothing changes |
| ApiOAuth.IssuedTokenFound | api/oauth.py:54-66 | a token just issued is found again with the client, code, e-mail and password it was issued for, while it lives |
| ApiOAuth.LoginFormFirst | api/oauth.py:164-200 | after the query repair, the login form is shown iff a client id is present with `response_type=code` or an error; this test precedes any `action` check |
| ApiOAuth.RouteLoginFormFirst | api/oauth.py:196-197 | on parsed parameters, the login-form test is taken first |
| ApiOAuth.LoginFormReplies | api/oauth.py:197-293 | the login-form branch always replies with the form for that client id (or fails in the database) |
| ApiOAuth.AutoRegistration | api/oauth.py:204-218 | an unknown client id is registered with `[redirect_uri]`, or `[]` when it is empty; a known one is left unchanged |
| ApiOAuth.ExchangeReplies | api/oauth.py:335-397 | the token branch always answers with JSON |
| ApiOAuth.ExchangeFailures | api/oauth.py:341-366 | an unknown code gives `invalid_grant` "Invalid authorization code" and a client mismatch "Client ID mismatch"; neither creates a token or touches clients |
| ApiOAuth.ExchangeSingleUse | api/oauth.py:369-397 | a successful exchange needs a stored code of the same client, stores a token bound to the code's e-mail and password, deletes the code, and a replay fails |
| ApiOAuth.ProcessIssuesOnlyOnLogin | api/oauth.py:434-532 | a code is issued only after the Monarch login succeeds, and the reply redirects to the callback; a failed login changes nothing and redirects back to the form |
| ApiOAuth.ErrorRedirectPrefix | api/oauth.py:509 | a login failure redirects to `/oauth?action=authorize&client_id=...` |
| ApiOAuth.LoginErrorPriority | api/oauth.py:490-505 | the lower-cased error is checked for MFA, credentials, network and rate-limit words in that order; the first match wins, else "Login failed: ..." |
| ApiOAuth.BlankMfaSecret | api/oauth.py:473-474 | a blank MFA secret is not passed to the login, yet counts as entered in the error text |
| ApiOAuth.RegisteredUrisShape | api/oauth.py:303-313 | registration lists seven redirect URIs, the base URL's callback and Claude's among them |
| ApiOAuth.RegistrationStoresClient | api/oauth.py:294-334 | registration stores the new client under `monarchmoney_mcp_<hex>` with the drawn secret and the fixed URIs |
| ApiOAuth.PostFallsBackToGet | api/oauth.py:631-633 | a POST with any other action is answered as a GET |
| ApiOAuth.GetStep | api/oauth.py:106-417 | `do_GET` never creates a code; it answers with JSON or the login form, and can fail only in the database |
| ApiOAuth.RouteStep | api/oauth.py:188-417 | the branches after the discovery documents never create a code, and answer with JSON or the login form unless the database fails |
| ApiOAuth.ProcessStep | api/oauth.py:434-532 | the login processing either redirects or fails on the unbound `auth_code`; the state changes only by issuing the code, and only after a successful library login |
| ApiOAuth.PostStep | api/oauth.py:419-633 | `do_POST` creates at most the drawn code, and only for the `process` action |
| ApiOAuth.Handler.constructor | api/oauth.py:18-28 | a handler starts with empty fallback dictionaries over the given database |
| ApiOAuth.Handler.GenerateAuthCode | api/oauth.py:41-52 | issuing a code is the `IssueCode` step |
| ApiOAuth.Handler.GenerateAccessToken | api/oauth.py:54-66 | issuing a token is the `IssueToken` step |
| ApiOAuth.Handler.LookupCode | api/oauth.py:341-350 | looking a code up is the `FindCode` step |
| ApiOAuth.Handler.DropCode | api/oauth.py:376-380 | deleting a code is the `ForgetCode` step |
| ApiOAuth.Handler.ValidateAccessToken | api/oauth.py:86-92 | looking a token up is the `FindToken` step |
| ApiOAuth.Handler.GetUserCredentials | api/oauth.py:68-84 | reading a token's credentials is the `UserCredentialsOf` step |
| ApiOAuth.Handler.ShowLoginForm | api/oauth.py:197-293 | the login-form branch is the `LoginFormStep` step |
| ApiOAuth.Handler.Register | api/oauth.py:294-334 | registration is the `RegisterStep` step |
| ApiOAuth.Handler.Exchange | api/oauth.py:335-397 | the token branch is the `ExchangeStep` step |
| ApiOAuth.Handler.DoGet | api/oauth.py:106-417 | `do_GET` is the `GetStep` step |
| ApiOAuth.Handler.Process | api/oauth.py:434-532 | the login processing is the `ProcessStep` step |
| ApiOAuth.Handler.DoPost | api/oauth.py:419-633 | `do_POST` is the `PostStep` step |
| OAuthDb.StoreClientRoundTrip | api/oauth_db.py:57-88 | a stored client is read back with the same secret and URI list; other clients are untouched; a second store replaces the first |
| OAuthDb.StoredCodeLifetime | api/oauth_db.py:91-134 | a stored code is returned until `now + expires_in` and not after; other codes are untouched |
| OAuthDb.StoredTokenLifetime | api/oauth_db.py:149-193 | a stored token is returned until `now + expires_in` and not after; other tokens are untouched |
| OAuthDb.GetCodeEffect | api/oauth_db.py:107-134 | a code is returned iff stored and `now <= expires_at`, leaving the tables unchanged; otherwise its row is deleted |
| OAuthDb.GetTokenEffect | api/oauth_db.py:165-193 | a token is returned iff stored and live, leaving the tables unchanged; otherwise only its row is deleted |
| OAuthDb.DeleteCodeOnly | api/oauth_db.py:139-147 | deleting removes at most that one code, and an absent code is a no-op |
| OAuthDb.CleanupKeepsLive | api/oauth_db.py:198-210 | cleanup keeps exactly the codes and tokens with `expires_at >= now`, unchanged |
| OAuthDb.CleanupInvisibleToReads | api/oauth_db.py:198-210 | at the same instant, cleanup never changes what a read returns |
| OAuthDb.Database.constructor | api/oauth_db.py:14-55 | a new database has three empty tables |
| OAuthDb.Database.StoreOAuthClient | api/oauth_db.py:57-70 | storing a client is the `StoreClient` step (insert or replace) |
| OAuthDb.Database.GetOAuthClient | api/oauth_db.py:72-89 | reading a client is `GetClient` and changes nothing |
| OAuthDb.Database.StoreAuthCode | api/oauth_db.py:91-105 | storing a code is the `StoreCode` step |
| OAuthDb.Database.GetAuthCode | api/oauth_db.py:107-137 | reading a code is the `GetCode` step |
| OAuthDb.Database.DeleteAuthCode | api/oauth_db.py:139-147 | deleting a code is the `DeleteCode` step |
| OAuthDb.Database.StoreAccessToken | api/oauth_db.py:149-163 | storing a token is the `StoreToken` step |
| OAuthDb.Database.GetAccessToken | api/oauth_db.py:165-196 | reading a token is the `GetToken` step |
| OAuthDb.Database.CleanupExpiredTokens | api/oauth_db.py:198-213 | cleanup is the `Cleanup` step |
| SecureOAuth.HashVerifyRoundTrip | secure_oauth.py:84-99 | a credential verifies against its own salted hash, and another credential verifies iff the key derivation collides for that salt |
| SecureOAuth.MalformedHashRejects | secure_oauth.py:90-99 | a stored hash that is not base64 makes verification False rather than raise |
| SecureOAuth.StoredClientVerifies | secure_oauth.py:101-155 | a stored client verifies with its secret and reports its redirect URIs; other clients are unaffected |
| SecureOAuth.UnknownClient | secure_oauth.py:121-155 | an unknown client never verifies and has no redirect URIs |
| SecureOAuth.ExchangeRules | secure_oauth.py:180-225 | an exchange succeeds iff the code is stored for that client, unused and not expired; on success only its `used` flag is set, and a failure changes nothing |
| SecureOAuth.ExchangeSingleUse | secure_oauth.py:199-215 | after a successful exchange the same code never exchanges again, for any client |
| SecureOAuth.StoredCodeExchanges | secure_oauth.py:157-225 | storing a code succeeds iff it is new; it then exchanges for its client until 10 minutes have passed |
| SecureOAuth.CleanupKeepsLive | secure_oauth.py:296-306 | cleanup keeps exactly the codes and tokens with `expires_at >= now`, unchanged |
| SecureOAuth.Dedup | secure_oauth.py:361 | the registered list holds each URI once, and the same URIs |
| SecureOAuth.RegistrationUnion | secure_oauth.py:347-373 | registration succeeds iff the store accepts it; the redirect list is the union of the supplied and default URIs, each once; a failed store raises "Failed to register client" |
| SecureOAuth.ExchangeChecksClientFirst | secure_oauth.py:402-429 | wrong client credentials fail before the code is touched; success needs a valid client and a successful code exchange, and reports 86400 seconds |
| SecureOAuth.AuthorizeStoresOnlyOnLogin | secure_oauth.py:375-400 | a code is stored only when the Monarch login succeeds and the code is new |
| SecureOAuth.SecureTokenStorage.constructor | secure_oauth.py:25-82 | a new store has no clients, codes or tokens |
| SecureOAuth.SecureTokenStorage.StoreClientMethod | secure_oauth.py:101-119 | storing a client is the `StoreClient` step |
| SecureOAuth.SecureTokenStorage.VerifyClientMethod | secure_oauth.py:121-137 | verification is `VerifyClient` and changes nothing |
| SecureOAuth.SecureTokenStorage.GetClientRedirectUris | secure_oauth.py:139-155 | the redirect URIs are `ClientRedirectUris` |
| SecureOAuth.SecureTokenStorage.StoreAuthCodeMethod | secure_oauth.py:157-178 | storing a code is the `StoreAuthCode` step |
| SecureOAuth.SecureTokenStorage.ExchangeAuthCodeMethod | secure_oauth.py:180-225 | exchanging a code is the `ExchangeAuthCode` step |
| SecureOAuth.SecureTokenStorage.StoreAccessTokenMethod | secure_oauth.py:227-245 | storing a token is the `StoreAccessToken` step |
| SecureOAuth.SecureTokenStorage.CleanupExpiredTokens | secure_oauth.py:296-312 | cleanup is the `CleanupExpired` step |
| SecureOAuth.SecureOAuthManager.constructor | secure_oauth.py:318-322 | a manager works over the given store |
| SecureOAuth.SecureOAuthManager.Register | secure_oauth.py:347-373 | registration is `RegisterClient`; on failure the store is unchanged |
| SecureOAuth.SecureOAuthManager.AuthorizeUser | secure_oauth.py:375-400 | authorization is `Authorize`; on failure the store is unchanged |
| SecureOAuth.SecureOAuthManager.ExchangeCode | secure_oauth.py:402-429 | the exchange is the `ExchangeCodeForToken` step |
| ClaudeConnector.FormGetLast | claude_connector_server.py:167-173 | a form field read by name gives the last value submitted under that name |
| ClaudeConnector.AuthorizePage | claude_connector_server.py:101-161 | the authorization page is refused with 400 iff `response_type` is not `code`; otherwise it shows the login page for that client, with the default scope when none is given |
| ClaudeConnector.AuthorizeSubmitRule | claude_connector_server.py:163-194 | a failed submission answers 400 and stores nothing; a redirect goes to `redirect_uri?code=<code>`, with `&state=<state>` only when a state is given; without a redirect URI the code is returned as JSON |
| ClaudeConnector.TokenGrantTypeFirst | claude_connector_server.py:202-204 | any grant type but `authorization_code` is refused with 400 before the code or client fields are read, and nothing changes |
| ClaudeConnector.TokenEndpointGrants | claude_connector_server.py:196-215 | a token is granted only to a client whose credentials verify, as a Bearer token for 86400 seconds |
| ClaudeConnector.BearerTokenRule | claude_connector_server.py:218-229 | the token is accepted iff the header starts with `Bearer ` and the rest validates; it is then the text after the first space; every failure is a 401 |
| ClaudeConnector.RpcNeedsBearer | claude_connector_server.py:231-232 | every `/mcp/rpc` method, `initialize` and `tools/list` included, is refused with 401 without a valid bearer token |
| ClaudeConnector.InitializeReply | claude_connector_server.py:243-260 | `initialize` returns protocol version 2025-06-18 and `listChanged` false, echoing the request id |
| ClaudeConnector.UnknownMethodReply | claude_connector_server.py:299-307 | an unknown method returns -32601 "Method not found: m" with the request id |
| ClaudeConnector.MissingToolName | claude_connector_server.py:285-286 | a `tools/call` without a name propagates HTTP 400 instead of a JSON-RPC error |
| ClaudeConnector.InternalErrorIds | claude_connector_server.py:313-324 | any other failure returns -32603 "Internal error: ...", with the request id once the body was parsed and null otherwise |
| ClaudeConnector.ToolCallContent | claude_connector_server.py:291-297 | a tool call's content has one text item per text part of the tool result, in order |
| ClaudeConnector.Rpc | claude_connector_server.py:231-324 | the handler propagates a server error exactly when the body parsed to JSON that is not an object, because the `except` branch calls `body.get` again and the second AttributeError escapes |
| ClaudeConnector.Connector.constructor | claude_connector_server.py:35-37 | the connector works over the given OAuth manager |
| ClaudeConnector.Connector.OAuthAuthorizePost | claude_connector_server.py:163-194 | the form submission is the `AuthorizeSubmit` step |
| ClaudeConnector.Connector.OAuthToken | claude_connector_server.py:196-215 | the token endpoint is the `TokenEndpoint` step |
| FastMcpOAuth.RegisterAddsClient | fastmcp_oauth_server.py:57-95 | registration adds exactly one client under `mcp_<suffix>` with the given secret, redirect URIs, name and grant types, leaves the rest alone, and echoes the same values |
| FastMcpOAuth.CheckLogin | fastmcp_oauth_server.py:34-54 | the login succeeds iff e-mail and password are given and Monarch accepts them; every failure is a `ValueError` |
| FastMcpOAuth.AuthorizeOutcome | fastmcp_oauth_server.py:98-166 | an unknown client gives `invalid_client` and an unlisted redirect URI `invalid_request`, storing nothing; a code is stored only after a successful login, with the credentials, scope and `now + 600` |
| FastMcpOAuth.CallbackQuery | fastmcp_oauth_server.py:154-158 | the callback query always carries `code`, and carries `state` iff a state is given |
| FastMcpOAuth.ExchangeOrder | fastmcp_oauth_server.py:190-217 | the token endpoint checks grant type, client, secret, code, expiry and redirect URI in that order, the first failure winning; an expired code is deleted, other failures change nothing |
| FastMcpOAuth.ExchangeSingleUse | fastmcp_oauth_server.py:219-239 | a successful exchange deletes the code, so replaying it gives `invalid_grant` |
| FastMcpOAuth.ExchangeIgnoresCodeOwner | fastmcp_oauth_server.py:196-231 | the outcome never depends on which client the code was issued to |
| FastMcpOAuth.TokenLookupOutcome | fastmcp_oauth_server.py:241-257 | an unknown token raises; an expired one is deleted and raises; a live one yields exactly the stored credentials and changes nothing |
| FastMcpOAuth.FlowReturnsAuthorizedCredentials | fastmcp_oauth_server.py:98-257 | authorize, exchange and lookup within the lifetimes return the credentials that logged in |
| FastMcpOAuth.Clamp | fastmcp_oauth_server.py:340 | the limit is clamped into 1..500 and kept when already inside |
| FastMcpOAuth.TransactionQuery | fastmcp_oauth_server.py:333-351 | the client query has the clamped limit, and an account id iff one is given |
| FastMcpOAuth.TransactionsQueryBounded | fastmcp_oauth_server.py:305-384 | the client is never asked for fewer than 1 or more than 500 transactions, and a date that does not parse means no fetch |
| FastMcpOAuth.ToolsTouchOnlyExpiredToken | fastmcp_oauth_server.py:268-277 | a tool call changes the state at most by deleting its own expired token; without a token it uses the environment's credentials |
| FastMcpOAuth.Server.constructor | fastmcp_oauth_server.py:30-32 | the server starts with three empty dictionaries |
| FastMcpOAuth.Server.OAuthRegister | fastmcp_oauth_server.py:57-95 | registration is the `Register` step |
| FastMcpOAuth.Server.OAuthAuthorize | fastmcp_oauth_server.py:98-166 | authorization is the `Authorize` step |
| FastMcpOAuth.Server.OAuthToken | fastmcp_oauth_server.py:168-239 | the token endpoint is the `Exchange` step |
| FastMcpOAuth.Server.CredentialsFromToken | fastmcp_oauth_server.py:241-257 | the lookup is the `TokenCredentials` step |
| FastMcpOAuth.Server.ResolveCredentials | fastmcp_oauth_server.py:268-275 | choosing the credentials is the `ToolCredentials` step |
| FastMcpOAuth.Server.AccountsTool | fastmcp_oauth_server.py:260-302 | `get_accounts` is the `GetAccounts` step |
| FastMcpOAuth.Server.TransactionsTool | fastmcp_oauth_server.py:304-384 | `get_transactions` is the `GetTransactions` step |
| FastMcpOAuth.Server.BudgetsTool | fastmcp_oauth_server.py:386-416 | `get_budgets` is the `GetBudgets` step |
| ApiMcp.CheckAuthorization | api/mcp.py:21-30 | the authorization check accepts every request |
| ApiMcp.TransactionsToolWellFormed | api/mcp.py:113-126 | the `get_transactions` entry is well formed and its `limit` property is the declared one |
| ApiMcp.AccountHistoryToolWellFormed | api/mcp.py:147-159 | the `get_account_history` entry is well formed and requires `account_id` |
| ApiMcp.Tools | api/mcp.py:99-163 | exactly five tools in the fixed order, only `get_account_history` with a required argument |
| ApiMcp.CollectText | api/mcp.py:199-205 | the loop over the result's content collects `AllText`, the text parts in order |
| ApiMcp.AllTextAppend | api/mcp.py:199-205 | the text of two content lists laid end to end is the two texts concatenated |
| ApiMcp.AllTextParts | api/mcp.py:201-203 | parts without text contribute nothing, and one text part contributes its text |
| ApiMcp.Post | api/mcp.py:51-268 | every request, rejected or not, is answered with status 200 and a body |
| ApiMcp.Dispatch | api/mcp.py:99-257 | dispatching raises exactly for a `tools/call` whose params are not an object, where `params.get` fails |
| ApiMcp.RequestErrors | api/mcp.py:71-96 | unparseable JSON gives -32700 with id null; a missing or empty method gives -32600 with the request's id |
| ApiMcp.ToolsListReply | api/mcp.py:99-163 | `tools/list` returns the five tools, echoing the id |
| ApiMcp.ToolCallRefusals | api/mcp.py:165-192 | a `tools/call` without a name gives -32602; an unknown name gives -32603 "Internal error: Unknown tool: ..." |
| ApiMcp.ToolCallRuns | api/mcp.py:195-220 | a known tool runs with its arguments; a failure gives -32603 "Internal error: ...", a success one text item holding all its text |
| ApiMcp.PostAnswersWithId | api/mcp.py:99-257 | every answer the dispatcher produces is wrapped with the request's id |
| ApiMcp.LifecycleReplies | api/mcp.py:224-257 | `initialize` returns protocol version 2025-06-18, `initialized` an empty result, and any other method -32601 "Method not found: m" |
| ApiMcp.RepliesEchoId | api/mcp.py:77-78 | replies echo the request id, except parse errors and outer failures, which carry null |
| Compliant.TransactionsToolWellFormed | mcp_server_compliant.py:139-169 | the `get_transactions` entry is well formed and declares the bounded `limit` property |
| Compliant.AccountHistoryToolWellFormed | mcp_server_compliant.py:194-215 | the `get_account_history` entry is well formed |
| Compliant.LimitSchema | mcp_server_compliant.py:155-161 | the `limit` schema has minimum 1, maximum 1000 and default 100 |
| Compliant.SpendingPlanToolWellFormed | mcp_server_compliant.py:179-192 | the `get_spending_plan` entry is well formed |
| Compliant.Tools | mcp_server_compliant.py:126-218 | five well-formed tools in the fixed order, the second with the bounded `limit` |
| Compliant.TransactionsRequestRules | mcp_server_compliant.py:88-102 | an accepted request has a limit in 1..1000 (100 when absent) and dates that parse; an out-of-range limit or an unparseable start date is refused with a ValueError |
| Compliant.LoginBeforeRouting | mcp_server_compliant.py:258-282 | whatever the tool, a login needing MFA gives -32602 and any other failed login -32603, before the name is looked at |
| Compliant.RoutingOutcomes | mcp_server_compliant.py:224-256 | once logged in, an unknown name gives -32601 "Unknown tool: name"; a success is one text for a known tool; every error has code -32601, -32602 or -32603 |
| Compliant.InvalidArgumentsFailExecution | mcp_server_compliant.py:235-237 | arguments the request model refuses give "Tool execution failed" whatever the backend holds |
| Compliant.SummaryTexts | mcp_server_compliant.py:284-382 | empty account or transaction data gives the fixed "No ... found" texts; a non-empty transaction list gives its header followed by the listing |
| Compliant.CallTool | mcp_server_compliant.py:223-256 | without a successful login the call fails with the login's error; a success is one text, the one the tool routing produced |
| McpServer.TransactionsToolWellFormed | mcp_server.py:69-96 | the `get_transactions` entry is well formed and declares the `limit` property |
| McpServer.AccountHistoryToolWellFormed | mcp_server.py:120-141 | the `get_account_history` entry is well formed and requires `account_id` |
| McpServer.Tools | mcp_server.py:56-142 | five well-formed tools in the fixed order, the second with the `limit` property |
| McpServer.LimitSchema | mcp_server.py:83-88 | the advertised `limit` runs from 1 to 500 |
| McpServer.Client | mcp_server.py:34-53 | a missing email or password is refused before any login; the client exists exactly when both are set and the login succeeds; every failure is a ValueError |
| McpServer.LimitArgument | mcp_server.py:183 | the limit is 100 when absent and an integer argument is capped at 500, never raised |
| McpServer.TransactionsQuery | mcp_server.py:180-200 | the query's limit is at most 500, and 100 when none is given |
| McpServer.RunBudgetLines | mcp_server.py:244-248 | the budgets loop produces `BudgetLines`: one "Budget: name" line per item, or the error of the first item without `get` |
| McpServer.MonthArgument | mcp_server.py:260-262 | a falsy month means the current month; a month that is kept is a non-empty string |
| McpServer.SpendingPlanBodyAsWritten | mcp_server.py:257-283 | the spending-plan branch as written fails on every input |
| McpServer.FailuresAreText | mcp_server.py:327-330 | corrected, any failure of the handler is answered with the single text "Error executing name: message" under the tool's own name, missing credentials included |
| McpServer.UnknownToolIsText | mcp_server.py:322-326 | once logged in, an unknown name is answered with "Unknown tool: name", as written and corrected alike |
| McpServer.AccountIdIsRequired | mcp_server.py:286-295 | a falsy or missing `account_id` is answered with the fixed "account_id is required" text |
| McpServer.LimitOnlyCappedAbove | mcp_server.py:183 | the limit is capped at 500 but not raised to 1: limit 0 is passed on as 0, limit 5000 becomes 500 |
| McpServer.SpendingPlanAlwaysFails | mcp_server.py:257-283 | as written, `get_spending_plan` fails for every argument, login and backend |
| McpServer.SpendingPlanUnboundDate | mcp_server.py:257-283 | as written, a call without a month is answered with the UnboundLocalError text for `date` |
| McpServer.SpendingPlanReportsMonth | mcp_server.py:257-283 | corrected, a month YYYY-MM queries that month's range and reports the plan under that month |
| McpServer.AccountHistoryDatesFail | mcp_server.py:285-303 | as written, a history request with a start date fails with the UnboundLocalError text for `datetime` |
| McpServer.AccountHistoryParsesDates | mcp_server.py:285-319 | corrected, both dates are parsed and passed to the history query |
| McpServer.BudgetErrorNamesBudget | mcp_server.py:236-248 | as written, a failure after the first budget names that budget instead of the tool |
| McpServer.NotADict | mcp_server.py:244-246 | a list item that is not a dict fails with AttributeError, carrying the last name bound |
| McpServer.BudgetErrorNamesTool | mcp_server.py:327-330 | corrected, the same failure names `get_budgets` |
| McpServer.BudgetLinesOk | mcp_server.py:244-248 | a list of dicts always renders, its first line naming the first budget |
| McpServer.RunAsWritten | mcp_server.py:144-326 | as written, missing e-mail or password fails with the missing-credentials error under the tool's name, and a failure of any tool but `get_budgets` names that tool |
| McpServer.HandleCallToolAsWritten | mcp_server.py:144-330 | as written, every call is answered with exactly one text; missing credentials, and any failure of a tool other than `get_budgets`, give "Error executing name: message" under the tool's name |
| McpServer.HandleCallTool | mcp_server.py:144-330 | corrected, every call is answered with exactly one text; without an e-mail or a password it is "Error executing name: " and the missing-credentials message |
| McpServer.NoArgumentsAreEmpty | mcp_server.py:144-148 | a call without arguments is answered as a call with an empty dictionary, as written and corrected alike |
| ApiIndex.VerifyApiKey | api/index.py:34-49 | no configured or presented key is a refusal; acceptance exactly when the presented key equals the configured one and is ASCII; a non-ASCII key makes the comparison raise |
| ApiIndex.LowerCaseHeaderFirst | api/index.py:41 | a non-empty lower-case `x-api-key` is the one compared, whatever `X-API-Key` holds |
| ApiIndex.Client | api/index.py:51-71 | the client exists exactly when email and password are set and the login succeeds; missing credentials are a ValueError, a failed login an AuthError |
| ApiIndex.LimitParam | api/index.py:107 | the limit is `min(int(limit), 1000)`, with 100 when none is given; it fails exactly when `int()` does, with that error, and a non-dict fails with AttributeError |
| ApiIndex.Params | api/index.py:243-263 | no parameters exactly for a non-empty POST body that is not JSON; a GET reads the query object, a non-empty POST body its JSON, anything else `{}` |
| ApiIndex.PreflightNeedsNoKey | api/index.py:220-226 | a preflight is answered with 200 and an empty body before the key is looked at |
| ApiIndex.Statuses | api/index.py:210-317 | without a configured or presented key every request is refused with 401; with a valid key the status is 200, 400 exactly for a body that is not JSON, or 404 exactly for an unknown path |
| ApiIndex.KnownPaths | api/index.py:266-297 | the router answers exactly the six known paths, "" and "api" with the endpoint list |
| ApiIndex.LoginFailuresAreResults | api/index.py:65-71 | a failed login or an MFA demand is reported by each data endpoint as an `AUTH_ERROR` result |
| ApiIndex.MissingCredentialsResults | api/index.py:99-152 | missing credentials are invalid parameters for transactions and a failed fetch for accounts |
| ApiIndex.TransactionsLimit | api/index.py:99-133 | a successful transactions result was fetched with a query holding the capped limit and the parsed dates, and its data and reported limit are that query's |
| ApiIndex.LimitOfText | api/index.py:107 | a limit given as the text of n is read as n, capped at 1000 |
| ApiIndex.BadLimitIsInvalid | api/index.py:107-145 | once logged in, a limit `int()` refuses gives `INVALID_PARAMS` "Invalid parameters: ..." with that error |
| ApiIndex.BadDateIsInvalid | api/index.py:108-145 | once logged in with a good limit, a start date, or else an end date, that does not parse gives `INVALID_PARAMS` with that error |
| ApiIndex.Accounts | api/index.py:73-97 | the accounts result succeeds exactly when the data was fetched; a login failure is `AUTH_ERROR`, any other failure `FETCH_ERROR` |
| ApiIndex.Transactions | api/index.py:99-152 | the transactions result succeeds exactly when the data was fetched; a login failure is `AUTH_ERROR`, a ValueError `INVALID_PARAMS`, any other failure `FETCH_ERROR` |
| ApiIndex.Budgets | api/index.py:154-177 | the budgets result succeeds exactly when the data was fetched; a login failure is `AUTH_ERROR`, any other failure `FETCH_ERROR` |
| ApiIndex.SpendingPlan | api/index.py:179-208 | as written, the spending-plan result succeeds exactly when the data for the range of `PlanDatesAsWritten` was fetched; a login failure is `AUTH_ERROR`, any other failure `FETCH_ERROR` |
| ApiIndex.Route | api/index.py:266-297 | every path the router knows is answered with a JSON object whose first member is `success` |
| ApiIndex.HandleRequest | api/index.py:210-317 | a response has status 200, 400, 401 or 404; the handler can only raise for a request other than OPTIONS whose key check raises |
| ApiIndex.DecemberEndsBeforeStart | api/index.py:185-189 | as written, in December the end date is January 1 of the same year, before the start |
| ApiIndex.PlanDatesCoverMonth | api/index.py:185-189 | corrected, the range contains exactly the days of the current month, and agrees with the source outside December |
| ApiIndex.SpendingPlanDecemberAsWritten | api/index.py:184-195 | as written, in December the backend is asked for the plan from December 1 to January 1 of the same year, and the handler reports exactly what it returns |
| ApiIndex.SpendingPlanFetchesMonth | api/index.py:184-195 | corrected, the backend is asked for the plan from the first day of the current month to the first day of the next, and the handler reports exactly what it returns |
| ApiIndex.SpendingPlanAgreesBeforeDecember | api/index.py:185-189 | from January to November the handler as written and the corrected one give the same result |
| ApiAuth.LoadConfig | api/auth.py:20-24 | loading succeeds exactly when the expiry hours parse as an integer (24 by default); the origin list is never empty; the username defaults to "admin" |
| ApiAuth.HashPassword | api/auth.py:26-28 | hashing succeeds exactly for a string and yields its SHA-256 hex digest; anything else fails with AttributeError |
| ApiAuth.PayloadClaims | api/auth.py:39-48 | the payload carries the subject, issue time, expiry `hours * 3600` later, the JWT id, the fixed scope, and the client id exactly when it is truthy |
| ApiAuth.GenerateToken | api/auth.py:30-59 | generation fails exactly without a secret, with "JWT_SECRET not configured"; otherwise the grant holds the token encoding the payload and its expiry |
| ApiAuth.VerifyToken | api/auth.py:61-81 | without a secret no token is valid; with one, the claims are what the decoder returns |
| ApiAuth.AllowedOrigin | api/auth.py:86 | the origin is echoed exactly when it is listed, the list holds "*", or it is the first entry; otherwise the first entry is used |
| ApiAuth.Preflight | api/auth.py:83-98 | a preflight is 200 with no body and five headers, allowing the chosen origin, with credentials exactly when that origin is not "*" |
| ApiAuth.WildcardEchoesOrigin | api/auth.py:83-98 | with "*" configured any origin is echoed, with credentials unless it is "*" itself |
| ApiAuth.UnlistedOrigin | api/auth.py:83-98 | an unlisted origin gets the first configured origin, with credentials |
| ApiAuth.LoginBadBody | api/auth.py:109-119 | a body that is not JSON gives 400; JSON that is not an object makes `get` fail with AttributeError |
| ApiAuth.LoginFormFields | api/auth.py:121-124 | the three fields are read from the body by name |
| ApiAuth.LoginReadsFields | api/auth.py:109-124 | the login outcome depends on the body only through its three fields |
| ApiAuth.LoginNeedsBoth | api/auth.py:126-135 | a falsy username or password gives 400 |
| ApiAuth.FirstSetupRevealsDigest | api/auth.py:137-148 | without a configured hash the answer is 500 and carries the password's digest |
| ApiAuth.LoginVerdict | api/auth.py:151-177 | with a hash configured, 401 exactly when the username or the digest differs, 200 exactly when both match and a secret is set |
| ApiAuth.WrongUserNotHashed | api/auth.py:151-160 | a wrong username is refused with 401 whatever the password is |
| ApiAuth.TokenInfo | api/auth.py:180-226 | 200 exactly for a Bearer header whose token verifies to non-empty claims, returning those claims; otherwise 401, with "Bearer token required" without a Bearer header and `active: false` with one |
| ApiAuth.ClaimsOfPayload | api/auth.py:214-225 | the token-info body of a generated payload holds its subject, scope, client id or null, expiry, issue time and JWT id |
| ApiAuth.LoginTokenRoundTrip | api/auth.py:30-226 | a token from a successful login, presented as Bearer while the decoder accepts it, reports the admin as subject, the client id and the expiry |
| ApiAuth.Handler | api/auth.py:228-253 | OPTIONS is the preflight; POST to the login path logs in, GET to the token path reports the token; anything else is 404 "Unknown endpoint: path" |
| OAuthSimple.Route | api/oauth-simple.py:38-187 | the endpoint is chosen by substring, in order: "register", then "authorize", then "token" |
| OAuthSimple.RegistrationData | api/oauth-simple.py:40-47 | only a POST body is read for registration data |
| OAuthSimple.Registration | api/oauth-simple.py:49-68 | registration succeeds exactly when the data is a JSON object |
| OAuthSimple.RegistrationEchoesUris | api/oauth-simple.py:50-62 | the client id is "mcp_" plus a random suffix, and the requested redirect URIs are echoed, the fixed callback when absent |
| OAuthSimple.UnparsableBodyIsEmpty | api/oauth-simple.py:42-47 | a POST body that is not JSON leaves the data empty, so the default redirect URI is used |
| OAuthSimple.CallbackShape | api/oauth-simple.py:88-93 | the callback is the redirect URI with `?code=`, and `&state=` only when a state is given |
| OAuthSimple.FormPair | api/oauth-simple.py:154-156 | a piece without "=" is skipped; otherwise it splits at its first "=" |
| OAuthSimple.ParseForm | api/oauth-simple.py:153-156 | the form loop fills the dictionary `FormFields` of the `&`-separated pieces |
| OAuthSimple.FormFieldsKeys | api/oauth-simple.py:153-156 | a key is present exactly when some piece with "=" names it |
| OAuthSimple.FormFieldsLastWins | api/oauth-simple.py:153-156 | a key repeated in the form keeps its last value |
| OAuthSimple.FormFieldsDropsPlain | api/oauth-simple.py:153-156 | a piece without "=" changes nothing, wherever it stands |
| OAuthSimple.Exchange | api/oauth-simple.py:160-185 | the exchange answers 200 exactly for grant type "authorization_code" and otherwise 400 `unsupported_grant_type`; it fails only when the data has no `get` |
| OAuthSimple.FormGrant | api/oauth-simple.py:143-185 | a form body is accepted exactly when its last `grant_type` is "authorization_code" |
| OAuthSimple.FormWithoutGrant | api/oauth-simple.py:160-172 | a form without `grant_type` is refused with 400 |
| OAuthSimple.Handler | api/oauth-simple.py:14-205 | OPTIONS is 200 with no body; registration gives 200 or 500, authorization the HTML page with its link, the token endpoint 200, 400 or 500, anything else 404 |
| OAuthSimple.FormBodyIsParsed | api/oauth-simple.py:147-156 | a non-empty body not starting with "{" is read as a form |
| FastMcpServer.SafeStr | fastmcp_server.py:107-117 | None gives the default; a string blank after stripping gives the default, any other string itself |
| FastMcpServer.ReprNotBlank | fastmcp_server.py:107-117 | the text of a value that is not a string is never blank |
| FastMcpServer.SafeStrProperties | fastmcp_server.py:107-117 | with a non-blank default the result is never blank; a non-string value gives its text; applying it twice changes nothing |
| FastMcpServer.SafeDictGet | fastmcp_server.py:119-124 | a value that is not a dict, a missing key or a `None` entry gives the default; a text entry is kept unless blank; any other entry gives its `str()` |
| FastMcpServer.SafeDictGetMissing | fastmcp_server.py:119-124 | a missing key is treated like None and gives the default |
| FastMcpServer.Client | fastmcp_server.py:126-150 | the client exists exactly when the login succeeds; every failure is a ValueError |
| FastMcpServer.Clamp | fastmcp_server.py:204 | the limit is kept within 1..1000, unchanged inside that range |
| FastMcpServer.DateParam | fastmcp_server.py:206-218 | no date means none; a kept date is what the parser returned; a ValueError from the parser exactly gives the format hint naming the parameter; other errors pass through |
| FastMcpServer.TransactionsQuery | fastmcp_server.py:204-227 | the query has a limit in 1..1000, the parsed dates, and an account id exactly when one is given |
| FastMcpServer.TransactionsPage | fastmcp_server.py:223-253 | a page with more than 20 items is the header, the first 20 blocks and the "... and N more" trailer |
| FastMcpServer.TransactionsLimit | fastmcp_server.py:185-257 | without dates, the fetch uses the clamped limit and the answer is the header quoting the requested limit, the first 20 blocks and the trailer |
| FastMcpServer.BadDateNoFetch | fastmcp_server.py:206-212 | an unparseable start date gives the format hint whatever the backend holds |
| FastMcpServer.BadEndDateNoFetch | fastmcp_server.py:213-218 | with a good or no start date, an unparseable end date gives the end-date hint whatever the backend holds |
| FastMcpServer.BudgetDataShownWhole | fastmcp_server.py:271-278 | budget data that is not a list is shown whole, by its safe text |
| FastMcpServer.SpendingPlanMonth | fastmcp_server.py:295-321 | a month YYYY-MM queries from its first day to the first day of the next month, across December too, and reports the plan under that month |
| FastMcpServer.SpendingPlanBadMonth | fastmcp_server.py:295-305 | a month that does not parse gives the month-format hint |
| FastMcpServer.AccountHistoryDates | fastmcp_server.py:330-368 | both dates are parsed and passed on; an empty history gives "No history found for account id" |
| FastMcpServer.LoginFailureIsText | fastmcp_server.py:126-150 | for every tool, a failed login or an MFA demand becomes the text "Error fetching ...: " with the login message |
| FastMcpServer.FiveRegistered | fastmcp_server.py:152-330 | five tools are registered under the shared names; only `account_id` of `get_account_history` is required |
| FastMcpServer.CallsNameRegisteredTools | fastmcp_server.py:152-330 | every call names a registered tool |
| FastMcpServer.GetAccounts | fastmcp_server.py:152-183 | a failure to log in or fetch is answered with "Error fetching accounts: " and its message |
| FastMcpServer.GetTransactions | fastmcp_server.py:185-257 | a failure is answered with "Error fetching transactions: " and its message |
| FastMcpServer.GetBudgets | fastmcp_server.py:259-283 | a failure is answered with "Error fetching budgets: " and its message |
| FastMcpServer.GetSpendingPlan | fastmcp_server.py:285-327 | a failure is answered with "Error fetching spending plan: " and its message |
| FastMcpServer.GetAccountHistory | fastmcp_server.py:329-377 | a failure is answered with "Error fetching account history: " and its message |
| ApiFastmcp.Authenticated | api/fastmcp.py:43-52 | a header starting with "Bearer " is judged by its token alone; only without one is `x-api-key` compared |
| ApiFastmcp.Handler | api/fastmcp.py:19-95 | a failed import of the server is answered with 500 before anything else; otherwise 200 exactly for a preflight, no configured key, or an authenticated request, else 401; the 200 body describes the server |
| ApiFastmcp.WrongBearerShadowsApiKey | api/fastmcp.py:46-62 | a wrong Bearer token is refused even when `x-api-key` holds the right key |
| ApiFastmcp.EitherHeaderAuthenticates | api/fastmcp.py:40-84 | with either header holding the key the description listing the five tools is returned |

## Left out

- HTTP and ASGI plumbing: sockets, `send_response`, FastAPI and uvicorn are not modelled. A response is its status, its headers as a list, and its body.
- JSON text: `json.dumps` of a response is not written out. A body is the parsed value it would encode. `json.loads` of a request body is a parameter (`Loads`), except for the list of redirect URIs in the SQLite store, which is written out in `JsonText`.
- HTML pages: the login and authorization pages are reduced to the link or form target they carry. The "Deny" link of the oauth-simple authorization page is not modelled.
- The Monarch Money client: logging in and every fetch are foreign network calls. They are oracle values, a `Login` outcome and a `Backend` of fetch results.
- Money formatting: `${balance:,.2f}` is float formatting. It is a function parameter (`Render` or `Money`), so balances are never formatted in the model. In `mcp_server.py`, `mcp_server_compliant.py` and `fastmcp_server.py` the `Render` parameter stands for the whole text block of one account or transaction, so the field reads of each block and their defaults are not modelled either.
- Floats: `Json` has integers but no floating-point numbers. A limit such as `1.5`, which `int()` truncates to 1, is not modelled, and amounts and balances, floats in the source, reach the model only through `Render` and `Money`.
- Years below 1000: `YearMonthText` pads the year to four digits, where `strftime('%Y')` may not pad it on every platform.
- Case folding: the login-error classification of `api/oauth.py` lowers ASCII letters only (`LowerAscii`), where `str.lower()` also lowers other letters; the keywords it looks for are ASCII.
- Expiry overflow: a `TOKEN_EXPIRY_HOURS` so large that `timedelta` overflows is not modelled; the expiry is the integer `now + hours * 3600`.
- Debug.Report: keeps the parsed parameters as the list of pairs the handler reads, not as the dictionary of lists `parse_qs` returns.
- Discovery.Handle: a method other than GET and OPTIONS has no handler in the two discovery files; the model answers it with no reply.
- Floating-point time: `iat`, `exp` and every expiry are whole seconds, where the source uses `datetime.timestamp()` floats.
- Randomness: `secrets.token_*` draws are parameters. Freshness is a precondition where the source relies on it; uniqueness cannot be shown from the source.
- Crypto: PBKDF2, SHA-256, JWT encoding and decoding, and `hmac.compare_digest` are function-typed parameters. Only the facts the source relies on are assumed of them, as preconditions of the lemmas that need them. Base64 is written out.
- Library exception texts: the messages of `strptime`, `int()` and pydantic are not reproduced word for word. Errors carry their exception kind and a stand-in message; pydantic validation errors name the model and the field.
- JSON-RPC error codes: the `ErrorCode` constants of the `mcp` package are taken to be the JSON-RPC 2.0 codes of section 5.1 of the JSON-RPC 2.0 specification (-32602 for invalid parameters, -32603 for an internal error, -32601 for a method not found).
- UnboundLocalError wording: the message of a read of an unbound local follows the wording of Python 3.11 and later.
- A non-string `account_id`: the tools assume `account_id` is a string where the MCP client supplies one.
- Serverless events: an event key present with the value `null` is treated like a missing key.
- The last-resort 500 branch of `api/index.py` (lines 307-317) cannot be reached in the model, because every handler already catches its own failures.
- In `api/index.py` a falsy date argument is passed to the client as no date.
- `secure_oauth.py` `validate_access_token` is not modelled. It hashes the presented token with a fresh random salt and looks that hash up among the stored hashes, which were made with other salts; since the stored salt is never reused, a lookup succeeds only on a key-derivation collision, which the model of PBKDF2 as a parameter cannot express.
- PKCE and refresh tokens: S256 is advertised but no code checks a `code_verifier`, and refresh tokens are returned but never stored. Neither flow is modelled.
- The POST `register` branch of `api/oauth.py` is modelled only as the failure it is in the source: it writes to an undefined name. The ImportError fallback of the `process` branch is modelled: credentials other than the environment's are sent back to the form with "Server credentials required", and the environment's own reach a use of the unbound `auth_code`.
- Module-level start-up: process exit on an import failure, logging and `print` are not modelled.
- Emoji: the emoji in `fastmcp_server.py` and `fastmcp_oauth_server.py` are kept as the characters the file's bytes decode to, as `BarChartMisdecoded` and its siblings, rather than as the intended pictographs.
- The pydantic request models of `fastmcp_server.py` are not modelled, because no tool uses them.
- Concurrency: asyncio, the event loop and the periodic cleanup task of `secure_oauth.py` are not modelled. The source has no locking, so no race-freedom property is claimed.
- SQLite: connection handling and ISO timestamp parsing are not modelled. Tables are maps and times are integers.
- Starlette form parsing: when a form field repeats, the model reads the last value given.
- Static files and scripts: `api/oauth-minimal.py`, `api/oauth-working.py`, `api/mcp-discovery.py`, `expose_for_claude.py`, `api/home.py`, `api/oauth-login.py`, the deployment checks and the test scripts are not part of this model.
- Compliant.TransactionsRequestRules: states the refusal of an unparseable date for the start date only; the end date is validated by the same code path.
- McpServer.HandleCallTool: is the corrected handler; as written (`HandleCallToolAsWritten`) a `get_budgets` failure after the first budget is reported under that budget's name (`BudgetErrorNamesBudget`), and the spending-plan and account-history branches fail as the Findings below say.
- McpServer.FailuresAreText: is about the corrected handler; as written the same single text is produced, except that a `get_budgets` failure after the first budget names the budget instead of the tool (`BudgetErrorNamesBudget`).
- McpServer.TransactionsQuery: states the limit only; the dates and the account filter follow `DateArgument` and are not restated.

## Findings

| source | as written | input that shows it | evidently intended | confidence | as-written member | corrected member |
|---|---|---|---|---|---|---|
| mcp_server.py:257-283 | `get_spending_plan` calls `date(...)`, a local of the function bound only by the import inside the `get_transactions` branch, so the branch always raises UnboundLocalError | a call of `get_spending_plan` with no arguments | the month or the current month is turned into a date range and the plan is reported | not executed | McpServer.SpendingPlanAlwaysFails | McpServer.SpendingPlanReportsMonth |
| mcp_server.py:285-303 | `get_account_history` with a start date calls `datetime.strptime`, and `datetime` is a local bound only by the imports of the other two branches | `account_id` "a1" with `start_date` "2024-01-01" | the dates are parsed and passed to the history query | not executed | McpServer.AccountHistoryDatesFail | McpServer.AccountHistoryParsesDates |
| mcp_server.py:236-248 | the budget loop rebinds `name`, so a failure after the first budget is reported under the budget's name | budgets `[{"name": "Rent"}, 0]` | the error names the tool, "Error executing get_budgets: ..." | not executed | McpServer.BudgetErrorNamesBudget | McpServer.BudgetErrorNamesTool |
| api/index.py:185-189 | in December the end date is January 1 of the same year, before the start date | today 2024-12-15 | the end is January 1 of the next year, so the range covers the month | not executed | ApiIndex.DecemberEndsBeforeStart | ApiIndex.PlanDatesCoverMonth |
