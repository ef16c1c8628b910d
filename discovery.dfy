/**
 * The discovery documents: OAuth 2.0 Authorization Server Metadata (section
 * 2 of RFC 8414) and OAuth 2.0 Protected Resource Metadata (section 2 of
 * RFC 9728), both built around one base URL.
 */
module Discovery {
  import opened Wrappers
  import opened Strings
  import opened PyJson
  import opened Monarch

  const FallbackBase: string := "https://cesar-money-mcp.vercel.app"

  const Scopes: seq<string> := ["mcp:read", "mcp:write", "accounts:read", "transactions:read", "budgets:read"]

  /**
   * `BASE_URL` when it is set and non-empty; otherwise the `Host` header, over
   * plain HTTP only for a local host; otherwise the deployment's own URL.
   */
  function BaseUrl(configured: Option<string>, host: Option<string>): (r: string)
    ensures Given(configured) ==> r == configured.value
    ensures !Given(configured) && Given(host) ==>
      r == (if Contains(host.value, "localhost") || Contains(host.value, "127.0.0.1") then "http://" else "https://")
           + host.value
    ensures !Given(configured) && !Given(host) ==> r == FallbackBase
    ensures !Given(configured) && Given(host) && StartsWith(r, "http://") ==>
      Contains(host.value, "localhost") || Contains(host.value, "127.0.0.1")
  {
    if Given(configured) then configured.value
    else if Given(host) then
      var local := Contains(host.value, "localhost") || Contains(host.value, "127.0.0.1");
      var protocol := if local then "http" else "https";
      var url := protocol + "://" + host.value;
      assert !local ==> url[..7] == "https:/";
      url
    else FallbackBase
  }

  /** The authorization server metadata document of `api/oauth-authorization-server.py`, in its three runs of members. */
  function AuthorizationServerMetadata(base: string): (r: Json)
    ensures Member(r, "issuer") == Some(JStr(base))
  {
    JObject(ServerEndpoints(base) + ServerCapabilities() + ServerExtras(base))
  }

  function ServerEndpoints(base: string): seq<(string, Json)> {
    [("issuer", JStr(base)),
     ("authorization_endpoint", JStr(base + "/oauth/authorize")),
     ("token_endpoint", JStr(base + "/oauth/token")),
     ("registration_endpoint", JStr(base + "/oauth/register")),
     ("jwks_uri", JStr(base + "/.well-known/jwks.json"))]
  }

  function ServerCapabilities(): seq<(string, Json)> {
    [("response_types_supported", StrList(["code"])),
     ("grant_types_supported", StrList(["authorization_code"])),
     ("code_challenge_methods_supported", StrList(["S256"])),
     ("token_endpoint_auth_methods_supported", StrList(["client_secret_basic", "client_secret_post"])),
     ("scopes_supported", StrList(Scopes))]
  }

  function ServerExtras(base: string): seq<(string, Json)> {
    [("introspection_endpoint", JStr(base + "/oauth/introspect")),
     ("revocation_endpoint", JStr(base + "/oauth/revoke")),
     ("service_documentation", JStr(base + "/docs"))]
  }

  /** The protected resource metadata document of `api/oauth-protected-resource.py`. */
  function ProtectedResourceMetadata(base: string): (r: Json)
    ensures Member(r, "resource") == Some(JStr(base))
  {
    JObject([
      ("resource", JStr(base)),
      ("authorization_servers", StrList([base])),
      ("bearer_methods_supported", StrList(["header"])),
      ("resource_documentation", JStr(base + "/docs")),
      ("scopes_supported", StrList(Scopes))])
  }

  /** The value stored under `key` in a document. */
  function Member(doc: Json, key: string): Option<Json> {
    if doc.JObject? then Lookup(doc.fields, key) else None
  }

  /** `key` names a string member that is `base` followed by `/` and a path. */
  predicate Under(doc: Json, key: string, base: string) {
    Member(doc, key).Some? && Member(doc, key).value.JStr? && StartsWith(Member(doc, key).value.s, base + "/")
  }

  /** `base + path` for a path that starts with `/` lies under `base + "/"`. */
  lemma SlashPath(base: string, path: string)
    requires |path| >= 1 && path[0] == '/'
    ensures StartsWith(base + path, base + "/")
  {
    assert (base + path)[..|base| + 1] == base + "/";
  }

  /** A member of the authorization server document is looked up run by run. */
  lemma ServerMember(base: string, key: string)
    ensures Member(AuthorizationServerMetadata(base), key) ==
      if Lookup(ServerEndpoints(base), key).Some? then Lookup(ServerEndpoints(base), key)
      else if Lookup(ServerCapabilities(), key).Some? then Lookup(ServerCapabilities(), key)
      else Lookup(ServerExtras(base), key)
  {
    var e, c, x := ServerEndpoints(base), ServerCapabilities(), ServerExtras(base);
    LookupAppend(e, c, key);
    LookupAppend(e + c, x, key);
  }

  /**
   * In the authorization server document the issuer is the base URL itself
   * and the authorization, token, registration and key-set endpoints are the
   * base URL followed by a fixed path.
   */
  lemma AuthorizationServerEndpoints(base: string)
    ensures Under(AuthorizationServerMetadata(base), "authorization_endpoint", base)
    ensures Under(AuthorizationServerMetadata(base), "token_endpoint", base)
    ensures Under(AuthorizationServerMetadata(base), "registration_endpoint", base)
    ensures Under(AuthorizationServerMetadata(base), "jwks_uri", base)
  {
    var e := ServerEndpoints(base);
    ServerMember(base, "authorization_endpoint");
    ServerMember(base, "token_endpoint");
    ServerMember(base, "registration_endpoint");
    ServerMember(base, "jwks_uri");
    LookupAt(e, 1, "authorization_endpoint");
    LookupAt(e, 2, "token_endpoint");
    LookupAt(e, 3, "registration_endpoint");
    LookupAt(e, 4, "jwks_uri");
    SlashPath(base, "/oauth/authorize");
    SlashPath(base, "/oauth/token");
    SlashPath(base, "/oauth/register");
    SlashPath(base, "/.well-known/jwks.json");
  }

  /** The introspection, revocation and documentation endpoints also lie under the base URL. */
  lemma AuthorizationServerExtraEndpoints(base: string)
    ensures Under(AuthorizationServerMetadata(base), "introspection_endpoint", base)
    ensures Under(AuthorizationServerMetadata(base), "revocation_endpoint", base)
    ensures Under(AuthorizationServerMetadata(base), "service_documentation", base)
  {
    var e, c, x := ServerEndpoints(base), ServerCapabilities(), ServerExtras(base);
    forall key | key in ["introspection_endpoint", "revocation_endpoint", "service_documentation"]
      ensures Member(AuthorizationServerMetadata(base), key) == Lookup(x, key)
    {
      ServerMember(base, key);
      LookupFinds(e, key);
      LookupFinds(c, key);
    }
    LookupAt(x, 0, "introspection_endpoint");
    LookupAt(x, 1, "revocation_endpoint");
    LookupAt(x, 2, "service_documentation");
    SlashPath(base, "/oauth/introspect");
    SlashPath(base, "/oauth/revoke");
    SlashPath(base, "/docs");
  }

  /** Only the authorization-code flow, and only the S256 code challenge, are advertised. */
  lemma AuthorizationServerFlows(base: string)
    ensures Member(AuthorizationServerMetadata(base), "response_types_supported") == Some(JArray([JStr("code")]))
    ensures Member(AuthorizationServerMetadata(base), "grant_types_supported") == Some(JArray([JStr("authorization_code")]))
    ensures Member(AuthorizationServerMetadata(base), "code_challenge_methods_supported") == Some(JArray([JStr("S256")]))
  {
    var e, c := ServerEndpoints(base), ServerCapabilities();
    forall key | key in ["response_types_supported", "grant_types_supported", "code_challenge_methods_supported"]
      ensures Lookup(e, key).None?
    {
      LookupFinds(e, key);
    }
    ServerMember(base, "response_types_supported");
    ServerMember(base, "grant_types_supported");
    ServerMember(base, "code_challenge_methods_supported");
    LookupAt(c, 0, "response_types_supported");
    LookupAt(c, 1, "grant_types_supported");
    LookupAt(c, 2, "code_challenge_methods_supported");
    assert StrList(["code"]) == JArray([JStr("code")]);
    assert StrList(["authorization_code"]) == JArray([JStr("authorization_code")]);
    assert StrList(["S256"]) == JArray([JStr("S256")]);
  }

  /** The protected resource is the base URL, its only authorization server is the base URL, and tokens go in the header. */
  lemma ProtectedResourceMetadataShape(base: string)
    ensures Member(ProtectedResourceMetadata(base), "authorization_servers") == Some(JArray([JStr(base)]))
    ensures Member(ProtectedResourceMetadata(base), "bearer_methods_supported") == Some(JArray([JStr("header")]))
    ensures Under(ProtectedResourceMetadata(base), "resource_documentation", base)
    ensures Member(ProtectedResourceMetadata(base), "scopes_supported") == Some(StrList(Scopes))
  {
    var f := ProtectedResourceMetadata(base).fields;
    LookupAt(f, 1, "authorization_servers");
    LookupAt(f, 2, "bearer_methods_supported");
    LookupAt(f, 3, "resource_documentation");
    LookupAt(f, 4, "scopes_supported");
    assert StrList([base]) == JArray([JStr(base)]);
    assert StrList(["header"]) == JArray([JStr("header")]);
  }

  // ------------------------------------------------------------------ handlers

  /** Which of the two discovery endpoints answers. */
  datatype Endpoint = AuthorizationServer | ProtectedResource

  /** The metadata document an endpoint publishes for a base URL. */
  function Metadata(endpoint: Endpoint, base: string): Json {
    match endpoint
      case AuthorizationServer => AuthorizationServerMetadata(base)
      case ProtectedResource => ProtectedResourceMetadata(base)
  }

  /** The CORS headers both methods of both endpoints send. */
  const Cors: seq<(string, string)> := [
    ("Access-Control-Allow-Origin", "*"),
    ("Access-Control-Allow-Methods", "GET, OPTIONS"),
    ("Access-Control-Allow-Headers", "Content-Type, Authorization")]

  /** A reply: its status, its headers in order, and the JSON document it carries, if any. */
  datatype Reply = Reply(status: int, headers: seq<(string, string)>, body: Option<Json>)

  /**
   * `do_GET` and `do_OPTIONS` of either endpoint; any other method has no
   * handler (`None`). Both methods answer 200 with the same CORS headers;
   * only GET carries a document, the one for the derived base URL.
   */
  function Handle(endpoint: Endpoint, httpMethod: string, configured: Option<string>, host: Option<string>)
    : (r: Option<Reply>)
    ensures r.Some? <==> httpMethod == "GET" || httpMethod == "OPTIONS"
    ensures r.Some? ==> r.value.status == 200 && |r.value.headers| >= 3 && r.value.headers[|r.value.headers| - 3..] == Cors
    ensures r.Some? ==> (r.value.body.Some? <==> httpMethod == "GET")
    ensures httpMethod == "GET" ==>
      r.value.body == Some(Metadata(endpoint, BaseUrl(configured, host)))
      && r.value.headers[0] == ("Content-Type", "application/json")
  {
    if httpMethod == "GET" then
      Some(Reply(200, [("Content-Type", "application/json")] + Cors, Some(Metadata(endpoint, BaseUrl(configured, host)))))
    else if httpMethod == "OPTIONS" then Some(Reply(200, Cors, None))
    else None
  }
}
