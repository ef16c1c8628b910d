/**
 * The hashed credential store of `secure_oauth.py` and the OAuth manager
 * built on it. Every secret that is stored (client secret, user email and
 * password, access token) is kept as base64 of a 32-byte salt followed by
 * the PBKDF2 digest of the secret under that salt; the digest itself is a
 * function supplied by the caller, and so are the random salts, identifiers
 * and the clock.
 */
module SecureOAuth {
  import opened Wrappers
  import opened PyErrors
  import opened JsonText
  import opened Monarch
  import Base64

  type byte = Base64.byte

  /** PBKDF2 with HMAC-SHA-256 and 100000 iterations, over the credential's bytes and a salt. */
  type Kdf = (string, seq<byte>) -> seq<byte>

  const SaltLength: int := 32
  const CodeLifetime: int := 600
  const TokenLifetime: int := 86400
  const TokenScope: string := "accounts:read transactions:read budgets:read"

  /** `_hash_credential`: base64 of the salt followed by the digest. */
  function HashCredential(kdf: Kdf, credential: string, salt: seq<byte>): string
    requires |salt| == SaltLength
  {
    Base64.Encode(salt + kdf(credential, salt))
  }

  /**
   * `_verify_credential`: decode, split after the first 32 bytes and compare
   * the digest under that salt; text that does not decode verifies nothing.
   */
  function VerifyCredential(kdf: Kdf, credential: string, stored: string): bool {
    match Base64.Decode(stored)
      case None => false
      case Some(decoded) =>
        var cut := if |decoded| < SaltLength then |decoded| else SaltLength;
        kdf(credential, decoded[..cut]) == decoded[cut..]
  }

  /**
   * A stored hash verifies exactly the credentials whose digest under the
   * same salt coincides with the original's; in particular the original
   * credential always verifies.
   */
  lemma HashVerifyRoundTrip(kdf: Kdf, credential: string, other: string, salt: seq<byte>)
    requires |salt| == SaltLength
    ensures VerifyCredential(kdf, credential, HashCredential(kdf, credential, salt))
    ensures VerifyCredential(kdf, other, HashCredential(kdf, credential, salt)) <==> kdf(other, salt) == kdf(credential, salt)
  {
    var stored := salt + kdf(credential, salt);
    Base64.RoundTrip(stored);
    assert stored[..SaltLength] == salt && stored[SaltLength..] == kdf(credential, salt);
  }

  /** Text that is not base64 verifies no credential. */
  lemma MalformedHashRejects(kdf: Kdf, credential: string, stored: string)
    requires Base64.Decode(stored).None?
    ensures !VerifyCredential(kdf, credential, stored)
  {
  }

  /** A row of `oauth_clients`. */
  datatype ClientRecord = ClientRecord(secretHash: string, redirectUrisJson: string)

  /** A row of `auth_codes`. */
  datatype CodeRecord = CodeRecord(clientId: string, emailHash: string, passwordHash: string, expiresAt: int, used: bool)

  /** A row of `access_tokens`, keyed by the token's hash. */
  datatype TokenRecord = TokenRecord(clientId: string, emailHash: string, passwordHash: string, expiresAt: int)

  datatype Store = Store(clients: map<string, ClientRecord>, codes: map<string, CodeRecord>, tokens: map<string, TokenRecord>)

  /** The two hashes `exchange_auth_code` hands back. */
  datatype UserHashes = UserHashes(emailHash: string, passwordHash: string)

  /**
   * `store_client`: `INSERT OR REPLACE`, so a client id is re-registered in
   * place. `accepted` is whether SQLite performed the write; when it does
   * not, the exception is logged and the answer is False.
   */
  function StoreClient(st: Store, kdf: Kdf, clientId: string, secret: string, redirectUris: seq<string>,
                       salt: seq<byte>, accepted: bool): (Store, bool)
    requires |salt| == SaltLength
  {
    if accepted then
      (st.(clients := st.clients[clientId := ClientRecord(HashCredential(kdf, secret, salt), EncodeStringList(redirectUris))]), true)
    else (st, false)
  }

  function VerifyClient(st: Store, kdf: Kdf, clientId: string, secret: string): bool {
    clientId in st.clients && VerifyCredential(kdf, secret, st.clients[clientId].secretHash)
  }

  /** `get_client_redirect_uris`: the stored list, or `[]` for an unknown client or unreadable text. */
  function ClientRedirectUris(st: Store, clientId: string): seq<string> {
    if clientId !in st.clients then []
    else match DecodeStringList(st.clients[clientId].redirectUrisJson)
      case None => []
      case Some(uris) => uris
  }

  /** `store_auth_code`: a plain `INSERT`, so a code already present violates the key and nothing is written. */
  function StoreAuthCode(st: Store, kdf: Kdf, code: string, clientId: string, email: string, password: string,
                         emailSalt: seq<byte>, passwordSalt: seq<byte>, now: int): (Store, bool)
    requires |emailSalt| == SaltLength && |passwordSalt| == SaltLength
  {
    if code in st.codes then (st, false)
    else
      var record := CodeRecord(clientId, HashCredential(kdf, email, emailSalt), HashCredential(kdf, password, passwordSalt),
                               now + CodeLifetime, false);
      (st.(codes := st.codes[code := record]), true)
  }

  /**
   * `exchange_auth_code`: the row must carry both the code and the client
   * id, be unused and not have expired; then it is marked used and its user
   * hashes are returned.
   */
  function ExchangeAuthCode(st: Store, code: string, clientId: string, now: int): (Store, Option<UserHashes>) {
    if code !in st.codes || st.codes[code].clientId != clientId then (st, None)
    else
      var row := st.codes[code];
      if row.used then (st, None)
      else if now > row.expiresAt then (st, None)
      else (st.(codes := st.codes[code := row.(used := true)]), Some(UserHashes(row.emailHash, row.passwordHash)))
  }

  /** `store_access_token`: a plain `INSERT` keyed by the token's hash. */
  function StoreAccessToken(st: Store, kdf: Kdf, token: string, clientId: string, emailHash: string, passwordHash: string,
                            salt: seq<byte>, now: int): (Store, bool)
    requires |salt| == SaltLength
  {
    var key := HashCredential(kdf, token, salt);
    if key in st.tokens then (st, false)
    else (st.(tokens := st.tokens[key := TokenRecord(clientId, emailHash, passwordHash, now + TokenLifetime)]), true)
  }

  /** `cleanup_expired_tokens`: `DELETE ... WHERE expires_at < now` on codes and tokens. */
  function CleanupExpired(st: Store, now: int): Store {
    st.(codes := map c | c in st.codes && !(st.codes[c].expiresAt < now) :: st.codes[c],
        tokens := map k | k in st.tokens && !(st.tokens[k].expiresAt < now) :: st.tokens[k])
  }

  /** The stored secret verifies, and the stored redirect URIs read back, exactly as registered. */
  lemma StoredClientVerifies(st: Store, kdf: Kdf, clientId: string, secret: string, redirectUris: seq<string>,
                             salt: seq<byte>, other: string)
    requires |salt| == SaltLength
    ensures var st' := StoreClient(st, kdf, clientId, secret, redirectUris, salt, true).0;
      VerifyClient(st', kdf, clientId, secret) && ClientRedirectUris(st', clientId) == redirectUris
      && (other != clientId ==> VerifyClient(st', kdf, other, secret) == VerifyClient(st, kdf, other, secret))
  {
    HashVerifyRoundTrip(kdf, secret, secret, salt);
    StringListRoundTrip(redirectUris);
  }

  /** An unknown client verifies with no secret and has no redirect URIs. */
  lemma UnknownClient(st: Store, kdf: Kdf, clientId: string, secret: string)
    requires clientId !in st.clients
    ensures !VerifyClient(st, kdf, clientId, secret) && ClientRedirectUris(st, clientId) == []
  {
  }

  /**
   * An exchange fails, leaving the store as it was, for an absent code, a
   * code of another client, a used code or an expired one; otherwise it
   * marks that code used and changes nothing else.
   */
  lemma ExchangeRules(st: Store, code: string, clientId: string, now: int)
    ensures var (st', r) := ExchangeAuthCode(st, code, clientId, now);
      (r.Some? <==> code in st.codes && st.codes[code].clientId == clientId && !st.codes[code].used
                    && now <= st.codes[code].expiresAt)
      && (r.None? ==> st' == st)
      && (r.Some? ==> st' == st.(codes := st.codes[code := st.codes[code].(used := true)])
                      && r.value == UserHashes(st.codes[code].emailHash, st.codes[code].passwordHash))
  {
  }

  /** A code is exchanged at most once: a second exchange, by any client at any time, fails. */
  lemma ExchangeSingleUse(st: Store, code: string, clientId: string, clientId2: string, now: int, later: int)
    ensures var (st', r) := ExchangeAuthCode(st, code, clientId, now);
      r.Some? ==> ExchangeAuthCode(st', code, clientId2, later).1.None?
  {
  }

  /** A stored code is unused, lives ten minutes, and can be exchanged by its client within them; storing over a code fails. */
  lemma StoredCodeExchanges(st: Store, kdf: Kdf, code: string, clientId: string, email: string, password: string,
                            emailSalt: seq<byte>, passwordSalt: seq<byte>, now: int, later: int)
    requires |emailSalt| == SaltLength && |passwordSalt| == SaltLength
    ensures var (st', ok) := StoreAuthCode(st, kdf, code, clientId, email, password, emailSalt, passwordSalt, now);
      (ok <==> code !in st.codes)
      && (!ok ==> st' == st)
      && (ok ==> (ExchangeAuthCode(st', code, clientId, later).1.Some? <==> later <= now + CodeLifetime))
  {
  }

  /** Cleanup keeps exactly the codes and tokens that have not expired and never touches clients. */
  lemma CleanupKeepsLive(st: Store, now: int)
    ensures forall c :: c in CleanupExpired(st, now).codes <==> c in st.codes && st.codes[c].expiresAt >= now
    ensures forall k :: k in CleanupExpired(st, now).tokens <==> k in st.tokens && st.tokens[k].expiresAt >= now
    ensures forall c :: c in CleanupExpired(st, now).codes ==> CleanupExpired(st, now).codes[c] == st.codes[c]
    ensures forall k :: k in CleanupExpired(st, now).tokens ==> CleanupExpired(st, now).tokens[k] == st.tokens[k]
    ensures CleanupExpired(st, now).clients == st.clients
  {
  }

  // ---------------------------------------------------------------------------
  // SecureOAuthManager
  // ---------------------------------------------------------------------------

  /** The redirect URIs every registered client is given besides its own. */
  const DefaultRedirectUris: seq<string> := [
    "https://api.agent.ai/api/v3/mcp/flow/redirect",
    "https://agent.ai/oauth/callback",
    "https://claude.ai/oauth/callback",
    "https://claude.ai/api/mcp/auth_callback",
    "http://localhost:3000/callback",
    "mcp://oauth/callback"]

  predicate Distinct(l: seq<string>) {
    forall i, j :: 0 <= i < j < |l| ==> l[i] != l[j]
  }

  /** `list(set(l))`: every element once. */
  function Dedup(l: seq<string>): (r: seq<string>)
    ensures forall x :: x in r <==> x in l
    ensures Distinct(r)
  {
    if l == [] then []
    else if l[0] in l[1..] then Dedup(l[1..])
    else [l[0]] + Dedup(l[1..])
  }

  /** What `register_client` returns. */
  datatype Registration = Registration(clientId: string, clientSecret: string, redirectUris: seq<string>)

  const ClientIdPrefix: string := "mcp_"

  /**
   * `register_client`: the caller's URIs and the defaults, each once, stored
   * under `mcp_` and a fresh hex id; a refused write raises.
   */
  function RegisterClient(st: Store, kdf: Kdf, redirectUris: seq<string>, hex: string, secret: string,
                          salt: seq<byte>, accepted: bool): Result<(Store, Registration), Exc>
    requires |salt| == SaltLength
  {
    var clientId := ClientIdPrefix + hex;
    var all := Dedup(redirectUris + DefaultRedirectUris);
    var (st', ok) := StoreClient(st, kdf, clientId, secret, all, salt, accepted);
    if ok then Ok((st', Registration(clientId, secret, all))) else Err(Exc(ValueError, "Failed to register client"))
  }

  /**
   * A registered client may redirect to each URI it asked for and to every
   * default, each listed once, and its secret verifies.
   */
  lemma RegistrationUnion(st: Store, kdf: Kdf, redirectUris: seq<string>, hex: string, secret: string,
                          salt: seq<byte>, accepted: bool)
    requires |salt| == SaltLength
    ensures var r := RegisterClient(st, kdf, redirectUris, hex, secret, salt, accepted);
      (r.Ok? <==> accepted)
      && (r.Err? ==> r.error == Exc(ValueError, "Failed to register client"))
      && (r.Ok? ==>
            var (st', reg) := r.value;
            (forall u :: u in reg.redirectUris <==> u in redirectUris || u in DefaultRedirectUris)
            && Distinct(reg.redirectUris)
            && ClientRedirectUris(st', reg.clientId) == reg.redirectUris
            && VerifyClient(st', kdf, reg.clientId, secret))
  {
    var all := Dedup(redirectUris + DefaultRedirectUris);
    StoredClientVerifies(st, kdf, ClientIdPrefix + hex, secret, all, salt, ClientIdPrefix + hex + "x");
  }

  /** `authorize`: log in to Monarch Money, then store a fresh code bound to the user's hashed credentials. */
  function Authorize(st: Store, kdf: Kdf, clientId: string, email: string, password: string, login: Login,
                     code: string, emailSalt: seq<byte>, passwordSalt: seq<byte>, now: int): Result<(Store, string), Exc>
    requires |emailSalt| == SaltLength && |passwordSalt| == SaltLength
  {
    match login
      case MfaRequired => Err(Exc(ValueError, "MFA is required but not supported in OAuth flow"))
      case LoginFailed(e) => Err(Exc(ValueError, "Invalid credentials: " + e.message))
      case LoggedIn =>
        var (st', ok) := StoreAuthCode(st, kdf, code, clientId, email, password, emailSalt, passwordSalt, now);
        if ok then Ok((st', code))
        else Err(Exc(ValueError, "Invalid credentials: Failed to store authorization code"))
  }

  /** The token document of a successful exchange. */
  datatype TokenGrant = TokenGrant(accessToken: string, tokenType: string, expiresIn: int, scope: string)

  /**
   * `exchange_code_for_token`: the client's secret is checked first, then
   * the code is consumed, then the token is stored under its hash.
   */
  function ExchangeCodeForToken(st: Store, kdf: Kdf, code: string, clientId: string, secret: string, token: string,
                                salt: seq<byte>, now: int): (Store, Result<TokenGrant, Exc>)
    requires |salt| == SaltLength
  {
    if !VerifyClient(st, kdf, clientId, secret) then (st, Err(Exc(ValueError, "Invalid client credentials")))
    else
      var (st1, hashes) := ExchangeAuthCode(st, code, clientId, now);
      if hashes.None? then (st1, Err(Exc(ValueError, "Invalid or expired authorization code")))
      else
        var (st2, ok) := StoreAccessToken(st1, kdf, token, clientId, hashes.value.emailHash, hashes.value.passwordHash, salt, now);
        if ok then (st2, Ok(TokenGrant(token, "Bearer", TokenLifetime, TokenScope)))
        else (st2, Err(Exc(ValueError, "Failed to create access token")))
  }

  /**
   * A wrong client secret fails before the code is looked at, so the code
   * stays usable; a successful exchange has consumed the code and stored a
   * token for the code's user that lives a day.
   */
  lemma ExchangeChecksClientFirst(st: Store, kdf: Kdf, code: string, clientId: string, secret: string, token: string,
                                  salt: seq<byte>, now: int)
    requires |salt| == SaltLength
    ensures var (st', r) := ExchangeCodeForToken(st, kdf, code, clientId, secret, token, salt, now);
      (!VerifyClient(st, kdf, clientId, secret) ==> st' == st && r == Err(Exc(ValueError, "Invalid client credentials")))
      && (r.Ok? ==>
            VerifyClient(st, kdf, clientId, secret)
            && ExchangeAuthCode(st, code, clientId, now).1.Some?
            && r.value == TokenGrant(token, "Bearer", 86400, TokenScope)
            && code in st'.codes && st'.codes[code].used
            && var key := HashCredential(kdf, token, salt);
               key in st'.tokens
               && st'.tokens[key] == TokenRecord(clientId, st.codes[code].emailHash, st.codes[code].passwordHash, now + 86400))
  {
  }

  /** A failed login stores nothing; a successful one stores a fresh code for the client, or fails if the code is taken. */
  lemma AuthorizeStoresOnlyOnLogin(st: Store, kdf: Kdf, clientId: string, email: string, password: string, login: Login,
                                   code: string, emailSalt: seq<byte>, passwordSalt: seq<byte>, now: int)
    requires |emailSalt| == SaltLength && |passwordSalt| == SaltLength
    ensures var r := Authorize(st, kdf, clientId, email, password, login, code, emailSalt, passwordSalt, now);
      (r.Ok? <==> login.LoggedIn? && code !in st.codes)
      && (r.Ok? ==> r.value.1 == code && code in r.value.0.codes
                    && r.value.0.codes[code].clientId == clientId && !r.value.0.codes[code].used)
      && (r.Err? ==> IsValueError(r.error))
  {
  }

  // ---------------------------------------------------------------------------
  // The store and the manager as objects
  // ---------------------------------------------------------------------------

  class SecureTokenStorage {
    var clients: map<string, ClientRecord>
    var codes: map<string, CodeRecord>
    var tokens: map<string, TokenRecord>

    function Snapshot(): Store
      reads this
    {
      Store(clients, codes, tokens)
    }

    /** `_init_database` on a new file. */
    constructor ()
      ensures Snapshot() == Store(map[], map[], map[])
    {
      clients := map[];
      codes := map[];
      tokens := map[];
    }

    method StoreClientMethod(kdf: Kdf, clientId: string, secret: string, redirectUris: seq<string>, salt: seq<byte>,
                             accepted: bool) returns (ok: bool)
      requires |salt| == SaltLength
      modifies this
      ensures (Snapshot(), ok) == StoreClient(old(Snapshot()), kdf, clientId, secret, redirectUris, salt, accepted)
    {
      if !accepted {
        return false;
      }
      clients := clients[clientId := ClientRecord(HashCredential(kdf, secret, salt), EncodeStringList(redirectUris))];
      ok := true;
    }

    method VerifyClientMethod(kdf: Kdf, clientId: string, secret: string) returns (ok: bool)
      ensures ok == VerifyClient(Snapshot(), kdf, clientId, secret)
    {
      if clientId !in clients {
        return false;
      }
      ok := VerifyCredential(kdf, secret, clients[clientId].secretHash);
    }

    method GetClientRedirectUris(clientId: string) returns (uris: seq<string>)
      ensures uris == ClientRedirectUris(Snapshot(), clientId)
    {
      if clientId !in clients {
        return [];
      }
      var decoded := DecodeStringList(clients[clientId].redirectUrisJson);
      uris := if decoded.Some? then decoded.value else [];
    }

    method StoreAuthCodeMethod(kdf: Kdf, code: string, clientId: string, email: string, password: string,
                               emailSalt: seq<byte>, passwordSalt: seq<byte>, now: int) returns (ok: bool)
      requires |emailSalt| == SaltLength && |passwordSalt| == SaltLength
      modifies this
      ensures (Snapshot(), ok) == StoreAuthCode(old(Snapshot()), kdf, code, clientId, email, password, emailSalt, passwordSalt, now)
    {
      if code in codes {
        return false;
      }
      codes := codes[code := CodeRecord(clientId, HashCredential(kdf, email, emailSalt), HashCredential(kdf, password, passwordSalt),
                                        now + CodeLifetime, false)];
      ok := true;
    }

    method ExchangeAuthCodeMethod(code: string, clientId: string, now: int) returns (r: Option<UserHashes>)
      modifies this
      ensures (Snapshot(), r) == ExchangeAuthCode(old(Snapshot()), code, clientId, now)
    {
      if code !in codes || codes[code].clientId != clientId {
        return None;
      }
      var row := codes[code];
      if row.used || now > row.expiresAt {
        return None;
      }
      codes := codes[code := row.(used := true)];
      r := Some(UserHashes(row.emailHash, row.passwordHash));
    }

    method StoreAccessTokenMethod(kdf: Kdf, token: string, clientId: string, emailHash: string, passwordHash: string,
                                  salt: seq<byte>, now: int) returns (ok: bool)
      requires |salt| == SaltLength
      modifies this
      ensures (Snapshot(), ok) == StoreAccessToken(old(Snapshot()), kdf, token, clientId, emailHash, passwordHash, salt, now)
    {
      var key := HashCredential(kdf, token, salt);
      if key in tokens {
        return false;
      }
      tokens := tokens[key := TokenRecord(clientId, emailHash, passwordHash, now + TokenLifetime)];
      ok := true;
    }

    method CleanupExpiredTokens(now: int)
      modifies this
      ensures Snapshot() == CleanupExpired(old(Snapshot()), now)
    {
      codes := map c | c in codes && !(codes[c].expiresAt < now) :: codes[c];
      tokens := map k | k in tokens && !(tokens[k].expiresAt < now) :: tokens[k];
    }
  }

  class SecureOAuthManager {
    const storage: SecureTokenStorage

    constructor (storage: SecureTokenStorage)
      ensures this.storage == storage
    {
      this.storage := storage;
    }

    method Register(kdf: Kdf, redirectUris: seq<string>, hex: string, secret: string, salt: seq<byte>, accepted: bool)
      returns (r: Result<Registration, Exc>)
      requires |salt| == SaltLength
      modifies storage
      ensures var expected := RegisterClient(old(storage.Snapshot()), kdf, redirectUris, hex, secret, salt, accepted);
        (expected.Ok? ==> storage.Snapshot() == expected.value.0 && r == Ok(expected.value.1))
        && (expected.Err? ==> storage.Snapshot() == old(storage.Snapshot()) && r == Err(expected.error))
    {
      var clientId := ClientIdPrefix + hex;
      var all := Dedup(redirectUris + DefaultRedirectUris);
      var ok := storage.StoreClientMethod(kdf, clientId, secret, all, salt, accepted);
      if ok {
        r := Ok(Registration(clientId, secret, all));
      } else {
        r := Err(Exc(ValueError, "Failed to register client"));
      }
    }

    method AuthorizeUser(kdf: Kdf, clientId: string, email: string, password: string, login: Login, code: string,
                         emailSalt: seq<byte>, passwordSalt: seq<byte>, now: int) returns (r: Result<string, Exc>)
      requires |emailSalt| == SaltLength && |passwordSalt| == SaltLength
      modifies storage
      ensures var expected := Authorize(old(storage.Snapshot()), kdf, clientId, email, password, login, code, emailSalt, passwordSalt, now);
        (expected.Ok? ==> storage.Snapshot() == expected.value.0 && r == Ok(expected.value.1))
        && (expected.Err? ==> storage.Snapshot() == old(storage.Snapshot()) && r == Err(expected.error))
    {
      match login {
        case MfaRequired =>
          return Err(Exc(ValueError, "MFA is required but not supported in OAuth flow"));
        case LoginFailed(e) =>
          return Err(Exc(ValueError, "Invalid credentials: " + e.message));
        case LoggedIn =>
          var ok := storage.StoreAuthCodeMethod(kdf, code, clientId, email, password, emailSalt, passwordSalt, now);
          if ok {
            r := Ok(code);
          } else {
            r := Err(Exc(ValueError, "Invalid credentials: Failed to store authorization code"));
          }
      }
    }

    method ExchangeCode(kdf: Kdf, code: string, clientId: string, secret: string, token: string, salt: seq<byte>, now: int)
      returns (r: Result<TokenGrant, Exc>)
      requires |salt| == SaltLength
      modifies storage
      ensures (storage.Snapshot(), r) == ExchangeCodeForToken(old(storage.Snapshot()), kdf, code, clientId, secret, token, salt, now)
    {
      var verified := storage.VerifyClientMethod(kdf, clientId, secret);
      if !verified {
        return Err(Exc(ValueError, "Invalid client credentials"));
      }
      var hashes := storage.ExchangeAuthCodeMethod(code, clientId, now);
      if hashes.None? {
        return Err(Exc(ValueError, "Invalid or expired authorization code"));
      }
      var ok := storage.StoreAccessTokenMethod(kdf, token, clientId, hashes.value.emailHash, hashes.value.passwordHash, salt, now);
      if ok {
        r := Ok(TokenGrant(token, "Bearer", TokenLifetime, TokenScope));
      } else {
        r := Err(Exc(ValueError, "Failed to create access token"));
      }
    }
  }
}
