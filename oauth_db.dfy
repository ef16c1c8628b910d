/**
 * The SQLite store of `api/oauth_db.py`: three tables keyed by client id,
 * authorization code and access token. Each table is a map from its primary
 * key to the row; `INSERT OR REPLACE` is a map update, `DELETE ... WHERE key`
 * a map removal. Times are seconds, and the clock reading is a parameter.
 */
module OAuthDb {
  import opened Wrappers
  import opened PyErrors
  import opened JsonText

  /** A row of `oauth_clients`: the redirect URIs are stored as JSON text. */
  datatype ClientRow = ClientRow(secret: string, redirectUrisJson: string, createdAt: int)

  /** What `get_oauth_client` returns: the row with its redirect URIs parsed back into a list. */
  datatype ClientInfo = ClientInfo(clientId: string, secret: string, redirectUris: seq<string>, createdAt: int)

  /** A row of `auth_codes`; the user columns may be NULL. */
  datatype CodeRow = CodeRow(clientId: string, email: Option<string>, password: Option<string>,
                             createdAt: int, expiresAt: int)

  /** A row of `access_tokens`. */
  datatype TokenRow = TokenRow(clientId: string, authCode: Option<string>, email: Option<string>,
                               password: Option<string>, createdAt: int, expiresAt: int)

  datatype Tables = Tables(clients: map<string, ClientRow>, codes: map<string, CodeRow>, tokens: map<string, TokenRow>)

  /** The default lifetimes of `store_auth_code` and `store_access_token`, in seconds. */
  const DefaultCodeLifetime: int := 600
  const DefaultTokenLifetime: int := 3600

  function StoreClient(t: Tables, clientId: string, secret: string, redirectUris: seq<string>, now: int): Tables {
    t.(clients := t.clients[clientId := ClientRow(secret, EncodeStringList(redirectUris), now)])
  }

  /** `json.loads` of a stored list that is not a JSON list of strings raises; no row this module writes is one. */
  function GetClient(t: Tables, clientId: string): Result<Option<ClientInfo>, Exc> {
    if clientId !in t.clients then Ok(None)
    else
      var row := t.clients[clientId];
      match DecodeStringList(row.redirectUrisJson)
        case None => Err(Exc(ValueError, "redirect_uris is not a JSON list of strings"))
        case Some(uris) => Ok(Some(ClientInfo(clientId, row.secret, uris, row.createdAt)))
  }

  function StoreCode(t: Tables, code: string, clientId: string, email: Option<string>, password: Option<string>,
                     expiresIn: int, now: int): Tables {
    t.(codes := t.codes[code := CodeRow(clientId, email, password, now, now + expiresIn)])
  }

  /** The row of a live code; an expired one is deleted as it is read. */
  function GetCode(t: Tables, code: string, now: int): (Tables, Option<CodeRow>) {
    if code !in t.codes then (t, None)
    else if now > t.codes[code].expiresAt then (t.(codes := t.codes - {code}), None)
    else (t, Some(t.codes[code]))
  }

  function DeleteCode(t: Tables, code: string): Tables {
    t.(codes := t.codes - {code})
  }

  function StoreToken(t: Tables, token: string, clientId: string, authCode: Option<string>, email: Option<string>,
                      password: Option<string>, expiresIn: int, now: int): Tables {
    t.(tokens := t.tokens[token := TokenRow(clientId, authCode, email, password, now, now + expiresIn)])
  }

  /** The row of a live token; an expired one is deleted as it is read. */
  function GetToken(t: Tables, token: string, now: int): (Tables, Option<TokenRow>) {
    if token !in t.tokens then (t, None)
    else if now > t.tokens[token].expiresAt then (t.(tokens := t.tokens - {token}), None)
    else (t, Some(t.tokens[token]))
  }

  /** `DELETE ... WHERE expires_at < now` on both tables that expire. */
  function Cleanup(t: Tables, now: int): Tables {
    t.(codes := map c | c in t.codes && t.codes[c].expiresAt >= now :: t.codes[c],
       tokens := map k | k in t.tokens && t.tokens[k].expiresAt >= now :: t.tokens[k])
  }

  /**
   * Storing a client replaces any row under that id; reading it back yields
   * the same secret and the same redirect-URI list, and every other client
   * reads as before.
   */
  lemma StoreClientRoundTrip(t: Tables, clientId: string, secret: string, redirectUris: seq<string>, now: int, other: string)
    requires other != clientId
    ensures GetClient(StoreClient(t, clientId, secret, redirectUris, now), clientId)
      == Ok(Some(ClientInfo(clientId, secret, redirectUris, now)))
    ensures GetClient(StoreClient(t, clientId, secret, redirectUris, now), other) == GetClient(t, other)
    ensures StoreClient(t, clientId, secret, redirectUris, now).codes == t.codes
    ensures StoreClient(t, clientId, secret, redirectUris, now).tokens == t.tokens
  {
    StringListRoundTrip(redirectUris);
  }

  /**
   * A stored code expires `expiresIn` seconds after it was stored: it is
   * returned unchanged up to and including that instant and not after; no
   * other code is affected by storing it.
   */
  lemma StoredCodeLifetime(t: Tables, code: string, clientId: string, email: Option<string>, password: Option<string>,
                           expiresIn: int, now: int, later: int, other: string)
    requires other != code
    ensures var t' := StoreCode(t, code, clientId, email, password, expiresIn, now);
      GetCode(t', code, later).1 == (if later <= now + expiresIn then Some(CodeRow(clientId, email, password, now, now + expiresIn)) else None)
      && (other in t'.codes <==> other in t.codes) && (other in t.codes ==> t'.codes[other] == t.codes[other])
      && t'.clients == t.clients && t'.tokens == t.tokens
  {
  }

  /** The same for tokens. */
  lemma StoredTokenLifetime(t: Tables, token: string, clientId: string, authCode: Option<string>, email: Option<string>,
                            password: Option<string>, expiresIn: int, now: int, later: int, other: string)
    requires other != token
    ensures var t' := StoreToken(t, token, clientId, authCode, email, password, expiresIn, now);
      GetToken(t', token, later).1
        == (if later <= now + expiresIn then Some(TokenRow(clientId, authCode, email, password, now, now + expiresIn)) else None)
      && (other in t'.tokens <==> other in t.tokens) && (other in t.tokens ==> t'.tokens[other] == t.tokens[other])
      && t'.clients == t.clients && t'.codes == t.codes
  {
  }

  /**
   * Reading a code changes the tables only by deleting that code, and only
   * when it has expired; a live code reads back exactly as stored.
   */
  lemma GetCodeEffect(t: Tables, code: string, now: int)
    ensures var (t', r) := GetCode(t, code, now);
      (r.Some? <==> code in t.codes && now <= t.codes[code].expiresAt)
      && (r.Some? ==> r.value == t.codes[code] && t' == t)
      && (r.None? ==> t' == DeleteCode(t, code))
  {
  }

  /** The same for tokens. */
  lemma GetTokenEffect(t: Tables, token: string, now: int)
    ensures var (t', r) := GetToken(t, token, now);
      (r.Some? <==> token in t.tokens && now <= t.tokens[token].expiresAt)
      && (r.Some? ==> r.value == t.tokens[token] && t' == t)
      && (r.None? ==> t'.tokens == t.tokens - {token} && t'.clients == t.clients && t'.codes == t.codes)
  {
  }

  /** Deleting removes that code and no other; deleting an absent code changes nothing. */
  lemma DeleteCodeOnly(t: Tables, code: string)
    ensures DeleteCode(t, code).codes.Keys == t.codes.Keys - {code}
    ensures forall c :: c in DeleteCode(t, code).codes ==> DeleteCode(t, code).codes[c] == t.codes[c]
    ensures code !in t.codes ==> DeleteCode(t, code) == t
  {
  }

  /**
   * Cleanup keeps exactly the codes and tokens that have not expired (at
   * `expires_at == now` an entry is kept) and never touches clients.
   */
  lemma CleanupKeepsLive(t: Tables, now: int)
    ensures forall c :: c in Cleanup(t, now).codes <==> c in t.codes && t.codes[c].expiresAt >= now
    ensures forall k :: k in Cleanup(t, now).tokens <==> k in t.tokens && t.tokens[k].expiresAt >= now
    ensures forall c :: c in Cleanup(t, now).codes ==> Cleanup(t, now).codes[c] == t.codes[c]
    ensures forall k :: k in Cleanup(t, now).tokens ==> Cleanup(t, now).tokens[k] == t.tokens[k]
    ensures Cleanup(t, now).clients == t.clients
  {
  }

  /** Cleaning up never changes what a read at the same instant returns. */
  lemma CleanupInvisibleToReads(t: Tables, now: int, code: string, token: string)
    ensures GetCode(Cleanup(t, now), code, now).1 == GetCode(t, code, now).1
    ensures GetToken(Cleanup(t, now), token, now).1 == GetToken(t, token, now).1
  {
  }

  /** The three tables as one mutable store. */
  class Database {
    var clients: map<string, ClientRow>
    var codes: map<string, CodeRow>
    var tokens: map<string, TokenRow>

    function Snapshot(): Tables
      reads this
    {
      Tables(clients, codes, tokens)
    }

    /** `init_db` on a fresh file: three empty tables. */
    constructor ()
      ensures Snapshot() == Tables(map[], map[], map[])
    {
      clients := map[];
      codes := map[];
      tokens := map[];
    }

    method StoreOAuthClient(clientId: string, secret: string, redirectUris: seq<string>, now: int)
      modifies this
      ensures Snapshot() == StoreClient(old(Snapshot()), clientId, secret, redirectUris, now)
    {
      clients := clients[clientId := ClientRow(secret, EncodeStringList(redirectUris), now)];
    }

    method GetOAuthClient(clientId: string) returns (r: Result<Option<ClientInfo>, Exc>)
      ensures r == GetClient(Snapshot(), clientId)
    {
      if clientId !in clients {
        return Ok(None);
      }
      var row := clients[clientId];
      var uris := DecodeStringList(row.redirectUrisJson);
      if uris.None? {
        return Err(Exc(ValueError, "redirect_uris is not a JSON list of strings"));
      }
      return Ok(Some(ClientInfo(clientId, row.secret, uris.value, row.createdAt)));
    }

    method StoreAuthCode(code: string, clientId: string, email: Option<string>, password: Option<string>,
                         expiresIn: int, now: int)
      modifies this
      ensures Snapshot() == StoreCode(old(Snapshot()), code, clientId, email, password, expiresIn, now)
    {
      codes := codes[code := CodeRow(clientId, email, password, now, now + expiresIn)];
    }

    method GetAuthCode(code: string, now: int) returns (r: Option<CodeRow>)
      modifies this
      ensures (Snapshot(), r) == GetCode(old(Snapshot()), code, now)
    {
      if code !in codes {
        return None;
      }
      if now > codes[code].expiresAt {
        codes := codes - {code};
        return None;
      }
      return Some(codes[code]);
    }

    method DeleteAuthCode(code: string)
      modifies this
      ensures Snapshot() == DeleteCode(old(Snapshot()), code)
    {
      codes := codes - {code};
    }

    method StoreAccessToken(token: string, clientId: string, authCode: Option<string>, email: Option<string>,
                            password: Option<string>, expiresIn: int, now: int)
      modifies this
      ensures Snapshot() == StoreToken(old(Snapshot()), token, clientId, authCode, email, password, expiresIn, now)
    {
      tokens := tokens[token := TokenRow(clientId, authCode, email, password, now, now + expiresIn)];
    }

    method GetAccessToken(token: string, now: int) returns (r: Option<TokenRow>)
      modifies this
      ensures (Snapshot(), r) == GetToken(old(Snapshot()), token, now)
    {
      if token !in tokens {
        return None;
      }
      if now > tokens[token].expiresAt {
        tokens := tokens - {token};
        return None;
      }
      return Some(tokens[token]);
    }

    method CleanupExpiredTokens(now: int)
      modifies this
      ensures Snapshot() == Cleanup(old(Snapshot()), now)
    {
      codes := map c | c in codes && codes[c].expiresAt >= now :: codes[c];
      tokens := map k | k in tokens && tokens[k].expiresAt >= now :: tokens[k];
    }
  }
}
