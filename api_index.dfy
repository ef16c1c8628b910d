/**
 * The HTTP API of `api/index.py`: an API-key check, then one endpoint per
 * Monarch Money data call. Every handler folds its own failures into a
 * `success: false` result, which is still answered with status 200.
 */
module ApiIndex {
  import opened Wrappers
  import opened Strings
  import opened PyJson
  import opened PyErrors
  import opened Dates
  import opened Monarch
  import opened Serverless

  /** The environment the module reads once: `API_KEY`, `MONARCH_EMAIL`, `MONARCH_PASSWORD`. */
  datatype Config = Config(apiKey: Option<string>, email: Option<string>, password: Option<string>)

  const MaxLimit: int := 1000
  const DefaultLimit: int := 100

  const Cors: seq<(string, string)> := [
    ("Content-Type", "application/json"),
    ("Access-Control-Allow-Origin", "*"),
    ("Access-Control-Allow-Methods", "GET, POST, OPTIONS"),
    ("Access-Control-Allow-Headers", "Content-Type, X-API-Key")]

  // ------------------------------------------------------------------ API key

  predicate Ascii(s: string) {
    forall i :: 0 <= i < |s| ==> s[i] as int < 128
  }

  /** The presented key: the lower-case header when it is non-empty, else the mixed-case one, else "". */
  function ProvidedKey(headers: seq<(string, string)>): string {
    var lower := StrGet(headers, "x-api-key", "");
    if lower != "" then lower else StrGet(headers, "X-API-Key", "")
  }

  /**
   * `verify_api_key`. `hmac.compare_digest` raises `TypeError` on a text
   * with a non-ASCII character.
   */
  function VerifyApiKey(apiKey: Option<string>, headers: seq<(string, string)>): (r: Result<bool, Exc>)
    ensures !Given(apiKey) || ProvidedKey(headers) == "" ==> r == Ok(false)
    ensures r == Ok(true) <==> Given(apiKey) && ProvidedKey(headers) == apiKey.value && Ascii(apiKey.value)
    ensures r.Err? ==> !Ascii(ProvidedKey(headers)) || !Ascii(apiKey.value)
  {
    if !Given(apiKey) then Ok(false)
    else
      var provided := ProvidedKey(headers);
      if provided == "" then Ok(false)
      else if !Ascii(provided) || !Ascii(apiKey.value) then
        Err(Exc(TypeError, "comparing strings with non-ASCII characters is not supported"))
      else Ok(provided == apiKey.value)
  }

  /** The lower-case header is the one compared whenever it is set, whatever the other holds. */
  lemma LowerCaseHeaderFirst(apiKey: string, lower: string, upper: string)
    requires apiKey != [] && lower != []
    ensures var headers := [("X-API-Key", upper), ("x-api-key", lower)];
      VerifyApiKey(Some(apiKey), headers).Ok? ==> (VerifyApiKey(Some(apiKey), headers).value <==> lower == apiKey)
  {
    var headers := [("X-API-Key", upper), ("x-api-key", lower)];
    assert StrGet(headers[1..], "x-api-key", "") == lower;
  }

  // -------------------------------------------------------------------- client

  const AuthError: Kind := Other("AuthError")

  /** `get_monarch_client`: missing credentials are a `ValueError`, a failed login an `AuthError`. */
  function Client(cfg: Config, login: Login): (r: Result<(), Exc>)
    ensures r.Ok? <==> Given(cfg.email) && Given(cfg.password) && login == LoggedIn
    ensures !Given(cfg.email) || !Given(cfg.password) ==> r == Err(Exc(ValueError, "Monarch credentials not configured"))
    ensures Given(cfg.email) && Given(cfg.password) && r.Err? ==> r.error.kind == AuthError
  {
    if !Given(cfg.email) || !Given(cfg.password) then Err(Exc(ValueError, "Monarch credentials not configured"))
    else match login
      case LoggedIn => Ok(())
      case MfaRequired => Err(Exc(AuthError, "MFA required but not configured"))
      case LoginFailed(e) => Err(Exc(AuthError, "Authentication failed: " + e.message))
  }

  // ------------------------------------------------------------------ handlers

  function Failure(error: string, code: string): Json {
    JObject([("success", JBool(false)), ("error", JStr(error)), ("code", JStr(code))])
  }

  /** A result that reports success: a dict whose first entry is `success: True`. */
  predicate Succeeds(v: Json) {
    v.JObject? && |v.fields| >= 1 && v.fields[0] == ("success", JBool(true))
  }

  /** A `success: False` result carrying the given error code. */
  predicate FailsWith(v: Json, code: string) {
    v.JObject? && |v.fields| == 3 && v.fields[0] == ("success", JBool(false)) && v.fields[2] == ("code", JStr(code))
  }

  /** The `except AuthError` / `except Exception` pair every handler ends with. */
  function Caught(e: Exc, what: string): Json {
    if e.kind == AuthError then Failure(e.message, "AUTH_ERROR") else Failure("Failed to fetch " + what, "FETCH_ERROR")
  }

  function Count(v: Json): Result<Json, Exc> {
    var items :- Elements(v);
    Ok(JInt(|items|))
  }

  function AccountsData(cfg: Config, login: Login, b: Backend): Result<Json, Exc> {
    var _ :- Client(cfg, login);
    var result :- b.accounts;
    var accounts :- Get(result, "accounts", JArray([]));
    var count :- Count(accounts);
    Ok(JObject([("success", JBool(true)), ("data", accounts), ("count", count)]))
  }

  /**
   * `handle_get_accounts`: a successful result exactly when the fetch works;
   * otherwise `AUTH_ERROR` for a login failure and `FETCH_ERROR` for anything else.
   */
  function Accounts(cfg: Config, login: Login, b: Backend): (r: Json)
    ensures Succeeds(r) <==> AccountsData(cfg, login, b).Ok?
    ensures AccountsData(cfg, login, b).Err? ==>
      if AccountsData(cfg, login, b).error.kind == AuthError then FailsWith(r, "AUTH_ERROR") else FailsWith(r, "FETCH_ERROR")
  {
    match AccountsData(cfg, login, b)
      case Ok(v) => v
      case Err(e) => Caught(e, "accounts")
  }

  /**
   * `min(int(params.get("limit", 100)), 1000)`: the smaller of the given
   * limit and 1000, 100 when absent. It fails exactly when `int()` does,
   * with its error, and with `AttributeError` when the parameters are not a
   * dict.
   */
  function LimitParam(params: Json): (r: Result<int, Exc>)
    ensures r.Ok? ==> r.value <= MaxLimit
    ensures params == JObject([]) ==> r == Ok(DefaultLimit)
    ensures !params.JObject? ==> r.Err? && r.error.kind == AttributeError
    ensures params.JObject? ==>
      var n := IntOfJson(GetOr(params.fields, "limit", JInt(DefaultLimit)));
      (r.Ok? <==> n.Ok?) && (n.Err? ==> r.error == n.error)
      && (r.Ok? ==> r.value <= n.value && (r.value == n.value || r.value == MaxLimit))
  {
    var arg :- Get(params, "limit", JInt(DefaultLimit));
    var n :- IntOfJson(arg);
    Ok(if n < MaxLimit then n else MaxLimit)
  }

  /** `str(d) if d else None` for a parsed date. */
  function DateJson(d: Option<Date>): Json
    requires d.Some? ==> Valid(d.value)
  {
    if d.Some? then JStr(IsoFormat(d.value)) else JNull
  }

  function TransactionsData(params: Json, cfg: Config, login: Login, b: Backend, strptime: DateParser): Result<Json, Exc> {
    var _ :- Client(cfg, login);
    var start :- Get(params, "start_date", JNull);
    var end :- Get(params, "end_date", JNull);
    var limit :- LimitParam(params);
    TransactionsFetched(start, end, limit, b, strptime)
  }

  /** `result.get('allTransactions', {}).get('results', [])`. */
  function Results(result: Json): Result<Json, Exc> {
    var all :- Get(result, "allTransactions", JObject([]));
    Get(all, "results", JArray([]))
  }

  /**
   * The dates parsed, the client asked for that limit and those dates, and
   * the reply built around its results and the limit that was used.
   */
  function TransactionsFetched(start: Json, end: Json, limit: int, b: Backend, strptime: DateParser): (r: Result<Json, Exc>)
    ensures r.Ok? ==>
      DateArgument(start, strptime).Ok? && DateArgument(end, strptime).Ok?
      && var q := TxQuery(limit, DateArgument(start, strptime).value, DateArgument(end, strptime).value, None);
      b.transactions(q).Ok? && Results(b.transactions(q).value).Ok?
      && r.value.JObject? && |r.value.fields| == 4 && r.value.fields[1] == ("data", Results(b.transactions(q).value).value)
      && r.value.fields[3].1.JObject?
      && |r.value.fields[3].1.fields| == 3 && r.value.fields[3].1.fields[2] == ("limit", JInt(limit))
  {
    var parsedStart :- DateArgument(start, strptime);
    var parsedEnd :- DateArgument(end, strptime);
    var result :- b.transactions(TxQuery(limit, parsedStart, parsedEnd, None));
    var txs :- Results(result);
    var count :- Count(txs);
    Ok(JObject([("success", JBool(true)), ("data", txs), ("count", count),
                ("parameters", JObject([("start_date", DateJson(parsedStart)), ("end_date", DateJson(parsedEnd)),
                                        ("limit", JInt(limit))]))]))
  }

  /**
   * `handle_get_transactions`: a successful result exactly when the fetch
   * works; a login failure is `AUTH_ERROR`, a `ValueError` (a bad limit or
   * date, or missing credentials) `INVALID_PARAMS`, anything else `FETCH_ERROR`.
   */
  function Transactions(params: Json, cfg: Config, login: Login, b: Backend, strptime: DateParser): (r: Json)
    ensures Succeeds(r) <==> TransactionsData(params, cfg, login, b, strptime).Ok?
    ensures var d := TransactionsData(params, cfg, login, b, strptime);
      d.Err? ==>
        if d.error.kind == AuthError then FailsWith(r, "AUTH_ERROR")
        else if IsValueError(d.error) then FailsWith(r, "INVALID_PARAMS")
        else FailsWith(r, "FETCH_ERROR")
  {
    match TransactionsData(params, cfg, login, b, strptime)
      case Ok(v) => v
      case Err(e) =>
        if e.kind == AuthError then Failure(e.message, "AUTH_ERROR")
        else if IsValueError(e) then Failure("Invalid parameters: " + e.message, "INVALID_PARAMS")
        else Failure("Failed to fetch transactions", "FETCH_ERROR")
  }

  function BudgetsData(cfg: Config, login: Login, b: Backend): Result<Json, Exc> {
    var _ :- Client(cfg, login);
    var result :- b.budgets;
    Ok(JObject([("success", JBool(true)), ("data", result),
                ("count", JInt(if result.JArray? then |result.items| else 1))]))
  }

  /** `handle_get_budgets`, with the same two failure codes as the accounts endpoint. */
  function Budgets(cfg: Config, login: Login, b: Backend): (r: Json)
    ensures Succeeds(r) <==> BudgetsData(cfg, login, b).Ok?
    ensures BudgetsData(cfg, login, b).Err? ==>
      if BudgetsData(cfg, login, b).error.kind == AuthError then FailsWith(r, "AUTH_ERROR") else FailsWith(r, "FETCH_ERROR")
  {
    match BudgetsData(cfg, login, b)
      case Ok(v) => v
      case Err(e) => Caught(e, "budgets")
  }

  /**
   * The dates `handle_get_spending_plan` asks for, as written: the end
   * month is `month + 1` below December and 1 in December, in the same
   * year.
   */
  function PlanDatesAsWritten(today: Date): (r: Result<(Date, Date), Exc>)
    ensures r.Ok? ==> r.value.0 == Date(today.year, today.month, 1) && 1 <= today.month <= 12
  {
    var start :- MakeDate(today.year, today.month, 1);
    var end :- MakeDate(today.year, if today.month < 12 then today.month + 1 else 1, 1);
    Ok((start, end))
  }

  /** The dates of the current month, with December rolling over into the next year. */
  function PlanDates(today: Date): (r: Result<(Date, Date), Exc>)
    ensures r.Ok? ==> r.value.0 == Date(today.year, today.month, 1) && 1 <= today.month <= 12
  {
    MonthRangeCovers(today.year, today.month);
    MonthRange(today.year, today.month)
  }

  /** The body of `handle_get_spending_plan` once the range to ask for is known. */
  function SpendingPlanFetch(cfg: Config, login: Login, b: Backend, range: Result<(Date, Date), Exc>)
    : Result<Json, Exc>
    requires range.Ok? ==> range.value.0.month >= 1
  {
    var _ :- Client(cfg, login);
    var (start, end) :- range;
    var result :- b.spendingPlan(start, end);
    Ok(JObject([("success", JBool(true)), ("data", result),
                ("month", JStr(IntToDecimal(start.year) + "-" + ZeroPad(start.month, 2)))]))
  }

  /** `handle_get_spending_plan` as written, with the backward December range. */
  function SpendingPlanDataAsWritten(cfg: Config, login: Login, b: Backend, today: Date): Result<Json, Exc> {
    SpendingPlanFetch(cfg, login, b, PlanDatesAsWritten(today))
  }

  /** `handle_get_spending_plan` asking for the corrected range. */
  function SpendingPlanData(cfg: Config, login: Login, b: Backend, today: Date): Result<Json, Exc> {
    SpendingPlanFetch(cfg, login, b, PlanDates(today))
  }

  /** `handle_get_spending_plan` as written, with its two failure codes. */
  function SpendingPlan(cfg: Config, login: Login, b: Backend, today: Date): (r: Json)
    ensures Succeeds(r) <==> SpendingPlanDataAsWritten(cfg, login, b, today).Ok?
    ensures SpendingPlanDataAsWritten(cfg, login, b, today).Err? ==>
      if SpendingPlanDataAsWritten(cfg, login, b, today).error.kind == AuthError then FailsWith(r, "AUTH_ERROR")
      else FailsWith(r, "FETCH_ERROR")
  {
    match SpendingPlanDataAsWritten(cfg, login, b, today)
      case Ok(v) => v
      case Err(e) => Caught(e, "spending plan")
  }

  // ------------------------------------------------------------------- routing

  const Unauthorized: Json := JObject([("success", JBool(false)), ("error", JStr("Invalid or missing API key")),
                                       ("code", JStr("UNAUTHORIZED"))])
  const InvalidJson: Json := JObject([("success", JBool(false)), ("error", JStr("Invalid JSON in request body")),
                                      ("code", JStr("INVALID_JSON"))])
  const Endpoints: Json := JArray([JStr("/api/accounts"), JStr("/api/transactions"), JStr("/api/budgets"),
                                   JStr("/api/spending-plan")])
  const Index: Json := JObject([("success", JBool(true)), ("service", JStr("Monarch Money MCP API")),
                                ("version", JStr("1.0.0")), ("endpoints", Endpoints)])

  /**
   * The query parameters of a GET, the parsed body of a non-empty POST,
   * `{}` otherwise; `None` exactly for a non-empty POST body that is not JSON.
   */
  function Params(e: Event, loads: Loads): (r: Option<Json>)
    ensures r.None? <==> Method(e) == "POST" && e.body.Some? && e.body.value != "" && loads(e.body.value).None?
    ensures Method(e) == "GET" ==> r == Some(QueryObject(e))
    ensures Method(e) == "POST" && e.body.Some? && e.body.value != "" ==> r == loads(e.body.value)
    ensures Method(e) != "GET" && (Method(e) != "POST" || e.body.None? || e.body.value == "") ==> r == Some(JObject([]))
  {
    if Method(e) == "GET" then Some(QueryObject(e))
    else if Method(e) == "POST" && e.body.Some? && e.body.value != "" then loads(e.body.value)
    else Some(JObject([]))
  }

  /**
   * The endpoint a stripped path names, and its result: every endpoint
   * answers with a dict that opens with its `success` flag.
   */
  function Route(path: string, params: Json, cfg: Config, login: Login, b: Backend, strptime: DateParser, today: Date)
    : (r: Option<Json>)
    ensures r.Some? ==> r.value.JObject? && |r.value.fields| >= 1 && r.value.fields[0].0 == "success"
  {
    if path == "api" || path == "" then Some(Index)
    else if path == "api/accounts" then Some(Accounts(cfg, login, b))
    else if path == "api/transactions" then Some(Transactions(params, cfg, login, b, strptime))
    else if path == "api/budgets" then Some(Budgets(cfg, login, b))
    else if path == "api/spending-plan" then Some(SpendingPlan(cfg, login, b, today))
    else None
  }

  /**
   * `handle_request`. An exception from the key comparison is not caught
   * and escapes the handler (`Err`).
   */
  function HandleRequest(e: Event, cfg: Config, login: Login, b: Backend, strptime: DateParser, loads: Loads,
                         today: Date): (r: Result<Response, Exc>)
    ensures r.Ok? ==> r.value.status in {200, 400, 401, 404}
    ensures r.Err? ==> e.httpMethod != Some("OPTIONS") && VerifyApiKey(cfg.apiKey, e.headers).Err?
  {
    if e.httpMethod == Some("OPTIONS") then Ok(Response(200, Cors, NoBody))
    else
      var ok :- VerifyApiKey(cfg.apiKey, e.headers);
      if !ok then Ok(Response(401, Cors, JsonBody(Unauthorized)))
      else
        var path := StripChar(Path(e), '/');
        match Params(e, loads)
          case None => Ok(Response(400, Cors, JsonBody(InvalidJson)))
          case Some(params) =>
            match Route(path, params, cfg, login, b, strptime, today)
              case Some(result) => Ok(Response(200, Cors, JsonBody(result)))
              case None => Ok(Response(404, Cors, JsonBody(Failure("Unknown endpoint: " + path, "NOT_FOUND"))))
  }

  // -------------------------------------------------------------- properties

  /** A preflight is answered before the key is looked at, whatever the key and the path. */
  lemma PreflightNeedsNoKey(e: Event, cfg: Config, login: Login, b: Backend, strptime: DateParser, loads: Loads,
                            today: Date)
    requires e.httpMethod == Some("OPTIONS")
    ensures HandleRequest(e, cfg, login, b, strptime, loads, today) == Ok(Response(200, Cors, NoBody))
  {
  }

  /**
   * Without a configured key or a presented one every request but a
   * preflight is refused with 401, whatever its path; with a valid key the
   * status is 200 for the five known paths, 400 for a body that is not
   * JSON, and 404 for anything else.
   */
  lemma Statuses(e: Event, cfg: Config, login: Login, b: Backend, strptime: DateParser, loads: Loads, today: Date)
    requires e.httpMethod != Some("OPTIONS")
    ensures !Given(cfg.apiKey) || ProvidedKey(e.headers) == "" ==>
      HandleRequest(e, cfg, login, b, strptime, loads, today) == Ok(Response(401, Cors, JsonBody(Unauthorized)))
    ensures var r := HandleRequest(e, cfg, login, b, strptime, loads, today);
      VerifyApiKey(cfg.apiKey, e.headers) == Ok(true) ==>
        r.Ok? && r.value.status in {200, 400, 404}
        && (r.value.status == 400 <==> Params(e, loads).None?)
        && (Params(e, loads).Some? ==>
              (r.value.status == 404 <==> Route(StripChar(Path(e), '/'), Params(e, loads).value, cfg, login, b, strptime, today).None?))
  {
  }

  const Paths: set<string> := {"", "api", "api/accounts", "api/transactions", "api/budgets", "api/spending-plan"}

  /** The router answers exactly the six known paths; "" and "api" list the endpoints. */
  lemma KnownPaths(path: string, params: Json, cfg: Config, login: Login, b: Backend, strptime: DateParser, today: Date)
    ensures Route(path, params, cfg, login, b, strptime, today).Some? <==> path in Paths
    ensures path == "" || path == "api" ==> Route(path, params, cfg, login, b, strptime, today) == Some(Index)
  {
  }

  /**
   * A handler failure is still a result: a failed login is reported as
   * `AUTH_ERROR` by every data endpoint.
   */
  lemma LoginFailuresAreResults(cfg: Config, e: Exc, params: Json, b: Backend, strptime: DateParser, today: Date)
    requires Given(cfg.email) && Given(cfg.password)
    ensures Accounts(cfg, LoginFailed(e), b) == Failure("Authentication failed: " + e.message, "AUTH_ERROR")
    ensures Transactions(params, cfg, LoginFailed(e), b, strptime) == Failure("Authentication failed: " + e.message, "AUTH_ERROR")
    ensures Budgets(cfg, MfaRequired, b) == Failure("MFA required but not configured", "AUTH_ERROR")
    ensures SpendingPlan(cfg, MfaRequired, b, today) == Failure("MFA required but not configured", "AUTH_ERROR")
  {
  }

  /**
   * Missing credentials are a `ValueError` and no `AuthError`: the
   * transactions endpoint reports them as invalid parameters and the others
   * as a failed fetch.
   */
  lemma MissingCredentialsResults(cfg: Config, login: Login, params: Json, b: Backend, strptime: DateParser)
    requires !Given(cfg.email)
    ensures Transactions(params, cfg, login, b, strptime)
      == Failure("Invalid parameters: " + "Monarch credentials not configured", "INVALID_PARAMS")
    ensures Accounts(cfg, login, b) == Failure("Failed to fetch " + "accounts", "FETCH_ERROR")
  {
  }

  /**
   * A successful reply comes from asking the client for `LimitParam`'s
   * limit, at most 1000, and the two parsed dates: its data are that
   * answer's results and its parameters repeat the limit.
   */
  lemma TransactionsLimit(params: Json, cfg: Config, login: Login, b: Backend, strptime: DateParser)
    requires TransactionsData(params, cfg, login, b, strptime).Ok?
    ensures params.JObject? && LimitParam(params).Ok? && LimitParam(params).value <= MaxLimit
    ensures var start := DateArgument(GetOr(params.fields, "start_date", JNull), strptime);
      var end := DateArgument(GetOr(params.fields, "end_date", JNull), strptime);
      start.Ok? && end.Ok?
      && var q := TxQuery(LimitParam(params).value, start.value, end.value, None);
      var fields := TransactionsData(params, cfg, login, b, strptime).value.fields;
      b.transactions(q).Ok? && Results(b.transactions(q).value).Ok?
      && fields[1] == ("data", Results(b.transactions(q).value).value)
      && fields[3].1.fields[2] == ("limit", JInt(LimitParam(params).value))
  {
  }

  /** A limit given as the text of a number `n` is `min(n, 1000)`: `"50"` gives 50 and `"5000"` gives 1000. */
  lemma LimitOfText(n: int)
    ensures LimitParam(JObject([("limit", JStr(IntToDecimal(n)))])) == Ok(if n < MaxLimit then n else MaxLimit)
  {
    PyIntRoundTrip(n);
  }

  /**
   * Once the client exists, a limit `int()` rejects with a `ValueError` is
   * reported as invalid parameters, with that error's message.
   */
  lemma BadLimitIsInvalid(params: Json, cfg: Config, login: Login, b: Backend, strptime: DateParser)
    requires Client(cfg, login).Ok? && params.JObject?
    requires var n := IntOfJson(GetOr(params.fields, "limit", JInt(DefaultLimit))); n.Err? && IsValueError(n.error)
    ensures Transactions(params, cfg, login, b, strptime)
      == Failure("Invalid parameters: " + IntOfJson(GetOr(params.fields, "limit", JInt(DefaultLimit))).error.message,
                 "INVALID_PARAMS")
  {
  }

  /**
   * With a good limit, a start date, or else an end date, that `strptime`
   * rejects with a `ValueError` is reported as invalid parameters, with that
   * error's message; the client is not asked.
   */
  lemma BadDateIsInvalid(params: Json, cfg: Config, login: Login, b: Backend, strptime: DateParser)
    requires Client(cfg, login).Ok? && params.JObject? && LimitParam(params).Ok?
    requires var start := DateArgument(GetOr(params.fields, "start_date", JNull), strptime);
      var end := DateArgument(GetOr(params.fields, "end_date", JNull), strptime);
      (start.Err? && IsValueError(start.error)) || (start.Ok? && end.Err? && IsValueError(end.error))
    ensures var start := DateArgument(GetOr(params.fields, "start_date", JNull), strptime);
      var end := DateArgument(GetOr(params.fields, "end_date", JNull), strptime);
      Transactions(params, cfg, login, b, strptime)
        == Failure("Invalid parameters: " + (if start.Err? then start.error.message else end.error.message), "INVALID_PARAMS")
  {
  }

  /** As written, in December the end date falls before the start date: January of the same year. */
  lemma DecemberEndsBeforeStart(today: Date)
    requires Valid(today) && today.month == 12
    ensures PlanDatesAsWritten(today) == Ok((Date(today.year, 12, 1), Date(today.year, 1, 1)))
    ensures Lt(PlanDatesAsWritten(today).value.1, PlanDatesAsWritten(today).value.0)
  {
  }

  /** As written, in December the backend is asked for December 1 to January 1 of the same year. */
  lemma SpendingPlanDecemberAsWritten(cfg: Config, login: Login, b: Backend, today: Date)
    requires Valid(today) && today.month == 12 && Client(cfg, login).Ok?
    ensures var plan := b.spendingPlan(Date(today.year, 12, 1), Date(today.year, 1, 1));
      var r := SpendingPlanDataAsWritten(cfg, login, b, today);
      (r.Ok? <==> plan.Ok?) && (r.Ok? ==> r.value.fields[1] == ("data", plan.value))
  {
    DecemberEndsBeforeStart(today);
  }

  /** Corrected, the backend is asked for the current month's range, and the data is what it returns. */
  lemma SpendingPlanFetchesMonth(cfg: Config, login: Login, b: Backend, today: Date)
    requires Valid(today) && today.year < MaxYear && Client(cfg, login).Ok?
    ensures PlanDates(today).Ok?
    ensures var plan := b.spendingPlan(PlanDates(today).value.0, PlanDates(today).value.1);
      var r := SpendingPlanData(cfg, login, b, today);
      (r.Ok? <==> plan.Ok?) && (r.Ok? ==> r.value.fields[1] == ("data", plan.value))
  {
    MonthRangeCovers(today.year, today.month);
  }

  /** Outside December the handler as written and the corrected one agree. */
  lemma SpendingPlanAgreesBeforeDecember(cfg: Config, login: Login, b: Backend, today: Date)
    requires Valid(today) && today.month < 12
    ensures SpendingPlanDataAsWritten(cfg, login, b, today) == SpendingPlanData(cfg, login, b, today)
  {
    MonthRangeCovers(today.year, today.month);
  }

  /**
   * The corrected range holds exactly the days of the current month, and
   * agrees with the code as written in every month but December.
   */
  lemma PlanDatesCoverMonth(today: Date)
    requires Valid(today) && today.year < MaxYear
    ensures PlanDates(today).Ok?
    ensures forall d :: Valid(d) ==>
      (Le(PlanDates(today).value.0, d) && Lt(d, PlanDates(today).value.1) <==> d.year == today.year && d.month == today.month)
    ensures today.month < 12 ==> PlanDatesAsWritten(today) == PlanDates(today)
  {
    MonthRangeCovers(today.year, today.month);
  }
}
