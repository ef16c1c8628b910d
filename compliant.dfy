/**
 * The MCP server of `mcp_server_compliant.py`: configuration checks, the
 * five-tool list, the pydantic request models that validate tool arguments,
 * the `call_tool` router, and the handlers that turn Monarch Money data into
 * text. A failure reaches the MCP client as an `McpError`: a JSON-RPC error
 * code with a message.
 */
module Compliant {
  import opened Wrappers
  import opened Strings
  import opened PyJson
  import opened PyErrors
  import opened Dates
  import opened Summary
  import opened Monarch
  import opened Mcp

  datatype McpError = McpError(code: int, message: string)

  // ---------------------------------------------------------------- tool list

  const DatePattern: Json := JStr("^\\d{4}-\\d{2}-\\d{2}$")

  const StartDate: (string, Json) := ("start_date", Property("string", "Start date in YYYY-MM-DD format", [("pattern", DatePattern)]))
  const EndDate: (string, Json) := ("end_date", Property("string", "End date in YYYY-MM-DD format", [("pattern", DatePattern)]))
  const Limit: (string, Json) :=
    ("limit", Property("integer", "Maximum number of transactions (1-1000)",
                       [("minimum", JInt(1)), ("maximum", JInt(1000)), ("default", JInt(100))]))

  const TransactionsTool: ToolSpec :=
    ToolSpec("get_transactions",
             "Get Monarch Money transactions with optional filtering. Supports date range filtering, account-specific queries, and pagination.",
             [StartDate, EndDate, Limit, ("account_id", Property("string", "Optional account ID to filter transactions", []))],
             [])

  const AccountHistoryTool: ToolSpec :=
    ToolSpec("get_account_history", "Get balance history for a specific account. Returns historical balance data over time.",
             [("account_id", Property("string", "Account ID to get history for", [])), StartDate, EndDate],
             ["account_id"])

  lemma TransactionsToolWellFormed()
    ensures WellFormedTool(TransactionsTool)
    ensures Lookup(TransactionsTool.properties, "limit") == Some(Limit.1)
  {
    LookupAt(TransactionsTool.properties, 2, "limit");
  }

  lemma AccountHistoryToolWellFormed()
    ensures WellFormedTool(AccountHistoryTool)
  {
  }

  /** The schema of the limit: between 1 and 1000, 100 by default, as the request model enforces. */
  lemma LimitSchema()
    ensures Lookup(Limit.1.fields, "minimum") == Some(JInt(MinLimit))
    ensures Lookup(Limit.1.fields, "maximum") == Some(JInt(MaxLimit))
    ensures Lookup(Limit.1.fields, "default") == Some(JInt(DefaultLimit))
  {
    LookupAt(Limit.1.fields, 2, "minimum");
    LookupAt(Limit.1.fields, 3, "maximum");
    LookupAt(Limit.1.fields, 4, "default");
  }

  const AccountsTool: ToolSpec :=
    ToolSpec("get_accounts",
             "Get all Monarch Money accounts with balances and details. Returns comprehensive account information including current balances, account types, and institution details.",
             [], [])

  const BudgetsTool: ToolSpec :=
    ToolSpec("get_budgets", "Get Monarch Money budget information and categories. Returns budget data and spending categories.",
             [], [])

  const SpendingPlanTool: ToolSpec :=
    ToolSpec("get_spending_plan",
             "Get spending plan for a specific month. Returns detailed spending plan information and budget allocations.",
             [("month", Property("string", "Month in YYYY-MM format (defaults to current month)", [("pattern", JStr("^\\d{4}-\\d{2}$"))]))],
             [])

  lemma SpendingPlanToolWellFormed()
    ensures WellFormedTool(SpendingPlanTool)
  {
  }

  /** `list_tools`. */
  function Tools(): (tools: seq<ToolSpec>)
    ensures FiveTools(tools)
    ensures Lookup(tools[1].properties, "limit") == Some(Limit.1)
  {
    TransactionsToolWellFormed();
    AccountHistoryToolWellFormed();
    SpendingPlanToolWellFormed();
    [AccountsTool, TransactionsTool, BudgetsTool, SpendingPlanTool, AccountHistoryTool]
  }

  // ----------------------------------------------------------- request models

  const DefaultLimit: int := 100
  const MinLimit: int := 1
  const MaxLimit: int := 1000

  datatype TransactionsRequest = TransactionsRequest(startDate: Option<string>, endDate: Option<string>, limit: int,
                                                     accountId: Option<string>)
  datatype AccountHistoryRequest = AccountHistoryRequest(accountId: string, startDate: Option<string>, endDate: Option<string>)

  /**
   * The `ValidationError` a model raises, naming the fields that failed in
   * the order the model declares them; it is a `ValueError`.
   */
  function ValidationError(model: string, failed: seq<string>): Exc {
    Exc(ValueError, "validation error for " + model + ": " + JoinComma(failed))
  }

  /** An `Optional[str]` field: absent or null is `None`, a string is kept, anything else fails (outer `None`). */
  function TextField(args: seq<(string, Json)>, key: string): Option<Option<string>> {
    match Lookup(args, key)
      case None => Some(None)
      case Some(JNull) => Some(None)
      case Some(JStr(s)) => Some(Some(s))
      case Some(_) => None
  }

  /** A date field: an optional string that, when present, must parse as `%Y-%m-%d`. */
  function DateField(args: seq<(string, Json)>, key: string, strptime: DateParser): Option<Option<string>> {
    match TextField(args, key)
      case Some(Some(s)) => if strptime(s).Ok? then Some(Some(s)) else None
      case other => other
  }

  /** The request model's limit: 100 by default, refused outside 1..1000. */
  function LimitField(args: seq<(string, Json)>): Option<int> {
    match Lookup(args, "limit")
      case None => Some(DefaultLimit)
      case Some(v) =>
        match ToInt(v)
          case Some(i) => if MinLimit <= i <= MaxLimit then Some(i) else None
          case None => None
  }

  function Failed(name: string, ok: bool): seq<string> {
    if ok then [] else [name]
  }

  /** `GetTransactionsRequest(**arguments)`. */
  function NewTransactionsRequest(args: seq<(string, Json)>, strptime: DateParser): Result<TransactionsRequest, Exc> {
    var start := DateField(args, "start_date", strptime);
    var end := DateField(args, "end_date", strptime);
    var limit := LimitField(args);
    var account := TextField(args, "account_id");
    var failed := Failed("start_date", start.Some?) + Failed("end_date", end.Some?) + Failed("limit", limit.Some?)
                  + Failed("account_id", account.Some?);
    if failed != [] then Err(ValidationError("GetTransactionsRequest", failed))
    else Ok(TransactionsRequest(start.value, end.value, limit.value, account.value))
  }

  /** `GetSpendingPlanRequest(**arguments)`. */
  function NewSpendingPlanRequest(args: seq<(string, Json)>): Result<Option<string>, Exc> {
    match TextField(args, "month")
      case None => Err(ValidationError("GetSpendingPlanRequest", ["month"]))
      case Some(month) => Ok(month)
  }

  /** `GetAccountHistoryRequest(**arguments)`: `account_id` is a required string. */
  function NewAccountHistoryRequest(args: seq<(string, Json)>): Result<AccountHistoryRequest, Exc> {
    var account := match Lookup(args, "account_id") case Some(JStr(s)) => Some(s) case _ => None;
    var start := TextField(args, "start_date");
    var end := TextField(args, "end_date");
    var failed := Failed("account_id", account.Some?) + Failed("start_date", start.Some?) + Failed("end_date", end.Some?);
    if failed != [] then Err(ValidationError("GetAccountHistoryRequest", failed))
    else Ok(AccountHistoryRequest(account.value, start.value, end.value))
  }

  /**
   * A transactions request exists only with a limit from 1 to 1000 (100
   * when none is given) and with dates that parse; a limit out of range or
   * a date that does not parse is refused.
   */
  lemma TransactionsRequestRules(args: seq<(string, Json)>, strptime: DateParser)
    ensures var r := NewTransactionsRequest(args, strptime);
      (r.Ok? ==> MinLimit <= r.value.limit <= MaxLimit)
      && (r.Ok? && Lookup(args, "limit").None? ==> r.value.limit == DefaultLimit)
      && (r.Ok? && r.value.startDate.Some? ==> strptime(r.value.startDate.value).Ok?)
      && (r.Ok? && r.value.endDate.Some? ==> strptime(r.value.endDate.value).Ok?)
      && (r.Err? ==> IsValueError(r.error))
    ensures forall i :: Lookup(args, "limit") == Some(JInt(i)) && !(MinLimit <= i <= MaxLimit) ==>
      NewTransactionsRequest(args, strptime).Err?
    ensures forall s :: Lookup(args, "start_date") == Some(JStr(s)) && strptime(s).Err? ==>
      NewTransactionsRequest(args, strptime).Err?
  {
  }

  // ------------------------------------------------------------------ handlers

  /** `str(x or default)`. */
  function OrDefault(v: Json, default: string): string {
    if Truthy(v) then PyStr(v) else default
  }

  function AccountsBody(b: Backend, render: Render): Result<string, Exc> {
    var result :- b.accounts;
    var accounts :- Get(result, "accounts", JArray([]));
    if !Truthy(accounts) then Ok("No accounts found.")
    else
      var items :- Elements(accounts);
      FullListing("Found " + NatToDecimal(|items|) + " accounts:\n\n", items, render)
  }

  /** `_handle_get_accounts`. */
  function Accounts(b: Backend, render: Render): Result<string, McpError> {
    match AccountsBody(b, render)
      case Ok(text) => Ok(text)
      case Err(e) => Err(McpError(InternalError, "Failed to fetch accounts: " + e.message))
  }

  function TransactionsHeader(n: nat, r: TransactionsRequest): string {
    "Found " + NatToDecimal(n) + " transactions"
    + (if Given(r.startDate) then " from " + r.startDate.value else "")
    + (if Given(r.endDate) then " to " + r.endDate.value else "")
    + " (showing up to " + IntToDecimal(r.limit) + "):\n\n"
  }

  /** The arguments `client.get_transactions` receives: the limit always, each date and the account only when given. */
  function TransactionsQuery(r: TransactionsRequest, strptime: DateParser): Result<TxQuery, Exc> {
    var start :- OptDate(r.startDate, strptime);
    var end :- OptDate(r.endDate, strptime);
    Ok(TxQuery(r.limit, start, end, if Given(r.accountId) then r.accountId else None))
  }

  function TransactionsBody(r: TransactionsRequest, b: Backend, strptime: DateParser, render: Render): Result<string, Exc> {
    var q :- TransactionsQuery(r, strptime);
    var result :- b.transactions(q);
    var all :- Get(result, "allTransactions", JObject([]));
    var txs :- Get(all, "results", JArray([]));
    if !Truthy(txs) then Ok("No transactions found for the specified criteria.")
    else
      var items :- SlicedElements(txs);
      TransactionListing(TransactionsHeader(|items|, r), items, render)
  }

  /** `_handle_get_transactions`: a `ValueError` anywhere in it is reported as invalid parameters. */
  function Transactions(r: TransactionsRequest, b: Backend, strptime: DateParser, render: Render): Result<string, McpError> {
    match TransactionsBody(r, b, strptime, render)
      case Ok(text) => Ok(text)
      case Err(e) =>
        if IsValueError(e) then Err(McpError(InvalidParams, "Invalid date format: " + e.message))
        else Err(McpError(InternalError, "Failed to fetch transactions: " + e.message))
  }

  function BudgetLine(budget: Json): Result<string, Exc> {
    var name :- Get(budget, "name", JNull);
    Ok("Budget: " + OrDefault(name, "Unnamed Budget") + "\n")
  }

  function BudgetsBody(b: Backend): Result<string, Exc> {
    var result :- b.budgets;
    var header := BarChart + " **Budget Information**\n\n";
    if !Truthy(result) then Ok("No budget information available.")
    else if result.JArray? then FullListing(header, result.items, BudgetLine)
    else Ok(header + "Budget data: " + PyStr(result) + "\n")
  }

  /** `_handle_get_budgets`. */
  function Budgets(b: Backend): Result<string, McpError> {
    match BudgetsBody(b)
      case Ok(text) => Ok(text)
      case Err(e) => Err(McpError(InternalError, "Failed to fetch budgets: " + e.message))
  }

  function SpendingPlanBody(month: Option<string>, today: Date, b: Backend): Result<string, Exc> {
    var range :- PlanRange(month, today);
    var result :- b.spendingPlan(range.0, range.1);
    Ok(RisingChart + " **Spending Plan for " + YearMonthText(range.0) + "**\n\nPlan data: " + PyStr(result) + "\n")
  }

  /** `_handle_get_spending_plan`. */
  function SpendingPlan(month: Option<string>, today: Date, b: Backend): Result<string, McpError> {
    match SpendingPlanBody(month, today, b)
      case Ok(text) => Ok(text)
      case Err(e) =>
        if IsValueError(e) then Err(McpError(InvalidParams, "Invalid month format: " + e.message))
        else Err(McpError(InternalError, "Failed to fetch spending plan: " + e.message))
  }

  function AccountHistoryBody(r: AccountHistoryRequest, b: Backend, strptime: DateParser): Result<string, Exc> {
    var start :- OptDate(r.startDate, strptime);
    var end :- OptDate(r.endDate, strptime);
    var result :- b.accountHistory(r.accountId, start, end);
    if !Truthy(result) then Ok("No history found for account " + r.accountId)
    else Ok(BarChart + " **Account History for " + r.accountId + "**\n\nHistory data: " + PyStr(result) + "\n")
  }

  /** `_handle_get_account_history`. */
  function AccountHistory(r: AccountHistoryRequest, b: Backend, strptime: DateParser): Result<string, McpError> {
    match AccountHistoryBody(r, b, strptime)
      case Ok(text) => Ok(text)
      case Err(e) =>
        if IsValueError(e) then Err(McpError(InvalidParams, "Invalid date format: " + e.message))
        else Err(McpError(InternalError, "Failed to fetch account history: " + e.message))
  }

  // ------------------------------------------------------------------- routing

  /** `_get_monarch_client`. */
  function Client(login: Login): Result<(), McpError> {
    match login
      case LoggedIn => Ok(())
      case MfaRequired => Err(McpError(InvalidParams, "MFA is required but MONARCH_MFA_SECRET is not configured"))
      case LoginFailed(e) => Err(McpError(InternalError, "Failed to authenticate with Monarch Money: " + e.message))
  }

  /** An exception that is not an `McpError`, as `call_tool` reports it. */
  function ExecutionFailed(e: Exc): McpError {
    McpError(InternalError, "Tool execution failed: " + e.message)
  }

  /** The name switch of `call_tool`; a handler's `McpError` passes through as it is. */
  function Route(name: string, args: seq<(string, Json)>, b: Backend, strptime: DateParser, render: Render, today: Date)
    : Result<string, McpError>
  {
    if name == "get_accounts" then Accounts(b, render)
    else if name == "get_transactions" then
      match NewTransactionsRequest(args, strptime)
        case Err(e) => Err(ExecutionFailed(e))
        case Ok(r) => Transactions(r, b, strptime, render)
    else if name == "get_budgets" then Budgets(b)
    else if name == "get_spending_plan" then
      match NewSpendingPlanRequest(args)
        case Err(e) => Err(ExecutionFailed(e))
        case Ok(month) => SpendingPlan(month, today, b)
    else if name == "get_account_history" then
      match NewAccountHistoryRequest(args)
        case Err(e) => Err(ExecutionFailed(e))
        case Ok(r) => AccountHistory(r, b, strptime)
    else Err(McpError(MethodNotFound, "Unknown tool: " + name))
  }

  /** `call_tool`: log in first, then route; a result is one text item. */
  function CallTool(name: string, args: seq<(string, Json)>, login: Login, b: Backend, strptime: DateParser,
                    render: Render, today: Date): (r: Result<seq<string>, McpError>)
    ensures login != LoggedIn ==> r == Err(Client(login).error)
    ensures r.Ok? ==> |r.value| == 1 && Route(name, args, b, strptime, render, today) == Ok(r.value[0])
  {
    var _ :- Client(login);
    var text :- Route(name, args, b, strptime, render, today);
    Ok([text])
  }

  /**
   * Logging in comes before the name is looked at: whatever the tool, a
   * login that needs MFA is invalid parameters and any other failed login
   * an internal error.
   */
  lemma LoginBeforeRouting(name: string, args: seq<(string, Json)>, b: Backend, strptime: DateParser, render: Render,
                           today: Date, e: Exc)
    ensures CallTool(name, args, MfaRequired, b, strptime, render, today)
      == Err(McpError(-32602, "MFA is required but MONARCH_MFA_SECRET is not configured"))
    ensures CallTool(name, args, LoginFailed(e), b, strptime, render, today)
      == Err(McpError(-32603, "Failed to authenticate with Monarch Money: " + e.message))
  {
  }

  /**
   * Once logged in, an unknown name is "method not found"; every answer is
   * either exactly one text for one of the five tools, or an error with one
   * of the three codes a tool can fail with.
   */
  lemma RoutingOutcomes(name: string, args: seq<(string, Json)>, b: Backend, strptime: DateParser, render: Render,
                        today: Date)
    ensures var r := CallTool(name, args, LoggedIn, b, strptime, render, today);
      (name !in ToolNames ==> r == Err(McpError(-32601, "Unknown tool: " + name)))
      && (r.Ok? ==> |r.value| == 1 && name in ToolNames)
      && (r.Err? ==> r.error.code in {-32601, -32602, -32603})
  {
    RouteOutcomes(name, args, b, strptime, render, today);
  }

  lemma RouteOutcomes(name: string, args: seq<(string, Json)>, b: Backend, strptime: DateParser, render: Render,
                      today: Date)
    ensures var r := Route(name, args, b, strptime, render, today);
      (name !in ToolNames ==> r == Err(McpError(-32601, "Unknown tool: " + name)))
      && (r.Err? ==> r.error.code in {-32601, -32602, -32603})
  {
    if name !in ToolNames {
      UnknownName(name);
    }
  }

  /**
   * A request model that refuses the arguments ends the call before any
   * data is fetched, as an internal "Tool execution failed" error.
   */
  lemma InvalidArgumentsFailExecution(args: seq<(string, Json)>, b: Backend, b': Backend, strptime: DateParser,
                                      render: Render, today: Date)
    requires NewTransactionsRequest(args, strptime).Err?
    ensures CallTool("get_transactions", args, LoggedIn, b, strptime, render, today)
      == Err(ExecutionFailed(NewTransactionsRequest(args, strptime).error))
    ensures CallTool("get_transactions", args, LoggedIn, b, strptime, render, today)
      == CallTool("get_transactions", args, LoggedIn, b', strptime, render, today)
  {
  }

  /**
   * Empty data gives the fixed texts; a transaction list shows the first 20
   * items and the trailer exactly when there are more.
   */
  lemma SummaryTexts(r: TransactionsRequest, b: Backend, strptime: DateParser, render: Render, items: seq<Json>)
    ensures b.accounts.Ok? && b.accounts.value == JObject([]) ==> AccountsBody(b, render) == Ok("No accounts found.")
    ensures var q := TransactionsQuery(r, strptime);
      q.Ok? && b.transactions(q.value).Ok? && b.transactions(q.value).value == JObject([]) ==>
        TransactionsBody(r, b, strptime, render) == Ok("No transactions found for the specified criteria.")
    ensures var q := TransactionsQuery(r, strptime);
      q.Ok? && b.transactions(q.value) == Ok(JObject([("allTransactions", JObject([("results", JArray(items))]))]))
      && items != [] ==>
        TransactionsBody(r, b, strptime, render)
          == TransactionListing(TransactionsHeader(|items|, r), items, render)
  {
  }
}
