/**
 * The first MCP server, `mcp_server.py`: five tools over one
 * `handle_call_tool` function that catches every exception and answers it
 * as text. Two of its branches use `date` and `datetime` at a point where
 * Python treats them as unassigned local variables, and the budgets branch
 * reuses the variable that holds the tool's name; the functions marked
 * "as written" keep that behaviour and their counterparts bind the names the
 * code evidently means.
 */
module McpServer {
  import opened Wrappers
  import opened Strings
  import opened PyJson
  import opened PyErrors
  import opened Dates
  import opened Summary
  import opened Monarch
  import opened Mcp

  const DefaultLimit: int := 100
  const MaxLimit: int := 500

  // ---------------------------------------------------------------- tool list

  const StartDate: (string, Json) := ("start_date", Property("string", "Start date in YYYY-MM-DD format", []))
  const EndDate: (string, Json) := ("end_date", Property("string", "End date in YYYY-MM-DD format", []))
  const Limit: (string, Json) :=
    ("limit", Property("integer", "Maximum number of transactions to return (default: 100, max: 500)",
                       [("minimum", JInt(1)), ("maximum", JInt(MaxLimit))]))

  const AccountsTool: ToolSpec := ToolSpec("get_accounts", "Get all Monarch Money accounts with balances and details", [], [])

  const TransactionsTool: ToolSpec :=
    ToolSpec("get_transactions", "Get Monarch Money transactions with optional date filtering",
             [StartDate, EndDate, Limit, ("account_id", Property("string", "Optional account ID to filter transactions", []))],
             [])

  const BudgetsTool: ToolSpec := ToolSpec("get_budgets", "Get Monarch Money budget information and categories", [], [])

  const SpendingPlanTool: ToolSpec :=
    ToolSpec("get_spending_plan", "Get current month's spending plan with categories and limits",
             [("month", Property("string", "Month in YYYY-MM format (defaults to current month)", []))], [])

  const AccountHistoryTool: ToolSpec :=
    ToolSpec("get_account_history", "Get balance history for a specific account",
             [("account_id", Property("string", "Account ID to get history for", [])), StartDate, EndDate],
             ["account_id"])

  lemma TransactionsToolWellFormed()
    ensures WellFormedTool(TransactionsTool)
    ensures Lookup(TransactionsTool.properties, "limit") == Some(Limit.1)
  {
    LookupAt(TransactionsTool.properties, 2, "limit");
  }

  lemma AccountHistoryToolWellFormed()
    ensures WellFormedTool(AccountHistoryTool)
  {
  }

  /** `handle_list_tools`. */
  function Tools(): (tools: seq<ToolSpec>)
    ensures FiveTools(tools)
    ensures Lookup(tools[1].properties, "limit") == Some(Limit.1)
  {
    TransactionsToolWellFormed();
    AccountHistoryToolWellFormed();
    [AccountsTool, TransactionsTool, BudgetsTool, SpendingPlanTool, AccountHistoryTool]
  }

  /** The advertised limit runs from 1 to 500. */
  lemma LimitSchema()
    ensures Lookup(Limit.1.fields, "minimum") == Some(JInt(1))
    ensures Lookup(Limit.1.fields, "maximum") == Some(JInt(MaxLimit))
  {
    LookupAt(Limit.1.fields, 2, "minimum");
    LookupAt(Limit.1.fields, 3, "maximum");
  }

  // -------------------------------------------------------------------- client

  const MissingCredentials: Exc :=
    Exc(ValueError, "Monarch credentials not configured. Set MONARCH_EMAIL and MONARCH_PASSWORD environment variables.")

  /** `get_monarch_client`: every failure is a `ValueError`. */
  function Client(email: Option<string>, password: Option<string>, login: Login): (r: Result<(), Exc>)
    ensures !Given(email) || !Given(password) ==> r == Err(MissingCredentials)
    ensures r.Ok? <==> Given(email) && Given(password) && login == LoggedIn
    ensures r.Err? ==> IsValueError(r.error)
  {
    if !Given(email) || !Given(password) then Err(MissingCredentials)
    else match login
      case LoggedIn => Ok(())
      case MfaRequired => Err(Exc(ValueError, "MFA is required but MONARCH_MFA_SECRET is not configured"))
      case LoginFailed(e) => Err(Exc(ValueError, "Failed to authenticate with Monarch Money: " + e.message))
  }

  // ------------------------------------------------------------------ branches

  /** The limit argument as an integer, 100 when absent, capped at 500 but not raised. */
  function LimitArgument(args: seq<(string, Json)>): (r: Result<int, Exc>)
    ensures r.Ok? ==> r.value <= MaxLimit
    ensures Lookup(args, "limit").None? ==> r == Ok(DefaultLimit)
    ensures Lookup(args, "limit").Some? && Lookup(args, "limit").value.JInt? ==>
      var i := Lookup(args, "limit").value.i; r == Ok(if i < MaxLimit then i else MaxLimit)
  {
    var n :- IntOfJson(GetOr(args, "limit", JInt(DefaultLimit)));
    Ok(if n < MaxLimit then n else MaxLimit)
  }

  /** What `client.get_transactions(...)` is called with. */
  function TransactionsQuery(args: seq<(string, Json)>, strptime: DateParser): (r: Result<TxQuery, Exc>)
    ensures r.Ok? ==> r.value.limit <= MaxLimit
    ensures r.Ok? && Lookup(args, "limit").None? ==> r.value.limit == DefaultLimit
  {
    var limit :- LimitArgument(args);
    var account := GetOr(args, "account_id", JNull);
    var start :- DateArgument(GetOr(args, "start_date", JNull), strptime);
    var end :- DateArgument(GetOr(args, "end_date", JNull), strptime);
    Ok(TxQuery(limit, start, end, if Truthy(account) then Some(PyStr(account)) else None))
  }

  function AccountsBody(b: Backend, render: Render): Result<string, Exc> {
    var result :- b.accounts;
    var accounts :- Get(result, "accounts", JArray([]));
    if !Truthy(accounts) then Ok("No accounts found.")
    else
      var items :- Elements(accounts);
      FullListing("Found " + NatToDecimal(|items|) + " accounts:\n\n", items, render)
  }

  function TransactionsHeader(n: nat, args: seq<(string, Json)>, q: TxQuery): string {
    "Found " + NatToDecimal(n) + " transactions"
    + (if q.start.Some? then " from " + PyStr(GetOr(args, "start_date", JNull)) else "")
    + (if q.end.Some? then " to " + PyStr(GetOr(args, "end_date", JNull)) else "")
    + " (showing up to " + IntToDecimal(q.limit) + "):\n\n"
  }

  function TransactionsBody(args: seq<(string, Json)>, b: Backend, strptime: DateParser, render: Render)
    : Result<string, Exc>
  {
    var q :- TransactionsQuery(args, strptime);
    var result :- b.transactions(q);
    var all :- Get(result, "allTransactions", JObject([]));
    var txs :- Get(all, "results", JArray([]));
    if !Truthy(txs) then Ok("No transactions found for the specified criteria.")
    else
      var items :- SlicedElements(txs);
      TransactionListing(TransactionsHeader(|items|, args, q), items, render)
  }

  /** An exception leaving a branch, with the text of the local `name` at that moment. */
  datatype Raised = Raised(e: Exc, name: string)

  /**
   * The budgets loop: each item's `name` (or "Unnamed Budget") gives one
   * line, and is also bound to the local `name`; an item that is not a dict
   * raises with `name` as the previous item left it.
   */
  function BudgetLines(budgets: seq<Json>, name: string): Result<string, Raised>
    decreases |budgets|
  {
    if budgets == [] then Ok("")
    else match Get(budgets[0], "name", JStr("Unnamed Budget"))
      case Err(e) => Err(Raised(e, name))
      case Ok(n) =>
        match BudgetLines(budgets[1..], PyStr(n))
          case Ok(rest) => Ok("Budget: " + PyStr(n) + "\n" + rest)
          case Err(r) => Err(r)
  }

  /** `text` in front of an outcome that succeeded; a failure as it was. */
  function Prefixed(text: string, r: Result<string, Raised>): Result<string, Raised> {
    match r
      case Ok(rest) => Ok(text + rest)
      case Err(x) => Err(x)
  }

  lemma PrefixedEmpty(r: Result<string, Raised>)
    ensures Prefixed("", r) == r
  {
    if r.Ok? {
      assert "" + r.value == r.value;
    }
  }

  lemma PrefixedTwice(text: string, line: string, r: Result<string, Raised>)
    ensures Prefixed(text, Prefixed(line, r)) == Prefixed(text + line, r)
  {
    if r.Ok? {
      assert text + (line + r.value) == text + line + r.value;
    }
  }

  /** The budgets loop as the source runs it: one item at a time onto `budget_text`. */
  method RunBudgetLines(budgets: seq<Json>, name: string) returns (r: Result<string, Raised>)
    ensures r == BudgetLines(budgets, name)
  {
    var text := "";
    var current := name;
    var i := 0;
    assert budgets[0..] == budgets;
    PrefixedEmpty(BudgetLines(budgets, name));
    while i < |budgets|
      invariant 0 <= i <= |budgets|
      invariant BudgetLines(budgets, name) == Prefixed(text, BudgetLines(budgets[i..], current))
    {
      assert budgets[i..][0] == budgets[i] && budgets[i..][1..] == budgets[i + 1..];
      match Get(budgets[i], "name", JStr("Unnamed Budget"))
      case Err(e) =>
        return Err(Raised(e, current));
      case Ok(n) =>
        var line := "Budget: " + PyStr(n) + "\n";
        PrefixedTwice(text, line, BudgetLines(budgets[i + 1..], PyStr(n)));
        current := PyStr(n);
        text := text + line;
      i := i + 1;
    }
    assert budgets[i..] == [];
    assert text + "" == text;
    r := Ok(text);
  }

  function BudgetsBody(b: Backend, name: string): Result<string, Raised> {
    match b.budgets
      case Err(e) => Err(Raised(e, name))
      case Ok(result) =>
        var header := BarChart + " **Budget Information**\n\n";
        if !Truthy(result) then Ok("No budget information available.")
        else if result.JArray? then Prefixed(header, BudgetLines(result.items, name))
        else Ok(header + "Budget data: " + PyStr(result) + "\n")
  }

  /** `month_str.split('-')` on a truthy `month`: only a string has `split`. */
  function MonthArgument(v: Json): (r: Result<Option<string>, Exc>)
    ensures r.Ok? && r.value.Some? ==> Given(r.value)
    ensures !Truthy(v) ==> r == Ok(None)
  {
    if !Truthy(v) then Ok(None)
    else if v.JStr? then Ok(Some(v.s))
    else Err(Exc(AttributeError, "'" + TypeName(v) + "' object has no attribute 'split'"))
  }

  const UnboundDate: Exc := Exc(UnboundLocalError, "cannot access local variable 'date' where it is not associated with a value")
  const UnboundDatetime: Exc :=
    Exc(UnboundLocalError, "cannot access local variable 'datetime' where it is not associated with a value")

  /**
   * The spending plan branch as written: `date` is local to the function
   * (the transactions branch imports it), so once the month is split and
   * converted, `date(...)` raises.
   */
  function SpendingPlanBodyAsWritten(args: seq<(string, Json)>): (r: Result<string, Exc>)
    ensures r.Err?
  {
    var month :- MonthArgument(GetOr(args, "month", JNull));
    if month.Some? then
      var _ :- UnpackYearMonth(Split(month.value, '-'));
      Err(UnboundDate)
    else Err(UnboundDate)
  }

  /** The plan fetched for the month that starts on `start`, under a heading that names the month. */
  function PlanReport(start: Date, plan: Json): string
    requires Valid(start)
  {
    RisingChart + " **Spending Plan for " + YearMonthText(start) + "**\n\nPlan data: " + PyStr(plan) + "\n"
  }

  /** The spending plan branch with `date` bound. */
  function SpendingPlanBody(args: seq<(string, Json)>, today: Date, b: Backend): Result<string, Exc> {
    var month :- MonthArgument(GetOr(args, "month", JNull));
    SpendingPlanOf(month, today, b)
  }

  /** The plan for the month given, or for the current month. */
  function SpendingPlanOf(month: Option<string>, today: Date, b: Backend): Result<string, Exc> {
    var range :- PlanRange(month, today);
    var result :- b.spendingPlan(range.0, range.1);
    Ok(PlanReport(range.0, result))
  }

  const AccountIdRequired: string := "Error: account_id is required for get_account_history"

  function HistoryText(account: Json, fetched: Fetched): Result<string, Exc> {
    var result :- fetched;
    if !Truthy(result) then Ok("No history found for account " + PyStr(account))
    else Ok(BarChart + " **Account History for " + PyStr(account) + "**\n\nHistory data: " + PyStr(result) + "\n")
  }

  /**
   * The account history branch as written: `datetime` is local to the
   * function (two other branches import it), so a given date raises.
   */
  function AccountHistoryBodyAsWritten(args: seq<(string, Json)>, b: Backend): Result<string, Exc> {
    var account := GetOr(args, "account_id", JNull);
    if !Truthy(account) then Ok(AccountIdRequired)
    else if Truthy(GetOr(args, "start_date", JNull)) || Truthy(GetOr(args, "end_date", JNull)) then Err(UnboundDatetime)
    else HistoryText(account, b.accountHistory(PyStr(account), None, None))
  }

  /** The account history branch with `datetime` bound. */
  function AccountHistoryBody(args: seq<(string, Json)>, b: Backend, strptime: DateParser): Result<string, Exc> {
    var account := GetOr(args, "account_id", JNull);
    if !Truthy(account) then Ok(AccountIdRequired)
    else
      var start :- DateArgument(GetOr(args, "start_date", JNull), strptime);
      var end :- DateArgument(GetOr(args, "end_date", JNull), strptime);
      HistoryText(account, b.accountHistory(PyStr(account), start, end))
  }

  // ------------------------------------------------------------------- routing

  function Named(r: Result<string, Exc>, name: string): Result<string, Raised> {
    match r
      case Ok(text) => Ok(text)
      case Err(e) => Err(Raised(e, name))
  }

  /** The catch-all: an exception is answered as text and not raised. */
  function Reported(r: Result<string, Raised>): string {
    match r
      case Ok(text) => text
      case Err(x) => "Error executing " + x.name + ": " + x.e.message
  }

  function Arguments(arguments: Option<seq<(string, Json)>>): seq<(string, Json)> {
    if arguments.Some? then arguments.value else []
  }

  /** The body of `handle_call_tool` as written. */
  function RunAsWritten(name: string, args: seq<(string, Json)>, email: Option<string>, password: Option<string>,
                        login: Login, b: Backend, strptime: DateParser, render: Render): (r: Result<string, Raised>)
    ensures !Given(email) || !Given(password) ==> r == Err(Raised(MissingCredentials, name))
    ensures r.Err? && name != "get_budgets" ==> r.error.name == name
  {
    match Client(email, password, login)
      case Err(e) => Err(Raised(e, name))
      case Ok(_) =>
        if name == "get_accounts" then Named(AccountsBody(b, render), name)
        else if name == "get_transactions" then Named(TransactionsBody(args, b, strptime, render), name)
        else if name == "get_budgets" then BudgetsBody(b, name)
        else if name == "get_spending_plan" then Named(SpendingPlanBodyAsWritten(args), name)
        else if name == "get_account_history" then Named(AccountHistoryBodyAsWritten(args, b), name)
        else Ok("Unknown tool: " + name)
  }

  /**
   * `handle_call_tool` as written: exactly one text for every call, and a
   * failure of any tool but `get_budgets` names that tool.
   */
  function HandleCallToolAsWritten(name: string, arguments: Option<seq<(string, Json)>>, email: Option<string>,
                                   password: Option<string>, login: Login, b: Backend, strptime: DateParser,
                                   render: Render): (r: seq<string>)
    ensures |r| == 1
    ensures !Given(email) || !Given(password) ==> r == ["Error executing " + name + ": " + MissingCredentials.message]
    ensures var run := RunAsWritten(name, Arguments(arguments), email, password, login, b, strptime, render);
      run.Err? && name != "get_budgets" ==> r == ["Error executing " + name + ": " + run.error.e.message]
  {
    [Reported(RunAsWritten(name, Arguments(arguments), email, password, login, b, strptime, render))]
  }

  /** The body of `handle_call_tool` with `date` and `datetime` bound and the tool's name kept. */
  function Run(name: string, args: seq<(string, Json)>, email: Option<string>, password: Option<string>, login: Login,
               b: Backend, strptime: DateParser, render: Render, today: Date): Result<string, Exc>
  {
    var _ :- Client(email, password, login);
    if name == "get_accounts" then AccountsBody(b, render)
    else if name == "get_transactions" then TransactionsBody(args, b, strptime, render)
    else if name == "get_budgets" then
      match BudgetsBody(b, name)
        case Ok(text) => Ok(text)
        case Err(x) => Err(x.e)
    else if name == "get_spending_plan" then SpendingPlanBody(args, today, b)
    else if name == "get_account_history" then AccountHistoryBody(args, b, strptime)
    else Ok("Unknown tool: " + name)
  }

  /**
   * `handle_call_tool`, with the branches corrected: exactly one text comes
   * back for every call, and a missing argument dict reads as `{}`.
   */
  function HandleCallTool(name: string, arguments: Option<seq<(string, Json)>>, email: Option<string>,
                          password: Option<string>, login: Login, b: Backend, strptime: DateParser, render: Render,
                          today: Date): (r: seq<string>)
    ensures |r| == 1
    ensures !Given(email) || !Given(password) ==> r == ["Error executing " + name + ": " + MissingCredentials.message]
  {
    [Reported(Named(Run(name, Arguments(arguments), email, password, login, b, strptime, render, today), name))]
  }

  // -------------------------------------------------------------- properties

  /** `arguments = None` is read as the empty dict, in the code as written and corrected alike. */
  lemma NoArgumentsAreEmpty(name: string, email: Option<string>, password: Option<string>, login: Login, b: Backend,
                            strptime: DateParser, render: Render, today: Date)
    ensures HandleCallTool(name, None, email, password, login, b, strptime, render, today)
      == HandleCallTool(name, Some([]), email, password, login, b, strptime, render, today)
    ensures HandleCallToolAsWritten(name, None, email, password, login, b, strptime, render)
      == HandleCallToolAsWritten(name, Some([]), email, password, login, b, strptime, render)
  {
  }

  /**
   * Nothing escapes: every call answers exactly one text, and a failure is
   * that text, naming the tool. Missing credentials fail every call, for
   * any name, before the name is looked at.
   */
  lemma FailuresAreText(name: string, arguments: Option<seq<(string, Json)>>, email: Option<string>,
                        password: Option<string>, login: Login, b: Backend, strptime: DateParser, render: Render,
                        today: Date)
    ensures var r := Run(name, Arguments(arguments), email, password, login, b, strptime, render, today);
      r.Err? ==> HandleCallTool(name, arguments, email, password, login, b, strptime, render, today)
                   == ["Error executing " + name + ": " + r.error.message]
    ensures !Given(email) ==>
      HandleCallTool(name, arguments, email, password, login, b, strptime, render, today)
        == ["Error executing " + name + ": " + MissingCredentials.message]
    ensures login == MfaRequired ==>
      |HandleCallTool(name, arguments, email, password, login, b, strptime, render, today)| == 1
  {
  }

  /** With a working client, an unknown name is answered with a text, not an error. */
  lemma UnknownToolIsText(name: string, arguments: Option<seq<(string, Json)>>, email: Option<string>,
                          password: Option<string>, b: Backend, strptime: DateParser, render: Render, today: Date)
    requires Given(email) && Given(password) && name !in ToolNames
    ensures HandleCallTool(name, arguments, email, password, LoggedIn, b, strptime, render, today) == ["Unknown tool: " + name]
    ensures HandleCallToolAsWritten(name, arguments, email, password, LoggedIn, b, strptime, render) == ["Unknown tool: " + name]
  {
    UnknownName(name);
  }


  /** A missing, empty or null `account_id` is answered with a fixed text; `arguments` of `None` count as `{}`. */
  lemma AccountIdIsRequired(arguments: Option<seq<(string, Json)>>, email: Option<string>, password: Option<string>,
                            b: Backend, strptime: DateParser, render: Render, today: Date)
    requires Given(email) && Given(password)
    requires !Truthy(GetOr(Arguments(arguments), "account_id", JNull))
    ensures HandleCallTool("get_account_history", arguments, email, password, LoggedIn, b, strptime, render, today)
      == [AccountIdRequired]
    ensures HandleCallTool("get_account_history", None, email, password, LoggedIn, b, strptime, render, today)
      == [AccountIdRequired]
  {
  }

  /**
   * The client is asked for at most 500 transactions, but nothing stops a
   * limit below the advertised minimum of 1.
   */
  lemma LimitOnlyCappedAbove(strptime: DateParser)
    ensures forall args :: TransactionsQuery(args, strptime).Ok? ==> TransactionsQuery(args, strptime).value.limit <= MaxLimit
    ensures TransactionsQuery([("limit", JInt(0))], strptime) == Ok(TxQuery(0, None, None, None))
    ensures TransactionsQuery([("limit", JInt(5000))], strptime) == Ok(TxQuery(MaxLimit, None, None, None))
  {
  }

  /** As written, `get_spending_plan` never answers a plan: whatever the inputs, the call fails. */
  lemma SpendingPlanAlwaysFails(arguments: Option<seq<(string, Json)>>, email: Option<string>, password: Option<string>,
                                login: Login, b: Backend, strptime: DateParser, render: Render)
    ensures RunAsWritten("get_spending_plan", Arguments(arguments), email, password, login, b, strptime, render).Err?
  {
  }

  /** As written, with a working client and no month, the call reports the unbound `date`. */
  lemma SpendingPlanUnboundDate(email: Option<string>, password: Option<string>, b: Backend, strptime: DateParser,
                                render: Render)
    requires Given(email) && Given(password)
    ensures HandleCallToolAsWritten("get_spending_plan", None, email, password, LoggedIn, b, strptime, render)
      == ["Error executing " + "get_spending_plan" + ": " + UnboundDate.message]
  {
    SpendingPlanRaises(email, password, b, strptime, render);
  }

  lemma SpendingPlanRaises(email: Option<string>, password: Option<string>, b: Backend, strptime: DateParser,
                           render: Render)
    requires Given(email) && Given(password)
    ensures RunAsWritten("get_spending_plan", [], email, password, LoggedIn, b, strptime, render)
      == Err(Raised(UnboundDate, "get_spending_plan"))
  {
    assert SpendingPlanBodyAsWritten([]) == Err(UnboundDate);
  }

  /** Corrected, a month written `YYYY-MM` is fetched as exactly that month and named in the heading. */
  lemma SpendingPlanReportsMonth(year: int, month: int, today: Date, b: Backend)
    requires MinYear <= year < MaxYear && 1 <= month <= 12
    requires b.spendingPlan(Date(year, month, 1), if month == 12 then Date(year + 1, 1, 1) else Date(year, month + 1, 1)).Ok?
    ensures var end := if month == 12 then Date(year + 1, 1, 1) else Date(year, month + 1, 1);
      SpendingPlanBody([("month", JStr(YearMonthText(Date(year, month, 1))))], today, b)
        == Ok(PlanReport(Date(year, month, 1), b.spendingPlan(Date(year, month, 1), end).value))
  {
    var m := YearMonthText(Date(year, month, 1));
    MonthGiven(m, today, b);
    PlanRangeOfMonthText(year, month, today);
    MonthRangeCovers(year, month);
  }

  /** A `month` argument that is a non-empty string is the month the plan is for. */
  lemma MonthGiven(m: string, today: Date, b: Backend)
    requires m != []
    ensures SpendingPlanBody([("month", JStr(m))], today, b) == SpendingPlanOf(Some(m), today, b)
  {
    assert GetOr([("month", JStr(m))], "month", JNull) == JStr(m);
    assert MonthArgument(JStr(m)) == Ok(Some(m));
  }

  /** As written, `get_account_history` with a start or end date reports the unbound `datetime`. */
  lemma AccountHistoryDatesFail(args: seq<(string, Json)>, b: Backend)
    requires Truthy(GetOr(args, "account_id", JNull)) && Truthy(GetOr(args, "start_date", JNull))
    ensures AccountHistoryBodyAsWritten(args, b) == Err(UnboundDatetime)
  {
  }

  /** Corrected, the dates are parsed and passed on to the client. */
  lemma AccountHistoryParsesDates(account: string, start: string, end: string, b: Backend, strptime: DateParser)
    requires account != [] && start != [] && end != [] && strptime(start).Ok? && strptime(end).Ok?
    ensures var args := [("account_id", JStr(account)), ("start_date", JStr(start)), ("end_date", JStr(end))];
      AccountHistoryBody(args, b, strptime)
        == HistoryText(JStr(account), b.accountHistory(account, Some(strptime(start).value), Some(strptime(end).value)))
  {
    var args := [("account_id", JStr(account)), ("start_date", JStr(start)), ("end_date", JStr(end))];
    LookupAt(args, 1, "start_date");
    LookupAt(args, 2, "end_date");
  }

  /**
   * As written, a budget list whose second item is not a dict is reported
   * under the first budget's name instead of the tool's.
   */
  lemma BudgetErrorNamesBudget(email: Option<string>, password: Option<string>, b: Backend, strptime: DateParser,
                               render: Render)
    requires Given(email) && Given(password)
    requires b.budgets == Ok(JArray([JObject([("name", JStr("Rent"))]), JInt(0)]))
    ensures HandleCallToolAsWritten("get_budgets", None, email, password, LoggedIn, b, strptime, render)
      == ["Error executing Rent: " + NoGetMessage(JInt(0))]
  {
    NotADict();
    assert "Error executing " + "Rent" + ": " == "Error executing Rent: ";
  }

  lemma NotADict()
    ensures BudgetLines([JObject([("name", JStr("Rent"))]), JInt(0)], "get_budgets")
      == Err(Raised(Exc(AttributeError, NoGetMessage(JInt(0))), "Rent"))
  {
    assert [JObject([("name", JStr("Rent"))]), JInt(0)][1..] == [JInt(0)];
  }

  /** Corrected, the same failure names the tool. */
  lemma BudgetErrorNamesTool(email: Option<string>, password: Option<string>, b: Backend, strptime: DateParser,
                             render: Render, today: Date)
    requires Given(email) && Given(password)
    requires b.budgets == Ok(JArray([JObject([("name", JStr("Rent"))]), JInt(0)]))
    ensures HandleCallTool("get_budgets", None, email, password, LoggedIn, b, strptime, render, today)
      == ["Error executing get_budgets: " + NoGetMessage(JInt(0))]
  {
    NotADict();
    assert "Error executing " + "get_budgets" + ": " == "Error executing get_budgets: ";
  }

  /**
   * A budget list whose items are all dicts gives one line per budget, with
   * its name or "Unnamed Budget".
   */
  lemma {:induction false} BudgetLinesOk(budgets: seq<Json>, name: string)
    requires forall i :: 0 <= i < |budgets| ==> budgets[i].JObject?
    ensures BudgetLines(budgets, name).Ok?
    ensures budgets != [] ==> StartsWith(BudgetLines(budgets, name).value,
      "Budget: " + PyStr(GetOr(budgets[0].fields, "name", JStr("Unnamed Budget"))) + "\n")
    decreases |budgets|
  {
    if budgets != [] {
      BudgetLinesOk(budgets[1..], PyStr(GetOr(budgets[0].fields, "name", JStr("Unnamed Budget"))));
    }
  }
}
