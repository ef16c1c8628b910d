/**
 * The five tools of the FastMCP server in `fastmcp_server.py`. Each logs in
 * with the configured credentials, asks the Monarch Money client for data
 * and turns it into text; every failure becomes an "Error fetching ..."
 * text, so no tool raises. Field values are read through `safe_str` and
 * `safe_dict_get`, which never yield a blank text.
 */
module FastMcpServer {
  import opened Wrappers
  import opened Strings
  import opened PyJson
  import opened PyErrors
  import opened Dates
  import opened Summary
  import opened Monarch
  import opened Mcp

  // ---------------------------------------------------------- safe strings

  /**
   * `safe_str`: `None` and blank text give the default, any other text is
   * kept, and anything else is its `str()` unless that is blank.
   */
  function SafeStr(value: Json, default: string): (r: string)
    ensures value.JNull? ==> r == default
    ensures value.JStr? ==> r == if Strip(value.s) == [] then default else value.s
  {
    if value.JNull? then default
    else if value.JStr? then (if Strip(value.s) == [] then default else value.s)
    else
      var text := PyStr(value);
      if Strip(text) == [] then default else text
  }

  /** The `str()` of anything but a string starts with a character that is not whitespace. */
  lemma ReprNotBlank(v: Json)
    requires !v.JStr?
    ensures Strip(PyStr(v)) != []
  {
    var text := PyStr(v);
    if v.JInt? && v.i >= 0 {
      assert IsDigit(NatToDecimal(v.i)[0]);
    }
    assert |text| >= 1 && !IsSpace(text[0]);
    StripEmptyIffBlank(text);
  }

  /**
   * The result is never blank when the default is not, a value that is not
   * text is shown as its `str()`, and applying `safe_str` to its own
   * result changes nothing.
   */
  lemma SafeStrProperties(value: Json, default: string)
    ensures Strip(default) != [] ==> Strip(SafeStr(value, default)) != []
    ensures !value.JNull? && !value.JStr? ==> SafeStr(value, default) == PyStr(value)
    ensures Strip(default) != [] ==> SafeStr(JStr(SafeStr(value, default)), default) == SafeStr(value, default)
  {
    if !value.JNull? && !value.JStr? {
      ReprNotBlank(value);
    }
  }

  /** `safe_dict_get`: the default for anything but a dict, otherwise `safe_str` of the key's value. */
  function SafeDictGet(obj: Json, key: string, default: string): (r: string)
    ensures !obj.JObject? ==> r == default
    ensures obj.JObject? && (Lookup(obj.fields, key).None? || Lookup(obj.fields, key) == Some(JNull)) ==> r == default
    ensures obj.JObject? && Lookup(obj.fields, key).Some? && Lookup(obj.fields, key).value.JStr? ==>
      var t := Lookup(obj.fields, key).value.s; r == if Strip(t) == [] then default else t
    ensures obj.JObject? ==>
      var v := Lookup(obj.fields, key); v.Some? && !v.value.JNull? && !v.value.JStr? ==> r == PyStr(v.value)
  {
    if !obj.JObject? then default else SafeStr(GetOr(obj.fields, key, JNull), default)
  }

  /** A dict without the key reads as the default, like a value that is not a dict. */
  lemma SafeDictGetMissing(obj: Json, key: string, default: string)
    requires obj.JObject? && Lookup(obj.fields, key).None?
    ensures SafeDictGet(obj, key, default) == SafeDictGet(JNull, key, default) == default
  {
  }

  // ---------------------------------------------------------------- client

  /** `get_monarch_client`: every login failure is re-raised as a `ValueError`. */
  function Client(login: Login): (r: Result<(), Exc>)
    ensures r.Err? ==> IsValueError(r.error)
    ensures r.Ok? <==> login == LoggedIn
  {
    match login
      case LoggedIn => Ok(())
      case MfaRequired => Err(Exc(ValueError, "MFA is required but MONARCH_MFA_SECRET is not configured"))
      case LoginFailed(e) => Err(Exc(ValueError, "Failed to authenticate with Monarch Money: " + e.message))
  }

  /** The `:,.2f` formatting of a balance or amount: a library step that yields the text or raises. */
  type Money = Json -> Result<string, Exc>

  /** A missing (`None`) amount is shown as 0. */
  function Amount(v: Json): Json {
    if v.JNull? then JInt(0) else v
  }

  /** The text a tool returns: its result, or "Error fetching" its data and the message of what was raised. */
  function Report(r: Result<string, Exc>, what: string): string {
    match r
      case Ok(s) => s
      case Err(e) => Fetching(what, e)
  }

  /** The text that stands in for an exception raised while fetching `what`. */
  function Fetching(what: string, e: Exc): string {
    "Error fetching " + what + ": " + e.message
  }

  // -------------------------------------------------------------- accounts

  /** The block of one account; an account that is not a dict raises on its first `get`. */
  function AccountBlock(account: Json, money: Money): Result<string, Exc> {
    var name :- Get(account, "displayName", JNull);
    var balance :- Get(account, "currentBalance", JNull);
    var kind :- Get(account, "type", JNull);
    var institution :- Get(account, "institution", JNull);
    var id :- Get(account, "id", JNull);
    var shown :- money(Amount(balance));
    Ok(BarChartMisdecoded + " **" + SafeStr(name, "Unknown Account") + "**\n"
       + "   Balance: $" + shown + "\n"
       + "   Type: " + SafeDictGet(kind, "display", "Unknown") + "\n"
       + "   Institution: " + SafeDictGet(institution, "name", "Unknown") + "\n"
       + "   ID: " + SafeStr(id, "N/A") + "\n\n")
  }

  function AccountsText(login: Login, b: Backend, money: Money): Result<string, Exc> {
    var _ :- Client(login);
    var result :- b.accounts;
    var accounts :- Get(result, "accounts", JArray([]));
    if !Truthy(accounts) then Ok("No accounts found.")
    else
      var items :- Elements(accounts);
      FullListing("Found " + NatToDecimal(|items|) + " accounts:\n\n", items, (a: Json) => AccountBlock(a, money))
  }

  /** `get_accounts`: whatever is raised, from the login on, is answered as "Error fetching accounts" text. */
  function GetAccounts(login: Login, b: Backend, money: Money): (r: string)
    ensures AccountsText(login, b, money).Err? ==>
      r == Fetching("accounts", AccountsText(login, b, money).error)
  {
    Report(AccountsText(login, b, money), "accounts")
  }

  // ---------------------------------------------------------- transactions

  /** The fetch limit: `min(max(1, limit), 1000)`. */
  const MaxLimit: int := 1000

  function Clamp(limit: int): (n: int)
    ensures 1 <= n <= MaxLimit
    ensures 1 <= limit <= MaxLimit ==> n == limit
    ensures limit < 1 ==> n == 1
    ensures limit > MaxLimit ==> n == MaxLimit
  {
    if limit < 1 then 1 else if limit > MaxLimit then MaxLimit else limit
  }

  /** A date argument: absent, parsed, or rejected with the text the tool returns. */
  datatype DateArg = NoDate | Parsed(date: Date) | Rejected(message: string)

  /** The answer to a date argument that does not parse. */
  function DateHint(name: string): string {
    "Invalid " + name + " format. Use YYYY-MM-DD format."
  }

  /** A given date is parsed; only a `ValueError` is answered with the format hint, anything else propagates. */
  function DateParam(arg: Option<string>, strptime: DateParser, name: string): (r: Result<DateArg, Exc>)
    ensures !Given(arg) ==> r == Ok(NoDate)
    ensures r.Ok? && r.value.Parsed? ==> Given(arg) && strptime(arg.value) == Ok(r.value.date) && Valid(r.value.date)
    ensures r.Ok? && r.value.Rejected? <==> Given(arg) && strptime(arg.value).Err? && IsValueError(strptime(arg.value).error)
    ensures r.Ok? && r.value.Rejected? ==> r.value.message == DateHint(name)
    ensures r.Err? ==> Given(arg) && strptime(arg.value) == Err(r.error) && !IsValueError(r.error)
  {
    if !Given(arg) then Ok(NoDate)
    else match strptime(arg.value)
      case Ok(d) => Ok(Parsed(d))
      case Err(e) => if IsValueError(e) then Ok(Rejected(DateHint(name))) else Err(e)
  }

  function DateOf(a: DateArg): Option<Date> {
    if a.Parsed? then Some(a.date) else None
  }

  /** The block of one transaction. */
  function TransactionBlock(tx: Json, money: Money): Result<string, Exc> {
    var date :- Get(tx, "date", JNull);
    var merchant :- Get(tx, "merchant", JNull);
    var amount :- Get(tx, "amount", JNull);
    var category :- Get(tx, "category", JNull);
    var account :- Get(tx, "account", JNull);
    var shown :- money(Amount(amount));
    Ok(CardMisdecoded + " **" + SafeStr(date, "Unknown") + "** - " + SafeDictGet(merchant, "name", "Unknown Merchant") + "\n"
       + "   Amount: $" + shown + "\n"
       + "   Category: " + SafeDictGet(category, "name", "Uncategorized") + "\n"
       + "   Account: " + SafeDictGet(account, "displayName", "Unknown Account") + "\n\n")
  }

  /** Rendering with a given money formatting. */
  function TxRender(money: Money): Render {
    (tx: Json) => TransactionBlock(tx, money)
  }

  /** The summary line, which quotes the caller's `limit` as given, not the clamped one. */
  function TransactionsHeader(n: nat, startDate: Option<string>, endDate: Option<string>, limit: int): string {
    "Found " + NatToDecimal(n) + " transactions"
    + (if Given(startDate) then " from " + SafeStr(JStr(startDate.value), "Unknown") else "")
    + (if Given(endDate) then " to " + SafeStr(JStr(endDate.value), "Unknown") else "")
    + " (showing up to " + IntToDecimal(limit) + "):\n\n"
  }

  /** The client query the arguments build: the clamped limit, the parsed dates, a given account id. */
  function TransactionsQuery(limit: int, start: DateArg, end: DateArg, accountId: Option<string>): (q: TxQuery)
    ensures 1 <= q.limit <= MaxLimit
    ensures q.start == DateOf(start) && q.end == DateOf(end)
    ensures q.accountId.Some? <==> Given(accountId)
  {
    TxQuery(Clamp(limit), DateOf(start), DateOf(end), if Given(accountId) then accountId else None)
  }

  /** What the client returned, as text: the first 20 transactions of `allTransactions.results` and a count of the rest. */
  function TransactionsFetched(fetched: Fetched, startDate: Option<string>, endDate: Option<string>, limit: int,
                               money: Money): Result<string, Exc>
  {
    var result :- fetched;
    var all :- Get(result, "allTransactions", JObject([]));
    var txs :- Get(all, "results", JArray([]));
    if !Truthy(txs) then Ok("No transactions found for the specified criteria.")
    else
      var items :- SlicedElements(txs);
      TransactionListing(TransactionsHeader(|items|, startDate, endDate, limit), items, TxRender(money))
  }

  /** After login: the dates are parsed, in order, before the client is asked. */
  function TransactionsDated(startDate: Option<string>, endDate: Option<string>, limit: int, accountId: Option<string>,
                             strptime: DateParser, b: Backend, money: Money): Result<string, Exc>
  {
    var start :- DateParam(startDate, strptime, "start_date");
    if start.Rejected? then Ok(start.message)
    else
      var end :- DateParam(endDate, strptime, "end_date");
      if end.Rejected? then Ok(end.message)
      else TransactionsFetched(b.transactions(TransactionsQuery(limit, start, end, accountId)), startDate, endDate, limit, money)
  }

  function TransactionsText(login: Login, startDate: Option<string>, endDate: Option<string>, limit: int,
                            accountId: Option<string>, strptime: DateParser, b: Backend, money: Money)
    : Result<string, Exc>
  {
    var _ :- Client(login);
    TransactionsDated(startDate, endDate, limit, accountId, strptime, b, money)
  }

  /** `get_transactions`: whatever is raised, from the login on, is answered as "Error fetching transactions" text. */
  function GetTransactions(login: Login, startDate: Option<string>, endDate: Option<string>, limit: int,
                           accountId: Option<string>, strptime: DateParser, b: Backend, money: Money): (r: string)
    ensures var t := TransactionsText(login, startDate, endDate, limit, accountId, strptime, b, money);
      t.Err? ==> r == Fetching("transactions", t.error)
  {
    Report(TransactionsText(login, startDate, endDate, limit, accountId, strptime, b, money), "transactions")
  }

  /** The fetched page that holds the transactions `items`. */
  function Page(items: seq<Json>): Fetched {
    Ok(JObject([("allTransactions", JObject([("results", JArray(items))]))]))
  }

  /** Listing a fetched page of more than 20 transactions that all render. */
  lemma TransactionsPage(startDate: Option<string>, endDate: Option<string>, limit: int, money: Money, items: seq<Json>)
    requires |items| > Shown && forall i :: 0 <= i < Shown ==> TransactionBlock(items[i], money).Ok?
    ensures Blocks(items[..Shown], TxRender(money)).Ok?
    ensures TransactionsFetched(Page(items), startDate, endDate, limit, money)
      == Ok(TransactionsHeader(|items|, startDate, endDate, limit) + Blocks(items[..Shown], TxRender(money)).value
            + Trailer(|items|))
  {
    var render := TxRender(money);
    PageListed(startDate, endDate, limit, money, items);
    BlocksOk(items[..Shown], render);
    TransactionListingShape(TransactionsHeader(|items|, startDate, endDate, limit), items, render);
  }

  /** A fetched page with at least one transaction is listed under the header that counts them all. */
  lemma PageListed(startDate: Option<string>, endDate: Option<string>, limit: int, money: Money, items: seq<Json>)
    requires items != []
    ensures TransactionsFetched(Page(items), startDate, endDate, limit, money)
      == TransactionListing(TransactionsHeader(|items|, startDate, endDate, limit), items, TxRender(money))
  {
    assert Truthy(JArray(items));
  }

  /**
   * The client is asked for between 1 and 1000 transactions while the
   * summary quotes the caller's limit; with a list of more than 20
   * transactions that all render, the first 20 are listed and the rest
   * counted.
   */
  lemma TransactionsLimit(limit: int, accountId: Option<string>, strptime: DateParser, b: Backend, money: Money,
                          items: seq<Json>)
    requires b.transactions(TransactionsQuery(limit, NoDate, NoDate, accountId)) == Page(items)
    requires |items| > Shown && forall i :: 0 <= i < Shown ==> TransactionBlock(items[i], money).Ok?
    ensures 1 <= TransactionsQuery(limit, NoDate, NoDate, accountId).limit <= MaxLimit
    ensures Blocks(items[..Shown], TxRender(money)).Ok?
    ensures GetTransactions(LoggedIn, None, None, limit, accountId, strptime, b, money)
      == TransactionsHeader(|items|, None, None, limit) + Blocks(items[..Shown], TxRender(money)).value
         + Trailer(|items|)
  {
    TransactionsPage(None, None, limit, money, items);
  }

  /**
   * A start or end date that does not parse ends the call with its hint
   * before any fetch: the text is the same whatever the client would have
   * returned.
   */
  lemma BadDateNoFetch(startDate: Option<string>, endDate: Option<string>, limit: int, accountId: Option<string>,
                       strptime: DateParser, b1: Backend, b2: Backend, money: Money)
    requires Given(startDate) && strptime(startDate.value).Err? && IsValueError(strptime(startDate.value).error)
    ensures GetTransactions(LoggedIn, startDate, endDate, limit, accountId, strptime, b1, money)
      == GetTransactions(LoggedIn, startDate, endDate, limit, accountId, strptime, b2, money)
      == DateHint("start_date")
  {
  }

  lemma BadEndDateNoFetch(startDate: Option<string>, endDate: Option<string>, limit: int, accountId: Option<string>,
                          strptime: DateParser, b1: Backend, b2: Backend, money: Money)
    requires !Given(startDate) || strptime(startDate.value).Ok?
    requires Given(endDate) && strptime(endDate.value).Err? && IsValueError(strptime(endDate.value).error)
    ensures GetTransactions(LoggedIn, startDate, endDate, limit, accountId, strptime, b1, money)
      == GetTransactions(LoggedIn, startDate, endDate, limit, accountId, strptime, b2, money)
      == DateHint("end_date")
  {
  }

  // --------------------------------------------------------------- budgets

  function BudgetBlock(budget: Json): Result<string, Exc> {
    var name :- Get(budget, "name", JNull);
    Ok("Budget: " + SafeStr(name, "Unnamed Budget") + "\n")
  }

  const BudgetHeader: string := BarChartMisdecoded + " **Budget Information**\n\n"

  function BudgetsText(login: Login, b: Backend): Result<string, Exc> {
    var _ :- Client(login);
    var result :- b.budgets;
    if !Truthy(result) then Ok("No budget information available.")
    else if result.JArray? then FullListing(BudgetHeader, result.items, BudgetBlock)
    else Ok(BudgetHeader + "Budget data: " + SafeStr(result, "No data") + "\n")
  }

  /** `get_budgets`: whatever is raised, from the login on, is answered as "Error fetching budgets" text. */
  function GetBudgets(login: Login, b: Backend): (r: string)
    ensures BudgetsText(login, b).Err? ==> r == Fetching("budgets", BudgetsText(login, b).error)
  {
    Report(BudgetsText(login, b), "budgets")
  }

  /** A non-empty budget that is not a list is shown whole, after the heading. */
  lemma BudgetDataShownWhole(b: Backend)
    requires b.budgets.Ok? && Truthy(b.budgets.value) && !b.budgets.value.JArray?
    ensures GetBudgets(LoggedIn, b) == BudgetHeader + "Budget data: " + SafeStr(b.budgets.value, "No data") + "\n"
    ensures !b.budgets.value.JStr? ==> GetBudgets(LoggedIn, b) == BudgetHeader + "Budget data: " + PyStr(b.budgets.value) + "\n"
  {
    SafeStrProperties(b.budgets.value, "No data");
  }

  // ---------------------------------------------------------- spending plan

  const MonthHint: string := "Invalid month format. Use YYYY-MM format."

  function SpendingPlanText(login: Login, month: Option<string>, today: Date, b: Backend): Result<string, Exc> {
    var _ :- Client(login);
    match PlanRange(month, today)
      case Err(e) => if Given(month) && IsValueError(e) then Ok(MonthHint) else Err(e)
      case Ok((start, end)) =>
        var result :- b.spendingPlan(start, end);
        Ok(RisingChartMisdecoded + " **Spending Plan for " + YearMonthText(start) + "**\n\n"
           + "Plan data: " + PyStr(result) + "\n")
  }

  /** `get_spending_plan`: whatever is raised, from the login on, is answered as "Error fetching spending plan" text. */
  function GetSpendingPlan(login: Login, month: Option<string>, today: Date, b: Backend): (r: string)
    ensures SpendingPlanText(login, month, today, b).Err? ==>
      r == Fetching("spending plan", SpendingPlanText(login, month, today, b).error)
  {
    Report(SpendingPlanText(login, month, today, b), "spending plan")
  }

  /**
   * A month written `YYYY-MM` asks for exactly that month, December rolling
   * over into January of the next year, and the heading names the month.
   */
  lemma SpendingPlanMonth(year: int, month: int, today: Date, b: Backend)
    requires MinYear <= year < MaxYear && 1 <= month <= 12
    requires b.spendingPlan(Date(year, month, 1), if month == 12 then Date(year + 1, 1, 1) else Date(year, month + 1, 1)).Ok?
    ensures var text := YearMonthText(Date(year, month, 1));
      var end := if month == 12 then Date(year + 1, 1, 1) else Date(year, month + 1, 1);
      GetSpendingPlan(LoggedIn, Some(text), today, b)
        == RisingChartMisdecoded + " **Spending Plan for " + text + "**\n\n"
           + "Plan data: " + PyStr(b.spendingPlan(Date(year, month, 1), end).value) + "\n"
  {
    PlanRangeOfMonthText(year, month, today);
    MonthRangeCovers(year, month);
  }

  /** A month that does not parse, or names no month, is answered with the format hint. */
  lemma SpendingPlanBadMonth(month: string, today: Date, b: Backend)
    requires month != [] && ParseMonth(month).Err? && IsValueError(ParseMonth(month).error)
    ensures GetSpendingPlan(LoggedIn, Some(month), today, b) == MonthHint
  {
  }

  // -------------------------------------------------------- account history

  /** What the client returned for the account, as text. */
  function HistoryFetched(fetched: Fetched, accountId: string): Result<string, Exc> {
    var result :- fetched;
    if !Truthy(result) then Ok("No history found for account " + accountId)
    else Ok(BarChartMisdecoded + " **Account History for " + accountId + "**\n\n"
            + "History data: " + PyStr(result) + "\n")
  }

  function AccountHistoryText(login: Login, accountId: string, startDate: Option<string>, endDate: Option<string>,
                              strptime: DateParser, b: Backend): Result<string, Exc>
  {
    var _ :- Client(login);
    var start :- DateParam(startDate, strptime, "start_date");
    if start.Rejected? then Ok(start.message)
    else
      var end :- DateParam(endDate, strptime, "end_date");
      if end.Rejected? then Ok(end.message)
      else HistoryFetched(b.accountHistory(accountId, DateOf(start), DateOf(end)), accountId)
  }

  /** `get_account_history`: whatever is raised, from the login on, is answered as "Error fetching account history" text. */
  function GetAccountHistory(login: Login, accountId: string, startDate: Option<string>, endDate: Option<string>,
                             strptime: DateParser, b: Backend): (r: string)
    ensures var t := AccountHistoryText(login, accountId, startDate, endDate, strptime, b);
      t.Err? ==> r == Fetching("account history", t.error)
  {
    Report(AccountHistoryText(login, accountId, startDate, endDate, strptime, b), "account history")
  }

  /** The parsed dates are what the client is asked for, and an empty history is reported by account. */
  lemma AccountHistoryDates(accountId: string, startDate: string, endDate: string, strptime: DateParser, b: Backend)
    requires startDate != [] && endDate != [] && strptime(startDate).Ok? && strptime(endDate).Ok?
    requires b.accountHistory(accountId, Some(strptime(startDate).value), Some(strptime(endDate).value)) == Ok(JArray([]))
    ensures GetAccountHistory(LoggedIn, accountId, Some(startDate), Some(endDate), strptime, b)
      == "No history found for account " + accountId
  {
  }

  // ----------------------------------------------------------------- tools

  /** A call of one registered tool with its arguments, as FastMCP passes them after type checking. */
  datatype Call =
    | AccountsCall
    | TransactionsCall(startDate: Option<string>, endDate: Option<string>, limit: int, accountId: Option<string>)
    | BudgetsCall
    | SpendingPlanCall(month: Option<string>)
    | AccountHistoryCall(account: string, from: Option<string>, to: Option<string>)

  /** The tool a call names. */
  function ToolName(c: Call): string {
    match c
      case AccountsCall => "get_accounts"
      case TransactionsCall(_, _, _, _) => "get_transactions"
      case BudgetsCall => "get_budgets"
      case SpendingPlanCall(_) => "get_spending_plan"
      case AccountHistoryCall(_, _, _) => "get_account_history"
  }

  /** What the tool's error text calls its data. */
  function Thing(c: Call): string {
    match c
      case AccountsCall => "accounts"
      case TransactionsCall(_, _, _, _) => "transactions"
      case BudgetsCall => "budgets"
      case SpendingPlanCall(_) => "spending plan"
      case AccountHistoryCall(_, _, _) => "account history"
  }

  /** Running a tool. */
  function Run(c: Call, login: Login, strptime: DateParser, today: Date, b: Backend, money: Money): string {
    match c
      case AccountsCall => GetAccounts(login, b, money)
      case TransactionsCall(s, e, limit, id) => GetTransactions(login, s, e, limit, id, strptime, b, money)
      case BudgetsCall => GetBudgets(login, b)
      case SpendingPlanCall(month) => GetSpendingPlan(login, month, today, b)
      case AccountHistoryCall(id, s, e) => GetAccountHistory(login, id, s, e, strptime, b)
  }

  /** Every tool answers a failed login with its own "Error fetching" text instead of raising. */
  lemma LoginFailureIsText(c: Call, e: Exc, strptime: DateParser, today: Date, b: Backend, money: Money)
    ensures Run(c, LoginFailed(e), strptime, today, b, money)
      == "Error fetching " + Thing(c) + ": " + ("Failed to authenticate with Monarch Money: " + e.message)
    ensures Run(c, MfaRequired, strptime, today, b, money)
      == "Error fetching " + Thing(c) + ": " + "MFA is required but MONARCH_MFA_SECRET is not configured"
  {
  }

  /** A parameter of a tool function, and whether it has a default. */
  datatype Param = Param(name: string, optional: bool)

  datatype Signature = Signature(name: string, params: seq<Param>)

  /** The functions registered with `@mcp.tool()`, in the order the file defines them. */
  const Registered: seq<Signature> := [
    Signature("get_accounts", []),
    Signature("get_transactions", [Param("start_date", true), Param("end_date", true), Param("limit", true),
                                   Param("account_id", true)]),
    Signature("get_budgets", []),
    Signature("get_spending_plan", [Param("month", true)]),
    Signature("get_account_history", [Param("account_id", false), Param("start_date", true), Param("end_date", true)])]

  /**
   * Exactly the five tools every server lists are registered, in that
   * order; only `get_account_history` has a required argument, `account_id`.
   */
  lemma FiveRegistered()
    ensures |Registered| == |ToolNames| == 5
    ensures forall i :: 0 <= i < |Registered| ==> Registered[i].name == ToolNames[i]
    ensures forall i, j :: 0 <= i < |Registered| && 0 <= j < |Registered[i].params| && !Registered[i].params[j].optional
              ==> Registered[i].name == "get_account_history" && Registered[i].params[j].name == "account_id"
  {
  }

  /** Each call runs the registered tool of its name. */
  lemma CallsNameRegisteredTools(c: Call)
    ensures exists i :: 0 <= i < |Registered| && Registered[i].name == ToolName(c)
  {
    match c {
      case AccountsCall => assert Registered[0].name == ToolName(c);
      case TransactionsCall(_, _, _, _) => assert Registered[1].name == ToolName(c);
      case BudgetsCall => assert Registered[2].name == ToolName(c);
      case SpendingPlanCall(_) => assert Registered[3].name == ToolName(c);
      case AccountHistoryCall(_, _, _) => assert Registered[4].name == ToolName(c);
    }
  }
}
