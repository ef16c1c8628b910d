/**
 * The Monarch Money client as the servers see it. Logging in and fetching
 * data are network calls into a library outside this model: their outcomes
 * are inputs.
 */
module Monarch {
  import opened Wrappers
  import opened PyJson
  import opened PyErrors
  import opened Dates

  /** What `client.login(...)` did with the credentials it was given. */
  datatype Login =
    | LoggedIn
    /** `RequireMFAException`: the account needs a one-time code that was not supplied. */
    | MfaRequired
    /** Any other exception. */
    | LoginFailed(e: Exc)

  /** What a data call (`get_accounts()`, `get_budgets()`, ...) returned or raised. */
  type Fetched = Result<Json, Exc>

  /** The arguments of `client.get_transactions(...)`; a date the server sends as ISO text is the date it names. */
  datatype TxQuery = TxQuery(limit: int, start: Option<Date>, end: Option<Date>, accountId: Option<string>)

  /**
   * The data calls of a logged-in client: what each returns or raises,
   * given the arguments it is called with.
   */
  datatype Backend = Backend(
    accounts: Fetched,
    transactions: TxQuery -> Fetched,
    budgets: Fetched,
    spendingPlan: (Date, Date) -> Fetched,
    accountHistory: (string, Option<Date>, Option<Date>) -> Fetched)

  /** Python's truthiness of an optional string (`None` and `""` are false). */
  predicate Given(o: Option<string>) {
    o.Some? && o.value != []
  }

  /** An optional date argument: parsed as YYYY-MM-DD when given, no date otherwise. */
  function OptDate(s: Option<string>, strptime: DateParser): (r: Result<Option<Date>, Exc>)
    ensures !Given(s) ==> r == Ok(None)
    ensures Given(s) ==> (r.Ok? <==> strptime(s.value).Ok?)
    ensures Given(s) && r.Ok? ==> r.value == Some(strptime(s.value).value)
  {
    if Given(s) then
      var d :- strptime(s.value);
      Ok(Some(d))
    else Ok(None)
  }

  const MissingConfig: Exc := Exc(ValueError, "Required Monarch Money credentials not configured")

  /**
   * `Config._validate`, the same in both servers that load a configuration:
   * the e-mail and the password must both be set and non-empty.
   */
  function ValidateConfig(email: Option<string>, password: Option<string>): (r: Result<(), Exc>)
    ensures r.Ok? <==> Given(email) && Given(password)
    ensures r.Err? ==> r.error == MissingConfig
  {
    if !Given(email) || !Given(password) then Err(MissingConfig) else Ok(())
  }

  /** A date argument, parsed as YYYY-MM-DD only when it is truthy. */
  function DateArgument(v: Json, strptime: DateParser): (r: Result<Option<Date>, Exc>)
    ensures !Truthy(v) ==> r == Ok(None)
    ensures v.JStr? ==> r == OptDate(Some(v.s), strptime)
  {
    if !Truthy(v) then Ok(None)
    else if v.JStr? then
      var d :- strptime(v.s);
      Ok(Some(d))
    else Err(Exc(TypeError, "strptime() argument 1 must be str, not " + TypeName(v)))
  }

  /** The decoded emoji that open the headings: a bar chart and a rising chart. */
  const BarChart: string := "\U{1F4CA}"
  const RisingChart: string := "\U{1F4C8}"

  /**
   * The same three emoji as the files that hold them misdecoded store them:
   * their UTF-8 bytes read as Windows-1252.
   */
  const BarChartMisdecoded: string := [0xF0 as char, 0x178 as char, 0x201C as char, 0x160 as char]
  const CardMisdecoded: string := [0xF0 as char, 0x178 as char, 0x2019 as char, 0xB3 as char]
  const RisingChartMisdecoded: string := [0xF0 as char, 0x178 as char, 0x201C as char, 0x2C6 as char]

  /** The month asked for, as `YYYY-MM`, or the current one. */
  function PlanRange(month: Option<string>, today: Date): (r: Result<(Date, Date), Exc>)
    ensures r.Ok? ==> Valid(r.value.0) && r.value.0.day == 1
  {
    if Given(month) then ParseMonth(month.value) else MonthRange(today.year, today.month)
  }

  /**
   * The range of a month written `YYYY-MM` covers exactly that month: it
   * runs from its first day to the first day of the next,
   * and for December that is January 1 of the following year.
   */
  lemma PlanRangeOfMonthText(year: int, month: int, today: Date)
    requires MinYear <= year < MaxYear && 1 <= month <= 12
    ensures PlanRange(Some(YearMonthText(Date(year, month, 1))), today) == MonthRange(year, month)
    ensures month == 12 ==> PlanRange(Some(YearMonthText(Date(year, month, 1))), today)
                              == Ok((Date(year, 12, 1), Date(year + 1, 1, 1)))
  {
    ParseMonthOfYearMonthText(year, month);
  }

  /** Without a month the range is the current month's, December included. */
  lemma PlanRangeCurrentMonth(today: Date)
    requires Valid(today) && today.year < MaxYear
    ensures PlanRange(None, today) == Ok((Date(today.year, today.month, 1),
                                          if today.month == 12 then Date(today.year + 1, 1, 1)
                                          else Date(today.year, today.month + 1, 1)))
  {
  }
}
