/**
 * Calendar dates as Python's `datetime.date` holds them, the `date(y, m, d)`
 * constructor with its errors, and the month arithmetic the spending-plan
 * tools share: a month `YYYY-MM` becomes the half-open range from its first
 * day to the first day of the next month.
 */
module Dates {
  import opened Wrappers
  import opened Strings
  import opened PyErrors

  datatype Date = Date(year: int, month: int, day: int)

  const MinYear: int := 1
  const MaxYear: int := 9999
  /** The range of a C `int`, which `date()` converts its arguments to first. */
  const IntMin: int := -0x8000_0000
  const IntMax: int := 0x7FFF_FFFF


  predicate IsLeap(y: int) {
    y % 4 == 0 && (y % 100 != 0 || y % 400 == 0)
  }

  function DaysInMonth(y: int, m: int): (n: int)
    requires 1 <= m <= 12
    ensures 28 <= n <= 31
  {
    if m == 2 then (if IsLeap(y) then 29 else 28)
    else if m == 4 || m == 6 || m == 9 || m == 11 then 30
    else 31
  }

  predicate Valid(d: Date) {
    MinYear <= d.year <= MaxYear && 1 <= d.month <= 12 && 1 <= d.day <= DaysInMonth(d.year, d.month)
  }

  /**
   * Parsing a YYYY-MM-DD date with `strptime`: a library call, so its
   * outcome on each text is an input; a date it returns is a real one.
   */
  type DateParser = f: string -> Result<Date, Exc> | forall s :: f(s).Ok? ==> Valid(f(s).value)
    witness (s: string) => Err(Exc(ValueError, "time data does not match format '%Y-%m-%d'"))

  /** Python's date comparison `a <= b`: by year, then month, then day. */
  predicate Le(a: Date, b: Date) {
    a.year < b.year || (a.year == b.year && (a.month < b.month || (a.month == b.month && a.day <= b.day)))
  }

  predicate Lt(a: Date, b: Date) {
    Le(a, b) && a != b
  }

  function CIntError(n: int): Exc {
    Exc(OverflowError, if n > IntMax then "signed integer is greater than maximum"
                       else "signed integer is less than minimum")
  }

  /** `datetime.date(y, m, d)`: the arguments are converted to C ints in order, then range-checked in order. */
  function MakeDate(y: int, m: int, d: int): (r: Result<Date, Exc>)
    ensures r.Ok? <==> Valid(Date(y, m, d))
    ensures r.Ok? ==> r.value == Date(y, m, d)
  {
    if !(IntMin <= y <= IntMax) then Err(CIntError(y))
    else if !(IntMin <= m <= IntMax) then Err(CIntError(m))
    else if !(IntMin <= d <= IntMax) then Err(CIntError(d))
    else if !(MinYear <= y <= MaxYear) then Err(Exc(ValueError, "year " + IntToDecimal(y) + " is out of range"))
    else if !(1 <= m <= 12) then Err(Exc(ValueError, "month must be in 1..12"))
    else if !(1 <= d <= DaysInMonth(y, m)) then Err(Exc(ValueError, "day is out of range for month"))
    else Ok(Date(y, m, d))
  }

  /**
   * The month as a range: it starts on its first day and ends on the first
   * day of the next month, which for December is January of the next year.
   */
  function MonthRange(year: int, month: int): Result<(Date, Date), Exc> {
    match MakeDate(year, month, 1)
      case Err(e) => Err(e)
      case Ok(start) =>
        var next := if month == 12 then MakeDate(year + 1, 1, 1) else MakeDate(year, month + 1, 1);
        match next
          case Err(e) => Err(e)
          case Ok(end) => Ok((start, end))
  }

  /**
   * The range exists exactly for the months of years 1 to 9999 but the last,
   * starts on the first of the month, and holds exactly that month's days.
   */
  lemma MonthRangeCovers(year: int, month: int)
    ensures MonthRange(year, month).Ok? <==> MinYear <= year <= MaxYear && 1 <= month <= 12 && !(year == MaxYear && month == 12)
    ensures MonthRange(year, month).Ok? ==>
      var (start, end) := MonthRange(year, month).value;
      start == Date(year, month, 1) && end.day == 1 && Lt(start, end) &&
      forall d :: Valid(d) ==> (Le(start, d) && Lt(d, end) <==> d.year == year && d.month == month)
  {
  }

  /** In December the range ends on the first of January of the following year. */
  lemma DecemberRollsOver(year: int)
    requires MinYear <= year < MaxYear
    ensures MonthRange(year, 12) == Ok((Date(year, 12, 1), Date(year + 1, 1, 1)))
  {
  }

  /**
   * Unpacking the dash-separated parts of a month into year and month
   * through a lazy `map` of `int()`: each part is converted as the
   * unpacking pulls it, and a third part is pulled (and converted) before
   * the unpacking can complain about too many values.
   */
  function UnpackYearMonth(parts: seq<string>): (r: Result<(int, int), Exc>)
    requires |parts| >= 1
    ensures r.Ok? <==> |parts| == 2 && PyInt(parts[0]).Some? && PyInt(parts[1]).Some?
    ensures r.Ok? ==> r.value == (PyInt(parts[0]).value, PyInt(parts[1]).value)
    ensures r.Err? ==> IsValueError(r.error)
  {
    match IntOfStr(parts[0])
      case Err(e) => Err(e)
      case Ok(y) =>
        if |parts| == 1 then Err(Exc(ValueError, "not enough values to unpack (expected 2, got 1)"))
        else match IntOfStr(parts[1])
          case Err(e) => Err(e)
          case Ok(m) =>
            if |parts| == 2 then Ok((y, m))
            else match IntOfStr(parts[2])
              case Err(e) => Err(e)
              case Ok(_) => Err(Exc(ValueError, "too many values to unpack (expected 2)"))
  }

  /** The range of the month a `YYYY-MM` argument names. */
  function ParseMonth(s: string): Result<(Date, Date), Exc> {
    match UnpackYearMonth(Split(s, '-'))
      case Err(e) => Err(e)
      case Ok((y, m)) => MonthRange(y, m)
  }

  /** `n` in decimal, at least `width` digits, padded with zeros in front. */
  function ZeroPad(n: nat, width: nat): (s: string)
    ensures |s| >= width && AllDigits(s)
    decreases width
  {
    var d := NatToDecimal(n);
    if |d| >= width then d else "0" + ZeroPad(n, width - 1)
  }

  /** `d.strftime('%Y-%m')`. */
  function YearMonthText(d: Date): (r: string)
    requires Valid(d)
    ensures r != []
  {
    ZeroPad(d.year, 4) + "-" + ZeroPad(d.month, 2)
  }

  /** `d.isoformat()`, which is also `str(d)`. */
  function IsoFormat(d: Date): string
    requires Valid(d)
  {
    ZeroPad(d.year, 4) + "-" + ZeroPad(d.month, 2) + "-" + ZeroPad(d.day, 2)
  }

  lemma {:induction false} ZeroPadValue(n: nat, width: nat)
    ensures DigitsValue(ZeroPad(n, width)) == n
    decreases width
  {
    var d := NatToDecimal(n);
    DecimalRoundTrip(n);
    if |d| < width {
      ZeroPadValue(n, width - 1);
      LeadingZero(ZeroPad(n, width - 1));
    }
  }

  lemma {:induction false} LeadingZero(s: string)
    requires AllDigits(s)
    ensures AllDigits("0" + s) && DigitsValue("0" + s) == DigitsValue(s)
    decreases |s|
  {
    if s != [] {
      var t := "0" + s;
      assert t[..|t| - 1] == "0" + s[..|s| - 1];
      LeadingZero(s[..|s| - 1]);
    }
  }

  lemma ZeroPadParses(n: nat, width: nat)
    requires width >= 1
    ensures PyInt(ZeroPad(n, width)) == Some(n)
  {
    ZeroPadValue(n, width);
    PyIntDigits(ZeroPad(n, width));
  }

  /** Reading back the month a range was printed for gives the same range. */
  lemma ParseMonthOfYearMonthText(year: int, month: int)
    requires MinYear <= year <= MaxYear && 1 <= month <= 12
    ensures ParseMonth(YearMonthText(Date(year, month, 1))) == MonthRange(year, month)
  {
    var y := ZeroPad(year, 4);
    var m := ZeroPad(month, 2);
    NoDash(y);
    NoDash(m);
    assert YearMonthText(Date(year, month, 1)) == y + ['-'] + m;
    SplitCons(y, '-', m);
    assert SplitFirst(m, '-') == (m, None);
    assert Split(y + ['-'] + m, '-') == [y, m];
    ZeroPadParses(year, 4);
    ZeroPadParses(month, 2);
    assert UnpackYearMonth([y, m]) == Ok((year, month));
  }

  lemma NoDash(s: string)
    requires AllDigits(s)
    ensures '-' !in s
  {
  }
}
