/** Gregorian dates, the `timedelta` step and the fixed `%Y-%m-%d` text form
    used to build the "current month" time filter. */
module Calendar {
  import opened Wrappers
  import opened Text

  datatype Date = Date(year: int, month: int, day: int)

  predicate IsLeapYear(y: int) {
    y % 4 == 0 && (y % 100 != 0 || y % 400 == 0)
  }

  function DaysInMonth(y: int, m: int): (n: int)
    requires 1 <= m <= 12
    ensures 28 <= n <= 31
  {
    if m == 2 then (if IsLeapYear(y) then 29 else 28)
    else if m == 4 || m == 6 || m == 9 || m == 11 then 30
    else 31
  }

  /** A calendar date (no upper year bound: the overflow past year 9999 is excluded by `Supported`). */
  predicate Valid(d: Date) {
    1 <= d.year && 1 <= d.month <= 12 && 1 <= d.day <= DaysInMonth(d.year, d.month)
  }

  /** Dates on which the month-window computation completes without raising: the
      year renders as four digits and the 32-day step stays within year 9999. */
  predicate Supported(d: Date) {
    Valid(d) && 1000 <= d.year <= 9999 && (d.year < 9999 || d.month < 12)
  }

  /** Lexicographic order on (year, month, day). */
  predicate Before(a: Date, b: Date) {
    a.year < b.year || (a.year == b.year && (a.month < b.month || (a.month == b.month && a.day < b.day)))
  }

  /** The first day of the month after (y, m): the reference for the window's upper bound. */
  function FirstOfNextMonth(y: int, m: int): (r: Date)
    requires 1 <= y && 1 <= m <= 12
    ensures Valid(r) && r.day == 1
    ensures Before(Date(y, m, DaysInMonth(y, m)), r)
  {
    if m == 12 then Date(y + 1, 1, 1) else Date(y, m + 1, 1)
  }

  /** The following calendar day. */
  function NextDay(d: Date): (r: Date)
    requires Valid(d)
    ensures Valid(r) && Before(d, r)
  {
    if d.day < DaysInMonth(d.year, d.month) then d.(day := d.day + 1)
    else FirstOfNextMonth(d.year, d.month)
  }

  /** `d + timedelta(days=n)`. */
  function AddDays(d: Date, n: nat): (r: Date)
    requires Valid(d)
    ensures Valid(r)
    decreases n
  {
    if n == 0 then d else AddDays(NextDay(d), n - 1)
  }

  lemma {:induction false} AddDaysWithinMonth(d: Date, k: nat)
    requires Valid(d) && d.day + k <= DaysInMonth(d.year, d.month)
    ensures AddDays(d, k) == d.(day := d.day + k)
    decreases k
  {
    if k > 0 {
      AddDaysWithinMonth(NextDay(d), k - 1);
    }
  }

  lemma {:induction false} AddDaysSplit(d: Date, a: nat, b: nat)
    requires Valid(d)
    ensures AddDays(d, a + b) == AddDays(AddDays(d, a), b)
    decreases a
  {
    if a > 0 {
      AddDaysSplit(NextDay(d), a - 1, b);
    }
  }

  /** Adding 32 days to the first of a month lands in the following month, never
      skipping one, because every month has between 28 and 31 days. */
  lemma ThirtyTwoDaysFromFirst(y: int, m: int)
    requires Valid(Date(y, m, 1))
    ensures AddDays(Date(y, m, 1), 32) == FirstOfNextMonth(y, m).(day := 33 - DaysInMonth(y, m))
  {
    var first := Date(y, m, 1);
    var len := DaysInMonth(y, m);
    var next := FirstOfNextMonth(y, m);
    AddDaysSplit(first, len - 1, 33 - len);
    AddDaysWithinMonth(first, len - 1);
    AddDaysSplit(Date(y, m, len), 1, 32 - len);
    AddDaysWithinMonth(next, 32 - len);
  }

  /** `strftime("%Y-%m-%d")` for a year of at most four digits. */
  function FormatDate(d: Date): (s: string)
    requires 0 <= d.year <= 9999 && 0 <= d.month <= 99 && 0 <= d.day <= 99
    ensures |s| == 10 && s[4] == '-' && s[7] == '-'
  {
    Digits(d.year, 4) + "-" + Digits(d.month, 2) + "-" + Digits(d.day, 2)
  }

  /** `strftime("%Y-%m-01")`: the day is the literal text "01". */
  function FormatMonthStart(d: Date): (s: string)
    requires 0 <= d.year <= 9999 && 0 <= d.month <= 99
    ensures s == FormatDate(Date(d.year, d.month, 1))
  {
    assert Digits(1, 2) == "01";
    Digits(d.year, 4) + "-" + Digits(d.month, 2) + "-01"
  }

  predicate AllDigits(s: string) {
    forall k :: 0 <= k < |s| ==> IsDigit(s[k])
  }

  /** `datetime.strptime(s, "%Y-%m-%d")` for the zero-padded ten-character form;
      None where strptime raises. */
  function ParseDate(s: string): (r: Option<Date>)
    ensures r.Some? ==> Valid(r.value)
  {
    if |s| == 10 && s[4] == '-' && s[7] == '-' && AllDigits(s[..4]) && AllDigits(s[5..7]) && AllDigits(s[8..])
    then
      var d := Date(DigitsValue(s[..4]), DigitsValue(s[5..7]), DigitsValue(s[8..]));
      if Valid(d) then Some(d) else None
    else None
  }

  /** Parsing the rendered form of a date gives the date back. */
  lemma ParseFormatRoundTrip(d: Date)
    requires Valid(d) && d.year <= 9999
    ensures ParseDate(FormatDate(d)) == Some(d)
  {
    var s := FormatDate(d);
    assert s[..4] == Digits(d.year, 4);
    assert s[5..7] == Digits(d.month, 2);
    assert s[8..] == Digits(d.day, 2);
    assert Pow10(4) == 10000 && Pow10(2) == 100;
    DigitsRoundTrip(d.year, 4);
    DigitsRoundTrip(d.month, 2);
    DigitsRoundTrip(d.day, 2);
  }

  /** The default month window: from the first day of today's month up to, but not
      including, the first day of the next month, as a predicate on CREATE_TIME.
      The body follows the source: render "%Y-%m-01", keep the first seven
      characters and append "-01", parse that back, add 32 days, and move to day 1. */
  function DefaultTimeFilter(today: Date): (r: string)
    requires Supported(today)
    ensures r == "CREATE_TIME >= '" + FormatDate(Date(today.year, today.month, 1))
                 + "' AND CREATE_TIME < '" + FormatDate(FirstOfNextMonth(today.year, today.month)) + "'"
  {
    var firstDay := FormatMonthStart(today);
    var nextMonth := firstDay[..7] + "-01";
    assert nextMonth == firstDay;
    ParseFormatRoundTrip(Date(today.year, today.month, 1));
    ThirtyTwoDaysFromFirst(today.year, today.month);
    var parsed := ParseDate(nextMonth).value;
    var nextFirst := AddDays(parsed, 32).(day := 1);
    "CREATE_TIME >= '" + firstDay + "' AND CREATE_TIME < '" + FormatDate(nextFirst) + "'"
  }

  /** Today always lies inside the window the filter selects. */
  lemma TodayInWindow(today: Date)
    requires Valid(today)
    ensures !Before(today, Date(today.year, today.month, 1))
    ensures Before(today, FirstOfNextMonth(today.year, today.month))
  {
  }
}
