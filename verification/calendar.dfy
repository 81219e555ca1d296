/**
 * What `datetime.strptime(s, "%d.%m.%Y")` accepts when `s` is built from a
 * day, a month and a year digit string joined by dots.
 *
 * The format becomes the regular expression
 *   (?P<d>3[01]|[12]\d|0[1-9]|[1-9]| [1-9])\.(?P<m>1[0-2]|0[1-9]|[1-9])\.(?P<Y>\d\d\d\d)
 * which must match the whole string; afterwards the date is built with
 * Python's `datetime.date`, which checks the year against 1..9999 and the
 * day against the length of the month in the proleptic Gregorian calendar.
 * Every alternative of the day and month groups has a fixed length, and
 * each field is followed by a dot (or the end), so a field matches exactly
 * when one alternative spells the whole field.
 */
module Calendar {
  import opened Digits

  const MinYear := 1
  const MaxYear := 9999

  /** Gregorian leap years, as `calendar.isleap`. */
  predicate IsLeapYear(y: int) {
    y % 4 == 0 && (y % 100 != 0 || y % 400 == 0)
  }

  function DaysInMonth(y: int, m: int): (n: int)
    requires 1 <= m <= 12
    ensures 28 <= n <= 31
    ensures n == 31 <==> m in {1, 3, 5, 7, 8, 10, 12}
    ensures n == 30 <==> m in {4, 6, 9, 11}
    ensures n == 29 <==> m == 2 && IsLeapYear(y)
    ensures n == 28 <==> m == 2 && !IsLeapYear(y)
  {
    if m == 2 then (if IsLeapYear(y) then 29 else 28)
    else if m == 4 || m == 6 || m == 9 || m == 11 then 30
    else 31
  }

  /** The checks `datetime.date(year, month, day)` makes before it builds a date. */
  predicate IsValidDate(y: int, m: int, d: int) {
    MinYear <= y <= MaxYear && 1 <= m <= 12 && 1 <= d <= DaysInMonth(y, m)
  }

  /** The `%d` group `3[01]|[12]\d|0[1-9]|[1-9]| [1-9]`, matched by the whole field. */
  predicate DayField(s: string) {
    || (|s| == 2 && s[0] == '3' && (s[1] == '0' || s[1] == '1'))
    || (|s| == 2 && (s[0] == '1' || s[0] == '2') && IsDigit(s[1]))
    || (|s| == 2 && s[0] == '0' && '1' <= s[1] <= '9')
    || (|s| == 1 && '1' <= s[0] <= '9')
    || (|s| == 2 && s[0] == ' ' && '1' <= s[1] <= '9')
  }

  /** The `%m` group `1[0-2]|0[1-9]|[1-9]`, matched by the whole field. */
  predicate MonthField(s: string) {
    || (|s| == 2 && s[0] == '1' && '0' <= s[1] <= '2')
    || (|s| == 2 && s[0] == '0' && '1' <= s[1] <= '9')
    || (|s| == 1 && '1' <= s[0] <= '9')
  }

  /** The `%Y` group `\d\d\d\d`. */
  predicate YearField(s: string) {
    |s| == 4 && AllDigits(s)
  }

  /** `strptime(day + "." + month + "." + year, "%d.%m.%Y")` returns without raising ValueError. */
  predicate StrptimeAccepts(day: string, month: string, year: string) {
    DayField(day) && MonthField(month) && YearField(year) && AllDigits(day) && AllDigits(month)
    && IsValidDate(Value(year), Value(month), Value(day))
  }

  /** On one or two digits, the `%d` pattern accepts exactly the values 1..31. */
  lemma DayFieldRange(s: string)
    requires 1 <= |s| <= 2 && AllDigits(s)
    ensures DayField(s) <==> 1 <= Value(s) <= 31
  {
  }

  /** On one or two digits, the `%m` pattern accepts exactly the values 1..12. */
  lemma MonthFieldRange(s: string)
    requires 1 <= |s| <= 2 && AllDigits(s)
    ensures MonthField(s) <==> 1 <= Value(s) <= 12
  {
  }

  /**
   * On the digit strings the birth-date pattern captures, strptime's
   * verdict is the calendar check on the numbers the fields denote.
   */
  lemma {:induction false} StrptimeIsCalendarCheck(day: string, month: string, year: string)
    requires 1 <= |day| <= 2 && AllDigits(day)
    requires 1 <= |month| <= 2 && AllDigits(month)
    requires |year| == 4 && AllDigits(year)
    ensures StrptimeAccepts(day, month, year) <==> IsValidDate(Value(year), Value(month), Value(day))
  {
    DayFieldRange(day);
    MonthFieldRange(month);
  }
}
