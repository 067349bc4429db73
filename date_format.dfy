/**
 * Which strings `datetime.strptime(s, '%Y-%m-%d')` accepts. The directives
 * stand for CPython's patterns: `%Y` four digits, `%m` one of `1[0-2]`,
 * `0[1-9]`, `[1-9]`, `%d` one of `3[01]`, `[12]\d`, `0[1-9]`, `[1-9]`,
 * ` [1-9]`; the whole string must be consumed, and the date must exist
 * (year at least 1, day within its month, Gregorian leap years).
 */
module DateFormat {
  import opened Text

  predicate IsLeapYear(year: int) {
    year % 4 == 0 && (year % 100 != 0 || year % 400 == 0)
  }

  /** Number of days of `month` in `year`; 0 for a month outside 1..12. */
  function DaysInMonth(year: int, month: int): (r: int)
    ensures 1 <= month <= 12 ==> 28 <= r <= 31
    ensures month == 2 ==> (r == 29 <==> IsLeapYear(year))
  {
    if month == 2 then (if IsLeapYear(year) then 29 else 28)
    else if month == 4 || month == 6 || month == 9 || month == 11 then 30
    else if 1 <= month <= 12 then 31
    else 0
  }

  /** The text `%m` matches: `1[0-2]|0[1-9]|[1-9]`. */
  predicate IsMonthToken(t: string) {
    || (|t| == 1 && '1' <= t[0] <= '9')
    || (|t| == 2 && t[0] == '1' && '0' <= t[1] <= '2')
    || (|t| == 2 && t[0] == '0' && '1' <= t[1] <= '9')
  }

  /** The text `%d` matches: `3[01]|[12]\d|0[1-9]|[1-9]| [1-9]`. */
  predicate IsDayToken(t: string) {
    || (|t| == 1 && '1' <= t[0] <= '9')
    || (|t| == 2 && t[0] == '3' && (t[1] == '0' || t[1] == '1'))
    || (|t| == 2 && (t[0] == '1' || t[0] == '2') && IsDigit(t[1]))
    || (|t| == 2 && t[0] == '0' && '1' <= t[1] <= '9')
    || (|t| == 2 && t[0] == ' ' && '1' <= t[1] <= '9')
  }

  /** `int(t)` of a day token, which ignores the leading blank of ` [1-9]`. */
  function DayValue(t: string): nat {
    if |t| > 0 && t[0] == ' ' then DecimalValue(t[1..]) else DecimalValue(t)
  }

  /**
   * Index of the '-' that ends the month: the month is one character when
   * s[6] is '-', otherwise two. (A two-character month puts a digit at s[6],
   * so the regular expression can take only one of the two routes.)
   */
  function MonthEnd(s: string): nat {
    if 6 < |s| && s[6] == '-' then 6 else 7
  }

  /** `datetime.strptime(s, '%Y-%m-%d')` returns without raising ValueError. */
  predicate IsValidDate(s: string)
    ensures IsValidDate(s) ==> 8 <= |s| <= 10 && AllDigits(s[..4]) && s[4] == '-' && (s[6] == '-' || s[7] == '-')
  {
    5 <= |s| && AllDigits(s[..4]) && s[4] == '-' &&
    var sep := MonthEnd(s);
    sep < |s| && s[sep] == '-' &&
    var year, month, day := s[..4], s[5..sep], s[sep + 1..];
    IsMonthToken(month) && IsDayToken(day) &&
    1 <= DecimalValue(year) && DayValue(day) <= DaysInMonth(DecimalValue(year), DecimalValue(month))
  }

  /** A four-digit year, a month and day of two digits: accepted. */
  lemma AcceptsIsoDate()
    ensures IsValidDate("2024-12-25")
  {
  }

  /** A month and a day of one digit each: accepted. */
  lemma AcceptsOneDigitFields()
    ensures IsValidDate("2024-1-5")
  {
    var s := "2024-1-5";
    YearFieldValue("2024");
    assert s[..4] == "2024" && MonthEnd(s) == 6 && s[5..6] == "1" && s[7..] == "5";
  }

  /** A day padded with a blank: accepted. */
  lemma AcceptsBlankPaddedDay()
    ensures IsValidDate("2024-01- 5")
  {
    var s := "2024-01- 5";
    YearFieldValue("2024");
    assert s[..4] == "2024" && MonthEnd(s) == 7 && s[5..7] == "01" && s[8..] == " 5";
    assert DayValue(" 5") == 5 by { assert " 5"[1..] == "5"; }
  }

  /** The value of a four-character year field, digit by digit. */
  lemma YearFieldValue(y: string)
    requires |y| == 4
    ensures DecimalValue(y) == 1000 * DigitValue(y[0]) + 100 * DigitValue(y[1]) + 10 * DigitValue(y[2]) + DigitValue(y[3])
  {
    var y1, y2, y3 := y[..1], y[..2], y[..3];
    assert y1[..0] == [] && y2[..1] == y1 && y3[..2] == y2 && y[..3] == y3;
    assert DecimalValue(y1) == DigitValue(y[0]);
    assert DecimalValue(y2) == 10 * DigitValue(y[0]) + DigitValue(y[1]);
    assert DecimalValue(y3) == 100 * DigitValue(y[0]) + 10 * DigitValue(y[1]) + DigitValue(y[2]);
  }

  /** The value of a two-character field. */
  lemma TwoDigitValue(t: string)
    requires |t| == 2
    ensures DecimalValue(t) == 10 * DigitValue(t[0]) + DigitValue(t[1])
  {
    var t1 := t[..1];
    assert t1[..0] == [] && t[..1] == t1;
    assert DecimalValue(t1) == DigitValue(t[0]);
  }

  /** A year of four digits, '-', then a zero-padded "MM-DD" whose day is in the month: accepted. */
  lemma PaddedDateValid(year: string, monthDay: string)
    requires |year| == 4 && AllDigits(year) && 1 <= DecimalValue(year)
    requires |monthDay| == 5 && monthDay[2] == '-'
    requires IsMonthToken(monthDay[..2]) && IsDayToken(monthDay[3..]) && monthDay[3] != ' '
    requires 10 * DigitValue(monthDay[3]) + DigitValue(monthDay[4])
      <= DaysInMonth(DecimalValue(year), 10 * DigitValue(monthDay[0]) + DigitValue(monthDay[1]))
    ensures IsValidDate(year + "-" + monthDay)
  {
    var s := year + "-" + monthDay;
    assert s[..4] == year && s[4] == '-';
    assert s[6] == monthDay[1] && s[7] == '-';
    assert s[5..7] == monthDay[..2] && s[8..] == monthDay[3..];
    TwoDigitValue(monthDay[..2]);
    TwoDigitValue(monthDay[3..]);
  }

  /** 29 February exists in a leap year... */
  lemma LeapDayInLeapYear()
    ensures IsValidDate("2024-02-29")
  {
    YearFieldValue("2024");
    assert "2024-02-29"[..4] == "2024";
  }

  /** ...and not in any other year. */
  lemma NoLeapDayOtherwise()
    ensures !IsValidDate("2023-02-29")
  {
    YearFieldValue("2023");
    assert "2023-02-29"[..4] == "2023";
  }

  /** Days past the end of the month and a thirteenth month are rejected. */
  lemma RejectsImpossibleDays()
    ensures !IsValidDate("2024-04-31")
    ensures !IsValidDate("2024-13-01")
  {
  }

  /** Year 0 does not exist. */
  lemma RejectsYearZero()
    ensures !IsValidDate("0000-01-01")
  {
    YearFieldValue("0000");
    assert "0000-01-01"[..4] == "0000";
  }

  /** Two-digit years, other separators and trailing characters are rejected. */
  lemma RejectsOtherLayouts()
    ensures !IsValidDate("24-01-01")
    ensures !IsValidDate("2024/01/01")
    ensures !IsValidDate("2024-01-01 ")
  {
  }
}
