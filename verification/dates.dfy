/** Calendar dates as the booking handlers see them: `datetime.now()` read as a clock
    value, `strftime` to store it as text, and `datetime.strptime(text, '%Y-%m-%d')`
    to compare a requested visit date with today. */
module Dates {
  import opened Wrappers

  datatype Date = Date(year: int, month: int, day: int)

  predicate IsLeap(y: int) {
    y % 4 == 0 && (y % 100 != 0 || y % 400 == 0)
  }

  function DaysInMonth(y: int, m: int): int
    requires 1 <= m <= 12
  {
    if m == 2 then (if IsLeap(y) then 29 else 28)
    else if m == 4 || m == 6 || m == 9 || m == 11 then 30
    else 31
  }

  /** A date Python's `datetime.date` accepts: years 1 to 9999, real days of real months. */
  predicate ValidDate(d: Date) {
    && 1 <= d.year <= 9999
    && 1 <= d.month <= 12
    && 1 <= d.day <= DaysInMonth(d.year, d.month)
  }

  datatype DateTime = DateTime(date: Date, hour: int, minute: int, second: int)

  predicate ValidDateTime(t: DateTime) {
    ValidDate(t.date) && 0 <= t.hour < 24 && 0 <= t.minute < 60 && 0 <= t.second < 60
  }

  /** A reading of the clock (`datetime.now()`), always a valid date and time. */
  type Instant = t: DateTime | ValidDateTime(t) witness DateTime(Date(1970, 1, 1), 0, 0, 0)

  // ---------------------------------------------------------------------------
  // Formatting (strftime)
  // ---------------------------------------------------------------------------

  predicate IsDigit(c: char) {
    '0' <= c <= '9'
  }

  function DigitChar(n: int): (c: char)
    requires 0 <= n <= 9
    ensures IsDigit(c) && DigitValue(c) == n
  {
    (48 + n) as char
  }

  function DigitValue(c: char): int
    requires IsDigit(c)
  {
    c as int - 48
  }

  /** Two decimal digits, zero padded (`%m`, `%d`, `%H`, `%M`, `%S`). */
  function Pad2(n: int): string
    requires 0 <= n < 100
  {
    [DigitChar(n / 10), DigitChar(n % 10)]
  }

  /** Four decimal digits, zero padded (`%Y`). */
  function Pad4(n: int): string
    requires 0 <= n < 10000
  {
    [DigitChar(n / 1000), DigitChar(n / 100 % 10), DigitChar(n / 10 % 10), DigitChar(n % 10)]
  }

  /** `strftime('%Y-%m-%d')`: always ten characters. */
  function FormatDate(d: Date): (r: string)
    requires ValidDate(d)
    ensures |r| == 10 && r[4] == '-' && r[7] == '-'
  {
    Pad4(d.year) + "-" + Pad2(d.month) + "-" + Pad2(d.day)
  }

  /** `strftime('%Y-%m-%d %H:%M:%S')`: the date as above, a space, then the time. */
  function FormatStamp(t: Instant): (r: string)
    ensures |r| == 19 && r[..10] == FormatDate(t.date) && r[10] == ' '
  {
    FormatDate(t.date) + " " + Pad2(t.hour) + ":" + Pad2(t.minute) + ":" + Pad2(t.second)
  }

  /** What a handler takes from the clock: today's date (for comparisons), the date
      as `booking_date` text and the full time stamp as `checkin_time` text. The
      handlers read the clock more than once, so the three are separate values. */
  datatype Clock = Clock(today: Date, dateText: string, stampText: string)

  /** One reading of the clock, formatted the way the handlers store it; its date
      text parses back to its date. */
  function ReadClock(t: Instant): (c: Clock)
    ensures c.today == t.date && ParseDate(c.dateText) == Some(t.date)
    ensures |c.stampText| == 19 && c.stampText[..10] == c.dateText
  {
    ParseFormatDate(t.date);
    Clock(t.date, FormatDate(t.date), FormatStamp(t))
  }

  // ---------------------------------------------------------------------------
  // Parsing (strptime with '%Y-%m-%d')
  //
  // strptime turns the format into a regular expression: `%Y` is four digits,
  // `%m` is the alternation 1[0-2] | 0[1-9] | [1-9], `%d` is
  // 3[01] | [12][0-9] | 0[1-9] | [1-9] | ' '[1-9], and `-` is literal. The
  // expression is matched at the start of the text (alternatives tried in order,
  // backtracking into `%m` when the rest fails), text left over after the match
  // is an error, and so is a date `datetime.date` refuses.
  // ---------------------------------------------------------------------------

  /** A component read by one alternative: its value and the position after it. */
  datatype Field = Field(value: int, end: nat)

  predicate DigitIn(s: string, i: int, lo: char, hi: char) {
    0 <= i < |s| && lo <= s[i] <= hi
  }

  /** The `%m` alternatives that match at `i`, in the order the expression tries them. */
  function MonthAlternatives(s: string, i: nat): (r: seq<Field>)
    ensures forall k :: 0 <= k < |r| ==> 1 <= r[k].value <= 12 && i < r[k].end <= |s|
  {
    (if DigitIn(s, i, '1', '1') && DigitIn(s, i + 1, '0', '2')
     then [Field(10 + DigitValue(s[i + 1]), i + 2)] else [])
    + (if DigitIn(s, i, '0', '0') && DigitIn(s, i + 1, '1', '9')
       then [Field(DigitValue(s[i + 1]), i + 2)] else [])
    + (if DigitIn(s, i, '1', '9') then [Field(DigitValue(s[i]), i + 1)] else [])
  }

  /** The first `%d` alternative that matches at `i`. */
  function MatchDay(s: string, i: nat): (r: Option<Field>)
    ensures r.Some? ==> 1 <= r.value.value <= 31 && i < r.value.end <= |s|
  {
    if DigitIn(s, i, '3', '3') && DigitIn(s, i + 1, '0', '1') then
      Some(Field(30 + DigitValue(s[i + 1]), i + 2))
    else if DigitIn(s, i, '1', '2') && DigitIn(s, i + 1, '0', '9') then
      Some(Field(10 * DigitValue(s[i]) + DigitValue(s[i + 1]), i + 2))
    else if DigitIn(s, i, '0', '0') && DigitIn(s, i + 1, '1', '9') then
      Some(Field(DigitValue(s[i + 1]), i + 2))
    else if DigitIn(s, i, '1', '9') then
      Some(Field(DigitValue(s[i]), i + 1))
    else if 0 <= i < |s| && s[i] == ' ' && DigitIn(s, i + 1, '1', '9') then
      Some(Field(DigitValue(s[i + 1]), i + 2))
    else None
  }

  /** The month and day the expression settles on: the first month alternative
      after which `-` and some day alternative follow. */
  function MatchMonthDay(s: string, months: seq<Field>): (r: Option<(int, Field)>)
    requires forall k :: 0 <= k < |months| ==> 1 <= months[k].value <= 12
    ensures r.Some? ==> 1 <= r.value.0 <= 12 && 1 <= r.value.1.value <= 31 && r.value.1.end <= |s|
  {
    if |months| == 0 then None
    else
      var m := months[0];
      if m.end < |s| && s[m.end] == '-' && MatchDay(s, m.end + 1).Some? then
        Some((m.value, MatchDay(s, m.end + 1).value))
      else MatchMonthDay(s, months[1..])
  }

  /** `datetime.strptime(s, '%Y-%m-%d').date()`, with None where Python raises ValueError. */
  function ParseDate(s: string): (r: Option<Date>)
    ensures r.Some? ==> ValidDate(r.value)
  {
    if |s| < 5 || !IsDigit(s[0]) || !IsDigit(s[1]) || !IsDigit(s[2]) || !IsDigit(s[3]) || s[4] != '-' then
      None
    else
      var year := 1000 * DigitValue(s[0]) + 100 * DigitValue(s[1]) + 10 * DigitValue(s[2]) + DigitValue(s[3]);
      match MatchMonthDay(s, MonthAlternatives(s, 5))
      case None => None
      case Some((month, day)) =>
        if day.end != |s| then None                    // unconverted data remains
        else if !ValidDate(Date(year, month, day.value)) then None
        else Some(Date(year, month, day.value))
  }

  /** Digits written by `Pad4` read back as the number. */
  lemma Pad4Value(n: int)
    requires 0 <= n < 10000
    ensures var p := Pad4(n);
      1000 * DigitValue(p[0]) + 100 * DigitValue(p[1]) + 10 * DigitValue(p[2]) + DigitValue(p[3]) == n
  {
    var q1 := n / 10;
    var q2 := q1 / 10;
    assert n == 10 * q1 + n % 10;
    assert q1 == 10 * q2 + q1 % 10;
    assert q2 == n / 100;
    assert q2 == 10 * (n / 1000) + q2 % 10;
  }

  /** Parsing what `FormatDate` wrote gives the date back: the stored booking date
      and the clock's date are the same day to the booking rule. */
  lemma {:induction false} ParseFormatDate(d: Date)
    requires ValidDate(d)
    ensures ParseDate(FormatDate(d)) == Some(d)
  {
    var s := FormatDate(d);
    Pad4Value(d.year);
    var months := MonthAlternatives(s, 5);
    assert s[5] == DigitChar(d.month / 10) && s[6] == DigitChar(d.month % 10);
    assert s[8] == DigitChar(d.day / 10) && s[9] == DigitChar(d.day % 10);
    assert MatchDay(s, 8) == Some(Field(d.day, 10));
    assert months[0] == Field(d.month, 7);
    assert MatchMonthDay(s, months) == Some((d.month, Field(d.day, 10)));
  }
}
