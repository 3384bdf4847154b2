/** Calendar dates as the views use them: the `YYYY-MM-DD` text of a date
    input or of `toISOString().split('T')[0]`, read by `new Date(text)` as
    midnight UTC of that day.  A date is a day in the proleptic Gregorian
    calendar; its day number counts days from 1970-01-01, so that
    `getTime()` is the day number times `MsPerDay`. */
module Dates {
  import opened Wrappers
  import opened Text

  /** Milliseconds per day. */
  const MsPerDay: int := 86400000

  /** Day number of 1970-01-01 counted from 0000-01-01. */
  const EpochOffset: int := 719528

  datatype Date = Date(year: int, month: int, day: int)

  predicate IsLeapYear(y: int)
  {
    y % 4 == 0 && (y % 100 != 0 || y % 400 == 0)
  }

  function YearLength(y: int): int
  {
    if IsLeapYear(y) then 366 else 365
  }

  function DaysInMonth(y: int, m: int): (n: int)
    requires 1 <= m <= 12
    ensures 28 <= n <= 31
    ensures m == 2 ==> (n == 29 <==> IsLeapYear(y))
  {
    if m == 2 then (if IsLeapYear(y) then 29 else 28)
    else if m == 4 || m == 6 || m == 9 || m == 11 then 30
    else 31
  }

  /** A real calendar day of a year from 0 on (the years a `YYYY` field can
      name, and the later ones reached by adding days). */
  predicate Valid(d: Date)
  {
    0 <= d.year && 1 <= d.month <= 12 && 1 <= d.day <= DaysInMonth(d.year, d.month)
  }

  /** Days from 0000-01-01 to January 1st of year `y`. */
  function DaysBeforeYear(y: nat): int
  {
    365 * y + (y + 3) / 4 - (y + 99) / 100 + (y + 399) / 400
  }

  /** Days from January 1st to the first day of month `m` of year `y`. */
  function DaysBeforeMonth(y: int, m: int): int
    requires 1 <= m <= 12
  {
    [0, 31, 59, 90, 120, 151, 181, 212, 243, 273, 304, 334][m - 1]
      + (if m > 2 && IsLeapYear(y) then 1 else 0)
  }

  /** Days since 1970-01-01 (negative before it). */
  function DayNumber(d: Date): int
    requires Valid(d)
  {
    DaysBeforeYear(d.year) + DaysBeforeMonth(d.year, d.month) + d.day - 1 - EpochOffset
  }

  /** `getTime()` of midnight UTC on that day. */
  function TimeValue(d: Date): int
    requires Valid(d)
  {
    DayNumber(d) * MsPerDay
  }

  lemma Div4Step(y: nat)
    ensures (y + 4) / 4 == (y + 3) / 4 + (if y % 4 == 0 then 1 else 0)
  {
  }

  lemma Div100Step(y: nat)
    ensures (y + 100) / 100 == (y + 99) / 100 + (if y % 100 == 0 then 1 else 0)
  {
  }

  lemma Div400Step(y: nat)
    ensures (y + 400) / 400 == (y + 399) / 400 + (if y % 400 == 0 then 1 else 0)
  {
  }

  /** A year adds its own length to the count of days before the next. */
  lemma DaysBeforeYearStep(y: nat)
    ensures DaysBeforeYear(y + 1) == DaysBeforeYear(y) + YearLength(y)
  {
    Div4Step(y);
    Div100Step(y);
    Div400Step(y);
    var a, b, c := (y + 3) / 4, (y + 99) / 100, (y + 399) / 400;
    var da, db, dc := (if y % 4 == 0 then 1 else 0), (if y % 100 == 0 then 1 else 0), (if y % 400 == 0 then 1 else 0);
    assert DaysBeforeYear(y) == 365 * y + a - b + c;
    assert DaysBeforeYear(y + 1) == 365 * y + 365 + (a + da) - (b + db) + (c + dc);
    assert YearLength(y) == 365 + da - db + dc;
  }

  /** A month adds its own length to the count of days before the next. */
  lemma DaysBeforeMonthStep(y: int, m: int)
    requires 1 <= m <= 12
    ensures m < 12 ==> DaysBeforeMonth(y, m + 1) == DaysBeforeMonth(y, m) + DaysInMonth(y, m)
    ensures m == 12 ==> DaysBeforeMonth(y, m) + DaysInMonth(y, m) == YearLength(y)
  {
  }

  /** The calendar day after `d`. */
  function NextDay(d: Date): (r: Date)
    requires Valid(d)
    ensures Valid(r) && DayNumber(r) == DayNumber(d) + 1
    ensures d.year <= r.year <= d.year + 1
  {
    DaysBeforeMonthStep(d.year, d.month);
    if d.day < DaysInMonth(d.year, d.month) then Date(d.year, d.month, d.day + 1)
    else if d.month < 12 then Date(d.year, d.month + 1, 1)
    else
      DaysBeforeYearStep(d.year);
      Date(d.year + 1, 1, 1)
  }

  /** `d.setDate(d.getDate() + n)`: the day `n` days after `d`. */
  function AddDays(d: Date, n: nat): (r: Date)
    requires Valid(d)
    ensures Valid(r) && DayNumber(r) == DayNumber(d) + n
    ensures d.year <= r.year <= d.year + n
    decreases n
  {
    if n == 0 then d else AddDays(NextDay(d), n - 1)
  }

  // ---------------------------------------------------------------------
  // ISO text

  function Digit2(n: int): (r: string)
    requires 0 <= n < 100
    ensures |r| == 2 && AllDigits(r)
  {
    [DigitChar(n / 10), DigitChar(n % 10)]
  }

  function Digits4(n: int): (r: string)
    requires 0 <= n < 10000
    ensures |r| == 4 && AllDigits(r)
  {
    [DigitChar(n / 1000), DigitChar(n / 100 % 10), DigitChar(n / 10 % 10), DigitChar(n % 10)]
  }

  function Digits6(n: int): (r: string)
    requires 0 <= n < 1000000
    ensures |r| == 6 && AllDigits(r)
  {
    Digit2(n / 10000) + Digits4(n % 10000)
  }

  /** The date part of `toISOString()`: a four-digit year, or for years
      past 9999 the expanded form with a `+` sign and six digits. */
  function FormatIso(d: Date): (r: string)
    requires Valid(d) && d.year < 1000000
    ensures d.year <= 9999 ==> |r| == 10
  {
    (if d.year <= 9999 then Digits4(d.year) else "+" + Digits6(d.year))
      + "-" + Digit2(d.month) + "-" + Digit2(d.day)
  }

  /** The value of the two decimal digits at `s[i]`, `s[i + 1]`. */
  function Value2(s: string, i: nat): (v: nat)
    requires i + 2 <= |s| && IsDigit(s[i]) && IsDigit(s[i + 1])
    ensures v < 100
  {
    DigitValue(s[i]) * 10 + DigitValue(s[i + 1])
  }

  /** The value of the four decimal digits from `s[i]` on. */
  function Value4(s: string, i: nat): (v: nat)
    requires i + 4 <= |s| && IsDigit(s[i]) && IsDigit(s[i + 1]) && IsDigit(s[i + 2]) && IsDigit(s[i + 3])
    ensures v < 10000
  {
    Value2(s, i) * 100 + Value2(s, i + 2)
  }

  /** The shape `DDDD-DD-DD`. */
  predicate IsoShaped(s: string)
  {
    |s| == 10 && s[4] == '-' && s[7] == '-'
    && forall i :: 0 <= i < 10 && i != 4 && i != 7 ==> IsDigit(s[i])
  }

  /** `new Date(s)` for the date-only ISO form `YYYY-MM-DD`; `None` is an
      invalid date (`getTime()` is `NaN`), which is what an empty input,
      any other text, or a day that does not exist in its month gives. */
  function ParseIso(s: string): (r: Option<Date>)
    ensures r.Some? ==> Valid(r.value) && r.value.year <= 9999 && IsoShaped(s)
  {
    if IsoShaped(s) then
      var d := Date(Value4(s, 0), Value2(s, 5), Value2(s, 8));
      if 1 <= d.month <= 12 && 1 <= d.day <= DaysInMonth(d.year, d.month) then Some(d) else None
    else None
  }

  /** Reading back the text `toISOString` writes for a date of a four-digit
      year gives that date. */
  lemma ParseFormatIso(d: Date)
    requires Valid(d) && d.year <= 9999
    ensures ParseIso(FormatIso(d)) == Some(d)
  {
    var s := FormatIso(d);
    var y4, m2, d2 := Digits4(d.year), Digit2(d.month), Digit2(d.day);
    assert s == y4 + "-" + m2 + "-" + d2;
    assert s[0] == y4[0] && s[1] == y4[1] && s[2] == y4[2] && s[3] == y4[3];
    assert s[4] == '-' && s[5] == m2[0] && s[6] == m2[1];
    assert s[7] == '-' && s[8] == d2[0] && s[9] == d2[1];
    assert IsoShaped(s);
    DigitsRoundTrip(d.year);
    Digit2RoundTrip(d.month);
    Digit2RoundTrip(d.day);
  }

  /** The digits of `Digit2` and `Digits4` read back as the number. */
  lemma Digit2RoundTrip(n: int)
    requires 0 <= n < 100
    ensures DigitValue(Digit2(n)[0]) * 10 + DigitValue(Digit2(n)[1]) == n
  {
  }

  lemma DigitsRoundTrip(n: int)
    requires 0 <= n < 10000
    ensures var r := Digits4(n);
            (DigitValue(r[0]) * 10 + DigitValue(r[1])) * 100 + DigitValue(r[2]) * 10 + DigitValue(r[3]) == n
  {
    var a, b, c, e := n / 1000, n / 100 % 10, n / 10 % 10, n % 10;
    assert n / 10 == (n / 100) * 10 + c;
    assert n / 100 == a * 10 + b;
  }

  lemma TwoDigits(a: nat, b: nat)
    requires a < 10 && b < 10
    ensures (a * 10 + b) / 10 == a && (a * 10 + b) % 10 == b
  {
  }

  lemma FourDigits(a: nat, b: nat, c: nat, e: nat)
    requires a < 10 && b < 10 && c < 10 && e < 10
    ensures var n := (a * 10 + b) * 100 + c * 10 + e;
      n / 1000 == a && n / 100 % 10 == b && n / 10 % 10 == c && n % 10 == e
  {
    var n := (a * 10 + b) * 100 + c * 10 + e;
    assert n / 1000 == a by {
      assert n == a * 1000 + (b * 100 + c * 10 + e);
    }
    assert n / 100 == a * 10 + b by {
      assert n == (a * 10 + b) * 100 + (c * 10 + e);
    }
    assert n / 10 == (a * 10 + b) * 10 + c && n % 10 == e by {
      assert n == ((a * 10 + b) * 10 + c) * 10 + e;
    }
    TwoDigits(a, b);
    assert ((a * 10 + b) * 10 + c) % 10 == c;
  }

  /** Text that parses as a date is the canonical text of that date, so
      two texts naming the same day are equal. */
  lemma FormatParseIso(s: string)
    requires ParseIso(s).Some?
    ensures FormatIso(ParseIso(s).value) == s
  {
    var d := ParseIso(s).value;
    FourDigits(DigitValue(s[0]), DigitValue(s[1]), DigitValue(s[2]), DigitValue(s[3]));
    TwoDigits(DigitValue(s[5]), DigitValue(s[6]));
    TwoDigits(DigitValue(s[8]), DigitValue(s[9]));
    var t := FormatIso(d);
    assert t[..4] == s[..4];
    assert t[5..7] == s[5..7];
    assert t[8..] == s[8..];
    assert s == s[..4] + "-" + s[5..7] + "-" + s[8..];
  }
}
