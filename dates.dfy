/** Instants and the `2006-01-02` day format that the transaction listing parses with Go's
  * `time.Parse`. An instant counts microseconds since 1970-01-01 00:00:00 UTC, the
  * resolution of a Postgres timestamp. */
module Dates {
  import opened Outcomes
  import opened Text

  type Instant = int

  const Second: int := 1_000_000
  const Day: int := 86400 * Second

  predicate IsLeap(y: int) {
    y % 4 == 0 && (y % 100 != 0 || y % 400 == 0)
  }

  function DaysIn(y: int, m: int): int
    requires 1 <= m <= 12
  {
    if m == 2 then (if IsLeap(y) then 29 else 28)
    else if m == 4 || m == 6 || m == 9 || m == 11 then 30
    else 31
  }

  /** Days of year `y` that come before the first of month `m`. */
  function DaysBeforeMonth(y: int, m: int): int
    requires 1 <= m <= 12
  {
    var common :=
      if m == 1 then 0 else if m == 2 then 31 else if m == 3 then 59 else if m == 4 then 90
      else if m == 5 then 120 else if m == 6 then 151 else if m == 7 then 181 else if m == 8 then 212
      else if m == 9 then 243 else if m == 10 then 273 else if m == 11 then 304 else 334;
    if m > 2 && IsLeap(y) then common + 1 else common
  }

  /** Days from 0000-01-01 to the first of January of year `y` (proleptic Gregorian calendar). */
  function DaysBeforeYear(y: nat): int {
    365 * y + (y + 3) / 4 - (y + 99) / 100 + (y + 399) / 400
  }

  predicate ValidDate(y: nat, m: int, d: int) {
    1 <= m <= 12 && 1 <= d <= DaysIn(y, m)
  }

  /** Days between 1970-01-01 and the given date. */
  function DayNumber(y: nat, m: int, d: int): int
    requires 1 <= m <= 12
  {
    DaysBeforeYear(y) - DaysBeforeYear(1970) + DaysBeforeMonth(y, m) + d - 1
  }

  /** Midnight UTC at the start of the given date. */
  function DayStart(y: nat, m: int, d: int): Instant
    requires 1 <= m <= 12
  {
    DayNumber(y, m, d) * Day
  }

  /** The shape `DDDD-DD-DD` with decimal digits in the eight digit places. */
  predicate DateShaped(s: string) {
    |s| == 10 && s[4] == '-' && s[7] == '-' && AllDigits(s[..4]) && AllDigits(s[5..7]) && AllDigits(s[8..])
  }

  /** `time.Parse("2006-01-02", s)`: exactly four year digits, two month digits and two day
    * digits, a month in 1..12 and a day that exists in that month; the result is that
    * day's midnight in UTC. None is the parse error. */
  function ParseDate(s: string): (r: Option<Instant>)
    ensures r.Some? <==> DateShaped(s) && ValidDate(DigitsValue(s[..4]), DigitsValue(s[5..7]), DigitsValue(s[8..]))
  {
    if DateShaped(s) then
      var y, m, d := DigitsValue(s[..4]), DigitsValue(s[5..7]), DigitsValue(s[8..]);
      if ValidDate(y, m, d) then Some(DayStart(y, m, d)) else None
    else None
  }

  function Pad2(n: nat): (s: string)
    requires n < 100
    ensures |s| == 2 && AllDigits(s)
  {
    [DigitChar(n / 10), DigitChar(n % 10)]
  }

  function Pad4(n: nat): (s: string)
    requires n < 10000
    ensures |s| == 4 && AllDigits(s)
  {
    Pad2(n / 100) + Pad2(n % 100)
  }

  /** The date as the query parameters `date_from` and `date_to` spell it. */
  function FormatDate(y: nat, m: int, d: int): (s: string)
    requires y < 10000 && ValidDate(y, m, d)
    ensures DateShaped(s)
  {
    Pad4(y) + "-" + Pad2(m) + "-" + Pad2(d)
  }

  lemma Pad2Value(n: nat)
    requires n < 100
    ensures DigitsValue(Pad2(n)) == n
  {
    var s := Pad2(n);
    assert s[..1] == [DigitChar(n / 10)];
    assert s[..1][..0] == [];
    assert DigitsValue(s[..1]) == n / 10;
    assert DigitsValue(s) == DigitsValue(s[..1]) * 10 + n % 10;
  }

  lemma Pad4Value(n: nat)
    requires n < 10000
    ensures DigitsValue(Pad4(n)) == n
  {
    var s := Pad4(n);
    var hi, lo := Pad2(n / 100), Pad2(n % 100);
    assert s[..3] == hi + lo[..1];
    assert s[..3][..2] == hi;
    assert (hi + lo[..1])[..2] == hi;
    Pad2Value(n / 100);
    assert DigitsValue(s[..3]) == (n / 100) * 10 + (lo[0] as int - '0' as int);
  }

  /** Spelling a valid date and parsing it back gives that date's midnight. */
  lemma {:induction false} ParseFormatDate(y: nat, m: int, d: int)
    requires y < 10000 && ValidDate(y, m, d)
    ensures ParseDate(FormatDate(y, m, d)) == Some(DayStart(y, m, d))
  {
    var s := FormatDate(y, m, d);
    assert s[..4] == Pad4(y);
    assert s[5..7] == Pad2(m);
    assert s[8..] == Pad2(d);
    Pad4Value(y);
    Pad2Value(m);
    Pad2Value(d);
  }

  /** The calendar day after the given one. */
  function NextDate(y: nat, m: int, d: int): (r: (nat, int, int))
    requires ValidDate(y, m, d)
    ensures ValidDate(r.0, r.1, r.2)
  {
    if d < DaysIn(y, m) then (y, m, d + 1)
    else if m < 12 then (y, m + 1, 1)
    else (y + 1, 1, 1)
  }

  lemma YearLength(y: nat)
    ensures DaysBeforeYear(y + 1) == DaysBeforeYear(y) + (if IsLeap(y) then 366 else 365)
  {
    assert (y + 4) / 4 == (y + 3) / 4 + (if y % 4 == 0 then 1 else 0);
    assert (y + 100) / 100 == (y + 99) / 100 + (if y % 100 == 0 then 1 else 0);
    assert (y + 400) / 400 == (y + 399) / 400 + (if y % 400 == 0 then 1 else 0);
  }

  /** Consecutive dates start exactly one day apart, so a date covers the instants
    * `DayStart(date) <= t < DayStart(date) + Day`. */
  lemma NextDateStart(y: nat, m: int, d: int)
    requires ValidDate(y, m, d)
    ensures var (y', m', d') := NextDate(y, m, d); DayStart(y', m', d') == DayStart(y, m, d) + Day
  {
    if d == DaysIn(y, m) && m == 12 {
      YearLength(y);
    }
  }
}
