/** Calendar dates as text: `date.isoformat`, and what `date.fromisoformat` accepts. */
module IsoDates {
  import opened Outcomes
  import opened Contracts

  /** Days are proleptic Gregorian ordinals; this is the last representable one, 9999-12-31. */
  const LAST_DAY: Day := 3_652_059

  // ---------------------------------------------------------------- the calendar

  predicate IsLeap(y: nat) {
    y % 4 == 0 && (y % 100 != 0 || y % 400 == 0)
  }

  function DaysInMonth(y: nat, m: nat): nat {
    if m == 2 then (if IsLeap(y) then 29 else 28) else if m == 4 || m == 6 || m == 9 || m == 11 then 30 else 31
  }

  function DaysBeforeMonth(y: nat, m: nat): nat {
    if m <= 1 then 0 else DaysBeforeMonth(y, m - 1) + DaysInMonth(y, m - 1)
  }

  function DaysBeforeYear(y: nat): nat
    requires 1 <= y
  {
    (y - 1) * 365 + (y - 1) / 4 - (y - 1) / 100 + (y - 1) / 400
  }

  function Ordinal(y: nat, m: nat, d: nat): int
    requires 1 <= y
  {
    DaysBeforeYear(y) + DaysBeforeMonth(y, m) + d
  }

  lemma YearLength(y: nat)
    requires 1 <= y
    ensures DaysBeforeYear(y + 1) == DaysBeforeYear(y) + DaysBeforeMonth(y, 13)
  {
    hide DaysBeforeMonth;
    MonthsOfYear(y);
    LeapDays(y);
  }

  /** The leap days before a year grow by one exactly after a leap year. */
  lemma LeapDays(y: nat)
    requires 1 <= y
    ensures y / 4 - y / 100 + y / 400
      == (y - 1) / 4 - (y - 1) / 100 + (y - 1) / 400 + if IsLeap(y) then 1 else 0
  {
    Grows(y, 4);
    Grows(y, 100);
    Grows(y, 400);
    var century, cycle := y / 100, y / 400;
    if y % 400 == 0 {
      assert y == 4 * cycle * 100 + 0;
      Divides(4 * cycle, 0, 100);
    }
    if y % 100 == 0 {
      assert y == 25 * century * 4 + 0;
      Divides(25 * century, 0, 4);
    }
  }

  lemma Grows(y: nat, k: nat)
    requires 1 <= y && 1 <= k
    ensures y / k == (y - 1) / k + if y % k == 0 then 1 else 0
  {
    var q, r := (y - 1) / k, (y - 1) % k;
    assert y == q * k + (r + 1);
    if r + 1 == k {
      assert y == (q + 1) * k;
      Divides(q + 1, 0, k);
    } else {
      Divides(q, r + 1, k);
    }
  }

  lemma Divides(q: nat, r: nat, k: nat)
    requires r < k
    ensures (q * k + r) / k == q && (q * k + r) % k == r
  {
    var p, s := (q * k + r) / k, (q * k + r) % k;
    assert p * k + s == q * k + r;
    assert p < q ==> (p + 1) * k <= q * k;
    assert q < p ==> (q + 1) * k <= p * k;
  }

  lemma MonthsOfYear(y: nat)
    ensures DaysBeforeMonth(y, 13) == if IsLeap(y) then 366 else 365
  {
    assert DaysBeforeMonth(y, 1) == 0;
    assert DaysBeforeMonth(y, 2) == 31;
    assert DaysBeforeMonth(y, 3) == if IsLeap(y) then 60 else 59;
    assert DaysBeforeMonth(y, 5) == DaysBeforeMonth(y, 3) + 61;
    assert DaysBeforeMonth(y, 7) == DaysBeforeMonth(y, 5) + 61;
    assert DaysBeforeMonth(y, 9) == DaysBeforeMonth(y, 7) + 62;
    assert DaysBeforeMonth(y, 11) == DaysBeforeMonth(y, 9) + 61;
  }

  /** The year a day falls in, searching upwards. */
  function YearOf(n: Day, y: nat): (r: nat)
    requires 1 <= y <= 9999 && DaysBeforeYear(y) < n <= LAST_DAY
    ensures y <= r <= 9999 && DaysBeforeYear(r) < n <= DaysBeforeYear(r + 1)
    decreases 9999 - y
  {
    if n <= DaysBeforeYear(y + 1) then y
    else
      assert y != 9999;
      YearOf(n, y + 1)
  }

  /** The month a day of the year falls in, searching upwards. */
  function MonthOf(y: nat, k: nat, m: nat): (r: nat)
    requires 1 <= m <= 12 && DaysBeforeMonth(y, m) < k <= DaysBeforeMonth(y, 13)
    ensures m <= r <= 12 && DaysBeforeMonth(y, r) < k <= DaysBeforeMonth(y, r + 1)
    decreases 12 - m
  {
    if k <= DaysBeforeMonth(y, m + 1) then m else MonthOf(y, k, m + 1)
  }

  // ---------------------------------------------------------------- digits

  function Digit(d: nat): char
    requires d < 10
  {
    ('0' as int + d) as char
  }

  function Two(n: nat): string
    requires n < 100
  {
    [Digit(n / 10), Digit(n % 10)]
  }

  function Four(n: nat): string
    requires n < 10000
  {
    Two(n / 100) + Two(n % 100)
  }

  /** The value of a string of ASCII digits. */
  function Number(text: string): Option<nat> {
    if text == [] then Some(0)
    else
      var c := text[|text| - 1];
      var front := Number(text[..|text| - 1]);
      if front.None? || c < '0' || '9' < c then None else Some(front.value * 10 + (c as int - '0' as int))
  }

  lemma NumberTwo(n: nat)
    requires n < 100
    ensures Number(Two(n)) == Some(n)
  {
    var t := Two(n);
    assert t[..1] == [Digit(n / 10)] && t[..1][..0] == [];
    assert Number(t[..1]) == Some(n / 10);
  }

  lemma NumberFour(n: nat)
    requires n < 10000
    ensures Number(Four(n)) == Some(n)
  {
    var t := Four(n);
    var high, low := n / 100, n % 100;
    assert t[..2] == Two(high);
    NumberTwo(high);
    assert t[..3][..2] == Two(high);
    assert t[..3][2] == Digit(low / 10);
    assert Number(t[..3]) == Some(high * 10 + low / 10);
    assert t[..4] == t && t[..3] == t[..|t| - 1];
  }

  // ---------------------------------------------------------------- text

  /** `YYYY-MM-DD`. */
  function Format(n: Day): string
    requires 1 <= n <= LAST_DAY
  {
    var (y, m, d) := DateOf(n);
    Four(y) + "-" + Two(m) + "-" + Two(d)
  }

  /** `YYYYMMDD`. */
  function Compact(n: Day): string
    requires 1 <= n <= LAST_DAY
  {
    var (y, m, d) := DateOf(n);
    Four(y) + Two(m) + Two(d)
  }

  /** The calendar date of a day. */
  function DateOf(n: Day): (r: (nat, nat, nat))
    requires 1 <= n <= LAST_DAY
    ensures 1 <= r.0 <= 9999 && 1 <= r.1 <= 12 && 1 <= r.2 <= DaysInMonth(r.0, r.1) && Ordinal(r.0, r.1, r.2) == n
  {
    var y := YearOf(n, 1);
    YearLength(y);
    var k := n - DaysBeforeYear(y);
    var m := MonthOf(y, k, 1);
    (y, m, k - DaysBeforeMonth(y, m))
  }

  function CalendarDate(year: string, month: string, day: string): Option<Day> {
    var y, m, d := Number(year), Number(month), Number(day);
    if y.None? || m.None? || d.None? then None
    else if !(1 <= y.value <= 9999 && 1 <= m.value <= 12 && 1 <= d.value <= DaysInMonth(y.value, m.value)) then None
    else InRange(Ordinal(y.value, m.value, d.value))
  }

  function InRange(n: int): (r: Option<Day>)
    ensures r.Some? ==> 1 <= r.value <= LAST_DAY
  {
    if 1 <= n <= LAST_DAY then Some(n) else None
  }

  /** Weekday of January 1st, Monday being zero. */
  function FirstWeekday(y: nat): nat
    requires 1 <= y
  {
    (Ordinal(y, 1, 1) + 6) % 7
  }

  /** The Monday of ISO week 1. */
  function FirstMonday(y: nat): int
    requires 1 <= y
  {
    Ordinal(y, 1, 1) - FirstWeekday(y) + if 3 < FirstWeekday(y) then 7 else 0
  }

  predicate LongYear(y: nat)
    requires 1 <= y
  {
    FirstWeekday(y) == 3 || (FirstWeekday(y) == 2 && IsLeap(y))
  }

  function WeekDate(year: string, week: string, day: string): Option<Day> {
    var y, w, d := Number(year), Number(week), Number(day);
    if y.None? || w.None? || d.None? then None
    else if !(1 <= y.value <= 9999 && 1 <= w.value <= 53 && 1 <= d.value <= 7) then None
    else if w.value == 53 && !LongYear(y.value) then None
    else InRange(FirstMonday(y.value) + (w.value - 1) * 7 + (d.value - 1))
  }

  /**
   * What a week date means: the day has that weekday, Monday being one, and the Thursday of its week lies in that year
   * and in the week of the year with that number. A week date is refused exactly when there is no such representable
   * day.
   */
  lemma WeekDateExactly(year: string, week: string, day: string, n: Day)
    ensures WeekDate(year, week, day) == Some(n) <==>
      && 1 <= n <= LAST_DAY && Number(year).Some? && Number(week).Some? && Number(day).Some?
      && 1 <= Number(year).value <= 9999 && InWeek(n, Number(year).value, Number(week).value, Number(day).value)
  {
    hide Number, Ordinal, FirstMonday, LongYear, DaysBeforeYear, InWeek;
    var y, w, d := Number(year), Number(week), Number(day);
    if y.Some? && w.Some? && d.Some? && 1 <= y.value {
      WeekOf(y.value, w.value, d.value, n);
    }
  }

  predicate InWeek(n: Day, y: nat, w: nat, d: nat)
    requires 1 <= y
  {
    var thursday := n - d + 4;
    && 1 <= d <= 7 && (n - 1) % 7 == d - 1
    && Ordinal(y, 1, 1) <= thursday < Ordinal(y + 1, 1, 1) && (thursday - Ordinal(y, 1, 1)) / 7 == w - 1
  }

  lemma WeekOf(y: nat, w: nat, d: nat, n: Day)
    requires 1 <= y
    ensures InWeek(n, y, w, d) <==>
      && 1 <= w <= 53 && 1 <= d <= 7 && (w == 53 ==> LongYear(y)) && n == FirstMonday(y) + (w - 1) * 7 + (d - 1)
  {
    NextYear(y);
    hide Ordinal, DaysBeforeYear, DaysBeforeMonth, IsLeap;
    var first, length := Ordinal(y, 1, 1), if IsLeap(y) then 366 else 365;
    if 1 <= w <= 53 && 1 <= d <= 7 && (w == 53 ==> LongYear(y)) {
      WeekArithmetic(first, length, w, d);
    }
    if InWeek(n, y, w, d) {
      WeekBack(first, length, w, d, n);
    }
  }

  lemma WeekBack(first: int, length: int, w: nat, d: nat, n: int)
    requires 365 <= length <= 366 && 1 <= d <= 7 && (n - 1) % 7 == d - 1
    requires first <= n - d + 4 < first + length && (n - d + 4 - first) / 7 == w - 1
    ensures 1 <= w <= 53 && (w == 53 ==> (first + 6) % 7 == 3 || ((first + 6) % 7 == 2 && length == 366))
    ensures n == first - (first + 6) % 7 + (if 3 < (first + 6) % 7 then 7 else 0) + (w - 1) * 7 + (d - 1)
  {
    var start, q := (first + 6) % 7, (first + 6) / 7;
    var p := (n - 1) / 7;
    var r := (n - d + 4 - first) % 7;
    assert n - 1 == 7 * p + (d - 1) && first + 6 == 7 * q + start;
    assert n - d + 4 - first == 7 * (w - 1) + r;
    assert 7 * (p - q - w + 1) == r + start - 10;
  }

  lemma NextYear(y: nat)
    requires 1 <= y
    ensures Ordinal(y + 1, 1, 1) == Ordinal(y, 1, 1) + if IsLeap(y) then 366 else 365
  {
    hide DaysBeforeYear, IsLeap;
    YearLength(y);
    MonthsOfYear(y);
    NewYear(y);
    NewYear(y + 1);
  }

  lemma WeekArithmetic(first: int, length: int, w: nat, d: nat)
    requires 365 <= length <= 366 && 1 <= w <= 53 && 1 <= d <= 7
    requires w == 53 ==> (first + 6) % 7 == 3 || ((first + 6) % 7 == 2 && length == 366)
    ensures var start := (first + 6) % 7;
      var n := first - start + (if 3 < start then 7 else 0) + (w - 1) * 7 + (d - 1);
      && (n - 1) % 7 == d - 1
      && first <= n - d + 4 < first + length && (n - d + 4 - first) / 7 == w - 1
  {
    var start, q := (first + 6) % 7, (first + 6) / 7;
    var k := (if 3 < start then 10 else 3) - start;
    var n := first - start + (if 3 < start then 7 else 0) + (w - 1) * 7 + (d - 1);
    assert first + 6 == 7 * q + start;
    assert n - d + 4 - first == 7 * (w - 1) + k && 0 <= k < 7;
    assert n - 1 == 7 * (q - 2 + w + if 3 < start then 1 else 0) + (d - 1);
  }

  lemma NewYear(y: nat)
    requires 1 <= y
    ensures Ordinal(y, 1, 1) == DaysBeforeYear(y) + 1
  {
  }

  /**
   * The calendar and week forms of ISO 8601 with and without separators, as CPython's `date.fromisoformat` reads ASCII
   * text. A text of ten characters without separators is read by its front; its last two characters are ignored.
   */
  function Parse(text: string): (r: Option<Day>)
    ensures r.Some? ==> 1 <= r.value <= LAST_DAY
  {
    if |text| == 10 && text[4] == '-' && text[5] != 'W' && text[7] == '-'
      then CalendarDate(text[..4], text[5..7], text[8..])
    else if |text| == 10 && text[4] == '-' && text[5] == 'W' && text[8] == '-'
      then WeekDate(text[..4], text[6..8], text[9..])
    else if |text| == 8 && text[4] == '-' && text[5] == 'W' then WeekDate(text[..4], text[6..8], "1")
    else if Unseparated(text) && text[4] != 'W' then CalendarDate(text[..4], text[4..6], text[6..8])
    else if Unseparated(text) then WeekDate(text[..4], text[5..7], text[7..8])
    else if |text| == 7 && text[4] == 'W' then WeekDate(text[..4], text[5..7], "1")
    else None
  }

  predicate Unseparated(text: string) {
    (|text| == 8 || |text| == 10) && text[4] != '-'
  }

  lemma DigitsAreDigits(n: nat)
    requires n < 100
    ensures |Two(n)| == 2 && forall i :: 0 <= i < 2 ==> '0' <= Two(n)[i] <= '9'
  {
  }

  lemma DateParts(y: nat, m: nat, d: nat)
    requires 1 <= y <= 9999 && 1 <= m <= 12 && 1 <= d <= DaysInMonth(y, m) && 1 <= Ordinal(y, m, d) <= LAST_DAY
    ensures CalendarDate(Four(y), Two(m), Two(d)) == Some(Ordinal(y, m, d))
  {
    NumberFour(y);
    NumberTwo(m);
    NumberTwo(d);
    hide Number, Two, Four, Ordinal;
  }

  lemma CompactRead(text: string)
    requires |text| == 8 && text[4] != '-' && text[4] != 'W'
    ensures Parse(text) == CalendarDate(text[..4], text[4..6], text[6..8])
  {
    hide CalendarDate, WeekDate;
  }

  /** The four ways of writing a week date: with or without separators, with the weekday or for its Monday. */
  lemma WeekForms(year: string, week: string, day: char)
    requires |year| == 4 && |week| == 2
    ensures Parse(year + "-W" + week + "-" + [day]) == WeekDate(year, week, [day])
    ensures Parse(year + "W" + week + [day]) == WeekDate(year, week, [day])
    ensures Parse(year + "-W" + week) == WeekDate(year, week, "1")
    ensures Parse(year + "W" + week) == WeekDate(year, week, "1")
  {
    hide CalendarDate, WeekDate;
    var a, b := year + "-W" + week + "-" + [day], year + "W" + week + [day];
    assert a[4] == '-' && a[5] == 'W' && a[8] == '-' && a[..4] == year && a[6..8] == week && a[9..] == [day];
    assert b[4] == 'W' && b[..4] == year && b[5..7] == week && b[7..8] == [day];
    var c, e := year + "-W" + week, year + "W" + week;
    assert c[4] == '-' && c[5] == 'W' && c[..4] == year && c[6..8] == week;
    assert e[4] == 'W' && e[..4] == year && e[5..7] == week;
  }

  lemma SeparatedRead(text: string)
    requires |text| == 10 && text[4] == '-' && text[5] != 'W' && text[7] == '-'
    ensures Parse(text) == CalendarDate(text[..4], text[5..7], text[8..])
  {
    hide CalendarDate, WeekDate;
  }

  /** The parts of a written date, and of the same date without separators. */
  lemma WrittenParts(year: string, month: string, day: string)
    requires |year| == 4 && |month| == 2 && |day| == 2
    ensures var t := year + "-" + month + "-" + day;
      && |t| == 10 && t[4] == '-' && t[5] == month[0] && t[7] == '-'
      && t[..4] == year && t[5..7] == month && t[8..] == day
    ensures var u := year + month + day;
      && |u| == 8 && u[4] == month[0] && u[..4] == year && u[4..6] == month && u[6..8] == day
  {
  }

  /** Reading back a written date gives the day, and so does the compact form, which is different text. */
  lemma ParseFormat(n: Day)
    requires 1 <= n <= LAST_DAY
    ensures Parse(Format(n)) == Some(n)
    ensures Parse(Compact(n)) == Some(n) && Compact(n) != Format(n)
  {
    var (y, m, d) := DateOf(n);
    DateParts(y, m, d);
    DigitsAreDigits(m);
    hide DateOf, Number, CalendarDate, Two, Ordinal, WeekDate, Parse;
    FourLength(y);
    DigitsAreDigits(d);
    WrittenParts(Four(y), Two(m), Two(d));
    hide Four;
    SeparatedRead(Format(n));
    CompactRead(Compact(n));
  }

  lemma FourLength(n: nat)
    requires n < 10000
    ensures |Four(n)| == 4
  {
  }
}
