/**
  * Gregorian calendar dates as (year, month, day), with month 1..12, and the
  * normalisation that JavaScript's `new Date(year, monthIndex, day)` applies to
  * out-of-range months and days (monthIndex is 0-based there).
  */
module Calendar {

  import opened Wrappers

  datatype Date = Date(year: int, month: int, day: int)

  predicate IsLeapYear(y: int)
  {
    y % 4 == 0 && (y % 100 != 0 || y % 400 == 0)
  }

  function DaysInMonth(y: int, m: int): (n: int)
    requires 1 <= m <= 12
    ensures 28 <= n <= 31
    ensures m == 2 ==> (n == 29 <==> IsLeapYear(y))
  {
    if m == 2 then (if IsLeapYear(y) then 29 else 28)
    else if m == 4 || m == 6 || m == 9 || m == 11 then 30
    else 31
  }

  predicate ValidDate(d: Date)
  {
    1 <= d.month <= 12 && 1 <= d.day <= DaysInMonth(d.year, d.month)
  }

  /** Strictly earlier: the order of Python `date` values and of ISO `YYYY-MM-DD` strings. */
  predicate Before(a: Date, b: Date)
  {
    a.year < b.year
    || (a.year == b.year && a.month < b.month)
    || (a.year == b.year && a.month == b.month && a.day < b.day)
  }

  lemma BeforeTotal(a: Date, b: Date)
    ensures Before(a, b) || a == b || Before(b, a)
    ensures !(Before(a, b) && Before(b, a))
  {
  }

  lemma BeforeTransitive(a: Date, b: Date, c: Date)
    requires Before(a, b) && Before(b, c)
    ensures Before(a, c)
  {
  }

  /** The inclusive bound test `start <= date <= end`, each bound applied only when given. */
  predicate WithinBounds(d: Date, start: Option<Date>, end: Option<Date>)
  {
    (start.None? || !Before(d, start.value)) && (end.None? || !Before(end.value, d))
  }

  function PreviousMonth(y: int, m: int): (r: (int, int))
    requires 1 <= m <= 12
    ensures 1 <= r.1 <= 12
  {
    if m == 1 then (y - 1, 12) else (y, m - 1)
  }

  function NextMonth(y: int, m: int): (r: (int, int))
    requires 1 <= m <= 12
    ensures 1 <= r.1 <= 12
  {
    if m == 12 then (y + 1, 1) else (y, m + 1)
  }

  /** Moves a day that falls outside month m into the neighbouring months, as `Date` does. */
  function NormalizeDay(y: int, m: int, day: int): (d: Date)
    requires 1 <= m <= 12
    ensures ValidDate(d)
    ensures 1 <= day <= DaysInMonth(y, m) ==> d == Date(y, m, day)
    decreases (if day < 1 then 1 - day else 0), (if day < 1 then 0 else day)
  {
    if day < 1 then
      var (py, pm) := PreviousMonth(y, m);
      NormalizeDay(py, pm, day + DaysInMonth(py, pm))
    else if day > DaysInMonth(y, m) then
      var (ny, nm) := NextMonth(y, m);
      NormalizeDay(ny, nm, day - DaysInMonth(y, m))
    else
      Date(y, m, day)
  }

  /** `new Date(year, monthIndex, day)`: the month index carries into the year (floor division), then the day is normalised. */
  function JsDate(year: int, monthIndex: int, day: int): (d: Date)
    ensures ValidDate(d)
  {
    NormalizeDay(year + monthIndex / 12, monthIndex % 12 + 1, day)
  }

  /** Day 1 of a valid month is that date itself. */
  lemma {:induction false} JsDateFirstOfMonth(y: int, m: int)
    requires 1 <= m <= 12
    ensures JsDate(y, m - 1, 1) == Date(y, m, 1)
  {
    assert (m - 1) / 12 == 0 && (m - 1) % 12 == m - 1;
  }

  /** The `new Date(y, m, 0)` idiom: day 0 of the next month is the last day of month m. */
  lemma {:induction false} JsDateLastOfMonth(y: int, m: int)
    requires 1 <= m <= 12
    ensures JsDate(y, m, 0) == Date(y, m, DaysInMonth(y, m))
  {
    if m == 12 {
      assert 12 / 12 == 1 && 12 % 12 == 0;
      assert JsDate(y, m, 0) == NormalizeDay(y + 1, 1, 0);
    } else {
      assert m / 12 == 0 && m % 12 == m;
      assert JsDate(y, m, 0) == NormalizeDay(y, m + 1, 0);
    }
  }

  /** Month index -1 rolls back to December of the previous year. */
  lemma {:induction false} JsDateDecemberBefore(y: int)
    ensures JsDate(y, -1, 1) == Date(y - 1, 12, 1)
  {
    assert -1 / 12 == -1 && -1 % 12 == 11;
  }
}
