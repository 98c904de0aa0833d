/**
  * The date-range presets of the Charts and Transactions pages, the rule that
  * adds the bounds to a request only when both are present, and the choice of
  * a default account. "Today" is a parameter; the presets are computed on
  * calendar dates with JavaScript's month and day carrying.
  */
module DateFilter {

  import opened Wrappers
  import opened Calendar
  import opened Backend

  /** The `{ start_date, end_date }` pair; None stands for `null`. */
  datatype Range = Range(start: Option<Date>, end: Option<Date>)

  /** `getDateRange(filterType)`, with `today.month` 1-based (`getMonth() + 1`). */
  function DateRange(filter: string, today: Date): (r: Range)
    ensures r.start.Some? <==> r.end.Some?
    ensures r.start.Some? ==> ValidDate(r.start.value) && ValidDate(r.end.value)
  {
    var y := today.year;
    var mi := today.month - 1;
    if filter == "all" then Range(None, None)
    else if filter == "this-month" then Range(Some(JsDate(y, mi, 1)), Some(JsDate(y, mi + 1, 0)))
    else if filter == "last-month" then Range(Some(JsDate(y, mi - 1, 1)), Some(JsDate(y, mi, 0)))
    else if filter == "this-year" then Range(Some(JsDate(y, 0, 1)), Some(JsDate(y, 11, 31)))
    else Range(None, None)
  }

  /** "all" and every unrecognised filter leave both bounds null. */
  lemma UnboundedFilters(filter: string, today: Date)
    requires filter != "this-month" && filter != "last-month" && filter != "this-year"
    ensures DateRange(filter, today) == Range(None, None)
  {
  }

  /** "this-month": day 1 through the last day of the current month. */
  lemma {:induction false} ThisMonthRange(today: Date)
    requires 1 <= today.month <= 12
    ensures DateRange("this-month", today)
         == Range(Some(Date(today.year, today.month, 1)),
                  Some(Date(today.year, today.month, DaysInMonth(today.year, today.month))))
  {
    JsDateFirstOfMonth(today.year, today.month);
    JsDateLastOfMonth(today.year, today.month);
  }

  /** "last-month": day 1 through the last day of the previous month, rolling back over a year boundary. */
  lemma {:induction false} LastMonthRange(today: Date)
    requires 1 <= today.month <= 12
    ensures var (py, pm) := PreviousMonth(today.year, today.month);
            DateRange("last-month", today) == Range(Some(Date(py, pm, 1)), Some(Date(py, pm, DaysInMonth(py, pm))))
  {
    var y, m := today.year, today.month;
    if m == 1 {
      JsDateDecemberBefore(y);
      assert 0 / 12 == 0 && 0 % 12 == 0;
      assert JsDate(y, 0, 0) == NormalizeDay(y, 1, 0);
      assert NormalizeDay(y, 1, 0) == NormalizeDay(y - 1, 12, 31);
    } else {
      JsDateFirstOfMonth(y, m - 1);
      JsDateLastOfMonth(y, m - 1);
    }
  }

  /** In January, "last-month" is December of the previous year. */
  lemma {:induction false} JanuaryRollback(year: int, day: int)
    ensures DateRange("last-month", Date(year, 1, day)) == Range(Some(Date(year - 1, 12, 1)), Some(Date(year - 1, 12, 31)))
  {
    LastMonthRange(Date(year, 1, day));
  }

  /** In a leap year, "this-month" in February ends on the 29th, otherwise on the 28th. */
  lemma {:induction false} FebruaryEnd(year: int, day: int)
    ensures DateRange("this-month", Date(year, 2, day)).end == Some(Date(year, 2, if IsLeapYear(year) then 29 else 28))
  {
    ThisMonthRange(Date(year, 2, day));
  }

  /** "this-year": January 1 through December 31 of the current year. */
  lemma {:induction false} ThisYearRange(today: Date)
    ensures DateRange("this-year", today) == Range(Some(Date(today.year, 1, 1)), Some(Date(today.year, 12, 31)))
  {
    JsDateFirstOfMonth(today.year, 1);
    assert 11 / 12 == 0 && 11 % 12 == 11;
  }

  /** The presets on 2024-03-15. */
  lemma {:induction false} PresetsOnMarch15th2024()
    ensures DateRange("this-month", Date(2024, 3, 15)) == Range(Some(Date(2024, 3, 1)), Some(Date(2024, 3, 31)))
    ensures DateRange("last-month", Date(2024, 3, 15)) == Range(Some(Date(2024, 2, 1)), Some(Date(2024, 2, 29)))
    ensures DateRange("this-year", Date(2024, 3, 15)) == Range(Some(Date(2024, 1, 1)), Some(Date(2024, 12, 31)))
    ensures DateRange("all", Date(2024, 3, 15)) == Range(None, None)
  {
    ThisMonthRange(Date(2024, 3, 15));
    LastMonthRange(Date(2024, 3, 15));
    ThisYearRange(Date(2024, 3, 15));
  }

  /** Every preset is a non-empty interval: its start is not after its end. */
  lemma {:induction false} PresetOrdered(filter: string, today: Date)
    requires 1 <= today.month <= 12
    ensures var r := DateRange(filter, today);
            r.start.Some? ==> !Before(r.end.value, r.start.value)
  {
    if filter == "this-month" {
      ThisMonthRange(today);
    } else if filter == "last-month" {
      LastMonthRange(today);
    } else if filter == "this-year" {
      ThisYearRange(today);
    }
  }

  /** A valid date lies in the "this-month" range exactly when it has today's month and year. */
  lemma {:induction false} ThisMonthMembership(d: Date, today: Date)
    requires ValidDate(d) && 1 <= today.month <= 12
    ensures var r := DateRange("this-month", today);
            WithinBounds(d, r.start, r.end) <==> d.year == today.year && d.month == today.month
  {
    ThisMonthRange(today);
  }

  /** `if (start_date && end_date)`: the bounds go into the query only as a pair. */
  function QueryBounds(r: Range): (q: Range)
    ensures q.start.Some? <==> q.end.Some?
    ensures q.start.Some? <==> r.start.Some? && r.end.Some?
    ensures q.start.Some? ==> q == r
  {
    if r.start.Some? && r.end.Some? then r else Range(None, None)
  }

  /** The presets always give both bounds or neither, so the query carries them unchanged. */
  lemma PresetBoundsSent(filter: string, today: Date)
    ensures QueryBounds(DateRange(filter, today)) == DateRange(filter, today)
  {
  }

  /** When accounts are loaded and none is selected, select the first; keep an existing selection. */
  function SelectDefaultAccount(accounts: seq<DbAccount>, selected: Option<int>): (r: Option<int>)
    ensures selected.Some? ==> r == selected
    ensures selected.None? && |accounts| > 0 ==> r == Some(accounts[0].id)
    ensures r.None? <==> selected.None? && accounts == []
  {
    if |accounts| > 0 && selected.None? then Some(accounts[0].id) else selected
  }

  /** Running the selection again changes nothing. */
  lemma SelectDefaultStable(accounts: seq<DbAccount>, selected: Option<int>)
    ensures SelectDefaultAccount(accounts, SelectDefaultAccount(accounts, selected)) == SelectDefaultAccount(accounts, selected)
  {
  }
}
