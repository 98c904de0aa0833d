/**
  * The Charts page's aggregations: expenses grouped by category for the pie
  * chart, and income and expense per day, in ascending date order, for the
  * line chart. Both fill a dictionary in a `forEach` loop; here the dictionary
  * is a map plus the sequence of its keys in insertion order.
  */
module Charts {

  import opened Wrappers
  import opened Calendar
  import opened Folds
  import opened Ledger

  /** A pie-chart entry `{ name, value }`. */
  datatype Slice = Slice(name: string, value: int)

  function SliceValue(e: Slice): int { e.value }

  /** One slice per listed category, valued at that category's sum over `s`. */
  function Slices(names: seq<string>, s: seq<Transaction>): (r: seq<Slice>)
    ensures |r| == |names|
    ensures forall i :: 0 <= i < |r| ==> r[i] == Slice(names[i], GroupSum(s, CategoryOf, Amount, names[i]))
  {
    if names == [] then []
    else Slices(names[..|names| - 1], s) + [Slice(names[|names| - 1], GroupSum(s, CategoryOf, Amount, names[|names| - 1]))]
  }

  /**
    * What `getCategoryData` returns: the expense rows' categories in first-seen
    * order, each with its expense total. The values add up to the summary's
    * expense.
    */
  function CategoryTotals(s: seq<Transaction>): (r: seq<Slice>)
    ensures SumOf(r, SliceValue) == Summarize(s).expense
  {
    var expenses := OfKind(s, Expense);
    var names := FirstSeen(expenses, CategoryOf);
    SlicesSum(names, expenses);
    GroupTotalsAll(expenses, CategoryOf, Amount);
    OfKindSum(s);
    Slices(names, expenses)
  }

  /**
    * The first loop of `getCategoryData`. The `if (categoryTotals[c])` test is
    * JavaScript truthiness: a category whose running total is 0 takes the
    * `else` branch and is reassigned the amount, which keeps its place among
    * the keys.
    */
  method TallyCategories(expenses: seq<Transaction>) returns (names: seq<string>, totals: map<string, int>)
    ensures names == FirstSeen(expenses, CategoryOf)
    ensures forall c :: c in totals <==> c in names
    ensures forall c :: c in totals ==> totals[c] == GroupSum(expenses, CategoryOf, Amount, c)
  {
    names := [];
    totals := map[];
    var i := 0;
    while i < |expenses|
      invariant 0 <= i <= |expenses|
      invariant names == FirstSeen(expenses[..i], CategoryOf)
      invariant Tallied(names, totals, expenses[..i], CategoryOf, Amount)
    {
      var t := expenses[i];
      assert expenses[..i + 1] == expenses[..i] + [t];
      FirstSeenSnoc(expenses[..i], t, CategoryOf);
      if t.category in totals && totals[t.category] != 0 {
        TallyAdd(names, totals, expenses[..i], t, CategoryOf, Amount);
        totals := totals[t.category := totals[t.category] + t.amount];
      } else {
        if t.category !in totals {
          TallyOpen(names, totals, expenses[..i], t, CategoryOf, Amount);
          names := names + [t.category];
        } else {
          TallyAdd(names, totals, expenses[..i], t, CategoryOf, Amount);
        }
        totals := totals[t.category := t.amount];
      }
      i := i + 1;
    }
    assert expenses[..i] == expenses;
  }

  /** `getCategoryData`: the totals dictionary turned into `{ name, value }` entries in key order. */
  method CategoryData(transactions: seq<Transaction>) returns (r: seq<Slice>)
    ensures r == CategoryTotals(transactions)
  {
    var expenses := OfKind(transactions, Expense);
    var names, totals := TallyCategories(expenses);
    r := [];
    var j := 0;
    while j < |names|
      invariant 0 <= j <= |names|
      invariant r == Slices(names[..j], expenses)
    {
      assert names[..j + 1][..j] == names[..j];
      r := r + [Slice(names[j], totals[names[j]])];
      j := j + 1;
    }
    assert names[..j] == names;
  }

  lemma {:induction false} SlicesSum(names: seq<string>, s: seq<Transaction>)
    ensures SumOf(Slices(names, s), SliceValue) == GroupTotals(names, s, CategoryOf, Amount)
  {
    if names != [] {
      var p := names[..|names| - 1];
      SlicesSum(p, s);
      assert Slices(names, s)[..|names| - 1] == Slices(p, s);
    }
  }

  /**
    * One slice per category that has an expense row and no other: names are
    * distinct, and each is the category of some expense row of `s`.
    */
  lemma CategoryTotalsNames(s: seq<Transaction>)
    ensures var r := CategoryTotals(s);
            && (forall i, j :: 0 <= i < j < |r| ==> r[i].name != r[j].name)
            && (forall t :: t in s && t.kind == Expense ==> exists i :: 0 <= i < |r| && r[i].name == t.category)
            && (forall i :: 0 <= i < |r| ==> exists t :: t in s && t.kind == Expense && t.category == r[i].name)
  {
    var expenses := OfKind(s, Expense);
    var names := FirstSeen(expenses, CategoryOf);
    var r := CategoryTotals(s);
    FirstSeenKeys(expenses, CategoryOf);
    forall t | t in s && t.kind == Expense
      ensures exists i :: 0 <= i < |r| && r[i].name == t.category
    {
      var k :| 0 <= k < |expenses| && expenses[k] == t;
      var i :| 0 <= i < |names| && names[i] == CategoryOf(expenses[k]);
      assert r[i].name == t.category;
    }
    forall i | 0 <= i < |r|
      ensures exists t :: t in s && t.kind == Expense && t.category == r[i].name
    {
      assert names[i] in names;
      var k :| 0 <= k < |expenses| && CategoryOf(expenses[k]) == names[i];
      assert expenses[k] in expenses;
    }
  }

  /** A line-chart point `{ date, income, expense }`. */
  datatype DayTotal = DayTotal(date: Date, income: int, expense: int)

  function DayIncome(e: DayTotal): int { e.income }
  function DayExpense(e: DayTotal): int { e.expense }

  /** The point for day `d`: income rows in `income`, every other row in `expense`, as the `else` branch does. */
  function DayOf(s: seq<Transaction>, d: Date): DayTotal
  {
    DayTotal(d, GroupSum(s, DateOf, IncomePart, d), GroupSum(s, DateOf, NonIncomePart, d))
  }

  /** The points of the listed days, in the listed order. */
  function Days(dates: seq<Date>, s: seq<Transaction>): (r: seq<DayTotal>)
    ensures |r| == |dates|
    ensures forall i :: 0 <= i < |r| ==> r[i] == DayOf(s, dates[i])
  {
    if dates == [] then [] else Days(dates[..|dates| - 1], s) + [DayOf(s, dates[|dates| - 1])]
  }

  ghost predicate Ascending(r: seq<DayTotal>)
  {
    forall i, j :: 0 <= i < j < |r| ==> Before(r[i].date, r[j].date)
  }

  /** Places a point into an ascending list: after every point dated before it. */
  function InsertAscending(r: seq<DayTotal>, x: DayTotal): seq<DayTotal>
  {
    if r == [] then [x]
    else if Before(r[0].date, x.date) then [r[0]] + InsertAscending(r[1..], x)
    else [x] + r
  }

  /** Inserting adds exactly the new point. */
  lemma {:induction false} InsertAscendingPermutes(r: seq<DayTotal>, x: DayTotal)
    ensures multiset(InsertAscending(r, x)) == multiset(r) + multiset{x}
  {
    if r != [] {
      assert r == [r[0]] + r[1..];
      if Before(r[0].date, x.date) {
        InsertAscendingPermutes(r[1..], x);
      }
    }
  }

  /** Every point of the result is the new point or one of the old ones. */
  lemma {:induction false} InsertAscendingMembers(r: seq<DayTotal>, x: DayTotal)
    ensures forall e :: e in InsertAscending(r, x) ==> e == x || e in r
  {
    InsertAscendingPermutes(r, x);
    forall e | e in InsertAscending(r, x)
      ensures e == x || e in r
    {
      assert e in multiset(InsertAscending(r, x));
    }
  }

  /** Inserting a point of a new date keeps the list strictly ascending. */
  lemma {:induction false} InsertAscendingSorted(r: seq<DayTotal>, x: DayTotal)
    requires Ascending(r)
    requires forall i :: 0 <= i < |r| ==> r[i].date != x.date
    ensures Ascending(InsertAscending(r, x))
  {
    if r == [] {
    } else if Before(r[0].date, x.date) {
      var rest := InsertAscending(r[1..], x);
      InsertAscendingSorted(r[1..], x);
      InsertAscendingMembers(r[1..], x);
      assert forall e :: e in r[1..] ==> Before(r[0].date, e.date);
      var q := [r[0]] + rest;
      assert q == InsertAscending(r, x);
      forall i, j | 0 <= i < j < |q|
        ensures Before(q[i].date, q[j].date)
      {
        assert q[j] == rest[j - 1];
        if i > 0 {
          assert q[i] == rest[i - 1];
        } else {
          assert rest[j - 1] in rest;
        }
      }
    } else {
      BeforeTotal(r[0].date, x.date);
      var q := [x] + r;
      assert q == InsertAscending(r, x);
      forall i, j | 0 <= i < j < |q|
        ensures Before(q[i].date, q[j].date)
      {
        assert q[j] == r[j - 1];
        if i > 0 {
          assert q[i] == r[i - 1];
        } else if j > 1 {
          BeforeTransitive(x.date, r[0].date, r[j - 1].date);
        }
      }
    }
  }

  /** The per-date dictionary after the rows of `p`: keyed by `dates`, each entry that date's totals. */
  ghost predicate DaysTallied(dates: seq<Date>, totals: map<Date, DayTotal>, p: seq<Transaction>)
  {
    && (forall d :: d in totals <==> d in dates)
    && (forall d :: d in totals ==> totals[d] == DayOf(p, d))
  }

  /** A date seen for the first time starts at zero income and zero expense. */
  lemma DayOpen(dates: seq<Date>, totals: map<Date, DayTotal>, p: seq<Transaction>, d: Date)
    requires dates == FirstSeen(p, DateOf)
    requires DaysTallied(dates, totals, p)
    requires d !in totals
    ensures DaysTallied(dates + [d], totals[d := DayTotal(d, 0, 0)], p)
  {
    FirstSeenKeys(p, DateOf);
    GroupSumAbsent(p, DateOf, IncomePart, d);
    GroupSumAbsent(p, DateOf, NonIncomePart, d);
  }

  /** A row adds its amount to its date's income, or to its date's expense for any other type. */
  lemma DayAdd(dates: seq<Date>, totals: map<Date, DayTotal>, p: seq<Transaction>, t: Transaction)
    requires DaysTallied(dates, totals, p)
    requires t.date in totals
    ensures var e := totals[t.date];
            DaysTallied(dates, totals[t.date := if t.kind == Income then e.(income := e.income + t.amount)
                                                else e.(expense := e.expense + t.amount)], p + [t])
  {
    forall d
      ensures GroupSum(p + [t], DateOf, IncomePart, d) == GroupSum(p, DateOf, IncomePart, d) + (if t.date == d then IncomePart(t) else 0)
      ensures GroupSum(p + [t], DateOf, NonIncomePart, d) == GroupSum(p, DateOf, NonIncomePart, d) + (if t.date == d then NonIncomePart(t) else 0)
    {
      GroupSumSnoc(p, t, DateOf, IncomePart, d);
      GroupSumSnoc(p, t, DateOf, NonIncomePart, d);
    }
  }

  method TallyDays(transactions: seq<Transaction>) returns (dates: seq<Date>, totals: map<Date, DayTotal>)
    ensures dates == FirstSeen(transactions, DateOf)
    ensures forall d :: d in totals <==> d in dates
    ensures forall d :: d in totals ==> totals[d] == DayOf(transactions, d)
  {
    dates := [];
    totals := map[];
    var i := 0;
    while i < |transactions|
      invariant 0 <= i <= |transactions|
      invariant dates == FirstSeen(transactions[..i], DateOf)
      invariant DaysTallied(dates, totals, transactions[..i])
    {
      var t := transactions[i];
      assert transactions[..i + 1] == transactions[..i] + [t];
      FirstSeenSnoc(transactions[..i], t, DateOf);
      if t.date !in totals {
        DayOpen(dates, totals, transactions[..i], t.date);
        dates := dates + [t.date];
        totals := totals[t.date := DayTotal(t.date, 0, 0)];
      }
      DayAdd(dates, totals, transactions[..i], t);
      var e := totals[t.date];
      if t.kind == Income {
        totals := totals[t.date := e.(income := e.income + t.amount)];
      } else {
        totals := totals[t.date := e.(expense := e.expense + t.amount)];
      }
      i := i + 1;
    }
    assert transactions[..i] == transactions;
  }

  /**
    * `getDailyData`: totals per date in a dictionary (an object is always
    * truthy, so the `!dailyTotals[date]` test means "date not seen yet"),
    * then the values sorted by ascending date. The dates are distinct keys,
    * so the order is strict and the sort's stability plays no part.
    */
  method DailyData(transactions: seq<Transaction>) returns (r: seq<DayTotal>)
    ensures Ascending(r)
    ensures multiset(r) == multiset(Days(FirstSeen(transactions, DateOf), transactions))
  {
    var dates, totals := TallyDays(transactions);
    FirstSeenKeys(transactions, DateOf);
    r := [];
    var j := 0;
    while j < |dates|
      invariant 0 <= j <= |dates|
      invariant Ascending(r)
      invariant multiset(r) == multiset(Days(dates[..j], transactions))
      invariant forall e :: e in r ==> e.date in dates[..j]
    {
      assert dates[..j + 1] == dates[..j] + [dates[j]];
      assert Days(dates[..j + 1], transactions) == Days(dates[..j], transactions) + [DayOf(transactions, dates[j])];
      assert dates[j] !in dates[..j];
      forall k | 0 <= k < |r|
        ensures r[k].date != dates[j]
      {
        assert r[k] in r;
      }
      var x := totals[dates[j]];
      InsertAscendingSorted(r, x);
      InsertAscendingPermutes(r, x);
      InsertAscendingMembers(r, x);
      r := InsertAscending(r, x);
      j := j + 1;
    }
    assert dates[..j] == dates;
  }

  lemma {:induction false} DaysSum(dates: seq<Date>, s: seq<Transaction>)
    ensures SumOf(Days(dates, s), DayIncome) == GroupTotals(dates, s, DateOf, IncomePart)
    ensures SumOf(Days(dates, s), DayExpense) == GroupTotals(dates, s, DateOf, NonIncomePart)
  {
    if dates != [] {
      var p := dates[..|dates| - 1];
      DaysSum(p, s);
      assert Days(dates, s)[..|dates| - 1] == Days(p, s);
    }
  }

  /**
    * The line chart preserves the grand totals: its income points add up to
    * the income rows and its expense points to every non-income row.
    */
  lemma DailyTotalsSum(s: seq<Transaction>, r: seq<DayTotal>)
    requires multiset(r) == multiset(Days(FirstSeen(s, DateOf), s))
    ensures SumOf(r, DayIncome) == SumOf(s, IncomePart)
    ensures SumOf(r, DayExpense) == SumOf(s, NonIncomePart)
  {
    var days := Days(FirstSeen(s, DateOf), s);
    SumOfPermutation(r, days, DayIncome);
    SumOfPermutation(r, days, DayExpense);
    DaysSum(FirstSeen(s, DateOf), s);
    GroupTotalsAll(s, DateOf, IncomePart);
    GroupTotalsAll(s, DateOf, NonIncomePart);
  }

  /** One point per date that occurs in `s`, carrying that date's totals. */
  lemma DailyPoints(s: seq<Transaction>, r: seq<DayTotal>)
    requires multiset(r) == multiset(Days(FirstSeen(s, DateOf), s))
    ensures forall e :: e in r ==> e == DayOf(s, e.date) && e.date in FirstSeen(s, DateOf)
    ensures forall t :: t in s ==> DayOf(s, t.date) in r
  {
    var dates := FirstSeen(s, DateOf);
    var days := Days(dates, s);
    FirstSeenKeys(s, DateOf);
    forall e | e in r
      ensures e == DayOf(s, e.date) && e.date in dates
    {
      assert e in multiset(days);
      var i :| 0 <= i < |days| && days[i] == e;
    }
    forall t | t in s
      ensures DayOf(s, t.date) in r
    {
      var k :| 0 <= k < |s| && s[k] == t;
      assert DateOf(s[k]) in dates;
      var i :| 0 <= i < |dates| && dates[i] == DateOf(s[k]);
      assert days[i] in multiset(days);
    }
  }
}
