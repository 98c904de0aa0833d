/**
  * The Dashboard page: every account's transactions fetched and concatenated,
  * the balance card, this month's income and expenses, and the expense pie
  * chart over all accounts.
  */
module Dashboard {

  import opened Wrappers
  import opened Calendar
  import opened Folds
  import opened Ledger
  import opened Backend
  import opened TransactionRoutes
  import opened AccountRoutes
  import opened DateFilter
  import opened Charts

  /** `flatMap((res) => res.data)`: the lists one after another, in account order. */
  function AllTransactions(lists: seq<seq<Transaction>>): seq<Transaction>
  {
    if lists == [] then [] else AllTransactions(lists[..|lists| - 1]) + lists[|lists| - 1]
  }

  /** A row is on the dashboard exactly when it is in one of the fetched lists. */
  lemma {:induction false} AllTransactionsMembers(lists: seq<seq<Transaction>>)
    ensures forall t :: t in AllTransactions(lists) <==> exists i :: 0 <= i < |lists| && t in lists[i]
  {
    if lists != [] {
      var p := lists[..|lists| - 1];
      AllTransactionsMembers(p);
      forall t | t in AllTransactions(lists)
        ensures exists i :: 0 <= i < |lists| && t in lists[i]
      {
        if t in AllTransactions(p) {
          var i :| 0 <= i < |p| && t in p[i];
          assert lists[i] == p[i];
        } else {
          assert t in lists[|lists| - 1];
        }
      }
      forall t, i | 0 <= i < |lists| && t in lists[i]
        ensures t in AllTransactions(lists)
      {
        if i < |p| {
          assert p[i] == lists[i];
        }
      }
    }
  }

  lemma {:induction false} InAllTransactions(lists: seq<seq<Transaction>>, i: nat, t: Transaction)
    requires i < |lists| && t in lists[i]
    ensures t in AllTransactions(lists)
  {
    AllTransactionsMembers(lists);
  }

  /** The response of `GET /transactions?account_id=<id>` for each listed account, without date bounds. */
  function AccountLists(db: Database, accounts: seq<DbAccount>): (r: seq<seq<Transaction>>)
    reads db
    ensures |r| == |accounts|
    ensures forall i :: 0 <= i < |r| ==> r[i] == FilteredTransactions(db, accounts[i].id, None, None)
  {
    if accounts == [] then []
    else AccountLists(db, accounts[..|accounts| - 1]) + [FilteredTransactions(db, accounts[|accounts| - 1].id, None, None)]
  }

  /** Every account of `GET /accounts` is the user's, so each of those requests succeeds with that list. */
  lemma DashboardRequestsSucceed(db: Database, userId: int)
    ensures forall i :: 0 <= i < |GetAccounts(db, userId)| ==>
              GetTransactions(db, userId, GetAccounts(db, userId)[i].id, None, None)
              == Ok(AccountLists(db, GetAccounts(db, userId))[i])
  {
    var accounts := GetAccounts(db, userId);
    forall i | 0 <= i < |accounts|
      ensures db.OwnsAccount(userId, accounts[i].id)
    {
      assert accounts[i] in accounts;
      var j :| 0 <= j < |db.accounts| && db.accounts[j] == accounts[i];
    }
  }

  /** The user's account that a row belongs to, if any. */
  ghost predicate OwnedRow(db: Database, userId: int, t: Transaction)
    reads db
  {
    exists a :: a in db.accounts && a.userId == userId && a.id == t.accountId
  }

  /** The dashboard shows exactly the stored rows whose account belongs to the user. */
  lemma {:induction false} DashboardRows(db: Database, userId: int, t: Transaction)
    ensures t in AllTransactions(AccountLists(db, GetAccounts(db, userId)))
        <==> t in db.transactions && OwnedRow(db, userId, t)
  {
    var accounts := GetAccounts(db, userId);
    var lists := AccountLists(db, accounts);
    if t in AllTransactions(lists) {
      AllTransactionsMembers(lists);
      var i :| 0 <= i < |lists| && t in lists[i];
      var a := accounts[i];
      assert a in accounts;
      assert t in FilteredTransactions(db, a.id, None, None);
      assert a in db.accounts && a.userId == userId && a.id == t.accountId;
    }
    if t in db.transactions && OwnedRow(db, userId, t) {
      var a :| a in db.accounts && a.userId == userId && a.id == t.accountId;
      assert a in accounts;
      var i :| 0 <= i < |accounts| && accounts[i] == a;
      assert t in FilteredTransactions(db, a.id, None, None);
      InAllTransactions(lists, i, t);
    }
  }

  /** An account as `GET /accounts` returns it: the row's columns, among which there is no balance. */
  datatype AccountJson = AccountJson(id: int, name: string, kind: string, balance: Option<int>)

  function ToJson(a: DbAccount): AccountJson
  {
    AccountJson(a.id, a.name, a.kind, None)
  }

  function Serialize(accounts: seq<DbAccount>): (r: seq<AccountJson>)
    ensures |r| == |accounts|
    ensures forall i :: 0 <= i < |r| ==> r[i] == ToJson(accounts[i])
  {
    if accounts == [] then [] else Serialize(accounts[..|accounts| - 1]) + [ToJson(accounts[|accounts| - 1])]
  }

  /** `acc.balance || 0` */
  function BalanceOrZero(a: AccountJson): int
  {
    a.balance.GetOr(0)
  }

  /**
    * `totalBalance` as written: a `reduce` adding the accounts' `balance`
    * fields, a missing one counting 0. When no account carries a balance the
    * total is 0.
    */
  function TotalBalanceAsWritten(accounts: seq<AccountJson>): (r: int)
    ensures (forall i :: 0 <= i < |accounts| ==> accounts[i].balance.None?) ==> r == 0
  {
    if accounts == [] then 0
    else
      var p := accounts[..|accounts| - 1];
      assert forall i :: 0 <= i < |p| ==> p[i] == accounts[i];
      TotalBalanceAsWritten(p) + BalanceOrZero(accounts[|accounts| - 1])
  }

  /** Since no account carries a balance, the card shows 0 whatever the transactions are. */
  lemma TotalBalanceAlwaysZero(db: Database, userId: int)
    ensures TotalBalanceAsWritten(Serialize(GetAccounts(db, userId))) == 0
  {
    var js := Serialize(GetAccounts(db, userId));
    assert forall i :: 0 <= i < |js| ==> js[i].balance.None?;
  }

  /**
    * The intended card: each account's balance from its transactions, added up
    * with a `reduce`. It is the balance of every row on the dashboard.
    */
  function TotalBalance(lists: seq<seq<Transaction>>): (r: int)
    ensures r == Balance(AllTransactions(lists))
  {
    if lists == [] then 0
    else
      var p := lists[..|lists| - 1];
      BalanceAppend(AllTransactions(p), lists[|lists| - 1]);
      TotalBalance(p) + Balance(lists[|lists| - 1])
  }

  /** One account with one income of 100: its balance is 100, the card shows 0. */
  lemma TotalBalanceMissesIncome()
    ensures var a := DbAccount(1, 7, "Checking", "checking");
            var t := Transaction(1, 1, 100, Date(2024, 3, 15), "", Income, "Salary");
            TotalBalanceAsWritten(Serialize([a])) == 0 && TotalBalance([ForAccount([t], a.id)]) == 100
  {
    var a := DbAccount(1, 7, "Checking", "checking");
    var t := Transaction(1, 1, 100, Date(2024, 3, 15), "", Income, "Salary");
    assert Serialize([a])[0].balance.None?;
    assert [t][..0] == [];
    assert ForAccount([t], a.id) == [t];
    assert [[t]][..0] == [];
    assert Balance([t]) == Balance([]) + SignedAmount(t);
  }

  /** `isThisMonth(dateStr)` */
  predicate IsThisMonth(d: Date, today: Date)
  {
    d.month == today.month && d.year == today.year
  }

  /** The rows of one type dated this month: the `filter` of `thisMonthIncome` and `thisMonthExpenses`. */
  function ThisMonthOf(s: seq<Transaction>, k: Kind, today: Date): (r: seq<Transaction>)
    ensures forall t :: t in r <==> t in s && t.kind == k && IsThisMonth(t.date, today)
  {
    if s == [] then []
    else
      var r := ThisMonthOf(s[..|s| - 1], k, today);
      var t := s[|s| - 1];
      assert s == s[..|s| - 1] + [t];
      if t.kind == k && IsThisMonth(t.date, today) then r + [t] else r
  }


  /** No row is counted both as this month's income and as this month's expense. */
  lemma ThisMonthDisjoint(s: seq<Transaction>, today: Date)
    ensures forall t :: t in ThisMonthOf(s, Income, today) ==> t !in ThisMonthOf(s, Expense, today)
  {
  }

  /** On valid dates the dashboard's month test is the "this-month" preset of the other pages. */
  lemma {:induction false} ThisMonthIsPreset(s: seq<Transaction>, k: Kind, today: Date)
    requires 1 <= today.month <= 12
    requires forall i :: 0 <= i < |s| ==> ValidDate(s[i].date)
    ensures var r := DateRange("this-month", today);
            ThisMonthOf(s, k, today) == OfKind(InPeriod(s, r.start, r.end), k)
  {
    var r := DateRange("this-month", today);
    if s != [] {
      var p := s[..|s| - 1];
      var t := s[|s| - 1];
      ThisMonthIsPreset(p, k, today);
      ThisMonthMembership(t.date, today);
      var q := InPeriod(p, r.start, r.end);
      if WithinBounds(t.date, r.start, r.end) {
        assert InPeriod(s, r.start, r.end) == q + [t];
        assert (q + [t])[..|q|] == q;
      } else {
        assert InPeriod(s, r.start, r.end) == q;
      }
    }
  }

  /** A real today and stored rows with real dates. */
  ghost predicate MonthInputsValid(s: seq<Transaction>, today: Date)
  {
    1 <= today.month <= 12 && forall i :: 0 <= i < |s| ==> ValidDate(s[i].date)
  }

  lemma MonthAsPreset(s: seq<Transaction>, k: Kind, today: Date)
    ensures MonthInputsValid(s, today) ==>
              var r := DateRange("this-month", today);
              SumOf(ThisMonthOf(s, k, today), Amount) == SumOf(OfKind(InPeriod(s, r.start, r.end), k), Amount)
  {
    if MonthInputsValid(s, today) {
      ThisMonthIsPreset(s, k, today);
    }
  }

  /** `thisMonthIncome`: the server summary's income for the "this-month" range. */
  function ThisMonthIncome(s: seq<Transaction>, today: Date): (r: int)
    ensures MonthInputsValid(s, today) ==>
              var range := DateRange("this-month", today);
              r == Summarize(InPeriod(s, range.start, range.end)).income
  {
    var range := DateRange("this-month", today);
    MonthAsPreset(s, Income, today);
    OfKindSum(InPeriod(s, range.start, range.end));
    SumOf(ThisMonthOf(s, Income, today), Amount)
  }

  /** `thisMonthExpenses`: the server summary's expense for the "this-month" range. */
  function ThisMonthExpenses(s: seq<Transaction>, today: Date): (r: int)
    ensures MonthInputsValid(s, today) ==>
              var range := DateRange("this-month", today);
              r == Summarize(InPeriod(s, range.start, range.end)).expense
  {
    var range := DateRange("this-month", today);
    MonthAsPreset(s, Expense, today);
    OfKindSum(InPeriod(s, range.start, range.end));
    SumOf(ThisMonthOf(s, Expense, today), Amount)
  }

  function Expenses(s: seq<Transaction>): int { SumOf(s, ExpensePart) }

  /** The dashboard's pie chart over all accounts adds up to the accounts' expense totals. */
  lemma {:induction false} DashboardCategoriesSum(lists: seq<seq<Transaction>>)
    ensures SumOf(CategoryTotals(AllTransactions(lists)), SliceValue) == SumOf(lists, Expenses)
  {
    ExpensesOfAll(lists);
  }

  lemma {:induction false} ExpensesOfAll(lists: seq<seq<Transaction>>)
    ensures SumOf(AllTransactions(lists), ExpensePart) == SumOf(lists, Expenses)
  {
    if lists != [] {
      var p := lists[..|lists| - 1];
      ExpensesOfAll(p);
      SumOfAppend(AllTransactions(p), lists[|lists| - 1], ExpensePart);
    }
  }
}
