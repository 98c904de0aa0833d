/**
  * The AccountDetail page: the account looked up by the route's id, the add
  * form with its amount check and reset, and the transaction list shown
  * newest first. The balance card is `Ledger.Balance`.
  */
module AccountDetail {

  import opened Wrappers
  import opened Calendar
  import opened Ledger
  import opened Backend
  import opened Forms

  /**
    * `accounts.find((acc) => acc.id === parseInt(id))`; `routeId` is the parsed
    * route parameter, None when it is not an integer (NaN equals nothing).
    */
  function FindAccount(accounts: seq<DbAccount>, routeId: Option<int>): (r: Option<DbAccount>)
    ensures r.None? <==> routeId.None? || forall i :: 0 <= i < |accounts| ==> accounts[i].id != routeId.value
    ensures r.Some? ==> exists i :: 0 <= i < |accounts| && accounts[i] == r.value && r.value.id == routeId.value
                          && forall j :: 0 <= j < i ==> accounts[j].id != routeId.value
  {
    if routeId.None? || accounts == [] then None
    else if accounts[0].id == routeId.value then Some(accounts[0])
    else
      var r := FindAccount(accounts[1..], routeId);
      if r.Some? then
        var i :| 0 <= i < |accounts[1..]| && accounts[1..][i] == r.value && r.value.id == routeId.value
                 && forall j :: 0 <= j < i ==> accounts[1..][j].id != routeId.value;
        assert accounts[i + 1] == r.value;
        r
      else r
  }

  /** The page shows an account exactly when the user has one with the route's id; otherwise "Account not found". */
  lemma {:induction false} FoundIsOwned(db: Database, userId: int, accountId: int, accounts: seq<DbAccount>)
    requires forall a :: a in accounts <==> a in db.accounts && a.userId == userId
    ensures FindAccount(accounts, Some(accountId)).Some? <==> db.OwnsAccount(userId, accountId)
  {
    if db.OwnsAccount(userId, accountId) {
      var i :| 0 <= i < |db.accounts| && db.accounts[i].id == accountId && db.accounts[i].userId == userId;
      assert db.accounts[i] in accounts;
      var k :| 0 <= k < |accounts| && accounts[k] == db.accounts[i];
    }
    if FindAccount(accounts, Some(accountId)).Some? {
      var i :| 0 <= i < |accounts| && accounts[i].id == accountId;
      assert accounts[i] in accounts;
      var k :| 0 <= k < |db.accounts| && db.accounts[k] == accounts[i];
    }
  }

  /**
    * `!formData.amount || parseFloat(formData.amount) <= 0` fails: a non-empty,
    * positive amount. An accepted amount is posted as a positive number.
    */
  predicate AcceptsAmount(a: AmountInput)
    ensures AcceptsAmount(a) <==> AmountValue(a).Number? && AmountValue(a).n > 0
  {
    a.Entered? && a.value > 0
  }

  /** `categories[0]?.name || ""` */
  function FirstCategoryName(categories: seq<Category>): (r: string)
    ensures |categories| > 0 ==> r == categories[0].name
    ensures categories == [] ==> r == ""
  {
    if |categories| > 0 then categories[0].name else ""
  }

  /** The add form (`formData`) with the categories it offers. */
  class Form {
    var kind: Kind
    var amount: AmountInput
    var category: string
    var date: Date
    var description: string
    var categories: seq<Category>

    /** The initial `formData`, dated today. */
    constructor (today: Date)
      ensures Cleared(today) && category == "" && categories == []
    {
      kind := Expense;
      amount := Blank;
      category := "";
      date := today;
      description := "";
      categories := [];
    }

    /** The reset values, apart from the category. */
    predicate Cleared(today: Date)
      reads this
    {
      kind == Expense && amount == Blank && date == today && description == ""
    }

    /** After loading, the category defaults to the first category's name when there is one. */
    method LoadCategories(loaded: seq<Category>)
      modifies this`categories, this`category
      ensures categories == loaded
      ensures |loaded| > 0 ==> category == loaded[0].name
      ensures loaded == [] ==> category == old(category)
    {
      categories := loaded;
      if |loaded| > 0 {
        category := loaded[0].name;
      }
    }

    /**
      * `handleAddTransaction`: an empty or non-positive amount is refused with
      * an alert and nothing is sent; otherwise the form is posted, and on
      * success reset to today's date and the first category.
      */
    method Submit(today: Date, succeeded: bool) returns (sent: Option<PostBody>)
      modifies this`kind, this`amount, this`category, this`date, this`description
      ensures !AcceptsAmount(old(amount)) ==> sent.None? && unchanged(this)
      ensures AcceptsAmount(old(amount)) ==>
                sent == Some(PostBody(Number(old(amount).value), old(date), old(description), old(kind), old(category)))
      ensures AcceptsAmount(old(amount)) && succeeded ==> Cleared(today) && category == FirstCategoryName(categories)
      ensures AcceptsAmount(old(amount)) && !succeeded ==> unchanged(this)
    {
      if !AcceptsAmount(amount) {
        return None;
      }
      sent := Some(PostBody(AmountValue(amount), date, description, kind, category));
      if succeeded {
        kind := Expense;
        amount := Blank;
        category := FirstCategoryName(categories);
        date := today;
        description := "";
      }
    }
  }

  /** Whatever the page posts has a positive number amount. */
  lemma SubmittedAmountPositive(b: PostBody, a: AmountInput, date: Date, description: string, kind: Kind, category: string)
    requires AcceptsAmount(a) && b == PostBody(Number(a.value), date, description, kind, category)
    ensures b.amount.Number? && b.amount.n > 0
    ensures kind == Income || kind == Expense ==> Parse(b).Some? && Parse(b).value.amount > 0
  {
  }

  /** Descending by date: no row is older than a row after it. */
  ghost predicate NewestFirst(s: seq<Transaction>)
  {
    forall i, j :: 0 <= i < j < |s| ==> !Before(s[i].date, s[j].date)
  }

  /** Places `x` after every row of a newest-first list that is not older than it, as a stable sort does. */
  function InsertNewestFirst(s: seq<Transaction>, x: Transaction): (r: seq<Transaction>)
    ensures |r| == |s| + 1
  {
    if s == [] || !Before(s[|s| - 1].date, x.date) then s + [x]
    else InsertNewestFirst(s[..|s| - 1], x) + [s[|s| - 1]]
  }

  /** `sort((a, b) => new Date(b.date) - new Date(a.date))`: a stable sort, newest first. */
  function SortNewestFirst(s: seq<Transaction>): (r: seq<Transaction>)
    ensures |r| == |s|
  {
    if s == [] then [] else InsertNewestFirst(SortNewestFirst(s[..|s| - 1]), s[|s| - 1])
  }

  lemma NotBeforeTransitive(a: Date, b: Date, c: Date)
    requires !Before(a, b) && !Before(b, c)
    ensures !Before(a, c)
  {
  }

  /** Inserting adds exactly the one row. */
  lemma {:induction false} InsertNewestFirstPermutes(s: seq<Transaction>, x: Transaction)
    ensures multiset(InsertNewestFirst(s, x)) == multiset(s) + multiset{x}
  {
    if s != [] && Before(s[|s| - 1].date, x.date) {
      InsertNewestFirstPermutes(s[..|s| - 1], x);
      assert s == s[..|s| - 1] + [s[|s| - 1]];
    }
  }

  /** Inserting into a newest-first list keeps it newest first. */
  lemma {:induction false} InsertNewestFirstSorted(s: seq<Transaction>, x: Transaction)
    requires NewestFirst(s)
    ensures NewestFirst(InsertNewestFirst(s, x))
  {
    if s == [] {
    } else if !Before(s[|s| - 1].date, x.date) {
      var r := s + [x];
      forall i, j | 0 <= i < j < |r|
        ensures !Before(r[i].date, r[j].date)
      {
        if j == |s| && i < |s| - 1 {
          NotBeforeTransitive(s[i].date, s[|s| - 1].date, x.date);
        }
      }
    } else {
      var p := s[..|s| - 1];
      var last := s[|s| - 1];
      var q := InsertNewestFirst(p, x);
      InsertNewestFirstSorted(p, x);
      InsertNewestFirstPermutes(p, x);
      forall k | 0 <= k < |q|
        ensures !Before(q[k].date, last.date)
      {
        assert q[k] in multiset(q);
        if q[k] != x {
          assert q[k] in multiset(p);
          var m :| 0 <= m < |p| && p[m] == q[k];
          assert s[m] == q[k];
        }
      }
      var r := q + [last];
      forall i, j | 0 <= i < j < |r|
        ensures !Before(r[i].date, r[j].date)
      {
        if j < |q| {
          assert r[i] == q[i] && r[j] == q[j];
        }
      }
    }
  }

  /** The sorted list is newest first and holds the same rows. */
  lemma {:induction false} SortNewestFirstSpec(s: seq<Transaction>)
    ensures NewestFirst(SortNewestFirst(s))
    ensures multiset(SortNewestFirst(s)) == multiset(s)
  {
    if s != [] {
      var p := s[..|s| - 1];
      SortNewestFirstSpec(p);
      InsertNewestFirstSorted(SortNewestFirst(p), s[|s| - 1]);
      InsertNewestFirstPermutes(SortNewestFirst(p), s[|s| - 1]);
      assert s == p + [s[|s| - 1]];
    }
  }

  /** The rows of one date, in list order. */
  function OnDate(s: seq<Transaction>, d: Date): seq<Transaction>
  {
    if s == [] then []
    else OnDate(s[..|s| - 1], d) + (if s[|s| - 1].date == d then [s[|s| - 1]] else [])
  }

  lemma {:induction false} InsertOnDate(s: seq<Transaction>, x: Transaction, d: Date)
    ensures OnDate(InsertNewestFirst(s, x), d) == OnDate(s, d) + (if x.date == d then [x] else [])
  {
    if s == [] || !Before(s[|s| - 1].date, x.date) {
      assert (s + [x])[..|s|] == s;
    } else {
      var p := s[..|s| - 1];
      var q := InsertNewestFirst(p, x);
      InsertOnDate(p, x, d);
      assert (q + [s[|s| - 1]])[..|q|] == q;
    }
  }

  /** The sort is stable: rows of the same date keep their relative order. */
  lemma {:induction false} SortNewestFirstStable(s: seq<Transaction>, d: Date)
    ensures OnDate(SortNewestFirst(s), d) == OnDate(s, d)
  {
    if s != [] {
      var p := s[..|s| - 1];
      SortNewestFirstStable(p, d);
      InsertOnDate(SortNewestFirst(p), s[|s| - 1], d);
    }
  }

  /** Sorting for display does not change the balance card. */
  lemma SortKeepsBalance(s: seq<Transaction>)
    ensures Balance(SortNewestFirst(s)) == Balance(s)
  {
    SortNewestFirstSpec(s);
    BalancePermutation(SortNewestFirst(s), s);
  }

  lemma InsertShift(p: seq<Transaction>, j: nat, x: Transaction)
    requires 0 < j <= |p| && Before(p[j - 1].date, x.date)
    ensures InsertNewestFirst(p[..j - 1], x) + p[j - 1..] == InsertNewestFirst(p[..j], x) + p[j..]
  {
    assert p[..j][..j - 1] == p[..j - 1];
    assert p[j - 1..] == [p[j - 1]] + p[j..];
  }

  lemma SortStep(s: seq<Transaction>, i: nat)
    requires i < |s|
    ensures SortNewestFirst(s[..i + 1]) == InsertNewestFirst(SortNewestFirst(s[..i]), s[i])
  {
    assert s[..i + 1][..i] == s[..i];
  }

  /** Moves `a[i]` down past the older rows before it; `a[..i]` is newest first already. */
  method InsertAt(a: array<Transaction>, i: int)
    requires 0 <= i < a.Length
    modifies a
    ensures a[..i + 1] == InsertNewestFirst(old(a[..i]), old(a[i]))
    ensures a[i + 1..] == old(a[i + 1..])
  {
    ghost var p := a[..i];
    var x := a[i];
    var j := i;
    assert p[..j] == p && p[j..] == [];
    while j > 0 && Before(a[j - 1].date, x.date)
      invariant 0 <= j <= i
      invariant forall k :: 0 <= k < j ==> a[k] == p[k]
      invariant forall k :: j < k <= i ==> a[k] == p[k - 1]
      invariant a[i + 1..] == old(a[i + 1..])
      invariant InsertNewestFirst(p[..j], x) + p[j..] == InsertNewestFirst(p, x)
    {
      InsertShift(p, j, x);
      a[j] := a[j - 1];
      j := j - 1;
    }
    a[j] := x;
    assert a[..i + 1] == p[..j] + [x] + p[j..];
  }

  /** The in-place sort of the rendered list, as an insertion sort. */
  method SortByDateDescending(a: array<Transaction>)
    modifies a
    ensures a[..] == SortNewestFirst(old(a[..]))
  {
    ghost var s := a[..];
    var i := 0;
    while i < a.Length
      invariant 0 <= i <= a.Length
      invariant a[..i] == SortNewestFirst(s[..i])
      invariant a[i..] == s[i..]
    {
      assert a[i] == s[i];
      InsertAt(a, i);
      SortStep(s, i);
      i := i + 1;
    }
    assert a[..] == a[..a.Length];
    assert s == s[..a.Length];
  }
}
