/**
  * The in-memory store of `backend/app/tempStore.py`: module-level lists of
  * accounts, categories and transactions, each with a `next_*_id` counter,
  * updated in place by `append`, `pop` and `setattr`.
  */
module TempStore {

  import opened Wrappers
  import opened Folds
  import opened Ledger
  import opened Tables

  /** `models.Account`: id, name and an optional `account_type`. */
  datatype Account = Account(id: int, name: string, accountType: Option<string>)

  function AccountKey(a: Account): int { a.id }
  function CategoryKey(c: Category): int { c.id }
  function TransactionKey(t: Transaction): int { t.id }

  /**
    * `Account(id=..., name=..., type=...)` as written: the model has no field
    * called `type`, and pydantic ignores unknown keywords, so the account type is lost.
    */
  function AccountFromKeywords(id: int, name: string, typeKeyword: string): (a: Account)
    ensures a.id == id && a.name == name
  {
    Account(id, name, None)
  }

  /** The three seeded accounts as the module builds them. */
  function SeedAccountsAsWritten(): seq<Account>
  {
    [AccountFromKeywords(1, "Checking", "checking"),
     AccountFromKeywords(2, "Savings", "savings"),
     AccountFromKeywords(3, "Credit Card", "credit")]
  }

  /** No seeded account, and no added one, remembers the type it was given. */
  lemma AccountTypeLost(id: int, name: string, t: string)
    ensures AccountFromKeywords(id, name, t).accountType != Some(t)
    ensures forall k :: 0 <= k < 3 ==> SeedAccountsAsWritten()[k].accountType.None?
  {
  }

  class Store {
    var accounts: seq<Account>
    var nextAccountId: int
    var categories: seq<Category>
    var nextCategoryId: int
    var transactions: seq<Transaction>
    var nextTransactionId: int

    /** Account and category ids increase along their lists and stay below their counters. */
    ghost predicate Valid()
      reads this
    {
      && Increasing(accounts, AccountKey) && Below(accounts, AccountKey, nextAccountId)
      && Increasing(categories, CategoryKey) && Below(categories, CategoryKey, nextCategoryId)
    }

    /**
      * The same for transactions. Updates may overwrite `id`, so this holds
      * only as long as no update body carries an `id` key.
      */
    ghost predicate TransactionIdsFresh()
      reads this
    {
      Increasing(transactions, TransactionKey) && Below(transactions, TransactionKey, nextTransactionId)
    }

    /** The module's initial state: three accounts, five categories, no transactions. */
    constructor ()
      ensures Valid() && TransactionIdsFresh()
      ensures accounts == [Account(1, "Checking", Some("checking")),
                           Account(2, "Savings", Some("savings")),
                           Account(3, "Credit Card", Some("credit"))]
      ensures nextAccountId == 4
      ensures categories == [Category(1, "Groceries"), Category(2, "Entertainment"),
                             Category(3, "Bills"), Category(4, "Salary"), Category(5, "General")]
      ensures nextCategoryId == 6
      ensures transactions == [] && nextTransactionId == 1
    {
      accounts := [Account(1, "Checking", Some("checking")),
                   Account(2, "Savings", Some("savings")),
                   Account(3, "Credit Card", Some("credit"))];
      nextAccountId := 4;
      categories := [Category(1, "Groceries"), Category(2, "Entertainment"),
                     Category(3, "Bills"), Category(4, "Salary"), Category(5, "General")];
      nextCategoryId := 6;
      transactions := [];
      nextTransactionId := 1;
    }

    /** `any(account.id == account_id for account in accounts)` */
    predicate AccountExists(accountId: int)
      reads this
      ensures AccountExists(accountId) <==> IndexOf(accounts, AccountKey, accountId).Some?
    {
      exists i :: 0 <= i < |accounts| && accounts[i].id == accountId
    }

    /** Appends an account carrying the counter's id and bumps the counter. */
    method AddAccount(name: string, accountType: string) returns (a: Account)
      requires Valid()
      modifies this`accounts, this`nextAccountId
      ensures Valid()
      ensures a == Account(old(nextAccountId), name, Some(accountType))
      ensures accounts == old(accounts) + [a]
      ensures nextAccountId == old(nextAccountId) + 1
    {
      a := Account(nextAccountId, name, Some(accountType));
      AppendFresh(accounts, AccountKey, nextAccountId, a);
      nextAccountId := nextAccountId + 1;
      accounts := accounts + [a];
    }

    /** Removes the first account with the id and answers true, or answers false and changes nothing. */
    method DeleteAccount(accountId: int) returns (found: bool)
      requires Valid()
      modifies this`accounts
      ensures Valid()
      ensures found == old(AccountExists(accountId))
      ensures found ==> accounts == RemoveAt(old(accounts), IndexOf(old(accounts), AccountKey, accountId).value)
      ensures !found ==> accounts == old(accounts)
    {
      var i := 0;
      while i < |accounts|
        invariant 0 <= i <= |accounts|
        invariant forall j :: 0 <= j < i ==> accounts[j].id != accountId
      {
        if accounts[i].id == accountId {
          RemoveKeepsIncreasing(accounts, AccountKey, nextAccountId, i);
          accounts := RemoveAt(accounts, i);
          return true;
        }
        i := i + 1;
      }
      return false;
    }

    /** Overwrites the transaction's id with the counter, bumps the counter and appends; `accountId` is not used. */
    method AddTransaction(accountId: int, t: Transaction) returns (r: Transaction)
      modifies this`transactions, this`nextTransactionId
      ensures r == t.(id := old(nextTransactionId))
      ensures transactions == old(transactions) + [r]
      ensures nextTransactionId == old(nextTransactionId) + 1
      ensures old(TransactionIdsFresh()) ==> TransactionIdsFresh()
    {
      r := t.(id := nextTransactionId);
      if TransactionIdsFresh() {
        AppendFresh(transactions, TransactionKey, nextTransactionId, r);
      }
      nextTransactionId := nextTransactionId + 1;
      transactions := transactions + [r];
    }

    /** `[t for t in transactions if t.account_id == account_id]`, in stored order. */
    function TransactionsForAccount(accountId: int): (r: seq<Transaction>)
      reads this
      ensures forall t :: t in r <==> t in transactions && t.accountId == accountId
    {
      ForAccount(transactions, accountId)
    }

    /** The search loop of `get_transaction_by_id`, answering the position of the row it returns. */
    method FindTransaction(transactionId: int) returns (k: Option<nat>)
      ensures k == IndexOf(transactions, TransactionKey, transactionId)
    {
      var i := 0;
      while i < |transactions|
        invariant 0 <= i <= |transactions|
        invariant forall j :: 0 <= j < i ==> transactions[j].id != transactionId
      {
        if transactions[i].id == transactionId {
          return Some(i);
        }
        i := i + 1;
      }
      return None;
    }

    /** The first transaction with the id, or None when there is none. */
    method GetTransactionById(transactionId: int) returns (r: Option<Transaction>)
      ensures r.None? <==> forall j :: 0 <= j < |transactions| ==> transactions[j].id != transactionId
      ensures r.Some? ==> exists k :: 0 <= k < |transactions| && transactions[k] == r.value
                                     && r.value.id == transactionId
                                     && forall j :: 0 <= j < k ==> transactions[j].id != transactionId
    {
      var k := FindTransaction(transactionId);
      if k.Some? {
        r := Some(transactions[k.value]);
      } else {
        r := None;
      }
    }

    /**
      * Finds the row, then runs `setattr` for every key of the body that is an
      * attribute; on an absent id nothing changes and the answer is None.
      */
    method UpdateTransaction(transactionId: int, patch: map<string, Value>) returns (r: Option<Transaction>)
      modifies this`transactions
      ensures var k := IndexOf(old(transactions), TransactionKey, transactionId);
              if k.None? then r.None? && transactions == old(transactions)
              else transactions == old(transactions)[k.value := ApplyPatch(old(transactions)[k.value], patch)]
                   && r == Some(transactions[k.value])
      ensures |transactions| == |old(transactions)|
      ensures "id" !in patch && old(TransactionIdsFresh()) ==> TransactionIdsFresh()
    {
      var k := FindTransaction(transactionId);
      if k.None? {
        return None;
      }
      var i := k.value;
      var current := SetAttributes(transactions[i], patch);
      transactions := transactions[i := current];
      r := Some(current);
    }

    /** Removes the first transaction with the id and answers true, or answers false and changes nothing. */
    method DeleteTransaction(transactionId: int) returns (found: bool)
      modifies this`transactions
      ensures found == IndexOf(old(transactions), TransactionKey, transactionId).Some?
      ensures found ==> transactions == RemoveAt(old(transactions), IndexOf(old(transactions), TransactionKey, transactionId).value)
      ensures !found ==> transactions == old(transactions)
      ensures old(TransactionIdsFresh()) ==> TransactionIdsFresh()
    {
      var i := 0;
      while i < |transactions|
        invariant 0 <= i <= |transactions|
        invariant forall j :: 0 <= j < i ==> transactions[j].id != transactionId
      {
        if transactions[i].id == transactionId {
          if TransactionIdsFresh() {
            RemoveKeepsIncreasing(transactions, TransactionKey, nextTransactionId, i);
          }
          transactions := RemoveAt(transactions, i);
          return true;
        }
        i := i + 1;
      }
      return false;
    }

    /**
      * Income and expense totals of the account's transactions (each only of its own
      * type), their difference and the number of that account's transactions.
      */
    function SummaryForAccount(accountId: int): (r: Summary)
      reads this
      ensures r.income == SumOf(OfKind(TransactionsForAccount(accountId), Income), Amount)
      ensures r.expense == SumOf(OfKind(TransactionsForAccount(accountId), Expense), Amount)
      ensures r.net == r.income - r.expense
      ensures r.count == |TransactionsForAccount(accountId)|
    {
      OfKindSum(TransactionsForAccount(accountId));
      Summarize(TransactionsForAccount(accountId))
    }

    /** Appends a category carrying the counter's id and bumps the counter. */
    method AddCategory(name: string) returns (c: Category)
      requires Valid()
      modifies this`categories, this`nextCategoryId
      ensures Valid()
      ensures c == Category(old(nextCategoryId), name)
      ensures categories == old(categories) + [c]
      ensures nextCategoryId == old(nextCategoryId) + 1
    {
      c := Category(nextCategoryId, name);
      AppendFresh(categories, CategoryKey, nextCategoryId, c);
      nextCategoryId := nextCategoryId + 1;
      categories := categories + [c];
    }

    /** Removes the first category with the id and answers true, or answers false and changes nothing. */
    method DeleteCategory(categoryId: int) returns (found: bool)
      requires Valid()
      modifies this`categories
      ensures Valid()
      ensures found == IndexOf(old(categories), CategoryKey, categoryId).Some?
      ensures found ==> categories == RemoveAt(old(categories), IndexOf(old(categories), CategoryKey, categoryId).value)
      ensures !found ==> categories == old(categories)
    {
      var i := 0;
      while i < |categories|
        invariant 0 <= i <= |categories|
        invariant forall j :: 0 <= j < i ==> categories[j].id != categoryId
      {
        if categories[i].id == categoryId {
          RemoveKeepsIncreasing(categories, CategoryKey, nextCategoryId, i);
          categories := RemoveAt(categories, i);
          return true;
        }
        i := i + 1;
      }
      return false;
    }
  }
}
