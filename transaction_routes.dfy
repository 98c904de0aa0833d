/**
  * The handlers of `/transactions`: ownership checks that answer 404, the
  * inclusive date filter, the summary, and create, read, update and delete
  * of single rows, over the in-memory tables.
  */
module TransactionRoutes {

  import opened Wrappers
  import opened Calendar
  import opened Folds
  import opened Ledger
  import opened Tables
  import opened Backend

  const AccountNotFound := HttpError(404, "Account not found")
  const TransactionNotFound := HttpError(404, "Transaction not found")
  /** The framework's answer to a body that fails the `TransactionCreate` schema. */
  const InvalidBody := HttpError(422, "Unprocessable Entity")
  /** The answer when `commit` fails because the new primary key is taken. */
  const ServerError := HttpError(500, "Internal Server Error")

  /** The account's rows, then `date >= start` and `date <= end` when those bounds are given. */
  function FilteredTransactions(db: Database, accountId: int, start: Option<Date>, end: Option<Date>): (r: seq<Transaction>)
    reads db
    ensures forall t :: t in r <==> t in db.transactions && t.accountId == accountId && WithinBounds(t.date, start, end)
  {
    InPeriod(ForAccount(db.transactions, accountId), start, end)
  }

  /** `GET /transactions/summary` */
  function GetAccountSummary(db: Database, userId: int, accountId: int, start: Option<Date>, end: Option<Date>): (r: Result<Summary, HttpError>)
    reads db
    ensures r.Err? <==> !db.OwnsAccount(userId, accountId)
    ensures r.Err? ==> r.error == AccountNotFound
    ensures r.Ok? ==> r.value.net == r.value.income - r.value.expense
    ensures r.Ok? ==> r.value.count == |FilteredTransactions(db, accountId, start, end)|
    ensures r.Ok? ==> r.value.income == SumOf(FilteredTransactions(db, accountId, start, end), IncomePart)
                      && r.value.expense == SumOf(FilteredTransactions(db, accountId, start, end), ExpensePart)
  {
    if !db.OwnsAccount(userId, accountId) then Err(AccountNotFound)
    else Ok(Summarize(FilteredTransactions(db, accountId, start, end)))
  }

  /** `GET /transactions` */
  function GetTransactions(db: Database, userId: int, accountId: int, start: Option<Date>, end: Option<Date>): (r: Result<seq<Transaction>, HttpError>)
    reads db
    ensures r.Err? <==> !db.OwnsAccount(userId, accountId)
    ensures r.Err? ==> r.error == AccountNotFound
    ensures r.Ok? ==> forall t :: t in r.value <==>
                        t in db.transactions && t.accountId == accountId && WithinBounds(t.date, start, end)
  {
    if !db.OwnsAccount(userId, accountId) then Err(AccountNotFound)
    else Ok(FilteredTransactions(db, accountId, start, end))
  }

  /** Both endpoints filter identically: they fail together, and the count is the list's length. */
  lemma SummaryCountIsListLength(db: Database, userId: int, accountId: int, start: Option<Date>, end: Option<Date>)
    ensures GetAccountSummary(db, userId, accountId, start, end).Ok?
        <==> GetTransactions(db, userId, accountId, start, end).Ok?
    ensures GetAccountSummary(db, userId, accountId, start, end).Ok? ==>
              GetAccountSummary(db, userId, accountId, start, end).value.count
              == |GetTransactions(db, userId, accountId, start, end).value|
  {
  }

  /** Both bounds are inclusive: a row dated on a bound is kept. */
  lemma {:induction false} BoundsInclusive(s: seq<Transaction>, t: Transaction, d: Date)
    requires t in s && t.date == d
    ensures t in InPeriod(s, Some(d), Some(d))
    ensures t in InPeriod(s, Some(d), None) && t in InPeriod(s, None, Some(d))
  {
    BeforeTotal(d, d);
  }

  /** `POST /transactions`: a new row for an owned account, copying the body and taking the account id from the query. */
  method CreateTransaction(db: Database, userId: int, accountId: int, body: NewTransaction) returns (r: Result<Transaction, HttpError>)
    requires db.Valid()
    modifies db
    ensures db.Valid()
    ensures db.accounts == old(db.accounts) && db.categories == old(db.categories)
    ensures !ValidNewTransaction(body) ==> r == Err(InvalidBody) && db.transactions == old(db.transactions)
    ensures ValidNewTransaction(body) && !old(db.OwnsAccount(userId, accountId)) ==>
              r == Err(AccountNotFound) && db.transactions == old(db.transactions)
    ensures ValidNewTransaction(body) && old(db.OwnsAccount(userId, accountId)) ==>
              && r == Ok(Transaction(old(NextRowId(db.transactions, RowKey)), accountId, body.amount,
                                     body.date, body.description, body.kind, body.category))
              && db.transactions == old(db.transactions) + [r.value]
  {
    if !ValidNewTransaction(body) {
      return Err(InvalidBody);
    }
    if !db.OwnsAccount(userId, accountId) {
      return Err(AccountNotFound);
    }
    var row := Transaction(NextRowId(db.transactions, RowKey), accountId, body.amount,
                           body.date, body.description, body.kind, body.category);
    AppendUnique(db.transactions, RowKey, row);
    db.transactions := db.transactions + [row];
    r := Ok(row);
  }

  /** `GET /transactions/{id}`: the row, when its account belongs to the current user. */
  function GetTransaction(db: Database, userId: int, transactionId: int): (r: Result<Transaction, HttpError>)
    reads db
    requires db.Valid()
    ensures r.Ok? ==> r.value in db.transactions && r.value.id == transactionId
                      && db.OwnsAccount(userId, r.value.accountId)
    ensures r.Err? ==> r.error == TransactionNotFound
    ensures r.Err? <==> forall t :: t in db.transactions && t.id == transactionId ==> !db.OwnsAccount(userId, t.accountId)
  {
    match db.OwnedTransaction(userId, transactionId)
    case None => Err(TransactionNotFound)
    case Some(k) => Ok(db.transactions[k])
  }

  /**
    * `PUT /transactions/{id}`: on an owned row, writes the attributes the body names
    * and ignores its other keys. A body that moves the row onto another row's id
    * fails at commit and changes nothing.
    */
  method UpdateTransactionRoute(db: Database, userId: int, transactionId: int, patch: map<string, Value>)
    returns (r: Result<Transaction, HttpError>)
    requires db.Valid()
    modifies db
    ensures db.Valid()
    ensures db.accounts == old(db.accounts) && db.categories == old(db.categories)
    ensures |db.transactions| == |old(db.transactions)|
    ensures old(db.OwnedTransaction(userId, transactionId)).None? ==>
              r == Err(TransactionNotFound) && db.transactions == old(db.transactions)
    ensures r.Ok? ==>
              var k := old(db.OwnedTransaction(userId, transactionId)).value;
              && r.value == ApplyPatch(old(db.transactions)[k], patch)
              && db.transactions == old(db.transactions)[k := r.value]
    ensures r.Err? ==> db.transactions == old(db.transactions)
    ensures r == Err(ServerError) <==>
              && old(db.OwnedTransaction(userId, transactionId)).Some?
              && var k := old(db.OwnedTransaction(userId, transactionId)).value;
                 exists j :: 0 <= j < |old(db.transactions)| && j != k
                             && old(db.transactions)[j].id == ApplyPatch(old(db.transactions)[k], patch).id
  {
    var found := db.OwnedTransaction(userId, transactionId);
    if found.None? {
      return Err(TransactionNotFound);
    }
    var k := found.value;
    var updated := SetAttributes(db.transactions[k], patch);
    if exists j :: 0 <= j < |db.transactions| && j != k && db.transactions[j].id == updated.id {
      return Err(ServerError);
    }
    db.transactions := db.transactions[k := updated];
    r := Ok(updated);
  }

  /**
    * The update checks who owns the row, not the account a body names: a body
    * with `account_id` moves an owned row onto any account id, and changes nothing else.
    * That the database then accepts the row assumes foreign keys are not enforced.
    */
  lemma UpdateMayNameAnyAccount(t: Transaction, accountId: int)
    ensures ApplyPatch(t, map["account_id" := Number(accountId)]) == t.(accountId := accountId)
  {
    var patch := map["account_id" := Number(accountId)];
    assert "id" !in patch && "amount" !in patch && "date" !in patch;
    assert "description" !in patch && "type" !in patch && "category" !in patch;
  }

  /** `DELETE /transactions/{id}`: removes exactly the owned row with that id. */
  method DeleteTransactionRoute(db: Database, userId: int, transactionId: int) returns (r: Result<string, HttpError>)
    requires db.Valid()
    modifies db
    ensures db.Valid()
    ensures db.accounts == old(db.accounts) && db.categories == old(db.categories)
    ensures old(db.OwnedTransaction(userId, transactionId)).None? ==>
              r == Err(TransactionNotFound) && db.transactions == old(db.transactions)
    ensures old(db.OwnedTransaction(userId, transactionId)).Some? ==>
              && r == Ok("Transaction deleted successfully")
              && db.transactions == RemoveAt(old(db.transactions), old(db.OwnedTransaction(userId, transactionId)).value)
  {
    var found := db.OwnedTransaction(userId, transactionId);
    if found.None? {
      return Err(TransactionNotFound);
    }
    RemoveUnique(db.transactions, RowKey, found.value);
    db.transactions := RemoveAt(db.transactions, found.value);
    r := Ok("Transaction deleted successfully");
  }
}
