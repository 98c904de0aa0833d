/** The handlers of `/accounts`: every query is restricted to the current user's rows. */
module AccountRoutes {

  import opened Wrappers
  import opened Ledger
  import opened Tables
  import opened Backend

  const AccountNotFound := HttpError(404, "Account not found")
  /** The unhandled `IntegrityError` of a commit that the database refuses. */
  const DeleteRefused := HttpError(500, "Internal Server Error")

  /** `filter(Account.user_id == current_user.id)`, in stored order. */
  function OwnedBy(s: seq<DbAccount>, userId: int): (r: seq<DbAccount>)
    ensures |r| <= |s|
    ensures forall a :: a in r <==> a in s && a.userId == userId
  {
    if s == [] then []
    else
      var r := OwnedBy(s[..|s| - 1], userId);
      assert s == s[..|s| - 1] + [s[|s| - 1]];
      if s[|s| - 1].userId == userId then r + [s[|s| - 1]] else r
  }

  /** `GET /accounts`: exactly the current user's accounts. */
  function GetAccounts(db: Database, userId: int): (r: seq<DbAccount>)
    reads db
    ensures forall a :: a in r <==> a in db.accounts && a.userId == userId
  {
    OwnedBy(db.accounts, userId)
  }

  /** Two different users never see a common account. */
  lemma {:induction false} AccountsArePrivate(db: Database, u1: int, u2: int)
    requires u1 != u2
    ensures forall a :: a in GetAccounts(db, u1) ==> a !in GetAccounts(db, u2)
  {
  }

  /** `POST /accounts`: a new row owned by the current user with the given name and type. */
  method CreateAccount(db: Database, userId: int, name: string, accountType: string) returns (a: DbAccount)
    requires db.Valid()
    modifies db
    ensures db.Valid()
    ensures a == DbAccount(old(NextRowId(db.accounts, DbAccountKey)), userId, name, accountType)
    ensures db.accounts == old(db.accounts) + [a]
    ensures db.transactions == old(db.transactions) && db.categories == old(db.categories)
  {
    a := DbAccount(NextRowId(db.accounts, DbAccountKey), userId, name, accountType);
    AppendUnique(db.accounts, DbAccountKey, a);
    db.accounts := db.accounts + [a];
  }

  /** Some stored transaction still refers to the account. */
  predicate HasTransactions(s: seq<Transaction>, accountId: int)
  {
    exists i :: 0 <= i < |s| && s[i].accountId == accountId
  }

  /**
    * `DELETE /accounts/{id}`: 404 unless the account exists and is the current
    * user's. The `transactions` relationship has no delete cascade, so at flush
    * the ORM sets each child's `account_id` to NULL, which the NOT NULL column
    * refuses: an account that still has transactions is not deleted and the
    * request fails with 500. Otherwise exactly that account is removed.
    */
  method DeleteAccountRoute(db: Database, userId: int, accountId: int) returns (r: Result<string, HttpError>)
    requires db.Valid()
    modifies db
    ensures db.Valid()
    ensures db.transactions == old(db.transactions) && db.categories == old(db.categories)
    ensures !old(db.OwnsAccount(userId, accountId)) ==> r == Err(AccountNotFound) && db.accounts == old(db.accounts)
    ensures old(db.OwnsAccount(userId, accountId)) && HasTransactions(db.transactions, accountId) ==>
              r == Err(DeleteRefused) && db.accounts == old(db.accounts)
    ensures old(db.OwnsAccount(userId, accountId)) && !HasTransactions(db.transactions, accountId) ==>
              && r == Ok("Account deleted successfully")
              && var k := IndexOf(old(db.accounts), DbAccountKey, accountId).value;
                 old(db.accounts)[k].userId == userId && db.accounts == RemoveAt(old(db.accounts), k)
  {
    var k := IndexOf(db.accounts, DbAccountKey, accountId);
    if k.None? || db.accounts[k.value].userId != userId {
      return Err(AccountNotFound);
    }
    if HasTransactions(db.transactions, accountId) {
      return Err(DeleteRefused);
    }
    RemoveUnique(db.accounts, DbAccountKey, k.value);
    db.accounts := RemoveAt(db.accounts, k.value);
    r := Ok("Account deleted successfully");
  }
}
