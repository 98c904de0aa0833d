/**
  * The SQL tables the routes query, as in-memory lists of rows in insertion
  * order. Sessions, joins, `commit` and `refresh` are replaced by reads and
  * assignments of these lists.
  */
module Backend {

  import opened Wrappers
  import opened Ledger
  import opened Tables

  /** A row of `accounts`: id, owning user, name and type. There is no balance column. */
  datatype DbAccount = DbAccount(id: int, userId: int, name: string, kind: string)

  /** An `HTTPException`. */
  datatype HttpError = HttpError(status: int, detail: string)

  function DbAccountKey(a: DbAccount): int { a.id }
  function RowKey(t: Transaction): int { t.id }
  function CategoryRowKey(c: Category): int { c.id }

  ghost predicate UniqueNames(s: seq<Category>)
  {
    forall i, j :: 0 <= i < j < |s| ==> s[i].name != s[j].name
  }

  class Database {
    var accounts: seq<DbAccount>
    var transactions: seq<Transaction>
    var categories: seq<Category>

    /** Primary keys are unique in every table, and category names are unique (`unique=True`). */
    ghost predicate Valid()
      reads this
    {
      && Unique(accounts, DbAccountKey)
      && Unique(transactions, RowKey)
      && Unique(categories, CategoryRowKey)
      && UniqueNames(categories)
    }

    constructor (accounts: seq<DbAccount>, transactions: seq<Transaction>, categories: seq<Category>)
      ensures this.accounts == accounts && this.transactions == transactions && this.categories == categories
    {
      this.accounts := accounts;
      this.transactions := transactions;
      this.categories := categories;
    }

    /**
      * The account query of the routes: an account with this id whose `user_id`
      * is the current user. With unique keys, it holds exactly when the row
      * stored under that id belongs to the user.
      */
    predicate OwnsAccount(userId: int, accountId: int)
      reads this
      ensures Unique(accounts, DbAccountKey) ==>
                (OwnsAccount(userId, accountId) <==>
                   var k := IndexOf(accounts, DbAccountKey, accountId);
                   k.Some? && accounts[k.value].userId == userId)
    {
      forall j | 0 <= j < |accounts| && accounts[j].id == accountId && Unique(accounts, DbAccountKey)
        ensures IndexOf(accounts, DbAccountKey, accountId) == Some(j)
      {
        UniqueIndexOf(accounts, DbAccountKey, j);
      }
      exists i :: 0 <= i < |accounts| && accounts[i].id == accountId && accounts[i].userId == userId
    }

    /**
      * The join of a transaction with its account, filtered by transaction id and
      * owner: the position of that row, or None when the id is missing or the
      * row's account belongs to somebody else.
      */
    function OwnedTransaction(userId: int, transactionId: int): (r: Option<nat>)
      reads this
      requires Valid()
      ensures r.Some? ==> r.value < |transactions| && transactions[r.value].id == transactionId
                          && OwnsAccount(userId, transactions[r.value].accountId)
      ensures r.None? <==>
                forall j :: 0 <= j < |transactions| && transactions[j].id == transactionId ==>
                  !OwnsAccount(userId, transactions[j].accountId)
    {
      match IndexOf(transactions, RowKey, transactionId)
      case None => None
      case Some(k) =>
        forall j | 0 <= j < |transactions| && transactions[j].id == transactionId ensures j == k {
          UniqueIndexOf(transactions, RowKey, j);
        }
        if OwnsAccount(userId, transactions[k].accountId) then Some(k) else None
    }
  }
}
