/**
  * The Transactions page: the client-side summary, and the state of the add
  * form and of the inline edit row, which the handlers update field by field.
  */
module TransactionsPage {

  import opened Wrappers
  import opened Calendar
  import opened Folds
  import opened Ledger
  import opened Backend
  import opened TransactionRoutes
  import opened DateFilter
  import opened Forms

  /** `calculateSummary(transactionsList)`: the filtered sums, their difference and the list's length. */
  function CalculateSummary(s: seq<Transaction>): (r: Summary)
    ensures r.net == r.income - r.expense && r.count == |s|
  {
    var income := SumOf(OfKind(s, Income), Amount);
    var expense := SumOf(OfKind(s, Expense), Amount);
    Summary(income, expense, income - expense, |s|)
  }

  /** The page's own summary and the server's agree on every list. */
  lemma ClientSummaryIsServerSummary(s: seq<Transaction>)
    ensures CalculateSummary(s) == Summarize(s)
  {
    OfKindSum(s);
  }

  /** For the rows the list endpoint returns, the page's summary is the summary endpoint's answer. */
  lemma ClientSummaryMatchesEndpoint(db: Database, userId: int, accountId: int, r: Range)
    requires GetTransactions(db, userId, accountId, r.start, r.end).Ok?
    ensures GetAccountSummary(db, userId, accountId, r.start, r.end)
         == Ok(CalculateSummary(GetTransactions(db, userId, accountId, r.start, r.end).value))
  {
    ClientSummaryIsServerSummary(GetTransactions(db, userId, accountId, r.start, r.end).value);
  }

  /** A row of another type is counted but added to neither sum. */
  lemma OtherTypeOnlyCounted(s: seq<Transaction>, t: Transaction)
    requires t.kind.Other?
    ensures CalculateSummary(s + [t]).income == CalculateSummary(s).income
    ensures CalculateSummary(s + [t]).expense == CalculateSummary(s).expense
    ensures CalculateSummary(s + [t]).count == CalculateSummary(s).count + 1
  {
    ClientSummaryIsServerSummary(s);
    ClientSummaryIsServerSummary(s + [t]);
    OtherKindCounted(s, t);
  }

  /**
    * The `updatedData` of `handleSaveEdit`: four keys, each naming a column,
    * and never `id`, `account_id` or `date`.
    */
  function EditPatch(description: string, amount: AmountInput, kind: Kind, category: string): (r: map<string, Value>)
    ensures r.Keys == {"description", "amount", "type", "category"}
    ensures forall k :: k in r ==> FieldNamed(k).Some?
  {
    map["description" := Text(description), "amount" := AmountValue(amount),
        "type" := Text(KindName(kind)), "category" := Text(category)]
  }

  /** Saving an edit sets description, amount, type and category, and never id, account or date. */
  lemma EditPatchEffect(t: Transaction, description: string, amount: int, kind: Kind, category: string)
    ensures ApplyPatch(t, EditPatch(description, Entered(amount), kind, category))
         == t.(description := description, amount := amount, kind := KindOf(KindName(kind)), category := category)
  {
    var patch := EditPatch(description, Entered(amount), kind, category);
    assert "id" !in patch && "account_id" !in patch && "date" !in patch;
  }

  /** Opening the editor on a row and saving without changes writes the row back as it was. */
  lemma EditRoundTrip(t: Transaction)
    requires CanonicalKind(t.kind)
    ensures ApplyPatch(t, EditPatch(t.description, Entered(t.amount), t.kind, t.category)) == t
  {
    EditPatchEffect(t, t.description, t.amount, t.kind, t.category);
    KindOfName(t.kind);
  }

  class Page {
    var selectedAccount: Option<int>
    var dateFilter: string
    var description: string
    var amount: AmountInput
    var kind: Kind
    var category: string
    var editingId: Option<int>
    var editDescription: string
    var editAmount: AmountInput
    var editKind: Kind
    var editCategory: string

    /** The `useState` initial values. */
    constructor ()
      ensures selectedAccount.None? && dateFilter == "all"
      ensures description == "" && amount == Blank && kind == Expense && category == "General"
      ensures EditCleared()
    {
      selectedAccount := None;
      dateFilter := "all";
      description := "";
      amount := Blank;
      kind := Expense;
      category := "General";
      editingId := None;
      editDescription := "";
      editAmount := Blank;
      editKind := Expense;
      editCategory := "General";
    }

    /** No row is being edited and the edit fields hold their defaults. */
    predicate EditCleared()
      reads this
    {
      editingId.None? && editDescription == "" && editAmount == Blank && editKind == Expense && editCategory == "General"
    }

    /** The effect run when the accounts change. */
    method SelectDefault(accounts: seq<DbAccount>)
      modifies this`selectedAccount
      ensures selectedAccount == SelectDefaultAccount(accounts, old(selectedAccount))
    {
      if |accounts| > 0 && selectedAccount.None? {
        selectedAccount := Some(accounts[0].id);
      }
    }

    /** The bounds of the list and summary requests for the current filter. */
    function RequestRange(today: Date): (r: Range)
      reads this
      ensures r.start.Some? <==> r.end.Some?
    {
      QueryBounds(DateRange(dateFilter, today))
    }

    /** `handleEditClick(transaction)`: the edit fields take the row's values. */
    method EditClick(t: Transaction)
      modifies this`editingId, this`editDescription, this`editAmount, this`editKind, this`editCategory
      ensures editingId == Some(t.id) && editDescription == t.description && editAmount == Entered(t.amount)
      ensures editKind == t.kind && editCategory == t.category
    {
      editingId := Some(t.id);
      editDescription := t.description;
      editAmount := Entered(t.amount);
      editKind := t.kind;
      editCategory := t.category;
    }

    method ClearEdit()
      modifies this`editingId, this`editDescription, this`editAmount, this`editKind, this`editCategory
      ensures EditCleared()
    {
      editingId := None;
      editDescription := "";
      editAmount := Blank;
      editKind := Expense;
      editCategory := "General";
    }

    /** `handleCancelEdit` */
    method CancelEdit()
      modifies this`editingId, this`editDescription, this`editAmount, this`editKind, this`editCategory
      ensures EditCleared()
    {
      ClearEdit();
    }

    /**
      * `handleSaveEdit`: sends the edit fields to `PUT /transactions/{editingId}`;
      * the edit state is cleared only when the request succeeds.
      */
    method SaveEdit(succeeded: bool) returns (id: Option<int>, patch: map<string, Value>)
      modifies this`editingId, this`editDescription, this`editAmount, this`editKind, this`editCategory
      ensures id == old(editingId)
      ensures patch == EditPatch(old(editDescription), old(editAmount), old(editKind), old(editCategory))
      ensures succeeded ==> EditCleared()
      ensures !succeeded ==> unchanged(this)
    {
      id := editingId;
      patch := EditPatch(editDescription, editAmount, editKind, editCategory);
      if succeeded {
        ClearEdit();
      }
    }

    /**
      * `handleAddTransaction`: posts the form with today's date, without
      * checking the amount; the form is cleared only when the request succeeds.
      */
    method AddTransaction(today: Date, succeeded: bool) returns (accountId: Option<int>, body: PostBody)
      modifies this`description, this`amount, this`kind, this`category
      ensures accountId == selectedAccount
      ensures body == PostBody(AmountValue(old(amount)), today, old(description), old(kind), old(category))
      ensures succeeded ==> description == "" && amount == Blank && kind == Expense && category == "General"
      ensures !succeeded ==> unchanged(this)
    {
      accountId := selectedAccount;
      body := PostBody(AmountValue(amount), today, description, kind, category);
      if succeeded {
        description := "";
        amount := Blank;
        kind := Expense;
        category := "General";
      }
    }
  }
}
