/**
  * The ledger's entities and the computations that the backend and the
  * frontend pages share: per-kind totals, the signed balance, the summary,
  * the per-account and per-period filters, and the attribute update that
  * both `setattr` loops perform.
  */
module Ledger {

  import opened Wrappers
  import opened Calendar
  import opened Folds

  /** The `type` column. The create schema admits only income and expense; updates store any string. */
  datatype Kind = Income | Expense | Other(name: string)

  function KindOf(s: string): Kind
  {
    if s == "income" then Income else if s == "expense" then Expense else Other(s)
  }

  function KindName(k: Kind): string
  {
    match k
    case Income => "income"
    case Expense => "expense"
    case Other(name) => name
  }

  /** Reading the stored string back gives the string that was written. */
  lemma KindNameOf(s: string)
    ensures KindName(KindOf(s)) == s
  {
  }

  /** A kind that came from a string: an `Other` never spells income or expense. */
  predicate CanonicalKind(k: Kind)
  {
    k.Other? ==> k.name != "income" && k.name != "expense"
  }

  lemma KindOfName(k: Kind)
    requires CanonicalKind(k)
    ensures KindOf(KindName(k)) == k
  {
  }

  /** Amounts are in cents; `date` is a calendar date. */
  datatype Transaction = Transaction(
    id: int,
    accountId: int,
    amount: int,
    date: Date,
    description: string,
    kind: Kind,
    category: string)

  datatype Category = Category(id: int, name: string)

  /** The body of `POST /transactions` (`TransactionCreate`): the type is income or expense. */
  datatype NewTransaction = NewTransaction(
    amount: int,
    date: Date,
    description: string,
    kind: Kind,
    category: string)

  predicate ValidNewTransaction(n: NewTransaction)
  {
    n.kind == Income || n.kind == Expense
  }

  function Amount(t: Transaction): int { t.amount }
  function DateOf(t: Transaction): Date { t.date }
  function CategoryOf(t: Transaction): string { t.category }

  /** `t.amount if t.type == 'income'` inside a generator sum, 0 otherwise. */
  function IncomePart(t: Transaction): int { if t.kind == Income then t.amount else 0 }
  function ExpensePart(t: Transaction): int { if t.kind == Expense then t.amount else 0 }
  /** The `else` branch of the client folds: everything that is not income. */
  function NonIncomePart(t: Transaction): int { if t.kind == Income then 0 else t.amount }

  /** The balance step: `+amount` for income, `-amount` for every other row. */
  function SignedAmount(t: Transaction): int { if t.kind == Income then t.amount else -t.amount }

  /** `list.filter(t => t.type === k)` */
  function OfKind(s: seq<Transaction>, k: Kind): (r: seq<Transaction>)
    ensures |r| <= |s|
    ensures forall t :: t in r <==> t in s && t.kind == k
  {
    if s == [] then []
    else
      var r := OfKind(s[..|s| - 1], k);
      assert s == s[..|s| - 1] + [s[|s| - 1]];
      if s[|s| - 1].kind == k then r + [s[|s| - 1]] else r
  }

  /** Filtering by kind and then summing amounts is the conditional sum over the whole list. */
  lemma {:induction false} OfKindSum(s: seq<Transaction>)
    ensures SumOf(OfKind(s, Income), Amount) == SumOf(s, IncomePart)
    ensures SumOf(OfKind(s, Expense), Amount) == SumOf(s, ExpensePart)
  {
    if s != [] {
      var p := s[..|s| - 1];
      OfKindSum(p);
      var t := s[|s| - 1];
      if t.kind == Income {
        assert (OfKind(p, Income) + [t])[..|OfKind(p, Income)|] == OfKind(p, Income);
      } else if t.kind == Expense {
        assert (OfKind(p, Expense) + [t])[..|OfKind(p, Expense)|] == OfKind(p, Expense);
      }
    }
  }

  /** `{income, expense, net, count}` as both summary endpoints return it. */
  datatype Summary = Summary(income: int, expense: int, net: int, count: int)

  /** The backend summary: generator sums of income and of expense amounts, their difference and the row count. */
  function Summarize(s: seq<Transaction>): (r: Summary)
    ensures r.net == r.income - r.expense
    ensures r.count == |s|
  {
    var income := SumOf(s, IncomePart);
    var expense := SumOf(s, ExpensePart);
    Summary(income, expense, income - expense, |s|)
  }

  /**
    * The account balance as a fold from 0: `balance + amount` for income,
    * `balance - amount` otherwise. It is the income total minus the total of
    * every row that is not income.
    */
  function Balance(s: seq<Transaction>): (r: int)
    ensures r == SumOf(s, IncomePart) - SumOf(s, NonIncomePart)
  {
    if s == [] then 0 else Balance(s[..|s| - 1]) + SignedAmount(s[|s| - 1])
  }

  /** The balance of a concatenation is the sum of the balances. */
  lemma BalanceAppend(a: seq<Transaction>, b: seq<Transaction>)
    ensures Balance(a + b) == Balance(a) + Balance(b)
  {
    SumOfAppend(a, b, IncomePart);
    SumOfAppend(a, b, NonIncomePart);
  }

  /** The balance does not depend on the order of the list. */
  lemma BalancePermutation(a: seq<Transaction>, b: seq<Transaction>)
    requires multiset(a) == multiset(b)
    ensures Balance(a) == Balance(b)
  {
    SumOfPermutation(a, b, IncomePart);
    SumOfPermutation(a, b, NonIncomePart);
  }

  /** Every row is income or expense, as the create schema guarantees. */
  ghost predicate IncomeOrExpenseOnly(s: seq<Transaction>)
  {
    forall i :: 0 <= i < |s| ==> s[i].kind == Income || s[i].kind == Expense
  }

  /** When every row is income or expense, the balance fold equals the summary's net. */
  lemma {:induction false} BalanceIsNet(s: seq<Transaction>)
    requires IncomeOrExpenseOnly(s)
    ensures Balance(s) == Summarize(s).net
  {
    if s != [] {
      BalanceIsNet(s[..|s| - 1]);
    }
  }

  /** A row of another type counts, but moves neither total, while the balance subtracts it. */
  lemma OtherKindCounted(s: seq<Transaction>, t: Transaction)
    requires t.kind.Other?
    ensures Summarize(s + [t]).count == Summarize(s).count + 1
    ensures Summarize(s + [t]).income == Summarize(s).income
    ensures Summarize(s + [t]).expense == Summarize(s).expense
    ensures Balance(s + [t]) == Balance(s) - t.amount
  {
    assert (s + [t])[..|s|] == s;
  }

  /** `[t for t in transactions if t.account_id == account_id]` */
  function ForAccount(s: seq<Transaction>, accountId: int): (r: seq<Transaction>)
    ensures |r| <= |s|
    ensures forall t :: t in r <==> t in s && t.accountId == accountId
  {
    if s == [] then []
    else
      var r := ForAccount(s[..|s| - 1], accountId);
      assert s == s[..|s| - 1] + [s[|s| - 1]];
      if s[|s| - 1].accountId == accountId then r + [s[|s| - 1]] else r
  }

  /** The rows inside optional inclusive date bounds, in stored order. */
  function InPeriod(s: seq<Transaction>, start: Option<Date>, end: Option<Date>): (r: seq<Transaction>)
    ensures |r| <= |s|
    ensures forall t :: t in r <==> t in s && WithinBounds(t.date, start, end)
  {
    if s == [] then []
    else
      var r := InPeriod(s[..|s| - 1], start, end);
      assert s == s[..|s| - 1] + [s[|s| - 1]];
      if WithinBounds(s[|s| - 1].date, start, end) then r + [s[|s| - 1]] else r
  }

  /** Without bounds nothing is filtered out. */
  lemma {:induction false} InPeriodUnbounded(s: seq<Transaction>)
    ensures InPeriod(s, None, None) == s
  {
    if s != [] {
      InPeriodUnbounded(s[..|s| - 1]);
      assert s == s[..|s| - 1] + [s[|s| - 1]];
    }
  }

  /** A JSON value of an update body. */
  datatype Value = Number(n: int) | Text(text: string) | Day(day: Date) | Null

  /** The columns of a transaction row: the attributes `hasattr` finds. */
  datatype Field = IdField | AccountIdField | AmountField | DateField | DescriptionField | TypeField | CategoryField

  function FieldName(f: Field): string
  {
    match f
    case IdField => "id"
    case AccountIdField => "account_id"
    case AmountField => "amount"
    case DateField => "date"
    case DescriptionField => "description"
    case TypeField => "type"
    case CategoryField => "category"
  }

  /** `hasattr(t, key)`: the field a key names, if any. */
  function FieldNamed(key: string): (r: Option<Field>)
    ensures r.Some? ==> FieldName(r.value) == key
  {
    if key == "id" then Some(IdField)
    else if key == "account_id" then Some(AccountIdField)
    else if key == "amount" then Some(AmountField)
    else if key == "date" then Some(DateField)
    else if key == "description" then Some(DescriptionField)
    else if key == "type" then Some(TypeField)
    else if key == "category" then Some(CategoryField)
    else None
  }

  /** Every field is found under its own name, so distinct fields have distinct names. */
  lemma FieldNamedName(f: Field)
    ensures FieldNamed(FieldName(f)) == Some(f)
  {
  }

  /** Writes one field, provided the value has the field's shape; otherwise the row is unchanged. */
  function Assign(t: Transaction, f: Field, v: Value): Transaction
  {
    match (f, v)
    case (IdField, Number(n)) => t.(id := n)
    case (AccountIdField, Number(n)) => t.(accountId := n)
    case (AmountField, Number(n)) => t.(amount := n)
    case (DateField, Day(d)) => t.(date := d)
    case (DescriptionField, Text(x)) => t.(description := x)
    case (TypeField, Text(x)) => t.(kind := KindOf(x))
    case (CategoryField, Text(x)) => t.(category := x)
    case _ => t
  }

  /** `if hasattr(t, key): setattr(t, key, value)` */
  function SetAttribute(t: Transaction, key: string, v: Value): (r: Transaction)
    ensures FieldNamed(key).None? ==> r == t
  {
    match FieldNamed(key)
    case None => t
    case Some(f) => Assign(t, f, v)
  }

  /** The names of all fields. */
  const TransactionAttributes: set<string> :=
    {"id", "account_id", "amount", "date", "description", "type", "category"}

  /** The value a patch gives for a field, if it names it. */
  function Entry(patch: map<string, Value>, f: Field): Option<Value>
  {
    if FieldName(f) in patch then Some(patch[FieldName(f)]) else None
  }

  /** Field f of t after the patch: replaced when the patch names f with a value of f's shape. */
  function Patched(t: Transaction, patch: map<string, Value>, f: Field): Transaction
  {
    match Entry(patch, f)
    case None => t
    case Some(v) => Assign(t, f, v)
  }

  /** The whole update: every field whose key the patch carries (with a value of its shape) is replaced, the others kept. */
  function ApplyPatch(t: Transaction, patch: map<string, Value>): (r: Transaction)
    ensures "id" !in patch ==> r.id == t.id
    ensures "account_id" !in patch ==> r.accountId == t.accountId
    ensures "amount" !in patch ==> r.amount == t.amount
    ensures "date" !in patch ==> r.date == t.date
    ensures "description" !in patch ==> r.description == t.description
    ensures "type" !in patch ==> r.kind == t.kind
    ensures "category" !in patch ==> r.category == t.category
  {
    Transaction(
      Patched(t, patch, IdField).id,
      Patched(t, patch, AccountIdField).accountId,
      Patched(t, patch, AmountField).amount,
      Patched(t, patch, DateField).date,
      Patched(t, patch, DescriptionField).description,
      Patched(t, patch, TypeField).kind,
      Patched(t, patch, CategoryField).category)
  }

  /** The keys of `patch` that are in `done`. */
  function Restrict(patch: map<string, Value>, done: set<string>): (r: map<string, Value>)
    ensures r.Keys == patch.Keys * done
  {
    map k | k in patch && k in done :: patch[k]
  }

  /** Processing one more key of the `for key, value in ...items()` loop is one `setattr`. */
  lemma PatchStep(t: Transaction, patch: map<string, Value>, done: set<string>, k: string)
    requires k in patch && k !in done
    ensures ApplyPatch(t, Restrict(patch, done + {k}))
         == SetAttribute(ApplyPatch(t, Restrict(patch, done)), k, patch[k])
  {
    var before, after := Restrict(patch, done), Restrict(patch, done + {k});
    forall f | FieldName(f) != k
      ensures Entry(after, f) == Entry(before, f)
    {
    }
    match FieldNamed(k)
    case None =>
      forall f ensures FieldName(f) != k { FieldNamedName(f); }
    case Some(g) =>
      forall f | f != g ensures FieldName(f) != k { FieldNamedName(f); }
      assert Entry(before, g) == None;
      assert Entry(after, g) == Some(patch[k]);
  }

  /** `for key, value in updated.items(): if hasattr(t, key): setattr(t, key, value)` */
  method SetAttributes(t: Transaction, patch: map<string, Value>) returns (r: Transaction)
    ensures r == ApplyPatch(t, patch)
  {
    r := t;
    var keys := patch.Keys;
    ghost var done: set<string> := {};
    while keys != {}
      invariant keys + done == patch.Keys && keys !! done
      invariant r == ApplyPatch(t, Restrict(patch, done))
      decreases keys
    {
      var key :| key in keys;
      PatchStep(t, patch, done, key);
      r := SetAttribute(r, key, patch[key]);
      keys := keys - {key};
      done := done + {key};
    }
    assert Restrict(patch, done) == patch;
  }

  /** Keys that are not attributes are ignored. */
  lemma PatchIgnoresUnknownKeys(t: Transaction, patch: map<string, Value>)
    ensures ApplyPatch(t, patch) == ApplyPatch(t, Restrict(patch, TransactionAttributes))
  {
  }

  /** Updating twice with the same body is the same as updating once. */
  lemma PatchIdempotent(t: Transaction, patch: map<string, Value>)
    ensures ApplyPatch(ApplyPatch(t, patch), patch) == ApplyPatch(t, patch)
  {
  }

  /** An update body without `id` or `account_id` keeps the row's identity and owner. */
  lemma PatchKeepsIdentity(t: Transaction, patch: map<string, Value>)
    requires "id" !in patch && "account_id" !in patch
    ensures ApplyPatch(t, patch).id == t.id && ApplyPatch(t, patch).accountId == t.accountId
  {
  }
}
