/** What the pages' forms hold and send: the amount field, the request bodies, and the delete confirmation. */
module Forms {

  import opened Wrappers
  import opened Calendar
  import opened Ledger

  /** A `type="number"` input: empty, or a number (in cents). */
  datatype AmountInput = Blank | Entered(value: int)

  /**
    * `parseFloat(field)` as it travels in a JSON body: a blank field parses to
    * NaN, which `JSON.stringify` writes as `null`.
    */
  function AmountValue(a: AmountInput): (v: Value)
    ensures v.Null? <==> a.Blank?
    ensures a.Entered? ==> v == Number(a.value)
  {
    match a
    case Blank => Null
    case Entered(n) => Number(n)
  }

  /** The body of `POST /transactions` as a page builds it. */
  datatype PostBody = PostBody(amount: Value, date: Date, description: string, kind: Kind, category: string)

  /** The `TransactionCreate` schema: a number amount and one of the two types; anything else is refused. */
  function Parse(b: PostBody): (r: Option<NewTransaction>)
    ensures r.Some? <==> b.amount.Number? && (b.kind == Income || b.kind == Expense)
    ensures r.Some? ==> ValidNewTransaction(r.value) && r.value.amount == b.amount.n && r.value.kind == b.kind
  {
    if b.amount.Number? && (b.kind == Income || b.kind == Expense) then
      Some(NewTransaction(b.amount.n, b.date, b.description, b.kind, b.category))
    else None
  }

  /** A body sent with a blank amount never passes the schema. */
  lemma BlankAmountRefused(b: PostBody, a: AmountInput)
    requires b.amount == AmountValue(a) && a.Blank?
    ensures Parse(b).None?
  {
  }

  /** `if (!window.confirm(...)) return;`: the `DELETE /transactions/{id}` is issued only after confirmation. */
  function DeleteRequest(transactionId: int, confirmed: bool): (r: Option<int>)
    ensures r.Some? <==> confirmed
    ensures r.Some? ==> r.value == transactionId
  {
    if !confirmed then None else Some(transactionId)
  }
}
