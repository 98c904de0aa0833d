# Ledger — a verified model of its bookkeeping core

Ledger is a personal-finance application. Its FastAPI backend keeps accounts,
categories and transactions per user. Its React frontend lists them, summarises
them, and draws charts. This project models the parts that carry logic, and
proves what they promise:

- **The in-memory store** (`backend/app/tempStore.py`) is a class `TempStore.Store`.
  It holds the three lists and their `next_*_id` counters. Its methods append,
  remove the first match, and update through `setattr`, all in place.
- **The routes** (`backend/app/routes/{transactions,accounts,categories}.py`)
  work over the SQL tables, modelled as the class `Backend.Database`. Each table
  is a list of rows.
  - A new primary key is taken to be one more than the largest id, or 1 if the
    table is empty. This is an assumption about the database engine, listed
    under "Left out".
  - Each route is a function (queries) or a method (changes).
  - Each has its 404, 400, 422 and 500 answers as `Result` errors.
- **The pages** (`Charts.jsx`, `Transactions.jsx`, `Dashboard.jsx`, `AccountDetail.jsx`):
  - the date-range presets, in calendar arithmetic that follows JavaScript's
    month and day carrying;
  - the bounds-in-query rule and the default account selection;
  - the summaries and the balance fold;
  - the two group-bys, with the daily one sorted by date;
  - the concatenation of per-account lists;
  - the edit and add form state, as classes with fields;
  - the newest-first list order, as an in-place insertion sort on an array.

Money is an integer number of cents. A date is a `(year, month, day)` triple
ordered as ISO strings order. "Today" is always a parameter. A transaction's
`type` is `Income`, `Expense` or `Other(name)`. The route schema admits only the
first two, but an update body or a store update can write any string.

The model's modules are:

| module | what it holds |
|---|---|
| `Folds` | folds and group sums |
| `Calendar` | calendar arithmetic |
| `Tables` | row lists keyed by id |
| `Ledger` | rows, summaries and the attribute patch |
| `TempStore` | the in-memory store |
| `Backend` | the tables |
| `TransactionRoutes`, `AccountRoutes`, `CategoryRoutes` | the routes |
| `DateFilter`, `Forms`, `Charts`, `Dashboard`, `TransactionsPage`, `AccountDetail` | the pages |

## Model

| member | source | states |
|---|---|---|
| `Ledger.KindNameOf` | backend/app/models.py:18 | reading a type string and writing it back gives the same string, so no type is lost on a round trip |
| `Ledger.KindOfName` | backend/app/models.py:18 | a type that was read from a string is read back as itself after it is written out |
| `Ledger.OfKind` | backend/app/tempStore.py:86-87 | a row is kept exactly when it is in the list and has the given type |
| `Ledger.OfKindSum` | backend/app/tempStore.py:86-87 | the total of the rows of one type equals the fold that adds only that type's amounts, for income and for expense |
| `Ledger.Summarize` | backend/app/routes/transactions.py:42-50 | net is income minus expense, and count is the list's length |
| `Ledger.Balance` | frontend/src/pages/AccountDetail.jsx:102-110 | `calculateBalance`'s fold equals the income total minus the total of every non-income row |
| `Ledger.BalanceAppend` | frontend/src/pages/AccountDetail.jsx:102-110 | the balance of a concatenation is the sum of the balances |
| `Ledger.BalancePermutation` | frontend/src/pages/AccountDetail.jsx:103 | the balance does not depend on the order of the list |
| `Ledger.BalanceIsNet` | backend/app/routes/transactions.py:48 | on rows that are all income or expense, the page's balance equals the summary's net |
| `Ledger.OtherKindCounted` | backend/app/tempStore.py:86-92 | a row of another type adds 1 to count and nothing to income or expense |
| `Ledger.ForAccount` | backend/app/tempStore.py:59 | a row is kept exactly when it is stored and has the account id |
| `Ledger.InPeriod` | backend/app/routes/transactions.py:34-37 | a row is kept exactly when each given bound holds inclusively; a missing bound filters nothing |
| `Ledger.InPeriodUnbounded` | backend/app/routes/transactions.py:74-77 | with neither bound the list is returned unchanged |
| `Ledger.FieldNamed` | backend/app/tempStore.py:71 | a key names a column only when it is that column's own name |
| `Ledger.FieldNamedName` | backend/app/tempStore.py:71 | every column is found under its own name |
| `Ledger.SetAttribute` | backend/app/tempStore.py:71-72 | a key that is not an attribute leaves the row unchanged |
| `Ledger.ApplyPatch` | backend/app/tempStore.py:70-72 | every field whose name the body does not carry keeps its value |
| `Ledger.Restrict` | backend/app/routes/transactions.py:153 | the body's keys among those the loop has visited, with their values |
| `Ledger.PatchStep` | backend/app/routes/transactions.py:153-155 | one more `setattr` extends the patch by exactly that key |
| `Ledger.SetAttributes` | backend/app/routes/transactions.py:153-155 | the `setattr` loop, in any key order, yields the row with every named attribute replaced |
| `Ledger.PatchIgnoresUnknownKeys` | backend/app/routes/transactions.py:154 | keys that are not attributes have no effect |
| `Ledger.PatchIdempotent` | backend/app/routes/transactions.py:153-155 | applying the same body twice equals applying it once |
| `Ledger.PatchKeepsIdentity` | backend/app/tempStore.py:70-72 | a body without `id` and `account_id` keeps the row's id and account |
| `Folds.SumOfAppend` | frontend/src/pages/Dashboard.jsx:50 | a `reduce` sum over a concatenation is the sum of the two sums |
| `Folds.SumOfPermutation` | frontend/src/pages/Charts.jsx:126-128 | a sum does not change when the list is reordered |
| `Folds.FirstSeenKeys` | frontend/src/pages/Charts.jsx:103 | the dictionary's keys are distinct, and are exactly the keys that occur |
| `Folds.GroupSumSnoc` | frontend/src/pages/Charts.jsx:95-100 | one more row adds its amount to its own group only |
| `Folds.GroupSumAbsent` | frontend/src/pages/Charts.jsx:98-99 | a key not seen yet has total 0, so the first assignment equals adding |
| `Folds.GroupTotalsStep` | frontend/src/pages/Charts.jsx:95-100 | with distinct keys, one more row adds its value to exactly one group total |
| `Folds.GroupTotalsAll` | frontend/src/pages/Charts.jsx:93-106 | the group totals over all keys add up to the grand total |
| `Calendar.DaysInMonth` | frontend/src/pages/Charts.jsx:62 | months have 28 to 31 days, and February has 29 exactly in leap years |
| `Calendar.BeforeTotal` | backend/app/routes/transactions.py:35-37 | dates are totally ordered and the order is asymmetric |
| `Calendar.BeforeTransitive` | frontend/src/pages/Charts.jsx:126-128 | the date order is transitive |
| `Calendar.PreviousMonth` | frontend/src/pages/Charts.jsx:70 | the previous month is a valid month |
| `Calendar.NextMonth` | frontend/src/pages/Charts.jsx:62 | the next month is a valid month |
| `Calendar.NormalizeDay` | frontend/src/pages/Charts.jsx:62 | an out-of-range day carries into the neighbouring months, giving a valid date; an in-range day is kept |
| `Calendar.JsDate` | frontend/src/pages/Charts.jsx:61 | `new Date(y, monthIndex, d)` is always a valid calendar date |
| `Calendar.JsDateFirstOfMonth` | frontend/src/pages/Charts.jsx:61 | day 1 of a month index is the first of that month |
| `Calendar.JsDateLastOfMonth` | frontend/src/pages/Charts.jsx:71 | day 0 of the next month is the last day of this month, December included |
| `Calendar.JsDateDecemberBefore` | frontend/src/pages/Charts.jsx:70 | month index -1 is December of the previous year |
| `Tables.IndexOf` | backend/app/tempStore.py:44-45 | the position of the first row with the id, or None exactly when no row has it |
| `Tables.RemoveAt` | backend/app/tempStore.py:46 | `pop(k)`: one row fewer, rows before k in place, rows after k moved down by one |
| `Tables.AppendFresh` | backend/app/tempStore.py:38-39 | appending a row whose id is the counter keeps ids increasing and below the bumped counter |
| `Tables.RemoveKeepsIncreasing` | backend/app/tempStore.py:46 | removing a row keeps ids increasing and below the counter |
| `Tables.IncreasingUnique` | backend/app/tempStore.py:53-55 | with increasing ids, at most one row has a given id |
| `Tables.NextRowId` | backend/app/routes/transactions.py:107-109 | assumed engine behaviour: the new key is larger than every stored id, and is 1 for an empty table |
| `Tables.AppendUnique` | backend/app/routes/transactions.py:107-108 | appending a row whose id no stored row has keeps the keys unique |
| `Tables.RemoveUnique` | backend/app/routes/transactions.py:180-181 | removing a row keeps the keys unique |
| `Tables.UniqueIndexOf` | backend/app/routes/transactions.py:142-147 | with unique keys, the first match is the only match |
| `TempStore.AccountFromKeywords` | backend/app/tempStore.py:32-37 | as written: the account keeps its id and name but not its type |
| `TempStore.AccountTypeLost` | backend/app/tempStore.py:4-8 | as written: neither a seeded nor an added account records the type it was given |
| `TempStore.Store.constructor` | backend/app/tempStore.py:4-21 | corrected: the seeds, with each account keeping its type; three accounts, five categories, no transactions, with next ids 4, 6 and 1 |
| `TempStore.Store.AccountExists` | backend/app/tempStore.py:24-25 | holds exactly when some account has the id |
| `TempStore.Store.AddAccount` | backend/app/tempStore.py:30-40 | corrected: the new account has the old counter as id and keeps the given type; it is appended; the counter goes up by 1; ids stay increasing |
| `TempStore.Store.DeleteAccount` | backend/app/tempStore.py:42-48 | true exactly when the id exists, then only the first such account is removed; false leaves the list unchanged |
| `TempStore.Store.AddTransaction` | backend/app/tempStore.py:51-56 | the row gets the counter as id and is appended; the counter goes up by 1; fresh ids stay fresh; the account argument is unused |
| `TempStore.Store.TransactionsForAccount` | backend/app/tempStore.py:58-59 | exactly the stored rows of that account |
| `TempStore.Store.FindTransaction` | backend/app/tempStore.py:62-65 | the loop stops at the first row with the id, or finds none |
| `TempStore.Store.GetTransactionById` | backend/app/tempStore.py:61-65 | the first row with the id, or None exactly when there is none |
| `TempStore.Store.UpdateTransaction` | backend/app/tempStore.py:67-74 | an absent id gives None and no change; otherwise only that row changes, by the patch; the length is kept |
| `TempStore.Store.DeleteTransaction` | backend/app/tempStore.py:76-82 | removes only the first row with the id and answers true, or answers false and changes nothing |
| `TempStore.Store.SummaryForAccount` | backend/app/tempStore.py:84-93 | income and expense are the sums of that account's rows of each type; net is their difference; count is the account's number of rows |
| `TempStore.Store.AddCategory` | backend/app/tempStore.py:99-104 | the category gets the counter as id and is appended; the counter goes up by 1 |
| `TempStore.Store.DeleteCategory` | backend/app/tempStore.py:106-112 | removes only the first category with the id, or answers false and changes nothing |
| `Backend.Database.constructor` | backend/db_models.py:16-46 | the three tables as given |
| `Backend.Database.OwnsAccount` | backend/app/routes/accounts.py:44-48 | with unique keys, the user owns the account exactly when the row stored under that id has the user's `user_id` |
| `Backend.Database.OwnedTransaction` | backend/app/routes/transactions.py:142-147 | the row with the id whose account is the user's, or None exactly when no such row exists |
| `TransactionRoutes.FilteredTransactions` | backend/app/routes/transactions.py:71-77 | exactly the account's rows within the inclusive bounds |
| `TransactionRoutes.GetAccountSummary` | backend/app/routes/transactions.py:13-50 | 404 exactly when the account is not the user's; otherwise the filtered sums, net = income - expense, and count = number of filtered rows |
| `TransactionRoutes.GetTransactions` | backend/app/routes/transactions.py:53-79 | 404 exactly when the account is not the user's; otherwise exactly the account's rows in the bounds |
| `TransactionRoutes.SummaryCountIsListLength` | backend/app/routes/transactions.py:31-37 | summary and list fail together, and count is the list's length |
| `TransactionRoutes.BoundsInclusive` | backend/app/routes/transactions.py:34-37 | a row dated on a bound is kept, whether one bound or both are given |
| `TransactionRoutes.CreateTransaction` | backend/app/routes/transactions.py:82-111 | 422 for a type that is neither income nor expense; then 404 unless the account is the user's; otherwise one row appended with the next key, the query's account and the body's fields |
| `TransactionRoutes.GetTransaction` | backend/app/routes/transactions.py:114-131 | the row when it exists and its account is the user's; 404 exactly otherwise |
| `TransactionRoutes.UpdateTransactionRoute` | backend/app/routes/transactions.py:134-160 | 404 unless owned; otherwise that row becomes the patched row; 500 with no change when the new id collides; keys stay unique |
| `TransactionRoutes.UpdateMayNameAnyAccount` | backend/app/routes/transactions.py:153-155 | a body naming `account_id` moves the row to that account whoever owns it, and changes nothing else |
| `TransactionRoutes.DeleteTransactionRoute` | backend/app/routes/transactions.py:163-183 | 404 unless owned; otherwise exactly that row is removed |
| `AccountRoutes.OwnedBy` | backend/app/routes/accounts.py:15-17 | an account is kept exactly when it is stored and has the user's id |
| `AccountRoutes.GetAccounts` | backend/app/routes/accounts.py:10-18 | exactly the current user's accounts |
| `AccountRoutes.AccountsArePrivate` | backend/app/routes/accounts.py:16 | two different users never receive a common account |
| `AccountRoutes.CreateAccount` | backend/app/routes/accounts.py:21-36 | one row appended with the next key, the current user, and the given name and type; other tables unchanged |
| `AccountRoutes.DeleteAccountRoute` | backend/app/routes/accounts.py:39-55 | 404 and no change unless the account is the user's; 500 and no change when a transaction still refers to it, since the relationship has no delete cascade and `account_id` is NOT NULL (backend/db_models.py:26,32); otherwise exactly that account is removed |
| `CategoryRoutes.GetCategories` | backend/app/routes/categories.py:8-12 | every stored category, for any user |
| `CategoryRoutes.CreateCategory` | backend/app/routes/categories.py:14-27 | 400 and no change for an existing name; otherwise one category with that name and the next key; after a success the name is present, so a second call with it is refused; names stay unique |
| `CategoryRoutes.DeleteCategoryRoute` | backend/app/routes/categories.py:29-39 | 404 for a missing id; otherwise exactly that category is removed |
| `DateFilter.DateRange` | frontend/src/pages/Charts.jsx:53-88 | the presets give both bounds or neither, and every bound is a valid date |
| `DateFilter.UnboundedFilters` | frontend/src/pages/Charts.jsx:56-58 | "all" and every unrecognised filter give no bounds |
| `DateFilter.ThisMonthRange` | frontend/src/pages/Charts.jsx:60-67 | "this-month" spans day 1 to the last day of the current month |
| `DateFilter.FebruaryEnd` | frontend/src/pages/Charts.jsx:62 | in February, the month ends on the 29th exactly in leap years |
| `DateFilter.LastMonthRange` | frontend/src/pages/Charts.jsx:69-76 | "last-month" spans day 1 to the last day of the previous month |
| `DateFilter.JanuaryRollback` | frontend/src/pages/Charts.jsx:70-71 | in January, "last-month" is December 1 to 31 of the previous year |
| `DateFilter.ThisYearRange` | frontend/src/pages/Charts.jsx:78-85 | "this-year" spans January 1 to December 31 |
| `DateFilter.PresetsOnMarch15th2024` | frontend/src/pages/Charts.jsx:53-87 | on 2024-03-15 the presets are March 1-31, February 1-29 and the year 2024; "all" has no bounds |
| `DateFilter.PresetOrdered` | frontend/src/pages/Transactions.jsx:153-188 | no preset starts after it ends |
| `DateFilter.ThisMonthMembership` | frontend/src/pages/Dashboard.jsx:56-63 | a valid date is in the "this-month" range exactly when it has today's month and year |
| `DateFilter.QueryBounds` | frontend/src/pages/Charts.jsx:42-44 | bounds go into the request only when both are present, and then unchanged |
| `DateFilter.PresetBoundsSent` | frontend/src/pages/Transactions.jsx:50-52 | every preset's bounds reach the request unchanged |
| `DateFilter.SelectDefaultAccount` | frontend/src/pages/Charts.jsx:23-27 | the first account is selected when none is and there are accounts; an existing selection is kept |
| `DateFilter.SelectDefaultStable` | frontend/src/pages/Charts.jsx:24 | selecting again changes nothing |
| `Charts.Slices` | frontend/src/pages/Charts.jsx:103-106 | one `{name, value}` per key, valued at that category's expense sum |
| `Charts.TallyCategories` | frontend/src/pages/Charts.jsx:95-101 | the `forEach` with its truthiness branch leaves one key per expense category in first-seen order, each holding that category's sum |
| `Charts.CategoryData` | frontend/src/pages/Charts.jsx:91-107 | the result is each expense category once, in first-seen order, valued at its expense sum |
| `Charts.SlicesSum` | frontend/src/pages/Charts.jsx:103-106 | the slices' values add up to the listed groups' totals |
| `Charts.CategoryTotals` | frontend/src/pages/Charts.jsx:91-107 | the pie's values add up to the summary's expense total |
| `Charts.CategoryTotalsNames` | frontend/src/pages/Charts.jsx:92-101 | names are distinct; every expense row's category has a slice; every slice comes from an expense row |
| `Charts.Days` | frontend/src/pages/Charts.jsx:126 | one point per listed date, holding that date's totals |
| `Charts.InsertAscendingPermutes` | frontend/src/pages/Charts.jsx:126-128 | inserting adds exactly one point |
| `Charts.InsertAscendingMembers` | frontend/src/pages/Charts.jsx:126-128 | the result holds only the old points and the new one |
| `Charts.InsertAscendingSorted` | frontend/src/pages/Charts.jsx:126-128 | inserting a point of a new date keeps the list strictly ascending |
| `Charts.TallyDays` | frontend/src/pages/Charts.jsx:111-124 | the dates in first-seen order; each date's income from income rows and expense from every other row |
| `Charts.DailyData` | frontend/src/pages/Charts.jsx:110-129 | strictly ascending by date, holding exactly one point per date that occurs |
| `Charts.DaysSum` | frontend/src/pages/Charts.jsx:119-123 | the points' incomes and expenses add up to the group totals |
| `Charts.DailyTotalsSum` | frontend/src/pages/Charts.jsx:110-129 | the points' incomes add up to the income total and their expenses to the total of all non-income rows |
| `Charts.DailyPoints` | frontend/src/pages/Charts.jsx:113-124 | each point is its date's totals for a date that occurs, and every row's date has its point |
| `Dashboard.AllTransactionsMembers` | frontend/src/pages/Dashboard.jsx:33 | a row is in the concatenation exactly when it is in one of the lists |
| `Dashboard.InAllTransactions` | frontend/src/pages/Dashboard.jsx:33 | every row of every fetched list reaches the dashboard |
| `Dashboard.AccountLists` | frontend/src/pages/Dashboard.jsx:29-31 | one unbounded list request per account, in account order |
| `Dashboard.DashboardRequestsSucceed` | frontend/src/pages/Dashboard.jsx:25-32 | every per-account request succeeds, because the accounts come from the user's own list |
| `Dashboard.DashboardRows` | frontend/src/pages/Dashboard.jsx:25-34 | the dashboard shows exactly the stored rows whose account is the user's |
| `Dashboard.Serialize` | backend/app/routes/accounts.py:18 | the accounts as JSON, in order, none with a balance |
| `Dashboard.TotalBalanceAsWritten` | frontend/src/pages/Dashboard.jsx:43-46 | as written: when no account carries a balance, every one counts as 0 through `|| 0` and the total is 0 |
| `Dashboard.TotalBalanceAlwaysZero` | frontend/src/pages/Dashboard.jsx:43-46 | as written: the total balance card is 0 for every user and every set of rows |
| `Dashboard.TotalBalanceMissesIncome` | frontend/src/pages/Dashboard.jsx:44 | as written: one account with one 100-cent income shows 0 while its balance is 100 |
| `Dashboard.TotalBalance` | frontend/src/pages/Dashboard.jsx:43-46 | corrected: the sum of per-account balances equals the balance of every row on the dashboard |
| `Dashboard.ThisMonthOf` | frontend/src/pages/Dashboard.jsx:48-54 | a row is kept exactly when it has the type and today's month and year |
| `Dashboard.ThisMonthDisjoint` | frontend/src/pages/Dashboard.jsx:48-54 | no row counts both as this month's income and as this month's expense |
| `Dashboard.ThisMonthIsPreset` | frontend/src/pages/Dashboard.jsx:56-63 | on valid dates, the month test selects the same rows as the "this-month" preset |
| `Dashboard.ThisMonthIncome` | frontend/src/pages/Dashboard.jsx:48-50 | for a real today and real dates, the card is the summary endpoint's income for the "this-month" range |
| `Dashboard.ThisMonthExpenses` | frontend/src/pages/Dashboard.jsx:52-54 | for a real today and real dates, the card is the summary endpoint's expense for the "this-month" range |
| `Dashboard.ExpensesOfAll` | frontend/src/pages/Dashboard.jsx:67 | the expense total of the concatenation is the sum of the accounts' expense totals |
| `Dashboard.DashboardCategoriesSum` | frontend/src/pages/Dashboard.jsx:66-82 | the dashboard pie's values add up to the accounts' expense totals |
| `Forms.AmountValue` | frontend/src/pages/Transactions.jsx:110 | a blank field is sent as null; a number is sent as itself |
| `Forms.Parse` | backend/app/models.py:14-19 | a body passes exactly when its amount is a number and its type is income or expense |
| `Forms.BlankAmountRefused` | frontend/src/pages/Transactions.jsx:108-114 | a body built from a blank amount never passes the schema |
| `Forms.DeleteRequest` | frontend/src/pages/Transactions.jsx:137-151 | a delete is issued exactly when confirmed, and for that id |
| `TransactionsPage.CalculateSummary` | frontend/src/pages/Transactions.jsx:89-104 | net is income minus expense, and count is the list's length |
| `TransactionsPage.ClientSummaryIsServerSummary` | frontend/src/pages/Transactions.jsx:90-96 | the page's summary equals the server's summary for the same list |
| `TransactionsPage.ClientSummaryMatchesEndpoint` | frontend/src/pages/Transactions.jsx:72-87 | for the list the page fetched, its own summary is what the summary endpoint returns |
| `TransactionsPage.OtherTypeOnlyCounted` | frontend/src/pages/Transactions.jsx:102 | a row of another type adds 1 to count and nothing to either sum |
| `TransactionsPage.EditPatch` | frontend/src/pages/Transactions.jsx:199-204 | the body has exactly the keys description, amount, type and category, each naming a column |
| `TransactionsPage.EditPatchEffect` | frontend/src/pages/Transactions.jsx:199-206 | saving sets description, amount, type and category, and never id, account or date |
| `TransactionsPage.EditRoundTrip` | frontend/src/pages/Transactions.jsx:189-206 | opening the editor on a row and saving without changes writes the row back unchanged |
| `TransactionsPage.Page.constructor` | frontend/src/pages/Transactions.jsx:5-24 | the initial form and edit state, with filter "all" |
| `TransactionsPage.Page.SelectDefault` | frontend/src/pages/Transactions.jsx:29-31 | the selection becomes the default-account choice |
| `TransactionsPage.Page.RequestRange` | frontend/src/pages/Transactions.jsx:43-52 | the request carries both bounds or neither |
| `TransactionsPage.Page.EditClick` | frontend/src/pages/Transactions.jsx:189-195 | the edit fields take the row's id, description, amount, type and category |
| `TransactionsPage.Page.ClearEdit` | frontend/src/pages/Transactions.jsx:213-217 | the edit state returns to its defaults |
| `TransactionsPage.Page.CancelEdit` | frontend/src/pages/Transactions.jsx:224-230 | cancelling resets the edit state to null, "", "", "expense" and "General" |
| `TransactionsPage.Page.SaveEdit` | frontend/src/pages/Transactions.jsx:197-222 | sends the edit fields for the editing id; resets the edit state only on success |
| `TransactionsPage.Page.AddTransaction` | frontend/src/pages/Transactions.jsx:106-135 | posts the form with today's date and no amount check; resets the form only on success |
| `AccountDetail.FindAccount` | frontend/src/pages/AccountDetail.jsx:34-37 | the first account with the route's id, or none exactly when no account has it or the id is not a number |
| `AccountDetail.FoundIsOwned` | frontend/src/pages/AccountDetail.jsx:120-126 | an account is shown exactly when the user owns one with that id; otherwise "Account not found" |
| `AccountDetail.AcceptsAmount` | frontend/src/pages/AccountDetail.jsx:57-60 | the form goes on exactly when the amount it would post is a positive number |
| `AccountDetail.FirstCategoryName` | frontend/src/pages/AccountDetail.jsx:75 | the first category's name, or "" when there are none |
| `AccountDetail.Form.constructor` | frontend/src/pages/AccountDetail.jsx:14-20 | type "expense", empty amount, category and description, dated today |
| `AccountDetail.Form.LoadCategories` | frontend/src/pages/AccountDetail.jsx:41-46 | with categories, the form's category becomes the first one's name |
| `AccountDetail.Form.Submit` | frontend/src/pages/AccountDetail.jsx:54-86 | an empty or non-positive amount sends nothing and changes nothing; otherwise the form is posted and, on success, reset |
| `AccountDetail.SubmittedAmountPositive` | frontend/src/pages/AccountDetail.jsx:57-64 | whatever the form posts has a positive number amount |
| `AccountDetail.InsertNewestFirst` | frontend/src/pages/AccountDetail.jsx:270 | one insertion step of the stable sort: the list grows by exactly one row |
| `AccountDetail.SortNewestFirst` | frontend/src/pages/AccountDetail.jsx:270 | the sorted list has as many rows as the input |
| `AccountDetail.InsertNewestFirstPermutes` | frontend/src/pages/AccountDetail.jsx:270 | inserting adds exactly the one row |
| `AccountDetail.InsertNewestFirstSorted` | frontend/src/pages/AccountDetail.jsx:270 | inserting into a newest-first list keeps it newest first |
| `AccountDetail.SortNewestFirstSpec` | frontend/src/pages/AccountDetail.jsx:269-270 | the sorted list is newest first and a permutation of the rows |
| `AccountDetail.InsertOnDate` | frontend/src/pages/AccountDetail.jsx:270 | an inserted row goes after the rows of its own date |
| `AccountDetail.SortNewestFirstStable` | frontend/src/pages/AccountDetail.jsx:270 | rows of the same date keep their order |
| `AccountDetail.SortKeepsBalance` | frontend/src/pages/AccountDetail.jsx:102-110 | sorting for display does not change the balance |
| `AccountDetail.InsertShift` | frontend/src/pages/AccountDetail.jsx:270 | moving past one older row is one step of the insertion |
| `AccountDetail.SortStep` | frontend/src/pages/AccountDetail.jsx:270 | sorting one more row inserts it into the sorted prefix |
| `AccountDetail.InsertAt` | frontend/src/pages/AccountDetail.jsx:270 | the array prefix becomes the insertion of the next row, and the rest is untouched |
| `AccountDetail.SortByDateDescending` | frontend/src/pages/AccountDetail.jsx:269-270 | the array becomes the stable newest-first sort of its old contents |

## Left out

- Floating point. Amounts are `Float` columns and JavaScript numbers. Here they are integer cents, so the `toFixed(2)` rounding and `parseFloat` string parsing are not modelled. An amount field is either blank or holds a number, because the inputs are `type="number"`.
- Time zones. `toISOString()` on a local-midnight `Date`, and `new Date("YYYY-MM-DD")` read in local time, can move a date by a day. The model computes on calendar dates, with "today" as a parameter.
- Date parsing. `datetime.fromisoformat` and the JavaScript parsers are not modelled; a date is always a `(year, month, day)`. Years 0 to 99, which `new Date(y, m, d)` maps to 1900 to 1999, are not modelled either.
- Object key order. `Object.keys` lists integer-like keys first, and keys such as `constructor` already exist on a plain object. The model keeps insertion order for every category name.
- HTTP, async and React. The `Promise.all` fan-out, re-fetch races, alerts, `confirm` dialogs, rendering and the axios interceptors are not modelled. A request that fails or succeeds is a `succeeded` parameter, and a confirmation is a `confirmed` parameter.
- Authentication. `auth.py`, JWT and bcrypt are not part of this model. The current user is a user id parameter.
- ORM mechanics. Sessions, `commit`, `refresh` and joins become reads and assignments of the table lists.
- Ledger.Assign: a patch value of the wrong shape for its column (text for `amount`, null, a string date) is ignored. In the source, the store keeps it as given and the route fails with 500 or stores it coerced.
- Attributes that are not columns. `hasattr` also holds for ORM and pydantic attributes such as `account`, `metadata` and `model_fields`. The model treats only the seven columns as attributes.
- `get_all_accounts` and `get_all_categories` return the module lists themselves; in the model that is reading `Store.accounts` and `Store.categories`. Aliasing of the returned Python objects, which later `setattr` calls would change, is not modelled.
- Transaction ids in the store. Once an update body carries `id`, ids can repeat; `TransactionIdsFresh` is therefore proved only for updates without `id`.
- Engine assumptions. The database engine is configured in a module that is not part of this model. Two of its behaviours are assumed, not taken from the source:
  - Tables.NextRowId: a new key is one more than the largest stored id, or 1 in an empty table. An AUTOINCREMENT column or a sequence would differ after deletions.
  - Foreign keys are not enforced, as in SQLite without `PRAGMA foreign_keys=ON`. `TransactionRoutes.UpdateMayNameAnyAccount` and the success of `TransactionRoutes.UpdateTransactionRoute` for an `account_id` with no account depend on this.
- Identifier parsing. The AccountDetail route parameter is taken as already parsed by `parseInt`, or absent when it is not a number.
- The pages' Dashboard category pie is the same computation as the Charts one. It is covered by `Charts.CategoryData` applied to the concatenated rows, and `Dashboard.DashboardCategoriesSum` states its total.

## Findings

| source | as written | input that shows it | evidently intended | confidence | as-written member | corrected member |
|---|---|---|---|---|---|---|
| backend/app/tempStore.py:32-37 | the account is built with a `type=` keyword, but `models.Account` names that field `account_type`. pydantic ignores the unknown keyword, so every added and seeded account has no type. `TempStore.AccountFromKeywords` and `TempStore.AccountTypeLost` model the text; the whole `TempStore.Store`, its seeds included, is the corrected behaviour | `add_account("Checking", "checking")` returns an account whose `account_type` is None | the account keeps the type it is given | high (not executed) | `TempStore.AccountTypeLost` | `TempStore.Store.AddAccount` |
| frontend/src/pages/Dashboard.jsx:43-46 | the total adds up `acc.balance`, but accounts have no balance column, so the card always shows 0 | one account with one income of 100 cents shows a total balance of 0 | the sum of the accounts' balances computed from their transactions | high (not executed) | `Dashboard.TotalBalanceMissesIncome` | `Dashboard.TotalBalance` |
