# Expense tracker: a verified model of the record service

The service keeps one table, `expenses`. Each row has an id, a description, a category, an
amount and a creation timestamp. Four HTTP handlers work on it:

- **create** adds a row. The timestamp is the supplied one, or "now" when none is given.
- **list** filters the rows by an optional inclusive start date, an optional inclusive end
  date and an optional exact category. It sorts them in one of four orders, counts them,
  and returns one page at offset `(page - 1) * per_page`.
- **summary** applies the same date window. It returns the grand total of the amounts and
  a per-category GROUP BY sum.
- **delete** removes the row with a given id, or reports "not found".

The model replaces SQL with its plain meaning. The table is a `seq<Expense>` held by the
class `Store.ExpenseStore`. A statement's WHERE clause is a `Queries.Filter` value. The
handlers become methods that build that clause one conjunct at a time, as the source
reassigns `stmt`. What they return is given by pure functions (`Select`, `OrderBy`, `Page`,
`Sum`, `GroupByCategory`), and the source's promises are proved about those functions.

Files, one module each:

- `expenses.dfy` (`Expenses`): the record, `Option`/`Result`, and Python truthiness of a
  text parameter (`Given`).
- `queries.dfy` (`Queries`): the lenient date bound, the WHERE clause, the four sort orders
  and paging.
- `totals.dfy` (`Totals`): SUM, the `or 0.0` fallback and the GROUP BY.
- `store.dfy` (`Store`): the table class with its four handlers, the date clause both
  read handlers build, key allocation, lookup, and lemmas about what create and delete do to
  later reads.

Modelling choices:

- Timestamps and amounts are integers. Amounts can be read as cents.
- The ISO-8601 parser is a parameter `parse: string -> Option<Timestamp>`. `None` means
  the text is malformed.
- The clock reading used by create is a parameter `now`.
- A request value that `float()` cannot convert is an `amount` of `None`.
- A missing `description` or `category` is `None`.

Two facts about the code shape the contracts:

- The `description` and `category` columns are only NOT NULL (backend/app.py:18-19), and the
  handler never checks them. So an empty string is stored, and the model rejects only a
  missing value (`MissingField`).
- `page` and `per_page` default to 1 and 100 when the request omits them, are converted
  with `int()`, and are never range-checked (backend/app.py:60-61). An omitted argument is
  `None`. The model requires the resulting values to be `page >= 1` and `per_page >= 0`.
- Summary groups every stored category, the empty one included. List treats `category=""`
  as no category (backend/app.py:76). So the empty category's Summary entry is not the sum of
  any List result. `Store.EmptyCategoryList` and `Store.EmptyCategoryExample` state this.

## Model

| member | source | states |
|---|---|---|
| `Queries.Bound` | backend/app.py:64-75 | a date bound is absent exactly when the parameter is missing, empty, or rejected by the parser; otherwise it is the parsed timestamp |
| `Queries.AdmitsWhere` | backend/app.py:63-77 | `Admits`, the meaning of the WHERE clause: a statement with no conjuncts admits every row, and each `.where(...)` on the start bound, the end bound or the category adds exactly its own condition |
| `Queries.WindowMeaning` | backend/app.py:103-116 | `Window`, the date window: a row is in it iff it meets each bound that was given and parsed (both directions); List without a category uses exactly this window |
| `Queries.IgnoredParameters` | backend/app.py:64-76 | `Expenses.Given`, Python's truthiness test: an empty or malformed `start` or `end` gives the same window and List filter as an absent one, and an empty `category` the same List filter as an absent one |
| `Queries.ListFilterMeaning` | backend/app.py:64-77 | a row passes List's WHERE clause iff it is at or after a given, parsed start, at or before a given, parsed end, and in the given category; malformed or absent bounds and an absent or empty category impose nothing (both directions) |
| `Queries.Select` | backend/app.py:63-77 | the selected rows are exactly the table's rows the filter admits, each with its multiplicity in the table, and no more rows than the table |
| `Queries.SelectConcat` | backend/app.py:63-77 | selection distributes over concatenation of tables |
| `Queries.SelectAll` | backend/app.py:63 | a statement with no WHERE clause selects the whole table in table order |
| `Queries.SelectCategory` | backend/app.py:101 | selecting a category inside a date window is the window with that category added |
| `Queries.SortOrderOf` | backend/app.py:79-87 | `amount_asc`, `amount_desc` and `date_asc` choose their order; every other or absent value chooses newest first |
| `Queries.Insert` | backend/app.py:79-87 | inserting one row adds exactly that row to the multiset and keeps a sorted sequence sorted |
| `Queries.OrderBy` | backend/app.py:79-87 | the ordered rows are a permutation of the input and sorted in the chosen order |
| `Queries.OrderByLength` | backend/app.py:79-87 | ordering keeps the number of rows |
| `Queries.OrderByMeaning` | backend/app.py:79-87 | in the output of List's ordering, amounts are non-decreasing for `amount_asc`, non-increasing for `amount_desc`, dates non-decreasing for `date_asc`, and dates non-increasing otherwise |
| `Queries.Page` | backend/app.py:91 | the page has at most `per_page` rows; it is empty when the offset `(page - 1) * per_page` is at or past the end; otherwise it has `min(per_page, len - offset)` rows, and row `i` is input row `offset + i` |
| `Queries.DefaultPaging` | backend/app.py:60-61 | `PagingArg`, `request.args.get` with a default: a given argument is used as it is, absent ones read as page 1 and 100 rows a page, and that page is the first 100 rows (all of them when there are fewer) |
| `Queries.PageOfSorted` | backend/app.py:91 | a page of a sorted sequence is sorted |
| `Queries.PageAdmitted` | backend/app.py:91 | every row on a page of List is a table row admitted by the WHERE clause |
| `Totals.SumConcat` | backend/app.py:100 | the sum of amounts over two tables joined is the sum of their sums |
| `Totals.SumInsert` | backend/app.py:100 | inserting a row into an ordering adds exactly its amount to the sum |
| `Totals.SumOrderBy` | backend/app.py:100 | ordering does not change the sum of amounts |
| `Totals.SelectSingle` | backend/app.py:63-77 | a one-row table selects that row iff the filter admits it, and its sum is that row's amount or 0 accordingly |
| `Totals.SumPermutation` | backend/app.py:100 | `Sum`, SQL SUM over amounts, depends only on the multiset of rows, not on their order |
| `Totals.OrZeroMeaning` | backend/app.py:119 | `OrZero`, Python's `or 0.0` on the SUM result: NULL becomes 0 and any other value is kept |
| `Totals.SqlSum` | backend/app.py:100 | SUM is NULL exactly over no rows |
| `Totals.GrandTotal` | backend/app.py:119 | SUM followed by `or 0.0` is the sum of the amounts, and 0 over an empty window |
| `Totals.Accumulate` | backend/app.py:101 | adding one row to a running GROUP BY adds its amount to the total and to its category alone, adds its category to the set of categories, and keeps categories distinct |
| `Totals.AmountOfEntry` | backend/app.py:101 | in a GROUP BY with distinct categories, an entry holds its category's whole amount |
| `Totals.AmountOfAbsent` | backend/app.py:101 | a category with no entry has amount 0 |
| `Totals.CategorySumCons` | backend/app.py:101 | a category's sum is the first row's amount (when it is in that category) plus the category's sum over the rest |
| `Totals.OccursCons` | backend/app.py:101 | a category occurs in a table iff it is the first row's category or occurs in the rest |
| `Totals.GroupByCategory` | backend/app.py:101 | one entry per distinct category present, none for an absent category; each category's amount is the sum of its rows; the entries sum to the grand total |
| `Totals.GroupEntries` | backend/app.py:120-121 | each `by_category` entry's amount is the sum of the window's rows in that entry's category |
| `Store.NextId` | backend/app.py:17 | the new key is larger than every key in the table; it is 1 in an empty table and one past the largest key otherwise |
| `Store.UniqueKeyLookup` | backend/app.py:17 | `ExpenseStore.Valid`, the primary key: with unique keys, looking up a row's key finds exactly that row's position |
| `Store.FindIndex` | backend/app.py:128 | the lookup finds a position holding the key iff some row has that key |
| `Store.WindowClause` | backend/app.py:64-75 | the date conjuncts built one `.where` at a time are exactly the window; a row passes them iff it meets each given and parsed bound (both directions) |
| `Store.ExpenseStore.constructor` | backend/app.py:23 | a fresh table is empty and has unique keys |
| `Store.ExpenseStore.Create` | backend/app.py:35-50 | a non-numeric amount fails first and a malformed timestamp second; a missing description or category fails at commit with `MissingField`; a failure leaves the table unchanged; a success appends exactly one row, with a key not in the table, the given fields, and the supplied timestamp or `now`; keys stay unique |
| `Store.ExpenseStore.Delete` | backend/app.py:126-133 | an absent key gives NotFound and no change; a present key returns the key and removes exactly the row at that key's position, leaving the others in order; keys stay unique |
| `Store.ExpenseStore.List` | backend/app.py:54-93 | an absent `page` reads as 1 and an absent `per_page` as 100, and the response echoes the values used; with neither given, `data` is the first 100 ordered filtered rows; `total` counts the filtered rows; `data` is the page of the ordered filtered rows, sorted, at most `per_page` long, empty once the offset reaches `total`, and every row is a table row meeting each given and parsed bound and the given category |
| `Store.ExpenseStore.Query` | backend/app.py:63-93 | for given page values: `total` counts the filtered rows and does not depend on paging; `data` is the page of the ordered filtered rows; it is sorted, has at most `per_page` rows, and is empty when the offset reaches `total`; every returned row is a table row that meets every given and parsed bound and the given category |
| `Store.ExpenseStore.Summary` | backend/app.py:97-122 | `total` is the sum of the amounts in the date window (0 when the window is empty) and equals the sum of the `by_category` amounts; `by_category` has exactly one entry per distinct category in the window, holding that category's sum |
| `Store.ListPageRows` | backend/app.py:63-91 | every row on a List page is sorted in the chosen order, is a table row, and meets each given and parsed bound and the given category |
| `Store.AppendFresh` | backend/app.py:46-48 | the key chosen for a new row is fresh, so appending it keeps keys unique |
| `Store.RemoveAt` | backend/app.py:131 | removing one row keeps keys unique and removes exactly the rows with its key |
| `Store.AppendEffect` | backend/app.py:41-49 | after a create, the new row appears in the unpaged ordered result of every filter it passes; each count grows by one and each sum by its amount where it passes, and by nothing elsewhere |
| `Store.RemoveEffect` | backend/app.py:128-132 | after a delete, no query returns the deleted key; each count and sum loses exactly that row where it passed the filter |
| `Store.ListWithinWindow` | backend/app.py:64-77 | `ListFilter`, List's WHERE clause: without a category it selects exactly Summary's window; with one it selects that window narrowed to the category; either way every listed row is in the window |
| `Store.SummaryAgreesWithList` | backend/app.py:97-122 | Summary's total is the sum over the unpaged, category-free List of the same window in any order; each non-empty category's Summary amount is the sum over the unpaged List of that category |
| `Store.EmptyCategoryList` | backend/app.py:76 | List with `category=""` selects the whole date window, so its sum is the window's total rather than the empty category's amount |
| `Store.EmptyCategoryExample` | backend/app.py:76-101 | with rows `("", 10)` and `("A", 20)`, Summary's entry for `""` is 10 while List with `category=""` sums to 30 |
| `Store.ExampleSelect` | backend/app.py:97-122 | the worked example table of amounts 10, 20 and 30 passes an empty filter whole and sums to 60 |
| `Store.ExampleGroups` | backend/app.py:101 | the worked example groups to A at 30 and B at 30 |
| `Store.SummaryExample` | backend/app.py:97-122 | for categories A, A and B with amounts 10, 20 and 30, Summary with no bounds gives a total of 60, A at 30 and B at 30 |

## Left out

- HTTP routing, `request.json`/`request.args`, `jsonify`, status codes, CORS and the static
  front-end (backend/app.py:25-31). These are framework I/O. The handlers' inputs are method
  parameters and their responses are datatypes.
- SQLAlchemy and SQLite: the engine, sessions, `create_all`, `session.refresh` and the
  database path (backend/app.py:8-13, 23). The table is a sequence, and each statement is
  its plain meaning.
- ISO-8601 parsing and `isoformat` serialisation. The parser is an abstract partial function.
  Timezone offsets and the storage of datetimes as text in SQLite are not modelled:
  timestamps lie on one integer time line.
- Floating-point amounts and rounding in SUM. Amounts are integers, and the `0.0` of
  `or 0.0` is 0.
- Which inputs `float()` accepts. The model only sees the outcome: an amount, or a failure.
- Type errors from request fields of the wrong JSON type, for instance a non-string
  `created_at`.
- `int()` failing on a non-numeric `page` or `per_page`.
- Non-positive `page` and negative `per_page`, given or defaulted. SQLite gives these a meaning
  through negative OFFSET/LIMIT. The model requires the values used to be `page >= 1` and
  `per_page >= 0` instead.
- `datetime.utcnow()`. It is the parameter `now`. The column default `default=datetime.utcnow`
  (backend/app.py:21) never fires, because the handler always supplies a timestamp.
- Store.ExpenseStore.List: SQLite leaves the order among rows with equal sort keys undefined.
  The model fixes one choice, table order among equals, and proves only sortedness and
  permutation about it.
- Store.ExpenseStore.Summary: SQLite returns the `by_category` rows in an order of its own.
  The model fixes one choice, the order `GroupByCategory` produces, and proves only
  properties that do not depend on that order.
- Store.NextId: 64-bit key width is not modelled, nor SQLite's random fallback once the
  largest key reaches 2^63 - 1. Only the usual "largest key plus one" allocation is.
- Create's failures are unhandled exceptions in the source, so the client sees a server
  error. The model returns them as `Err` values with the table unchanged. This matches the
  session being discarded without a commit.
- Concurrent requests and `check_same_thread` (backend/app.py:12). Each handler is one
  atomic step.
