/** The `expenses` table and the four handlers that use it. */
module Store {
  import opened Expenses
  import opened Queries
  import opened Totals

  /** Why `add_expense` fails: `float()` rejects the amount, the ISO parser rejects
      the supplied timestamp, or the NOT NULL constraint rejects a missing text column. */
  datatype CreateError = InvalidAmount | InvalidTimestamp | MissingField

  datatype DeleteError = NotFound

  /** The key SQLite gives a new row: one past the largest key, 1 in an empty table. */
  function NextId(rows: seq<Expense>): (n: int)
    ensures forall e :: e in rows ==> e.id < n
    ensures rows == [] ==> n == 1
    ensures rows != [] ==> HasId(rows, n - 1)
  {
    if rows == [] then 1
    else
      var rest := NextId(rows[1..]);
      assert rows == [rows[0]] + rows[1..];
      if rows[1..] == [] || rows[0].id + 1 >= rest then rows[0].id + 1 else rest
  }

  /** The position of the row with key `id` (`session.get`), if there is one. */
  function FindIndex(rows: seq<Expense>, id: int): (r: Option<nat>)
    ensures r.Some? ==> r.value < |rows| && rows[r.value].id == id
    ensures r.None? <==> !HasId(rows, id)
  {
    if rows == [] then None
    else if rows[0].id == id then Some(0)
    else
      var rest := FindIndex(rows[1..], id);
      assert rows == [rows[0]] + rows[1..];
      if rest.Some? then Some(rest.value + 1) else None
  }

  /** The date conjuncts both handlers add to a statement: `created_at >= start` when
      `start` is given and parses, `created_at <= end` likewise; a parse failure is
      swallowed and adds nothing. */
  method WindowClause(start: Option<string>, end: Option<string>, parse: string -> Option<Timestamp>)
    returns (stmt: Filter)
    ensures stmt == Window(start, end, parse)
    ensures forall e :: Admits(stmt, e) <==>
      && (Given(start) && parse(start.value).Some? ==> parse(start.value).value <= e.createdAt)
      && (Given(end) && parse(end.value).Some? ==> e.createdAt <= parse(end.value).value)
  {
    stmt := NoFilter;
    if Given(start) {
      var startDt := parse(start.value);
      if startDt.Some? {
        stmt := stmt.(from := startDt);
      }
    }
    if Given(end) {
      var endDt := parse(end.value);
      if endDt.Some? {
        stmt := stmt.(until := endDt);
      }
    }
  }

  class ExpenseStore {
    /** The rows of the table, in insertion order. */
    var rows: seq<Expense>

    ghost predicate Valid()
      reads this
    {
      UniqueIds(rows)
    }

    /** The table as `create_all` leaves a fresh database: empty. */
    constructor ()
      ensures Valid() && rows == []
    {
      rows := [];
    }

    /** `add_expense`. `amount` is None when `float()` cannot convert the request's
        value; `now` is the clock reading used when no timestamp is supplied. */
    method Create(description: Option<string>, category: Option<string>, amount: Option<int>,
                  createdAt: Option<string>, parse: string -> Option<Timestamp>, now: Timestamp)
      returns (r: Result<Expense, CreateError>)
      requires Valid()
      modifies this
      ensures Valid()
      ensures amount.None? ==> r == Err(InvalidAmount)
      ensures amount.Some? && Given(createdAt) && parse(createdAt.value).None? ==> r == Err(InvalidTimestamp)
      ensures (amount.Some? && (Given(createdAt) ==> parse(createdAt.value).Some?)
               && (description.None? || category.None?)) ==> r == Err(MissingField)
      ensures r.Ok? <==> amount.Some? && (Given(createdAt) ==> parse(createdAt.value).Some?)
                         && description.Some? && category.Some?
      ensures r.Err? ==> rows == old(rows)
      ensures r.Ok? ==> && rows == old(rows) + [r.value]
                        && !HasId(old(rows), r.value.id)
                        && r.value.description == description.value
                        && r.value.category == category.value
                        && r.value.amount == amount.value
                        && r.value.createdAt == (if Given(createdAt) then parse(createdAt.value).value else now)
    {
      if amount.None? {
        return Err(InvalidAmount);
      }
      var stamp: Timestamp;
      if Given(createdAt) {
        var parsed := parse(createdAt.value);
        if parsed.None? {
          return Err(InvalidTimestamp);
        }
        stamp := parsed.value;
      } else {
        stamp := now;
      }
      if description.None? || category.None? {
        return Err(MissingField);
      }
      var e := Expense(NextId(rows), description.value, category.value, amount.value, stamp);
      AppendFresh(rows, e);
      rows := rows + [e];
      r := Ok(e);
    }

    /** `delete_expense`. */
    method Delete(id: int) returns (r: Result<int, DeleteError>)
      requires Valid()
      modifies this
      ensures Valid()
      ensures r.Err? <==> !HasId(old(rows), id)
      ensures r.Err? ==> r == Err(NotFound) && rows == old(rows)
      ensures r.Ok? ==> r.value == id
      ensures r.Ok? ==> exists k :: 0 <= k < |old(rows)| && old(rows)[k].id == id
                                  && rows == old(rows)[..k] + old(rows)[k + 1..]
      ensures forall e :: e in rows <==> e in old(rows) && e.id != id
    {
      var found := FindIndex(rows, id);
      if found.None? {
        return Err(NotFound);
      }
      var k := found.value;
      RemoveAt(rows, k);
      rows := rows[..k] + rows[k + 1..];
      r := Ok(id);
    }

    /** `list_expenses`: reads the paging arguments, falling back to page 1 and 100 rows,
        and runs the query. */
    method List(start: Option<string>, end: Option<string>, category: Option<string>,
                sort: Option<string>, page: Option<int>, perPage: Option<int>,
                parse: string -> Option<Timestamp>)
      returns (r: ListResult)
      requires PagingArg(page, DefaultPage) >= 1 && PagingArg(perPage, DefaultPerPage) >= 0
      ensures r.page == PagingArg(page, DefaultPage) && r.perPage == PagingArg(perPage, DefaultPerPage)
      ensures page.None? ==> r.page == 1
      ensures perPage.None? ==> r.perPage == 100
      ensures r.total == |Select(rows, ListFilter(start, end, category, parse))|
      ensures r.data == Page(OrderBy(Select(rows, ListFilter(start, end, category, parse)), SortOrderOf(sort)),
                             r.page, r.perPage)
      ensures page.None? && perPage.None? ==>
        r.data == OrderBy(Select(rows, ListFilter(start, end, category, parse)), SortOrderOf(sort))[..Min(100, r.total)]
      ensures Sorted(SortOrderOf(sort), r.data)
      ensures |r.data| <= r.perPage
      ensures Offset(r.page, r.perPage) >= r.total ==> r.data == []
      ensures forall e :: e in r.data ==>
        && e in rows
        && (Given(start) && parse(start.value).Some? ==> parse(start.value).value <= e.createdAt)
        && (Given(end) && parse(end.value).Some? ==> e.createdAt <= parse(end.value).value)
        && (Given(category) ==> e.category == category.value)
    {
      var pageNo := DefaultPage;
      if page.Some? {
        pageNo := page.value;
      }
      var size := DefaultPerPage;
      if perPage.Some? {
        size := perPage.value;
      }
      r := Query(start, end, category, sort, pageNo, size, parse);
      if page.None? && perPage.None? {
        OrderByLength(Select(rows, ListFilter(start, end, category, parse)), SortOrderOf(sort));
        DefaultPaging(OrderBy(Select(rows, ListFilter(start, end, category, parse)), SortOrderOf(sort)));
      }
    }

    /** The query of `list_expenses`: the WHERE clause is built one conjunct at a time,
        then the ORDER BY; the count is taken before OFFSET and LIMIT. */
    method Query(start: Option<string>, end: Option<string>, category: Option<string>,
                 sort: Option<string>, page: int, perPage: int, parse: string -> Option<Timestamp>)
      returns (r: ListResult)
      requires page >= 1 && perPage >= 0
      ensures r.page == page && r.perPage == perPage
      ensures r.total == |Select(rows, ListFilter(start, end, category, parse))|
      ensures r.data == Page(OrderBy(Select(rows, ListFilter(start, end, category, parse)), SortOrderOf(sort)), page, perPage)
      ensures Sorted(SortOrderOf(sort), r.data)
      ensures |r.data| <= perPage
      ensures Offset(page, perPage) >= r.total ==> r.data == []
      ensures forall e :: e in r.data ==>
        && e in rows
        && (Given(start) && parse(start.value).Some? ==> parse(start.value).value <= e.createdAt)
        && (Given(end) && parse(end.value).Some? ==> e.createdAt <= parse(end.value).value)
        && (Given(category) ==> e.category == category.value)
    {
      var stmt := WindowClause(start, end, parse);
      if Given(category) {
        stmt := stmt.(category := category);
      }
      var order: SortOrder;
      if sort == Some("amount_asc") {
        order := AmountAsc;
      } else if sort == Some("amount_desc") {
        order := AmountDesc;
      } else if sort == Some("date_asc") {
        order := DateAsc;
      } else {
        order := DateDesc;
      }
      assert stmt == ListFilter(start, end, category, parse);
      assert order == SortOrderOf(sort);
      var matching := Select(rows, stmt);
      var ordered := OrderBy(matching, order);
      var data := Page(ordered, page, perPage);
      ListPageRows(rows, start, end, category, parse, order, page, perPage);
      r := ListResult(|matching|, page, perPage, data);
    }

    /** `summary`: the same date window is added to both statements, the grand total
        and the per-category GROUP BY. */
    method Summary(start: Option<string>, end: Option<string>, parse: string -> Option<Timestamp>)
      returns (r: SummaryResult)
      ensures r.total == Sum(Select(rows, Window(start, end, parse)))
      ensures Select(rows, Window(start, end, parse)) == [] ==> r.total == 0
      ensures r.byCategory == GroupByCategory(Select(rows, Window(start, end, parse)))
      ensures r.total == SumGroups(r.byCategory)
      ensures DistinctCategories(r.byCategory)
      ensures forall c :: HasCategory(r.byCategory, c) <==> Occurs(Select(rows, Window(start, end, parse)), c)
      ensures forall i :: 0 <= i < |r.byCategory| ==>
        r.byCategory[i].amount == CategorySum(Select(rows, Window(start, end, parse)), r.byCategory[i].category)
    {
      var stmt := WindowClause(start, end, parse);
      var catStmt := WindowClause(start, end, parse);
      var total := OrZero(SqlSum(Select(rows, stmt)));
      GrandTotal(Select(rows, stmt));
      var byCat := GroupByCategory(Select(rows, catStmt));
      GroupEntries(Select(rows, catStmt));
      r := SummaryResult(total, byCat);
    }
  }

  /** Every row on a List page is sorted in the chosen order, is a table row, and meets
      each given and parsed bound and the given category. */
  lemma ListPageRows(rows: seq<Expense>, start: Option<string>, end: Option<string>,
                     category: Option<string>, parse: string -> Option<Timestamp>,
                     o: SortOrder, page: int, perPage: int)
    requires page >= 1 && perPage >= 0
    ensures var data := Page(OrderBy(Select(rows, ListFilter(start, end, category, parse)), o), page, perPage);
      && Sorted(o, data)
      && forall e :: e in data ==>
        && e in rows
        && (Given(start) && parse(start.value).Some? ==> parse(start.value).value <= e.createdAt)
        && (Given(end) && parse(end.value).Some? ==> e.createdAt <= parse(end.value).value)
        && (Given(category) ==> e.category == category.value)
  {
    var f := ListFilter(start, end, category, parse);
    var ordered := OrderBy(Select(rows, f), o);
    PageOfSorted(ordered, page, perPage, o);
    PageAdmitted(rows, f, o, page, perPage);
    forall e | e in Page(ordered, page, perPage) ensures Admits(f, e) ==>
      && (Given(start) && parse(start.value).Some? ==> parse(start.value).value <= e.createdAt)
      && (Given(end) && parse(end.value).Some? ==> e.createdAt <= parse(end.value).value)
      && (Given(category) ==> e.category == category.value)
    {
      ListFilterMeaning(start, end, category, parse, e);
    }
  }

  /** With the key unique, `session.get` finds exactly the row that carries it. This
      follows from the contract of `FindIndex` alone. */
  lemma UniqueKeyLookup(rows: seq<Expense>, i: nat)
    requires UniqueIds(rows) && i < |rows|
    ensures FindIndex(rows, rows[i].id) == Some(i)
  {
  }

  /** The key NextId picks is fresh, so appending keeps keys unique. */
  lemma AppendFresh(rows: seq<Expense>, e: Expense)
    requires UniqueIds(rows) && e.id == NextId(rows)
    ensures UniqueIds(rows + [e]) && !HasId(rows, e.id)
  {
  }

  /** Removing the row at `k` keeps keys unique and removes exactly the rows with its key. */
  lemma RemoveAt(rows: seq<Expense>, k: nat)
    requires UniqueIds(rows) && k < |rows|
    ensures UniqueIds(rows[..k] + rows[k + 1..])
    ensures forall e :: e in rows[..k] + rows[k + 1..] <==> e in rows && e.id != rows[k].id
  {
  }

  /** What a created row does to later reads: it is in the unpaged ordered result of
      every filter it passes, and changes counts and sums by itself alone. */
  lemma {:induction false} AppendEffect(rows: seq<Expense>, e: Expense, f: Filter, o: SortOrder)
    ensures Select(rows + [e], f) == Select(rows, f) + (if Admits(f, e) then [e] else [])
    ensures |Select(rows + [e], f)| == |Select(rows, f)| + (if Admits(f, e) then 1 else 0)
    ensures Sum(Select(rows + [e], f)) == Sum(Select(rows, f)) + (if Admits(f, e) then e.amount else 0)
    ensures Admits(f, e) ==> e in OrderBy(Select(rows + [e], f), o)
  {
    SelectConcat(rows, [e], f);
    SelectSingle(e, f);
    SumConcat(Select(rows, f), Select([e], f));
    if Admits(f, e) {
      var selected := Select(rows + [e], f);
      assert e in selected;
      assert e in multiset(selected);
      assert e in multiset(OrderBy(selected, o));
    }
  }

  /** What a delete does to later reads: the deleted key is gone from every query,
      and counts and sums lose that one row where it passed the filter. */
  lemma {:induction false} RemoveEffect(rows: seq<Expense>, k: nat, f: Filter)
    requires UniqueIds(rows) && k < |rows|
    ensures forall e :: e in Select(rows[..k] + rows[k + 1..], f) ==> e.id != rows[k].id
    ensures |Select(rows[..k] + rows[k + 1..], f)| == |Select(rows, f)| - (if Admits(f, rows[k]) then 1 else 0)
    ensures Sum(Select(rows[..k] + rows[k + 1..], f))
         == Sum(Select(rows, f)) - (if Admits(f, rows[k]) then rows[k].amount else 0)
  {
    RemoveAt(rows, k);
    var a, b := rows[..k], rows[k + 1..];
    assert rows == a + [rows[k]] + b;
    SelectConcat(a, b, f);
    SelectConcat(a + [rows[k]], b, f);
    SelectConcat(a, [rows[k]], f);
    var mid := Select([rows[k]], f);
    SelectSingle(rows[k], f);
    SumConcat(Select(a, f), Select(b, f));
    SumConcat(Select(a, f) + mid, Select(b, f));
    SumConcat(Select(a, f), mid);
  }

  /** List's rows lie inside Summary's window: the same window, narrowed by the category
      when one is given. */
  lemma ListWithinWindow(rows: seq<Expense>, start: Option<string>, end: Option<string>,
                         category: Option<string>, parse: string -> Option<Timestamp>)
    ensures !Given(category) ==> Select(rows, ListFilter(start, end, category, parse)) == Select(rows, Window(start, end, parse))
    ensures Given(category) ==>
      Select(rows, ListFilter(start, end, category, parse))
        == Select(Select(rows, Window(start, end, parse)), InCategory(category.value))
    ensures forall e :: e in Select(rows, ListFilter(start, end, category, parse)) ==> e in Select(rows, Window(start, end, parse))
  {
    if Given(category) {
      SelectCategory(rows, Window(start, end, parse), category.value);
      assert ListFilter(start, end, category, parse) == Window(start, end, parse).(category := Some(category.value));
    } else {
      assert ListFilter(start, end, category, parse) == Window(start, end, parse);
    }
  }

  /** Summary and List read the same window: the grand total is the sum over the
      unpaged, category-free List in any order, and each non-empty category's entry is
      the sum over the unpaged List of that category. The empty category is the exception:
      `EmptyCategoryList` shows what List does with it. */
  lemma SummaryAgreesWithList(rows: seq<Expense>, start: Option<string>, end: Option<string>,
                              parse: string -> Option<Timestamp>, sort: Option<string>, c: string)
    requires c != ""
    ensures Sum(Select(rows, Window(start, end, parse)))
         == Sum(OrderBy(Select(rows, ListFilter(start, end, None, parse)), SortOrderOf(sort)))
    ensures CategorySum(Select(rows, Window(start, end, parse)), c)
         == Sum(OrderBy(Select(rows, ListFilter(start, end, Some(c), parse)), SortOrderOf(sort)))
  {
    assert ListFilter(start, end, None, parse) == Window(start, end, parse);
    SumOrderBy(Select(rows, Window(start, end, parse)), SortOrderOf(sort));
    SelectCategory(rows, Window(start, end, parse), c);
    assert ListFilter(start, end, Some(c), parse) == Window(start, end, parse).(category := Some(c));
    SumOrderBy(Select(rows, ListFilter(start, end, Some(c), parse)), SortOrderOf(sort));
  }

  /** An empty category is stored, and Summary gives it an entry, but List treats
      `category=""` as no category: it lists the whole window. */
  lemma EmptyCategoryList(rows: seq<Expense>, start: Option<string>, end: Option<string>,
                          parse: string -> Option<Timestamp>, sort: Option<string>)
    ensures Select(rows, ListFilter(start, end, Some(""), parse)) == Select(rows, Window(start, end, parse))
    ensures Sum(OrderBy(Select(rows, ListFilter(start, end, Some(""), parse)), SortOrderOf(sort)))
         == Sum(Select(rows, Window(start, end, parse)))
  {
    assert ListFilter(start, end, Some(""), parse) == Window(start, end, parse);
    SumOrderBy(Select(rows, Window(start, end, parse)), SortOrderOf(sort));
  }

  /** A table where the two differ: the entry for `""` holds 10, List with `category=""`
      sums to 30. */
  lemma EmptyCategoryExample(parse: string -> Option<Timestamp>)
    ensures var rows := [Expense(1, "x", "", 10, 0), Expense(2, "y", "A", 20, 0)];
      && CategorySum(Select(rows, Window(None, None, parse)), "") == 10
      && Sum(OrderBy(Select(rows, ListFilter(None, None, Some(""), parse)), DateDesc)) == 30
  {
    var rows := [Expense(1, "x", "", 10, 0), Expense(2, "y", "A", 20, 0)];
    assert Window(None, None, parse) == NoFilter;
    SelectAll(rows);
    assert rows[1..] == [rows[1]] && [rows[1]][1..] == [];
    assert !Admits(InCategory(""), rows[1]);
    assert Select(rows[1..], InCategory("")) == [];
    assert Select(rows, InCategory("")) == [rows[0]];
    assert Sum([rows[0]]) == 10;
    assert Sum(rows) == 30;
    EmptyCategoryList(rows, None, None, parse, None);
  }

  /** The table of the worked example: 10, 20 and 30 in categories A, A and B. */
  function ExampleRows(): seq<Expense> {
    [Expense(1, "x", "A", 10, 0), Expense(2, "y", "A", 20, 0), Expense(3, "z", "B", 30, 0)]
  }

  /** The worked example: a total of 60, with A at 30 and B at 30. */
  lemma SummaryExample(parse: string -> Option<Timestamp>)
    ensures Sum(Select(ExampleRows(), Window(None, None, parse))) == 60
    ensures GroupByCategory(Select(ExampleRows(), Window(None, None, parse)))
         == [CategoryTotal("B", 30), CategoryTotal("A", 30)]
  {
    assert Window(None, None, parse) == NoFilter;
    ExampleSelect();
    ExampleGroups();
  }

  lemma ExampleSelect()
    ensures Select(ExampleRows(), NoFilter) == ExampleRows()
    ensures Sum(ExampleRows()) == 60
  {
    var rows := ExampleRows();
    SelectAll(rows);
    assert rows[1..] == [rows[1], rows[2]] && rows[1..][1..] == [rows[2]] && [rows[2]][1..] == [];
  }

  lemma ExampleGroups()
    ensures GroupByCategory(ExampleRows()) == [CategoryTotal("B", 30), CategoryTotal("A", 30)]
  {
  }
}
