/** The read side of the service: the WHERE clause built from the query parameters,
    the four sort orders and offset paging. */
module Queries {
  import opened Expenses

  /** A date bound as the handlers read it: a missing or empty parameter gives no bound,
      and so does one the ISO parser rejects; otherwise the parsed timestamp. */
  function Bound(text: Option<string>, parse: string -> Option<Timestamp>): (b: Option<Timestamp>)
    ensures b.None? <==> !Given(text) || parse(text.value).None?
    ensures b.Some? ==> Given(text) && parse(text.value) == b
  {
    if Given(text) then parse(text.value) else None
  }

  /** The WHERE clause of a statement over `expenses`: each component that is present
      is one conjunct (`created_at >= from`, `created_at <= until`, `category == c`). */
  datatype Filter = Filter(from: Option<Timestamp>, until: Option<Timestamp>, category: Option<string>)

  const NoFilter := Filter(None, None, None)

  predicate Admits(f: Filter, e: Expense) {
    && (f.from.Some? ==> f.from.value <= e.createdAt)
    && (f.until.Some? ==> e.createdAt <= f.until.value)
    && (f.category.Some? ==> e.category == f.category.value)
  }

  /** The date window that List and Summary both apply. */
  function Window(start: Option<string>, end: Option<string>, parse: string -> Option<Timestamp>): Filter {
    Filter(Bound(start, parse), Bound(end, parse), None)
  }

  /** The WHERE clause of List: the date window and, when given, the exact category. */
  function ListFilter(start: Option<string>, end: Option<string>, category: Option<string>,
                      parse: string -> Option<Timestamp>): Filter {
    Window(start, end, parse).(category := if Given(category) then category else None)
  }

  /** A row passes List's WHERE clause exactly when it meets every bound that was given
      and parsed, and the category when one was given; the other parameters impose nothing. */
  lemma ListFilterMeaning(start: Option<string>, end: Option<string>, category: Option<string>,
                          parse: string -> Option<Timestamp>, e: Expense)
    ensures Admits(ListFilter(start, end, category, parse), e) <==>
      && (Given(start) && parse(start.value).Some? ==> parse(start.value).value <= e.createdAt)
      && (Given(end) && parse(end.value).Some? ==> e.createdAt <= parse(end.value).value)
      && (Given(category) ==> e.category == category.value)
  {
  }

  /** Each `.where(...)` a handler adds is one more conjunct of the WHERE clause,
      and a statement with none admits every row. */
  lemma AdmitsWhere(f: Filter, e: Expense, t: Timestamp, c: string)
    ensures Admits(NoFilter, e)
    ensures f.from.None? ==> (Admits(f.(from := Some(t)), e) <==> Admits(f, e) && t <= e.createdAt)
    ensures f.until.None? ==> (Admits(f.(until := Some(t)), e) <==> Admits(f, e) && e.createdAt <= t)
    ensures f.category.None? ==> (Admits(f.(category := Some(c)), e) <==> Admits(f, e) && e.category == c)
  {
  }

  /** A row is in the date window exactly when it meets each bound that was given and
      parsed; List without a category uses exactly this window. */
  lemma WindowMeaning(start: Option<string>, end: Option<string>, parse: string -> Option<Timestamp>, e: Expense)
    ensures Admits(Window(start, end, parse), e) <==>
      && (Given(start) && parse(start.value).Some? ==> parse(start.value).value <= e.createdAt)
      && (Given(end) && parse(end.value).Some? ==> e.createdAt <= parse(end.value).value)
    ensures ListFilter(start, end, None, parse) == Window(start, end, parse)
  {
  }

  /** An empty or malformed date parameter, and an empty category, are treated exactly
      as absent ones. */
  lemma IgnoredParameters(s: string, start: Option<string>, end: Option<string>, category: Option<string>,
                          parse: string -> Option<Timestamp>)
    requires s == "" || parse(s).None?
    ensures Window(Some(s), end, parse) == Window(None, end, parse)
    ensures Window(start, Some(s), parse) == Window(start, None, parse)
    ensures ListFilter(Some(s), end, category, parse) == ListFilter(None, end, category, parse)
    ensures ListFilter(start, Some(s), category, parse) == ListFilter(start, None, category, parse)
    ensures ListFilter(start, end, Some(""), parse) == ListFilter(start, end, None, parse)
  {
  }

  /** The rows a filter admits, in table order. */
  function Select(rows: seq<Expense>, f: Filter): (r: seq<Expense>)
    ensures |r| <= |rows|
    ensures forall e :: e in r <==> e in rows && Admits(f, e)
    ensures forall e :: multiset(r)[e] == if Admits(f, e) then multiset(rows)[e] else 0
  {
    if rows == [] then []
    else
      assert rows == [rows[0]] + rows[1..];
      (if Admits(f, rows[0]) then [rows[0]] else []) + Select(rows[1..], f)
  }

  lemma {:induction false} SelectConcat(a: seq<Expense>, b: seq<Expense>, f: Filter)
    ensures Select(a + b, f) == Select(a, f) + Select(b, f)
  {
    if a == [] {
      assert a + b == b;
    } else {
      assert (a + b)[0] == a[0];
      assert (a + b)[1..] == a[1..] + b;
      SelectConcat(a[1..], b, f);
    }
  }

  /** A statement without a WHERE clause selects the whole table, in table order. */
  lemma {:induction false} SelectAll(rows: seq<Expense>)
    ensures Select(rows, NoFilter) == rows
  {
    if rows != [] {
      SelectAll(rows[1..]);
      assert rows == [rows[0]] + rows[1..];
    }
  }

  /** The rows of category `c`: the same WHERE clause as an exact-category List. */
  function InCategory(c: string): Filter {
    Filter(None, None, Some(c))
  }

  /** Selecting a category inside a window is the window with that category added. */
  lemma {:induction false} SelectCategory(rows: seq<Expense>, w: Filter, c: string)
    requires w.category.None?
    ensures Select(Select(rows, w), InCategory(c)) == Select(rows, w.(category := Some(c)))
  {
    if rows != [] {
      SelectCategory(rows[1..], w, c);
      var narrowed := w.(category := Some(c));
      var tail := Select(rows[1..], w);
      var first := if Admits(narrowed, rows[0]) then [rows[0]] else [];
      assert Select(rows, narrowed) == first + Select(rows[1..], narrowed);
      if Admits(w, rows[0]) {
        assert Select(rows, w) == [rows[0]] + tail;
        assert ([rows[0]] + tail)[1..] == tail;
        assert Select([rows[0]] + tail, InCategory(c)) == first + Select(tail, InCategory(c));
      } else {
        assert Select(rows, w) == tail;
        assert first == [];
      }
    }
  }

  /** The four orders of List; anything but the three named ones means newest first. */
  datatype SortOrder = AmountAsc | AmountDesc | DateAsc | DateDesc

  function SortOrderOf(sort: Option<string>): (o: SortOrder)
    ensures o == AmountAsc <==> sort == Some("amount_asc")
    ensures o == AmountDesc <==> sort == Some("amount_desc")
    ensures o == DateAsc <==> sort == Some("date_asc")
  {
    if sort == Some("amount_asc") then AmountAsc
    else if sort == Some("amount_desc") then AmountDesc
    else if sort == Some("date_asc") then DateAsc
    else DateDesc
  }

  /** `a` may precede `b` in order `o`. */
  predicate InOrder(o: SortOrder, a: Expense, b: Expense) {
    match o
    case AmountAsc => a.amount <= b.amount
    case AmountDesc => a.amount >= b.amount
    case DateAsc => a.createdAt <= b.createdAt
    case DateDesc => a.createdAt >= b.createdAt
  }

  ghost predicate Sorted(o: SortOrder, s: seq<Expense>) {
    forall i, j :: 0 <= i < j < |s| ==> InOrder(o, s[i], s[j])
  }

  /** Prepending an element that may precede every element of a sorted sequence keeps it sorted. */
  lemma SortedCons(o: SortOrder, y: Expense, t: seq<Expense>)
    requires Sorted(o, t)
    requires forall z :: z in t ==> InOrder(o, y, z)
    ensures Sorted(o, [y] + t)
  {
  }

  function Insert(x: Expense, s: seq<Expense>, o: SortOrder): (r: seq<Expense>)
    ensures multiset(r) == multiset(s) + multiset{x}
    ensures Sorted(o, s) ==> Sorted(o, r)
  {
    if s == [] || InOrder(o, x, s[0]) then
      assert Sorted(o, s) ==> Sorted(o, [x] + s) by {
        if Sorted(o, s) {
          forall z | z in s ensures InOrder(o, x, z) {
            var k :| 0 <= k < |s| && s[k] == z;
            if k > 0 { assert InOrder(o, s[0], s[k]); }
          }
          SortedCons(o, x, s);
        }
      }
      [x] + s
    else
      var t := Insert(x, s[1..], o);
      assert s == [s[0]] + s[1..];
      assert Sorted(o, s) ==> Sorted(o, [s[0]] + t) by {
        if Sorted(o, s) {
          forall z | z in t ensures InOrder(o, s[0], z) {
            assert z in multiset(t);
            if z != x {
              assert z in multiset(s[1..]);
              var k :| 0 <= k < |s[1..]| && s[1..][k] == z;
              assert s[k + 1] == z;
            }
          }
          SortedCons(o, s[0], t);
        }
      }
      [s[0]] + t
  }

  /** The ORDER BY of List: a permutation of its input in order `o`. SQLite leaves
      the order among equal keys undefined; this one keeps table order among them. */
  function OrderBy(s: seq<Expense>, o: SortOrder): (r: seq<Expense>)
    ensures multiset(r) == multiset(s)
    ensures Sorted(o, r)
  {
    if s == [] then []
    else
      assert s == [s[0]] + s[1..];
      Insert(s[0], OrderBy(s[1..], o), o)
  }

  /** Ordering keeps the number of rows. */
  lemma OrderByLength(s: seq<Expense>, o: SortOrder)
    ensures |OrderBy(s, o)| == |s|
  {
    assert |multiset(OrderBy(s, o))| == |multiset(s)|;
  }

  /** The four orders in the source's own words. */
  lemma OrderByMeaning(s: seq<Expense>, sort: Option<string>, i: int, j: int)
    requires 0 <= i < j < |OrderBy(s, SortOrderOf(sort))|
    ensures var r := OrderBy(s, SortOrderOf(sort));
      && (sort == Some("amount_asc") ==> r[i].amount <= r[j].amount)
      && (sort == Some("amount_desc") ==> r[i].amount >= r[j].amount)
      && (sort == Some("date_asc") ==> r[i].createdAt <= r[j].createdAt)
      && (sort !in {Some("amount_asc"), Some("amount_desc"), Some("date_asc")} ==> r[i].createdAt >= r[j].createdAt)
  {
  }

  function Min(a: int, b: int): int { if a <= b then a else b }

  /** The OFFSET of page `page`: the rows on the pages before it. */
  function Offset(page: int, perPage: int): nat
    requires page >= 1 && perPage >= 0
  {
    (page - 1) * perPage
  }

  /** OFFSET (page - 1) * perPage LIMIT perPage. */
  function Page<T>(s: seq<T>, page: int, perPage: int): (r: seq<T>)
    requires page >= 1 && perPage >= 0
    ensures |r| <= perPage
    ensures Offset(page, perPage) >= |s| ==> r == []
    ensures Offset(page, perPage) < |s| ==> |r| == Min(perPage, |s| - Offset(page, perPage))
    ensures forall i :: 0 <= i < |r| ==> r[i] == s[Offset(page, perPage) + i]
  {
    var offset := Offset(page, perPage);
    if offset >= |s| then [] else s[offset .. offset + Min(perPage, |s| - offset)]
  }

  /** List's paging defaults: the first page, 100 rows a page. */
  const DefaultPage := 1
  const DefaultPerPage := 100

  /** A paging argument as `int(request.args.get(name, default))` reads it: the value
      given, or the default when the argument is absent. */
  function PagingArg(arg: Option<int>, default: int): int {
    if arg.Some? then arg.value else default
  }

  /** A given paging argument is used as it is; without paging arguments, List returns
      the first 100 rows of its ordered result. */
  lemma DefaultPaging<T>(s: seq<T>)
    ensures forall n: int :: PagingArg(Some(n), DefaultPage) == n && PagingArg(Some(n), DefaultPerPage) == n
    ensures PagingArg(None, DefaultPage) == 1 && PagingArg(None, DefaultPerPage) == 100
    ensures Page(s, PagingArg(None, DefaultPage), PagingArg(None, DefaultPerPage)) == s[..Min(100, |s|)]
  {
  }

  /** A page of a sorted sequence is sorted. */
  lemma PageOfSorted(s: seq<Expense>, page: int, perPage: int, o: SortOrder)
    requires page >= 1 && perPage >= 0
    requires Sorted(o, s)
    ensures Sorted(o, Page(s, page, perPage))
  {
    var r := Page(s, page, perPage);
    var offset := Offset(page, perPage);
    forall i, j | 0 <= i < j < |r| ensures InOrder(o, r[i], r[j]) {
      assert r[i] == s[offset + i] && r[j] == s[offset + j];
    }
  }

  /** Every row on a page of List was selected by its WHERE clause. */
  lemma PageAdmitted(rows: seq<Expense>, f: Filter, o: SortOrder, page: int, perPage: int)
    requires page >= 1 && perPage >= 0
    ensures forall e :: e in Page(OrderBy(Select(rows, f), o), page, perPage) ==> e in rows && Admits(f, e)
  {
    var ordered := OrderBy(Select(rows, f), o);
    var data := Page(ordered, page, perPage);
    forall e | e in data ensures e in rows && Admits(f, e) {
      var i :| 0 <= i < |data| && data[i] == e;
      assert ordered[Offset(page, perPage) + i] == e;
      assert e in multiset(ordered);
    }
  }

  /** The response of List: the count before paging, the echoed paging, the page itself. */
  datatype ListResult = ListResult(total: nat, page: int, perPage: int, data: seq<Expense>)
}
