/** The aggregates of Summary: the grand total and the per-category GROUP BY. */
module Totals {
  import opened Expenses
  import opened Queries

  /** The sum of the amounts of `s`. */
  function Sum(s: seq<Expense>): int {
    if s == [] then 0 else s[0].amount + Sum(s[1..])
  }

  lemma {:induction false} SumConcat(a: seq<Expense>, b: seq<Expense>)
    ensures Sum(a + b) == Sum(a) + Sum(b)
  {
    if a == [] {
      assert a + b == b;
    } else {
      assert (a + b)[1..] == a[1..] + b;
      SumConcat(a[1..], b);
    }
  }

  lemma {:induction false} SumInsert(x: Expense, s: seq<Expense>, o: SortOrder)
    ensures Sum(Insert(x, s, o)) == x.amount + Sum(s)
  {
    if s == [] || InOrder(o, x, s[0]) {
      assert ([x] + s)[1..] == s;
    } else {
      SumInsert(x, s[1..], o);
      assert ([s[0]] + Insert(x, s[1..], o))[1..] == Insert(x, s[1..], o);
    }
  }

  /** Ordering does not change a sum. */
  lemma {:induction false} SumOrderBy(s: seq<Expense>, o: SortOrder)
    ensures Sum(OrderBy(s, o)) == Sum(s)
  {
    if s != [] {
      SumOrderBy(s[1..], o);
      SumInsert(s[0], OrderBy(s[1..], o), o);
    }
  }

  /** The sum depends only on which rows there are, not on their order. */
  lemma {:induction false} SumPermutation(a: seq<Expense>, b: seq<Expense>)
    requires multiset(a) == multiset(b)
    ensures Sum(a) == Sum(b)
    decreases |a|
  {
    if a == [] {
      assert |multiset(b)| == |b|;
    } else {
      assert a == [a[0]] + a[1..];
      assert a[0] in multiset(b);
      var k :| 0 <= k < |b| && b[k] == a[0];
      var rest := b[..k] + b[k + 1..];
      assert b == b[..k] + [b[k]] + b[k + 1..];
      assert multiset(a) == multiset{a[0]} + multiset(a[1..]);
      assert multiset(b) == multiset(b[..k]) + multiset{b[k]} + multiset(b[k + 1..]);
      assert multiset(rest) == multiset(b[..k]) + multiset(b[k + 1..]);
      assert multiset(a[1..]) == multiset(a) - multiset{a[0]};
      assert multiset(rest) == multiset(b) - multiset{b[k]};
      SumPermutation(a[1..], rest);
      SumConcat(b[..k], b[k + 1..]);
      SumConcat(b[..k] + [b[k]], b[k + 1..]);
      SumConcat(b[..k], [b[k]]);
      assert Sum([b[k]]) == b[k].amount by { assert [b[k]][1..] == []; }
    }
  }

  /** A one-row table selects its row exactly when the filter admits it. */
  lemma SelectSingle(e: Expense, f: Filter)
    ensures Select([e], f) == if Admits(f, e) then [e] else []
    ensures Sum(Select([e], f)) == if Admits(f, e) then e.amount else 0
  {
  }

  /** SQL's SUM: NULL over no rows, otherwise the sum. */
  function SqlSum(s: seq<Expense>): (r: Option<int>)
    ensures r.None? <==> s == []
  {
    if s == [] then None else Some(Sum(s))
  }

  /** Python's `x or 0.0` on the result of SUM. */
  function OrZero(x: Option<int>): int {
    if x.Some? && x.value != 0 then x.value else 0
  }

  lemma OrZeroMeaning(x: Option<int>)
    ensures OrZero(x) == if x.Some? then x.value else 0
  {
  }

  lemma GrandTotal(s: seq<Expense>)
    ensures OrZero(SqlSum(s)) == Sum(s)
    ensures s == [] ==> OrZero(SqlSum(s)) == 0
  {
  }

  /** The sum of the amounts of the rows of `s` in category `c`. */
  function CategorySum(s: seq<Expense>, c: string): int {
    Sum(Select(s, InCategory(c)))
  }

  predicate Occurs(s: seq<Expense>, c: string) {
    exists e :: e in s && e.category == c
  }

  /** One row of the GROUP BY result. */
  datatype CategoryTotal = CategoryTotal(category: string, amount: int)

  predicate HasCategory(g: seq<CategoryTotal>, c: string) {
    exists i :: 0 <= i < |g| && g[i].category == c
  }

  ghost predicate DistinctCategories(g: seq<CategoryTotal>) {
    forall i, j :: 0 <= i < j < |g| ==> g[i].category != g[j].category
  }

  function SumGroups(g: seq<CategoryTotal>): int {
    if g == [] then 0 else g[0].amount + SumGroups(g[1..])
  }

  /** The amount `g` gives category `c`, summed over its entries for `c`. */
  function AmountOf(g: seq<CategoryTotal>, c: string): int {
    if g == [] then 0 else (if g[0].category == c then g[0].amount else 0) + AmountOf(g[1..], c)
  }

  /** Adds one row to a running GROUP BY: to its category's entry, or as a new entry. */
  function Accumulate(g: seq<CategoryTotal>, e: Expense): (r: seq<CategoryTotal>)
    ensures SumGroups(r) == SumGroups(g) + e.amount
    ensures forall c :: HasCategory(r, c) <==> HasCategory(g, c) || c == e.category
    ensures forall c :: AmountOf(r, c) == AmountOf(g, c) + (if c == e.category then e.amount else 0)
    ensures DistinctCategories(g) ==> DistinctCategories(r)
  {
    if g == [] then
      [CategoryTotal(e.category, e.amount)]
    else if g[0].category == e.category then
      var r := [g[0].(amount := g[0].amount + e.amount)] + g[1..];
      assert r[1..] == g[1..];
      assert forall c :: HasCategory(r, c) <==> HasCategory(g, c) by {
        forall c ensures HasCategory(r, c) <==> HasCategory(g, c) {
          if HasCategory(g, c) {
            var i :| 0 <= i < |g| && g[i].category == c;
            assert r[i].category == c;
          }
        }
      }
      r
    else
      var t := Accumulate(g[1..], e);
      var r := [g[0]] + t;
      assert r[1..] == t;
      assert g == [g[0]] + g[1..];
      assert forall c :: HasCategory(r, c) <==> HasCategory(g, c) || c == e.category by {
        forall c ensures HasCategory(r, c) <==> HasCategory(g, c) || c == e.category {
          if HasCategory(r, c) {
            var i :| 0 <= i < |r| && r[i].category == c;
            if i > 0 { assert t[i - 1].category == c; assert HasCategory(t, c); }
          }
          if HasCategory(g, c) {
            var i :| 0 <= i < |g| && g[i].category == c;
            if i > 0 { assert g[1..][i - 1].category == c; assert HasCategory(t, c); }
          }
          if c == e.category {
            assert HasCategory(t, c);
            var i :| 0 <= i < |t| && t[i].category == c;
            assert r[i + 1].category == c;
          }
        }
      }
      assert DistinctCategories(g) ==> DistinctCategories(r) by {
        if DistinctCategories(g) {
          assert DistinctCategories(g[1..]);
          assert !HasCategory(g[1..], g[0].category);
          forall j | 0 < j < |r| ensures r[0].category != r[j].category {
            assert HasCategory(t, r[j].category);
          }
        }
      }
      r
  }

  /** In a GROUP BY without repeated categories, an entry holds its category's whole amount. */
  lemma {:induction false} AmountOfEntry(g: seq<CategoryTotal>, i: int)
    requires DistinctCategories(g) && 0 <= i < |g|
    ensures AmountOf(g, g[i].category) == g[i].amount
  {
    if i == 0 {
      AmountOfAbsent(g[1..], g[0].category);
    } else {
      assert g[1..][i - 1] == g[i];
      AmountOfEntry(g[1..], i - 1);
    }
  }

  lemma {:induction false} AmountOfAbsent(g: seq<CategoryTotal>, c: string)
    requires forall i :: 0 <= i < |g| ==> g[i].category != c
    ensures AmountOf(g, c) == 0
  {
    if g != [] {
      AmountOfAbsent(g[1..], c);
    }
  }

  lemma CategorySumCons(s: seq<Expense>, c: string)
    requires s != []
    ensures CategorySum(s, c) == (if s[0].category == c then s[0].amount else 0) + CategorySum(s[1..], c)
  {
    var head := if s[0].category == c then [s[0]] else [];
    assert Select(s, InCategory(c)) == head + Select(s[1..], InCategory(c));
    SumConcat(head, Select(s[1..], InCategory(c)));
  }

  lemma OccursCons(s: seq<Expense>, c: string)
    requires s != []
    ensures Occurs(s, c) <==> Occurs(s[1..], c) || c == s[0].category
  {
  }

  /** GROUP BY category with SUM(amount): one entry per category present in `s`,
      holding that category's sum, the entries together summing to the whole. */
  function GroupByCategory(s: seq<Expense>): (g: seq<CategoryTotal>)
    ensures DistinctCategories(g)
    ensures forall c :: HasCategory(g, c) <==> Occurs(s, c)
    ensures forall c :: AmountOf(g, c) == CategorySum(s, c)
    ensures SumGroups(g) == Sum(s)
  {
    if s == [] then []
    else
      var rest := GroupByCategory(s[1..]);
      var g := Accumulate(rest, s[0]);
      assert forall c :: HasCategory(g, c) <==> Occurs(s, c) by {
        forall c ensures HasCategory(g, c) <==> Occurs(s, c) { OccursCons(s, c); }
      }
      assert forall c :: AmountOf(g, c) == CategorySum(s, c) by {
        forall c ensures AmountOf(g, c) == CategorySum(s, c) { CategorySumCons(s, c); }
      }
      g
  }

  /** Each entry of the GROUP BY holds exactly its category's sum. */
  lemma GroupEntries(s: seq<Expense>)
    ensures var g := GroupByCategory(s);
      forall i :: 0 <= i < |g| ==> g[i].amount == CategorySum(s, g[i].category)
  {
    var g := GroupByCategory(s);
    forall i | 0 <= i < |g| ensures g[i].amount == CategorySum(s, g[i].category) {
      AmountOfEntry(g, i);
    }
  }

  /** The body of a Summary response. */
  datatype SummaryResult = SummaryResult(total: int, byCategory: seq<CategoryTotal>)
}
