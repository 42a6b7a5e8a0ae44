/** The summary computed from the in-memory list: the total amount, the
    per-category subtotal and the number of entries. Both sums are left
    folds over the list from its first entry, as the original's `reduce`
    calls are; amounts are exact reals, not doubles. */
module Summaries {
  import opened ExpenseTypes
  import opened ListPatches

  /** Sum of the amounts, folded from the front. It splits into the four
      category subtotals, so the summary's total and its breakdown agree. */
  function Total(s: seq<Expense>): (t: real)
    ensures t == CategoryTotal(s, "Food") + CategoryTotal(s, "Travel")
                 + CategoryTotal(s, "Shopping") + CategoryTotal(s, "Other")
  {
    if s == [] then 0.0 else Total(s[..|s| - 1]) + s[|s| - 1].amount
  }

  /** Sum of the amounts of the entries whose category is keyed `name`. */
  function CategoryTotal(s: seq<Expense>, name: string): real {
    if s == [] then 0.0
    else
      var last := s[|s| - 1];
      CategoryTotal(s[..|s| - 1], name) + (if CategoryName(last.category) == name then last.amount else 0.0)
  }

  /** The category keys of the entries present in `s`. */
  function Categories(s: seq<Expense>): set<string> {
    if s == [] then {} else Categories(s[..|s| - 1]) + {CategoryName(s[|s| - 1].category)}
  }

  /** One step of the per-category fold: a missing key counts as zero. */
  function Bump(acc: map<string, real>, e: Expense): map<string, real> {
    var k := CategoryName(e.category);
    acc[k := (if k in acc then acc[k] else 0.0) + e.amount]
  }

  /** The per-category fold: keyed by exactly the categories present, each
      mapped to the sum of that category's amounts. */
  function Tally(s: seq<Expense>): (m: map<string, real>)
    ensures m.Keys == Categories(s)
    ensures forall k :: k in m ==> m[k] == CategoryTotal(s, k)
  {
    if s == [] then map[]
    else
      var prev := Tally(s[..|s| - 1]);
      BumpStep(s, prev);
      Bump(prev, s[|s| - 1])
  }

  /** One fold step keeps the map keyed by the categories present and
      valued by their subtotals. */
  lemma BumpStep(s: seq<Expense>, prev: map<string, real>)
    requires s != []
    requires prev.Keys == Categories(s[..|s| - 1])
    requires forall k :: k in prev ==> prev[k] == CategoryTotal(s[..|s| - 1], k)
    ensures Bump(prev, s[|s| - 1]).Keys == Categories(s)
    ensures forall k :: k in Bump(prev, s[|s| - 1]) ==> Bump(prev, s[|s| - 1])[k] == CategoryTotal(s, k)
  {
    BumpValues(s, prev);
  }

  lemma BumpValues(s: seq<Expense>, prev: map<string, real>)
    requires s != []
    requires prev.Keys == Categories(s[..|s| - 1])
    requires forall k :: k in prev ==> prev[k] == CategoryTotal(s[..|s| - 1], k)
    ensures forall k :: k in Bump(prev, s[|s| - 1]) ==> Bump(prev, s[|s| - 1])[k] == CategoryTotal(s, k)
  {
    var prefix, last := s[..|s| - 1], s[|s| - 1];
    var name := CategoryName(last.category);
    if name !in prev {
      CategoryTotalAbsent(prefix, name);
    }
  }

  /** Every key of the per-category map is one of the four category names. */
  lemma {:induction false} CategoriesWithinClosedSet(s: seq<Expense>)
    ensures Categories(s) <= AllCategoryNames
  {
    if s != [] {
      CategoriesWithinClosedSet(s[..|s| - 1]);
      match s[|s| - 1].category
      case Food =>
      case Travel =>
      case Shopping =>
      case Other =>
    }
  }

  /** A key is among the categories present exactly when some entry of
      the list carries that category. */
  lemma {:induction false} CategoriesPresent(s: seq<Expense>, k: string)
    ensures k in Categories(s) <==> exists i :: 0 <= i < |s| && CategoryName(s[i].category) == k
  {
    if s != [] {
      var prefix := s[..|s| - 1];
      CategoriesPresent(prefix, k);
      if k in Categories(prefix) {
        var i :| 0 <= i < |prefix| && CategoryName(prefix[i].category) == k;
        assert s[i] == prefix[i];
      }
      if exists i :: 0 <= i < |s| && CategoryName(s[i].category) == k {
        var i :| 0 <= i < |s| && CategoryName(s[i].category) == k;
        if i < |s| - 1 {
          assert prefix[i] == s[i];
        }
      }
    }
  }

  /** A category with no entry sums to zero. */
  lemma {:induction false} CategoryTotalAbsent(s: seq<Expense>, name: string)
    requires name !in Categories(s)
    ensures CategoryTotal(s, name) == 0.0
  {
    if s != [] {
      CategoryTotalAbsent(s[..|s| - 1], name);
    }
  }

  /** The summary the hook reports for the list `s`. */
  function Summarize(s: seq<Expense>): (r: Summary)
    ensures r.count == |s|
    ensures r.byCategory.Keys == Categories(s)
    ensures forall k :: k in r.byCategory ==> r.byCategory[k] == CategoryTotal(s, k)
    ensures SumValues(r.byCategory) == r.total
  {
    TallySumsToTotal(s);
    Summary(Total(s), Tally(s), |s|)
  }

  /** Sum of the values of a map, in no particular key order. */
  ghost function SumValues(m: map<string, real>): real {
    SumOver(m, m.Keys)
  }

  /** Sum of the values `m` holds under `keys`. */
  ghost function SumOver(m: map<string, real>, keys: set<string>): real
    requires keys <= m.Keys
  {
    if keys == {} then 0.0
    else
      var k :| k in keys;
      m[k] + SumOver(m, keys - {k})
  }

  lemma SumOverUnfold(m: map<string, real>, keys: set<string>)
    requires keys <= m.Keys && keys != {}
    ensures exists j :: j in keys && SumOver(m, keys) == m[j] + SumOver(m, keys - {j})
  {
  }

  /** Any key may be taken out first: the sum does not depend on which
      key the definition happens to pick. */
  lemma {:induction false} SumOverRemove(m: map<string, real>, keys: set<string>, k: string)
    requires keys <= m.Keys && k in keys
    ensures SumOver(m, keys) == m[k] + SumOver(m, keys - {k})
    decreases keys
  {
    SumOverUnfold(m, keys);
    var j :| j in keys && SumOver(m, keys) == m[j] + SumOver(m, keys - {j});
    if j != k {
      var kj, kk := keys - {j}, keys - {k};
      calc {
        SumOver(m, keys);
        m[j] + SumOver(m, kj);
        { SumOverRemove(m, kj, k); }
        m[j] + (m[k] + SumOver(m, kj - {k}));
        { assert kj - {k} == kk - {j}; }
        m[k] + (m[j] + SumOver(m, kk - {j}));
        { SumOverRemove(m, kk, j); }
        m[k] + SumOver(m, kk);
      }
    }
  }

  /** The sum over `keys` sees only the values under `keys`. */
  lemma {:induction false} SumOverAgree(m: map<string, real>, m': map<string, real>, keys: set<string>)
    requires keys <= m.Keys && keys <= m'.Keys
    requires forall k :: k in keys ==> m[k] == m'[k]
    ensures SumOver(m, keys) == SumOver(m', keys)
    decreases keys
  {
    if keys != {} {
      var k :| k in keys;
      SumOverRemove(m, keys, k);
      SumOverRemove(m', keys, k);
      SumOverAgree(m, m', keys - {k});
    }
  }

  /** Adding an amount to one key (creating the key at zero if missing)
      adds that amount to the sum of the values. */
  lemma BumpAddsAmount(acc: map<string, real>, e: Expense)
    ensures SumValues(Bump(acc, e)) == SumValues(acc) + e.amount
  {
    var k := CategoryName(e.category);
    var b := Bump(acc, e);
    var rest := acc.Keys - {k};
    assert b.Keys - {k} == rest;
    SumOverRemove(b, b.Keys, k);
    SumOverAgree(b, acc, rest);
    if k in acc {
      SumOverRemove(acc, acc.Keys, k);
    } else {
      assert rest == acc.Keys;
    }
  }

  /** The per-category subtotals add up to the total. */
  lemma {:induction false} TallySumsToTotal(s: seq<Expense>)
    ensures SumValues(Tally(s)) == Total(s)
  {
    if s != [] {
      TallySumsToTotal(s[..|s| - 1]);
      BumpAddsAmount(Tally(s[..|s| - 1]), s[|s| - 1]);
    }
  }

  /** Totals of concatenated lists add up. */
  lemma {:induction false} TotalAppend(a: seq<Expense>, b: seq<Expense>)
    ensures Total(a + b) == Total(a) + Total(b)
  {
    if b != [] {
      var b' := b[..|b| - 1];
      TotalAppend(a, b');
      assert (a + b)[..|a + b| - 1] == a + b';
    } else {
      assert a + b == a;
    }
  }

  /** The empty list summarises to a zero total, zero count and no keys. */
  lemma EmptySummary()
    ensures Summarize([]) == Summary(0.0, map[], 0)
  {
  }

  lemma TotalCons(e: Expense, s: seq<Expense>)
    ensures Total([e] + s) == e.amount + Total(s)
  {
    TotalAppend([e], s);
    assert [e][..0] == [];
  }

  /** After an add, the total grows by the created row's amount and the
      count by one. */
  lemma SummaryAfterPrepend(created: Expense, s: seq<Expense>)
    ensures Summarize(Prepend(created, s)).total == created.amount + Summarize(s).total
    ensures Summarize(Prepend(created, s)).count == Summarize(s).count + 1
  {
    TotalCons(created, s);
  }

  /** The total read from the front of the list. */
  lemma TotalFront(s: seq<Expense>)
    requires s != []
    ensures Total(s) == s[0].amount + Total(s[1..])
  {
    assert s == [s[0]] + s[1..];
    TotalCons(s[0], s[1..]);
  }

  /** Deleting an id takes exactly that id's amounts off the total. */
  lemma {:induction false} RemoveTotal(s: seq<Expense>, id: string)
    ensures Total(RemoveById(s, id)) == Total(s) - IdTotal(s, id)
  {
    if s != [] {
      var t := RemoveById(s[1..], id);
      RemoveTotal(s[1..], id);
      TotalFront(s);
      if s[0].id != id {
        assert RemoveById(s, id) == [s[0]] + t;
        TotalCons(s[0], t);
      }
    }
  }

  /** After a delete, the count drops by the number of entries with that
      id, and the total by their amounts. */
  lemma SummaryAfterRemove(s: seq<Expense>, id: string)
    ensures Summarize(RemoveById(s, id)).count == Summarize(s).count - CountId(s, id)
    ensures Summarize(RemoveById(s, id)).total == Summarize(s).total - IdTotal(s, id)
  {
    RemoveTotal(s, id);
  }

  /** Sum of the amounts of the entries whose id is `id`. */
  function IdTotal(s: seq<Expense>, id: string): real {
    if s == [] then 0.0 else (if s[0].id == id then s[0].amount else 0.0) + IdTotal(s[1..], id)
  }

  /** The two-entry example: 50 on food and 30 on travel. */
  lemma TwoEntryExample(a: Expense, b: Expense)
    requires a.amount == 50.0 && a.category == Food
    requires b.amount == 30.0 && b.category == Travel
    ensures Summarize([a, b]) == Summary(80.0, map["Food" := 50.0, "Travel" := 30.0], 2)
  {
    var s := [a, b];
    assert s[..1] == [a] && [a][..0] == [];
    assert Total([a]) == 50.0;
    assert Total(s) == Total([a]) + b.amount;
    var m1 := Tally([a]);
    assert m1 == map["Food" := 50.0];
    CategoryNamesDistinct(Travel, Food);
    assert Tally(s) == m1["Travel" := 30.0];
  }
}
