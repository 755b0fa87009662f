/** The values src/pages/Dashboard.jsx derives from the expense list and the
    budget limit on every render: total spent, remaining, percentage used, the
    per-category totals and the category-filtered list. Amounts are integers. */
module Aggregates {
  import opened Wrappers
  import opened Seqs
  import ProgressRing

  /** One expense record as the server returns it. */
  datatype Expense = Expense(
    id: string,
    title: string,
    amount: int,
    category: string,
    date: string,
    notes: Option<string>,
    receiptURL: Option<string>,
    isRecurring: bool,
    recurringFrequency: Option<string>)

  /** The amount spent: the sum of every expense's amount, added from the first
      expense to the last starting from zero. */
  function TotalSpent(es: seq<Expense>): int
  {
    if es == [] then 0 else TotalSpent(es[..|es| - 1]) + es[|es| - 1].amount
  }

  /** The total of a concatenation is the sum of the totals. */
  lemma {:induction false} TotalSpentAppend(a: seq<Expense>, b: seq<Expense>)
    ensures TotalSpent(a + b) == TotalSpent(a) + TotalSpent(b)
    decreases |b|
  {
    if b == [] {
      assert a + b == a;
    } else {
      var ab := a + b;
      assert ab[..|ab| - 1] == a + b[..|b| - 1];
      TotalSpentAppend(a, b[..|b| - 1]);
    }
  }

  /** Summing from the front gives the same total as the left fold. */
  lemma TotalSpentCons(e: Expense, es: seq<Expense>)
    ensures TotalSpent([e] + es) == e.amount + TotalSpent(es)
  {
    TotalSpentAppend([e], es);
    assert [e][..0] == [];
  }

  /** Whether expense `e` belongs to category `c` (`e.category === c`). */
  function InCategory(c: string): Expense -> bool
  {
    (e: Expense) => e.category == c
  }

  /** The amount spent in category `c`. */
  function CategorySum(es: seq<Expense>, c: string): int
  {
    TotalSpent(Keep(es, InCategory(c)))
  }

  /** The categories of the expenses, in list order. */
  function Categories(es: seq<Expense>): (cs: seq<string>)
    ensures |cs| == |es|
    ensures forall i :: 0 <= i < |es| ==> cs[i] == es[i].category
  {
    if es == [] then [] else Categories(es[..|es| - 1]) + [es[|es| - 1].category]
  }

  /** The index of the first `c` in `cs`, or `|cs|` when there is none. */
  function FirstIndex(cs: seq<string>, c: string): (i: nat)
    ensures i <= |cs|
    ensures i < |cs| <==> c in cs
    ensures i < |cs| ==> cs[i] == c
  {
    if cs == [] then 0 else if cs[0] == c then 0 else 1 + FirstIndex(cs[1..], c)
  }

  lemma {:induction false} FirstIndexSnoc(cs: seq<string>, x: string, c: string)
    requires c in cs
    ensures FirstIndex(cs + [x], c) == FirstIndex(cs, c)
  {
    if cs[0] != c {
      assert (cs + [x])[1..] == cs[1..] + [x];
      FirstIndexSnoc(cs[1..], x, c);
    }
  }

  /** The per-category totals object, as (key, total) pairs in key order. */
  type Totals = seq<(string, int)>

  /** The keys of a totals object, in order. */
  function KeysOf(t: Totals): (ks: seq<string>)
    ensures |ks| == |t|
    ensures forall i :: 0 <= i < |t| ==> ks[i] == t[i].0
  {
    if t == [] then [] else [t[0].0] + KeysOf(t[1..])
  }

  /** `acc[c]`: the total recorded under key `c`, if any. */
  function Lookup(t: Totals, c: string): Option<int>
  {
    if t == [] then None else if t[0].0 == c then Some(t[0].1) else Lookup(t[1..], c)
  }

  /** The sum of all totals. */
  function SumValues(t: Totals): int
  {
    if t == [] then 0 else t[0].1 + SumValues(t[1..])
  }

  predicate Distinct(ks: seq<string>)
  {
    forall i, j :: 0 <= i < j < |ks| ==> ks[i] != ks[j]
  }

  /** `acc[c] = (acc[c] || 0) + a`: update the key in place, or append it. */
  function AddTo(t: Totals, c: string, a: int): Totals
  {
    if t == [] then [(c, a)]
    else if t[0].0 == c then [(c, t[0].1 + a)] + t[1..]
    else [t[0]] + AddTo(t[1..], c, a)
  }

  lemma {:induction false} LookupIsMember(t: Totals, c: string)
    ensures Lookup(t, c).Some? <==> c in KeysOf(t)
  {
    if t != [] {
      LookupIsMember(t[1..], c);
    }
  }

  /** Adding to a key changes the keys only by appending a new key, changes
      only that key's total, and adds `a` to the sum of the totals. */
  lemma {:induction false} AddToFacts(t: Totals, c: string, a: int)
    requires Distinct(KeysOf(t))
    ensures KeysOf(AddTo(t, c, a)) == if c in KeysOf(t) then KeysOf(t) else KeysOf(t) + [c]
    ensures Distinct(KeysOf(AddTo(t, c, a)))
    ensures forall k :: (Lookup(AddTo(t, c, a), k) ==
      if k == c then Some(match Lookup(t, k) case Some(v) => v + a case None => a) else Lookup(t, k))
    ensures SumValues(AddTo(t, c, a)) == SumValues(t) + a
  {
    if t != [] {
      var ks := KeysOf(t);
      assert ks == [t[0].0] + KeysOf(t[1..]);
      assert Distinct(KeysOf(t[1..])) by {
        forall i, j | 0 <= i < j < |KeysOf(t[1..])|
          ensures KeysOf(t[1..])[i] != KeysOf(t[1..])[j]
        {
          assert KeysOf(t[1..])[i] == ks[i + 1] && KeysOf(t[1..])[j] == ks[j + 1];
        }
      }
      if t[0].0 == c {
        var r := AddTo(t, c, a);
        assert r[1..] == t[1..];
        assert KeysOf(r) == [c] + KeysOf(t[1..]);
        forall k | k != c
          ensures Lookup(r, k) == Lookup(t, k)
        {
        }
      } else {
        AddToFacts(t[1..], c, a);
        var r := AddTo(t, c, a);
        assert r[1..] == AddTo(t[1..], c, a);
        assert KeysOf(r) == [t[0].0] + KeysOf(AddTo(t[1..], c, a));
        var kr := KeysOf(r);
        if c in ks {
          assert c in KeysOf(t[1..]);
        } else {
          assert c !in KeysOf(t[1..]);
          assert kr == ks + [c];
        }
      }
    }
  }

  /** The per-category totals: walking the expenses in order, each expense adds
      its amount to its category's running total, which starts at zero the first
      time the category is met. */
  function CategoryTotals(es: seq<Expense>): Totals
  {
    if es == [] then [] else AddTo(CategoryTotals(es[..|es| - 1]), es[|es| - 1].category, es[|es| - 1].amount)
  }

  /** The keys of the per-category totals are distinct. */
  lemma {:induction false} CategoryTotalsDistinct(es: seq<Expense>)
    ensures Distinct(KeysOf(CategoryTotals(es)))
    decreases |es|
  {
    if es != [] {
      var init := es[..|es| - 1];
      CategoryTotalsDistinct(init);
      AddToFacts(CategoryTotals(init), es[|es| - 1].category, es[|es| - 1].amount);
    }
  }

  /** Appending an expense adds its amount to its own category's sum only. */
  lemma CategorySumSnoc(init: seq<Expense>, e: Expense, c: string)
    ensures CategorySum(init + [e], c) == CategorySum(init, c) + (if e.category == c then e.amount else 0)
  {
    KeepAppend(init, [e], InCategory(c));
    TotalSpentAppend(Keep(init, InCategory(c)), Keep([e], InCategory(c)));
    assert Keep([e], InCategory(c)) == if e.category == c then [e] else [];
    assert [e][..0] == [];
  }

  /** `categoryTotals[c]` is the amount spent in category `c` when some
      expense has that category, and is absent otherwise. */
  lemma {:induction false} CategoryTotalsLookup(es: seq<Expense>)
    ensures forall c :: (Lookup(CategoryTotals(es), c) ==
      if c in Categories(es) then Some(CategorySum(es, c)) else None)
    decreases |es|
  {
    if es != [] {
      var n := |es|;
      var init, e := es[..n - 1], es[n - 1];
      assert es == init + [e];
      CategoryTotalsLookup(init);
      CategoryTotalsDistinct(init);
      AddToFacts(CategoryTotals(init), e.category, e.amount);
      assert Categories(es) == Categories(init) + [e.category];
      var t := CategoryTotals(init);
      assert CategoryTotals(es) == AddTo(t, e.category, e.amount);
      forall c
        ensures Lookup(CategoryTotals(es), c) == if c in Categories(es) then Some(CategorySum(es, c)) else None
      {
        CategorySumSnoc(init, e, c);
        if c !in Categories(init) {
          KeepNone(init, InCategory(c));
        }
      }
    }
  }

  lemma {:induction false} FirstIndexNew(cs: seq<string>, x: string)
    requires x !in cs
    ensures FirstIndex(cs + [x], x) == |cs|
  {
    if cs != [] {
      assert (cs + [x])[1..] == cs[1..] + [x];
      FirstIndexNew(cs[1..], x);
    }
  }

  /** Appending category `x` keeps the keys exactly the categories seen. */
  lemma MembersSnoc(ks: seq<string>, cs: seq<string>, x: string)
    requires forall k :: k in ks <==> k in cs
    ensures forall k :: k in (if x in ks then ks else ks + [x]) <==> k in cs + [x]
  {
  }

  /** Appending category `x` keeps a first-encounter ordering of the keys. */
  lemma OrderSnoc(ks: seq<string>, cs: seq<string>, x: string)
    requires forall k :: k in ks <==> k in cs
    requires forall i, j :: 0 <= i < j < |ks| ==> FirstIndex(cs, ks[i]) < FirstIndex(cs, ks[j])
    ensures var ks' := if x in ks then ks else ks + [x];
      forall i, j :: 0 <= i < j < |ks'| ==> FirstIndex(cs + [x], ks'[i]) < FirstIndex(cs + [x], ks'[j]) < |cs| + 1
  {
    var ks' := if x in ks then ks else ks + [x];
    forall i, j | 0 <= i < j < |ks'|
      ensures FirstIndex(cs + [x], ks'[i]) < FirstIndex(cs + [x], ks'[j]) < |cs| + 1
    {
      var a, b := ks'[i], ks'[j];
      assert a == ks[i] && a in cs;
      FirstIndexSnoc(cs, x, a);
      if j < |ks| {
        assert b == ks[j] && b in cs;
        FirstIndexSnoc(cs, x, b);
      } else {
        assert b == x && x !in cs;
        FirstIndexNew(cs, x);
      }
    }
  }

  /** The keys of the per-category totals are exactly the categories of the
      list, in the order in which their first expenses occur. */
  lemma {:induction false} CategoryTotalsOrder(es: seq<Expense>)
    ensures var ks := KeysOf(CategoryTotals(es));
      && (forall c :: c in ks <==> c in Categories(es))
      && (forall i, j :: 0 <= i < j < |ks| ==> FirstIndex(Categories(es), ks[i]) < FirstIndex(Categories(es), ks[j]) < |es|)
    decreases |es|
  {
    if es != [] {
      var n := |es|;
      var init, e := es[..n - 1], es[n - 1];
      CategoryTotalsOrder(init);
      CategoryTotalsDistinct(init);
      var t := CategoryTotals(init);
      var kt := KeysOf(t);
      var cs := Categories(init);
      var x := e.category;
      assert CategoryTotals(es) == AddTo(t, x, e.amount);
      assert Categories(es) == cs + [x];
      AddToFacts(t, x, e.amount);
      assert KeysOf(CategoryTotals(es)) == if x in kt then kt else kt + [x];
      MembersSnoc(kt, cs, x);
      OrderSnoc(kt, cs, x);
    }
  }

  /** The per-category totals add up to the total spent. */
  lemma {:induction false} CategoryTotalsSum(es: seq<Expense>)
    ensures SumValues(CategoryTotals(es)) == TotalSpent(es)
    decreases |es|
  {
    if es != [] {
      var init := es[..|es| - 1];
      CategoryTotalsSum(init);
      CategoryTotalsDistinct(init);
      AddToFacts(CategoryTotals(init), es[|es| - 1].category, es[|es| - 1].amount);
    }
  }

  /** `(user?.budgetLimit || 0) - totalSpent`: may be negative. */
  function Remaining(es: seq<Expense>, limit: Option<int>): (r: int)
    ensures r + TotalSpent(es) == (if limit.Some? then limit.value else 0)
  {
    (if limit.Some? then limit.value else 0) - TotalSpent(es)
  }

  /** The "Remaining" card shows `Math.max(0, remaining)`. */
  function DisplayedRemaining(remaining: int): (d: int)
    ensures d >= 0 && d >= remaining
    ensures d == remaining || d == 0
  {
    if remaining > 0 then remaining else 0
  }

  /** The "Remaining" card is rose when over budget, lime otherwise. */
  function RemainingColor(remaining: int): (c: string)
    ensures c == "rose" <==> remaining < 0
    ensures c == "rose" || c == "lime"
  {
    if remaining < 0 then "rose" else "lime"
  }

  /** The card is rose exactly when the clamped display hides a deficit. */
  lemma RoseIffClamped(es: seq<Expense>, limit: Option<int>)
    ensures var rem := Remaining(es, limit);
      RemainingColor(rem) == "rose" <==> DisplayedRemaining(rem) != rem
  {
  }

  /** The share of the budget spent, in percent: the total over the limit times
      a hundred, or 0 when the profile has no limit or a zero one. */
  function PercentageUsed(es: seq<Expense>, limit: Option<int>): real
  {
    if limit.Some? && limit.value != 0 then (TotalSpent(es) as real / limit.value as real) * 100.0 else 0.0
  }

  /** The dashboard's percentage is the ring's, which is fed the same total
      and limit; it is 0 whenever the limit is 0 or missing. */
  lemma {:induction false} PercentageUsedIsRing(es: seq<Expense>, limit: Option<int>)
    ensures PercentageUsed(es, limit) == ProgressRing.Percentage(TotalSpent(es), limit)
    ensures (limit == None || limit == Some(0)) ==> PercentageUsed(es, limit) == 0.0
  {
  }

  /** The status line under "Budget Progress". */
  function StatusText(p: real): string
  {
    if p > 100.0 then "You've exceeded your budget"
    else if p > 80.0 then "Warning: Approaching limit"
    else "On track!"
  }

  /** The status text and the ring's colour always tell the same story. */
  lemma {:induction false} StatusAgreesWithRing(es: seq<Expense>, limit: Option<int>)
    ensures var p := PercentageUsed(es, limit);
      var color := ProgressRing.RingColor(ProgressRing.Percentage(TotalSpent(es), limit));
      && (StatusText(p) == "You've exceeded your budget" <==> color == ProgressRing.Red)
      && (StatusText(p) == "Warning: Approaching limit" <==> color == ProgressRing.Yellow)
      && (StatusText(p) == "On track!" <==> color == ProgressRing.Green)
  {
    PercentageUsedIsRing(es, limit);
  }

  /** The expenses the list shows: all of them under the filter "all", otherwise
      those whose category equals the filter, in their original order. */
  function FilteredExpenses(es: seq<Expense>, filter: string): seq<Expense>
  {
    if filter == "all" then es else Keep(es, InCategory(filter))
  }

  /** The filtered list is the whole list for "all"; otherwise it is the
      order-preserving subsequence of exactly the expenses of that category,
      each as often as it occurs. */
  lemma {:induction false} FilteredSpec(es: seq<Expense>, filter: string)
    ensures filter == "all" ==> FilteredExpenses(es, filter) == es
    ensures filter != "all" ==> IsSubseq(FilteredExpenses(es, filter), es)
    ensures filter != "all" ==> forall e :: e in FilteredExpenses(es, filter) ==> e.category == filter
    ensures filter != "all" ==> forall e :: (multiset(FilteredExpenses(es, filter))[e] ==
      if e.category == filter then multiset(es)[e] else 0)
  {
    if filter != "all" {
      KeepIsSubseq(es, InCategory(filter));
      forall e ensures multiset(FilteredExpenses(es, filter))[e] ==
        if e.category == filter then multiset(es)[e] else 0
      {
        KeepCount(es, InCategory(filter), e);
      }
    }
  }

  /** The filter only chooses rows: the filtered rows' amounts add up to that
      category's total, while the headline total still covers every expense. */
  lemma {:induction false} FilterLeavesTotalsAlone(es: seq<Expense>, filter: string)
    requires filter != "all"
    ensures TotalSpent(FilteredExpenses(es, filter)) == CategorySum(es, filter)
    ensures filter in Categories(es) ==> Lookup(CategoryTotals(es), filter) == Some(TotalSpent(FilteredExpenses(es, filter)))
  {
    CategoryTotalsLookup(es);
  }

  /** The worked example: two expenses against a limit of 25000. */
  lemma {:induction false} WorkedExample(food: Expense, travel: Expense)
    requires food.amount == 8450 && food.category == "Food"
    requires travel.amount == 5100 && travel.category == "Travel"
    ensures TotalSpent([food, travel]) == 13550
    ensures Remaining([food, travel], Some(25000)) == 11450
    ensures PercentageUsed([food, travel], Some(25000)) == 54.2
    ensures CategoryTotals([food, travel]) == [("Food", 8450), ("Travel", 5100)]
  {
    var es := [food, travel];
    assert es[..1] == [food] && [food][..0] == [];
    assert TotalSpent([food]) == 8450;
    assert TotalSpent(es) == 13550;
    assert CategoryTotals([food]) == AddTo([], "Food", 8450) == [("Food", 8450)];
    assert CategoryTotals(es) == AddTo([("Food", 8450)], "Travel", 5100);
    assert AddTo([("Food", 8450)], "Travel", 5100) == [("Food", 8450)] + AddTo([], "Travel", 5100);
  }
}
