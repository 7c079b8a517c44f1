/**
 * The derived figures every view computes from a list of transactions:
 * type-filtered totals and the balance, and the per-category expense
 * dictionary built by `reduce` (an insertion-ordered object, here a sequence
 * of entries in first-appearance order), sorted by value, largest first.
 */
module Aggregation {
  import opened Types
  import Seqs

  predicate IsIncome(t: Transaction)
  {
    t.kind == Income
  }

  predicate IsExpense(t: Transaction)
  {
    t.kind == Expense
  }

  function Amount(t: Transaction): real
  {
    t.amount
  }

  /** `txs.filter(t => t.type === 'income')` */
  function Incomes(txs: seq<Transaction>): seq<Transaction>
  {
    Seqs.Filter(txs, IsIncome)
  }

  /** `txs.filter(t => t.type === 'expense')` */
  function Expenses(txs: seq<Transaction>): seq<Transaction>
  {
    Seqs.Filter(txs, IsExpense)
  }

  /** `xs.reduce((acc, t) => acc + t.amount, 0)` */
  function Sum(xs: seq<Transaction>): real
  {
    Seqs.SumBy(xs, Amount)
  }

  function TotalIncome(txs: seq<Transaction>): real
  {
    Sum(Incomes(txs))
  }

  function TotalExpense(txs: seq<Transaction>): real
  {
    Sum(Expenses(txs))
  }

  function Balance(txs: seq<Transaction>): real
  {
    TotalIncome(txs) - TotalExpense(txs)
  }

  /** The three figures shown together: income, expense and their difference. */
  datatype Totals = Totals(income: real, expense: real, balance: real)

  /** The totals block shared by the panels: type-filtered sums, balance their difference. */
  function ComputeTotals(txs: seq<Transaction>): (r: Totals)
    ensures r.balance == r.income - r.expense
    ensures r.balance == Net(txs)
    ensures r.income + r.expense == Gross(txs)
  {
    BalanceIsNet(txs);
    Totals(TotalIncome(txs), TotalExpense(txs), Balance(txs))
  }

  /** Reference definition of the balance: one pass, incomes added, expenses subtracted. */
  function SignedAmount(t: Transaction): real
  {
    if t.kind == Income then t.amount else -t.amount
  }

  function Net(txs: seq<Transaction>): real
  {
    Seqs.SumBy(txs, SignedAmount)
  }

  /** Every amount, whatever its type. */
  function Gross(txs: seq<Transaction>): real
  {
    Sum(txs)
  }

  /** The balance equals the one-pass signed sum, and income plus expense is the sum of all amounts. */
  lemma {:induction false} BalanceIsNet(txs: seq<Transaction>)
    ensures Balance(txs) == Net(txs)
    ensures TotalIncome(txs) + TotalExpense(txs) == Gross(txs)
  {
    if txs != [] {
      var init, t := txs[..|txs| - 1], txs[|txs| - 1];
      BalanceIsNet(init);
      var a := if IsIncome(t) then [t] else [];
      var b := if IsExpense(t) then [t] else [];
      assert Incomes(txs) == Incomes(init) + a;
      assert Expenses(txs) == Expenses(init) + b;
      Seqs.SumByConcat(Incomes(init), a, Amount);
      Seqs.SumByConcat(Expenses(init), b, Amount);
      assert a != [] ==> a[..0] == [];
      assert b != [] ==> b[..0] == [];
    }
  }

  /** Totals over a concatenation are the sums of the parts' totals. */
  lemma {:induction false} TotalsOfConcat(a: seq<Transaction>, b: seq<Transaction>)
    ensures TotalIncome(a + b) == TotalIncome(a) + TotalIncome(b)
    ensures TotalExpense(a + b) == TotalExpense(a) + TotalExpense(b)
  {
    Seqs.FilterConcat(a, b, IsIncome);
    Seqs.FilterConcat(a, b, IsExpense);
    Seqs.SumByConcat(Incomes(a), Incomes(b), Amount);
    Seqs.SumByConcat(Expenses(a), Expenses(b), Amount);
  }

  /** The summed amount of the transactions of category `c` in `xs`. */
  function CategoryTotal(xs: seq<Transaction>, c: string): real
  {
    if xs == [] then 0.0
    else CategoryTotal(xs[..|xs| - 1], c) + (if xs[|xs| - 1].category == c then xs[|xs| - 1].amount else 0.0)
  }

  lemma {:induction false} CategoryTotalConcat(a: seq<Transaction>, b: seq<Transaction>, c: string)
    ensures CategoryTotal(a + b, c) == CategoryTotal(a, c) + CategoryTotal(b, c)
    decreases |b|
  {
    if b == [] {
      assert a + b == a;
    } else {
      var ab := a + b;
      assert ab[..|ab| - 1] == a + b[..|b| - 1];
      CategoryTotalConcat(a, b[..|b| - 1], c);
    }
  }

  /** The categories that occur in `xs`. */
  function Categories(xs: seq<Transaction>): set<string>
  {
    set i | 0 <= i < |xs| :: xs[i].category
  }

  lemma {:induction false} CategoryTotalAbsent(xs: seq<Transaction>, c: string)
    requires c !in Categories(xs)
    ensures CategoryTotal(xs, c) == 0.0
  {
    if xs != [] {
      var init := xs[..|xs| - 1];
      assert Categories(init) <= Categories(xs) by {
        forall x | x in Categories(init) ensures x in Categories(xs) {
          var i :| 0 <= i < |init| && init[i].category == x;
          assert xs[i] == init[i];
        }
      }
      CategoryTotalAbsent(init, c);
    }
  }

  /** One key of the category dictionary and its summed amount. */
  datatype CategoryEntry = CategoryEntry(name: string, value: real)

  function Value(e: CategoryEntry): real
  {
    e.value
  }

  function EntryName(e: CategoryEntry): string
  {
    e.name
  }

  function Names(entries: seq<CategoryEntry>): set<string>
  {
    set i | 0 <= i < |entries| :: entries[i].name
  }

  ghost predicate DistinctNames(entries: seq<CategoryEntry>)
  {
    forall i, j :: 0 <= i < j < |entries| ==> entries[i].name != entries[j].name
  }

  function SumValues(entries: seq<CategoryEntry>): real
  {
    Seqs.SumBy(entries, Value)
  }

  /** The position of key `c`, or -1 when the dictionary does not hold it. */
  function FindName(entries: seq<CategoryEntry>, c: string): (i: int)
    ensures -1 <= i < |entries|
    ensures i >= 0 ==> entries[i].name == c
    ensures i == -1 ==> forall k :: 0 <= k < |entries| ==> entries[k].name != c
  {
    if entries == [] then -1
    else if entries[|entries| - 1].name == c then |entries| - 1
    else FindName(entries[..|entries| - 1], c)
  }

  /**
   * `acc[c] = (acc[c] || 0) + amount`: an existing key keeps its place and
   * grows by `amount`; a new key is added at the end.
   */
  function AddTo(entries: seq<CategoryEntry>, c: string, amount: real): seq<CategoryEntry>
  {
    var i := FindName(entries, c);
    if i < 0 then entries + [CategoryEntry(c, amount)]
    else entries[i := CategoryEntry(c, entries[i].value + amount)]
  }

  /** The `reduce` that builds the category dictionary over `xs`, front to back. */
  function Accumulate(xs: seq<Transaction>): seq<CategoryEntry>
  {
    if xs == [] then [] else AddTo(Accumulate(xs[..|xs| - 1]), xs[|xs| - 1].category, xs[|xs| - 1].amount)
  }

  /**
   * `entries` is the category dictionary of `xs`: one key per category of
   * `xs`, each key's value that category's summed amount, the values adding
   * up to the sum of `xs`.
   */
  ghost predicate IsDictionaryOf(entries: seq<CategoryEntry>, xs: seq<Transaction>)
  {
    && DistinctNames(entries)
    && Names(entries) == Categories(xs)
    && (forall i :: 0 <= i < |entries| ==> entries[i].value == CategoryTotal(xs, entries[i].name))
    && SumValues(entries) == Sum(xs)
  }

  lemma {:induction false} AppendOne(init: seq<Transaction>, t: Transaction)
    ensures Categories(init + [t]) == Categories(init) + {t.category}
    ensures Sum(init + [t]) == Sum(init) + t.amount
    ensures forall c :: CategoryTotal(init + [t], c) == CategoryTotal(init, c) + (if t.category == c then t.amount else 0.0)
  {
    var xs := init + [t];
    assert xs[..|xs| - 1] == init;
    forall x | x in Categories(xs) ensures x in Categories(init) + {t.category} {
      var k :| 0 <= k < |xs| && xs[k].category == x;
      if k < |init| { assert init[k] == xs[k]; }
    }
    forall x | x in Categories(init) ensures x in Categories(xs) {
      var k :| 0 <= k < |init| && init[k].category == x;
      assert xs[k] == init[k];
    }
    assert xs[|init|] == t;
  }

  lemma {:induction false} AddToNewKey(prev: seq<CategoryEntry>, init: seq<Transaction>, t: Transaction)
    requires IsDictionaryOf(prev, init)
    requires FindName(prev, t.category) == -1
    ensures IsDictionaryOf(AddTo(prev, t.category, t.amount), init + [t])
  {
    var c := t.category;
    var e := CategoryEntry(c, t.amount);
    var r := AddTo(prev, c, t.amount);
    assert r == prev + [e];
    AppendOne(init, t);
    assert c !in Categories(init);
    CategoryTotalAbsent(init, c);
    AppendEntry(prev, e);
    forall i | 0 <= i < |r| ensures r[i].value == CategoryTotal(init + [t], r[i].name) {
      if i < |prev| { assert r[i] == prev[i]; }
    }
    Seqs.SumByConcat(prev, [e], Value);
    assert [e][..0] == [];
  }

  /** Appending an entry with a new key keeps the keys distinct and adds that key. */
  lemma AppendEntry(prev: seq<CategoryEntry>, e: CategoryEntry)
    requires DistinctNames(prev) && e.name !in Names(prev)
    ensures DistinctNames(prev + [e])
    ensures Names(prev + [e]) == Names(prev) + {e.name}
  {
    var r := prev + [e];
    forall x | x in Names(r) ensures x in Names(prev) + {e.name} {
      var k :| 0 <= k < |r| && r[k].name == x;
      if k < |prev| { assert r[k] == prev[k]; }
    }
    forall x | x in Names(prev) + {e.name} ensures x in Names(r) {
      if x == e.name {
        assert r[|prev|].name == x;
      } else {
        var k :| 0 <= k < |prev| && prev[k].name == x;
        assert r[k] == prev[k];
      }
    }
    forall i, j | 0 <= i < j < |r| ensures r[i].name != r[j].name {
      if j < |prev| {
        assert r[i] == prev[i] && r[j] == prev[j];
      } else {
        assert r[i].name in Names(prev) by { assert r[i] == prev[i]; }
      }
    }
  }

  lemma {:induction false} AddToExistingKey(prev: seq<CategoryEntry>, init: seq<Transaction>, t: Transaction)
    requires IsDictionaryOf(prev, init)
    requires FindName(prev, t.category) >= 0
    ensures IsDictionaryOf(AddTo(prev, t.category, t.amount), init + [t])
  {
    var c := t.category;
    var i := FindName(prev, c);
    var e := CategoryEntry(c, prev[i].value + t.amount);
    var r := AddTo(prev, c, t.amount);
    assert r == prev[i := e];
    AppendOne(init, t);
    assert c in Names(prev);
    forall x | x in Names(r) ensures x in Names(prev) {
      var k :| 0 <= k < |r| && r[k].name == x;
      assert prev[k].name == x;
    }
    forall x | x in Names(prev) ensures x in Names(r) {
      var k :| 0 <= k < |prev| && prev[k].name == x;
      assert r[k].name == x;
    }
    Seqs.SumByUpdate(prev, i, e, Value);
  }

  /** The `reduce` builds the category dictionary of its input. */
  lemma {:induction false} AccumulateSpec(xs: seq<Transaction>)
    ensures IsDictionaryOf(Accumulate(xs), xs)
  {
    if xs != [] {
      var init, t := xs[..|xs| - 1], xs[|xs| - 1];
      AccumulateSpec(init);
      AddToPreserves(Accumulate(init), init, t);
      assert init + [t] == xs;
    } else {
      assert Categories(xs) == {};
    }
  }

  /** One step of the `reduce` keeps the dictionary in step with the transactions seen so far. */
  lemma AddToPreserves(prev: seq<CategoryEntry>, init: seq<Transaction>, t: Transaction)
    requires IsDictionaryOf(prev, init)
    ensures IsDictionaryOf(AddTo(prev, t.category, t.amount), init + [t])
  {
    if FindName(prev, t.category) == -1 {
      AddToNewKey(prev, init, t);
    } else {
      AddToExistingKey(prev, init, t);
    }
  }

  /** Sorting key of `sort((a, b) => b.value - a.value)`: larger values first. */
  function NegValue(e: CategoryEntry): real
  {
    -e.value
  }

  /** `Object.entries(dict).sort(([, a], [, b]) => b - a)`. */
  function SortByValueDesc(entries: seq<CategoryEntry>): (r: seq<CategoryEntry>)
    ensures |r| == |entries|
  {
    Seqs.SortBy(entries, NegValue)
  }

  ghost predicate NonIncreasing(entries: seq<CategoryEntry>)
  {
    forall i, j :: 0 <= i < j < |entries| ==> entries[i].value >= entries[j].value
  }

  /** The sorted category list: same entries, values non-increasing, names distinct, same sum. */
  lemma SortByValueDescSpec(entries: seq<CategoryEntry>)
    requires DistinctNames(entries)
    ensures NonIncreasing(SortByValueDesc(entries))
    ensures multiset(SortByValueDesc(entries)) == multiset(entries)
    ensures DistinctNames(SortByValueDesc(entries))
    ensures Names(SortByValueDesc(entries)) == Names(entries)
    ensures SumValues(SortByValueDesc(entries)) == SumValues(entries)
  {
    var r := SortByValueDesc(entries);
    Seqs.SortBySpec(entries, NegValue);
    Seqs.SortByDistinct(entries, NegValue, EntryName);
    Seqs.SortBySum(entries, NegValue, Value);
    forall i, j | 0 <= i < j < |r| ensures r[i].value >= r[j].value {
      assert NegValue(r[i]) <= NegValue(r[j]);
    }
    forall i, j | 0 <= i < j < |r| ensures r[i].name != r[j].name {
      assert EntryName(r[i]) != EntryName(r[j]);
    }
    forall x | x in Names(r) ensures x in Names(entries) {
      var k :| 0 <= k < |r| && r[k].name == x;
      assert r[k] in multiset(entries);
      var m :| 0 <= m < |entries| && entries[m] == r[k];
    }
    forall x | x in Names(entries) ensures x in Names(r) {
      var k :| 0 <= k < |entries| && entries[k].name == x;
      assert entries[k] in multiset(r);
      var m :| 0 <= m < |r| && r[m] == entries[k];
    }
  }

  /** The category dictionary of the expenses, sorted largest first. */
  function SortedCategories(txs: seq<Transaction>): seq<CategoryEntry>
  {
    SortByValueDesc(Accumulate(Expenses(txs)))
  }

  /**
   * The sorted expense categories: one entry per category that has an
   * expense, each with that category's summed expense, values non-increasing,
   * adding up to the expense total.
   */
  lemma SortedCategoriesSpec(txs: seq<Transaction>)
    ensures DistinctNames(SortedCategories(txs))
    ensures Names(SortedCategories(txs)) == Categories(Expenses(txs))
    ensures forall i :: 0 <= i < |SortedCategories(txs)| ==>
              SortedCategories(txs)[i].value == CategoryTotal(Expenses(txs), SortedCategories(txs)[i].name)
    ensures NonIncreasing(SortedCategories(txs))
    ensures SumValues(SortedCategories(txs)) == TotalExpense(txs)
    ensures SortedCategories(txs) == [] <==> Expenses(txs) == []
  {
    var acc := Accumulate(Expenses(txs));
    var r := SortedCategories(txs);
    AccumulateSpec(Expenses(txs));
    SortByValueDescSpec(acc);
    forall i | 0 <= i < |r| ensures r[i].value == CategoryTotal(Expenses(txs), r[i].name) {
      assert r[i] in multiset(acc);
      var m :| 0 <= m < |acc| && acc[m] == r[i];
    }
    if Expenses(txs) != [] {
      assert Expenses(txs)[0].category in Categories(Expenses(txs));
    }
    if r != [] {
      assert r[0].name in Names(r);
    }
  }

  /**
   * Stable tie-break: the head of the sorted list is the earliest dictionary
   * entry with the largest value.
   */
  lemma SortedHeadIsFirstMaximum(entries: seq<CategoryEntry>)
    requires entries != []
    ensures forall i :: 0 <= i < |entries| ==> SortByValueDesc(entries)[0].value >= entries[i].value
    ensures exists k :: 0 <= k < |entries| && SortByValueDesc(entries)[0] == entries[k]
              && forall i :: 0 <= i < k ==> entries[i].value < entries[k].value
  {
    var k := Seqs.FirstMinIndex(entries, NegValue);
    Seqs.SortByHead(entries, NegValue);
    forall i | 0 <= i < |entries| ensures entries[k].value >= entries[i].value {
      assert NegValue(entries[k]) <= NegValue(entries[i]);
    }
    forall i | 0 <= i < k ensures entries[i].value < entries[k].value {
      assert NegValue(entries[i]) > NegValue(entries[k]);
    }
  }
}
