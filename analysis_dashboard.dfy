/**
 * The expense-analysis view: the expense total, one breakdown entry per
 * expense category carrying its summed value and the overall total, sorted by
 * value largest first; the share percentage guarded against a zero total; and
 * the colour cycle of the chart.
 */
module AnalysisDashboard {
  import opened Types
  import opened Aggregation
  import Seqs

  /** One slice of the chart: the category, its summed value, and the total of all expenses. */
  datatype BreakdownEntry = BreakdownEntry(name: string, value: real, total: real)

  function EntryValue(e: BreakdownEntry): real
  {
    e.value
  }

  function BreakdownName(e: BreakdownEntry): string
  {
    e.name
  }

  function NegEntryValue(e: BreakdownEntry): real
  {
    -e.value
  }

  /** The `map` from a dictionary key to its slice. */
  function ToBreakdown(total: real): CategoryEntry -> BreakdownEntry
  {
    (e: CategoryEntry) => BreakdownEntry(e.name, e.value, total)
  }

  /** The `useMemo` block: keys mapped to slices, then sorted by value, largest first. */
  function CategoryBreakdown(txs: seq<Transaction>): seq<BreakdownEntry>
  {
    var expenses := Expenses(txs);
    var totalExpense := Sum(expenses);
    var byCategory := Accumulate(expenses);
    Seqs.SortBy(Seqs.Map(byCategory, ToBreakdown(totalExpense)), NegEntryValue)
  }

  lemma {:induction false} MapBreakdownSum(entries: seq<CategoryEntry>, total: real)
    ensures Seqs.SumBy(Seqs.Map(entries, ToBreakdown(total)), EntryValue) == SumValues(entries)
  {
    if entries != [] {
      var init := entries[..|entries| - 1];
      MapBreakdownSum(init, total);
      var m := Seqs.Map(entries, ToBreakdown(total));
      assert m[..|m| - 1] == Seqs.Map(init, ToBreakdown(total));
    }
  }

  /** The slices before sorting: the dictionary entries, each with the total attached. */
  lemma {:induction false} MappedSlices(acc: seq<CategoryEntry>, total: real)
    ensures forall k :: 0 <= k < |acc| ==>
              Seqs.Map(acc, ToBreakdown(total))[k] == BreakdownEntry(acc[k].name, acc[k].value, total)
  {
    forall k | 0 <= k < |acc| ensures Seqs.Map(acc, ToBreakdown(total))[k] == BreakdownEntry(acc[k].name, acc[k].value, total) {
      Seqs.MapAt(acc, ToBreakdown(total), k);
    }
  }

  /** Each slice is an expense category with its summed amount and the expense total. */
  lemma BreakdownEntries(txs: seq<Transaction>)
    ensures forall i :: 0 <= i < |CategoryBreakdown(txs)| ==>
              && CategoryBreakdown(txs)[i].name in Categories(Expenses(txs))
              && CategoryBreakdown(txs)[i].value == CategoryTotal(Expenses(txs), CategoryBreakdown(txs)[i].name)
              && CategoryBreakdown(txs)[i].total == TotalExpense(txs)
  {
    var acc := Accumulate(Expenses(txs));
    var mapped := Seqs.Map(acc, ToBreakdown(TotalExpense(txs)));
    var r := CategoryBreakdown(txs);
    AccumulateSpec(Expenses(txs));
    MappedSlices(acc, TotalExpense(txs));
    Seqs.SortBySpec(mapped, NegEntryValue);
    forall i | 0 <= i < |r|
      ensures r[i].name in Categories(Expenses(txs))
      ensures r[i].value == CategoryTotal(Expenses(txs), r[i].name) && r[i].total == TotalExpense(txs)
    {
      assert r[i] in multiset(mapped);
      var m :| 0 <= m < |mapped| && mapped[m] == r[i];
      assert acc[m].name in Names(acc);
    }
  }

  /** Every expense category has a slice. */
  lemma BreakdownCovers(txs: seq<Transaction>)
    ensures forall c :: c in Categories(Expenses(txs)) ==>
              exists i :: 0 <= i < |CategoryBreakdown(txs)| && CategoryBreakdown(txs)[i].name == c
  {
    var acc := Accumulate(Expenses(txs));
    var mapped := Seqs.Map(acc, ToBreakdown(TotalExpense(txs)));
    var r := CategoryBreakdown(txs);
    AccumulateSpec(Expenses(txs));
    MappedSlices(acc, TotalExpense(txs));
    Seqs.SortBySpec(mapped, NegEntryValue);
    forall c | c in Categories(Expenses(txs)) ensures exists i :: 0 <= i < |r| && r[i].name == c {
      assert c in Names(acc);
      var m :| 0 <= m < |acc| && acc[m].name == c;
      assert mapped[m] in multiset(r);
      var i :| 0 <= i < |r| && r[i] == mapped[m];
    }
  }

  /** The slices have distinct names, non-increasing values, and values adding up to the expense total. */
  lemma BreakdownOrder(txs: seq<Transaction>)
    ensures forall i, j :: 0 <= i < j < |CategoryBreakdown(txs)| ==>
              CategoryBreakdown(txs)[i].name != CategoryBreakdown(txs)[j].name
    ensures forall i, j :: 0 <= i < j < |CategoryBreakdown(txs)| ==>
              CategoryBreakdown(txs)[i].value >= CategoryBreakdown(txs)[j].value
    ensures Seqs.SumBy(CategoryBreakdown(txs), EntryValue) == TotalExpense(txs)
  {
    var acc := Accumulate(Expenses(txs));
    var mapped := Seqs.Map(acc, ToBreakdown(TotalExpense(txs)));
    var r := CategoryBreakdown(txs);
    AccumulateSpec(Expenses(txs));
    MappedSlices(acc, TotalExpense(txs));
    Seqs.SortBySpec(mapped, NegEntryValue);
    Seqs.SortByDistinct(mapped, NegEntryValue, BreakdownName);
    Seqs.SortBySum(mapped, NegEntryValue, EntryValue);
    MapBreakdownSum(acc, TotalExpense(txs));
    forall i, j | 0 <= i < j < |r| ensures r[i].name != r[j].name {
      assert BreakdownName(r[i]) != BreakdownName(r[j]);
    }
    forall i, j | 0 <= i < j < |r| ensures r[i].value >= r[j].value {
      assert NegEntryValue(r[i]) <= NegEntryValue(r[j]);
    }
  }

  /** The breakdown is empty, and the view shows its empty state, exactly when there is no expense. */
  lemma BreakdownEmptyIff(txs: seq<Transaction>)
    ensures CategoryBreakdown(txs) == [] <==> Expenses(txs) == []
  {
    BreakdownCovers(txs);
    if Expenses(txs) != [] {
      assert Expenses(txs)[0].category in Categories(Expenses(txs));
    }
  }

  /** The share of a slice in percent; 0 when the total is not positive, so never a division by zero. */
  function SharePercent(value: real, total: real): (r: real)
    ensures total <= 0.0 ==> r == 0.0
    ensures total > 0.0 ==> r * total == value * 100.0
  {
    if total > 0.0 then (value / total) * 100.0 else 0.0
  }

  function ShareOf(total: real): BreakdownEntry -> real
  {
    (e: BreakdownEntry) => SharePercent(e.value, total)
  }

  lemma {:induction false} SharesScale(entries: seq<BreakdownEntry>, total: real)
    requires total > 0.0
    ensures Seqs.SumBy(entries, ShareOf(total)) * total == Seqs.SumBy(entries, EntryValue) * 100.0
  {
    if entries != [] {
      var init, last := entries[..|entries| - 1], entries[|entries| - 1];
      SharesScale(init, total);
      var a, b := Seqs.SumBy(init, ShareOf(total)), SharePercent(last.value, total);
      assert (a + b) * total == a * total + b * total;
    }
  }

  /** A product with a positive factor is zero only when the other factor is. */
  lemma ProductZero(x: real, y: real)
    requires x * y == 0.0 && y > 0.0
    ensures x == 0.0
  {
  }

  /** With some positive expense total the shares of the slices add up to 100%. */
  lemma SharesAddUpTo100(txs: seq<Transaction>)
    requires TotalExpense(txs) > 0.0
    ensures Seqs.SumBy(CategoryBreakdown(txs), ShareOf(TotalExpense(txs))) == 100.0
  {
    var total := TotalExpense(txs);
    BreakdownOrder(txs);
    SharesScale(CategoryBreakdown(txs), total);
    var s := Seqs.SumBy(CategoryBreakdown(txs), ShareOf(total));
    assert (s - 100.0) * total == 0.0;
    ProductZero(s - 100.0, total);
  }

  /** The eight chart colours. */
  const Colors: seq<string> := ["#3B82F6", "#10B981", "#F97316", "#8B5CF6", "#EC4899", "#EF4444", "#F59E0B", "#6366F1"]

  /** `COLORS[index % COLORS.length]`. */
  function ColorAt(index: nat): string
  {
    Colors[index % |Colors|]
  }

  /** The colours repeat every eight slices, and neighbouring slices never share a colour. */
  lemma ColorCycle(index: nat)
    ensures ColorAt(index + 8) == ColorAt(index)
    ensures ColorAt(index + 1) != ColorAt(index)
  {
    var k := index % 8;
    assert (index + 8) % 8 == k;
    assert (index + 1) % 8 == (if k == 7 then 0 else k + 1);
  }
}
