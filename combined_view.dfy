/**
 * The couple view: both persons' transactions concatenated, person 1's
 * first, then the same totals and sorted category dictionary as the
 * single-person views, computed over the combined list.
 */
module CombinedView {
  import opened Types
  import opened Aggregation
  import Seqs

  /** The figures the combined view shows. */
  datatype CombinedFigures = CombinedFigures(
    combinedIncome: real,
    combinedExpense: real,
    combinedBalance: real,
    expenseByCategory: seq<CategoryEntry>)

  /** `[...person1.transactions, ...person2.transactions]`. */
  function AllTransactions(f: CoupleFinances): (r: seq<Transaction>)
    ensures |r| == |f.person1.transactions| + |f.person2.transactions|
    ensures forall i :: 0 <= i < |f.person1.transactions| ==> r[i] == f.person1.transactions[i]
    ensures forall j :: 0 <= j < |f.person2.transactions| ==>
              r[|f.person1.transactions| + j] == f.person2.transactions[j]
  {
    f.person1.transactions + f.person2.transactions
  }

  /** The `useMemo` block over the combined list. */
  function Combined(f: CoupleFinances): CombinedFigures
  {
    var all := AllTransactions(f);
    var income := TotalIncome(all);
    var expense := TotalExpense(all);
    CombinedFigures(income, expense, income - expense, SortedCategories(all))
  }

  /** Combined income and expense are the sums of each person's own totals; the balance is their difference. */
  lemma CombinedTotals(f: CoupleFinances)
    ensures Combined(f).combinedIncome == TotalIncome(f.person1.transactions) + TotalIncome(f.person2.transactions)
    ensures Combined(f).combinedExpense == TotalExpense(f.person1.transactions) + TotalExpense(f.person2.transactions)
    ensures Combined(f).combinedBalance == Combined(f).combinedIncome - Combined(f).combinedExpense
    ensures Combined(f).combinedBalance == Balance(f.person1.transactions) + Balance(f.person2.transactions)
  {
    TotalsOfConcat(f.person1.transactions, f.person2.transactions);
  }

  lemma {:induction false} CategoriesConcat(a: seq<Transaction>, b: seq<Transaction>)
    ensures Categories(a + b) == Categories(a) + Categories(b)
  {
    var ab := a + b;
    forall c | c in Categories(ab) ensures c in Categories(a) + Categories(b) {
      var i :| 0 <= i < |ab| && ab[i].category == c;
      if i < |a| {
        assert a[i] == ab[i];
      } else {
        assert b[i - |a|] == ab[i];
      }
    }
    forall c | c in Categories(a) ensures c in Categories(ab) {
      var i :| 0 <= i < |a| && a[i].category == c;
      assert ab[i] == a[i];
    }
    forall c | c in Categories(b) ensures c in Categories(ab) {
      var j :| 0 <= j < |b| && b[j].category == c;
      assert ab[|a| + j] == b[j];
    }
  }

  /**
   * The combined category list: one entry per category in which either person
   * has an expense, each with the two persons' sums for it added together,
   * sorted largest first.
   */
  lemma CombinedCategories(f: CoupleFinances)
    ensures DistinctNames(Combined(f).expenseByCategory)
    ensures Names(Combined(f).expenseByCategory)
            == Categories(Expenses(f.person1.transactions)) + Categories(Expenses(f.person2.transactions))
    ensures forall i :: 0 <= i < |Combined(f).expenseByCategory| ==>
              Combined(f).expenseByCategory[i].value
              == CategoryTotal(Expenses(f.person1.transactions), Combined(f).expenseByCategory[i].name)
                 + CategoryTotal(Expenses(f.person2.transactions), Combined(f).expenseByCategory[i].name)
    ensures NonIncreasing(Combined(f).expenseByCategory)
    ensures SumValues(Combined(f).expenseByCategory) == Combined(f).combinedExpense
  {
    var a, b := f.person1.transactions, f.person2.transactions;
    var r := Combined(f).expenseByCategory;
    SortedCategoriesSpec(a + b);
    Seqs.FilterConcat(a, b, IsExpense);
    CategoriesConcat(Expenses(a), Expenses(b));
    forall i | 0 <= i < |r|
      ensures r[i].value == CategoryTotal(Expenses(a), r[i].name) + CategoryTotal(Expenses(b), r[i].name)
    {
      CategoryTotalConcat(Expenses(a), Expenses(b), r[i].name);
    }
  }
}
