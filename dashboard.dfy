/**
 * The figures of the person dashboard: the totals, a six-month history of
 * calendar-month buckets ending at the current month, the expense-category
 * dictionary and its top entry, the largest single expense, the monthly
 * average, the savings rate, and the display conditions read from them.
 *
 * The history loop and the category `reduce` update their accumulators step
 * by step and are methods; each is proved equal to a specification function
 * whose properties are lemmas. The current date is a parameter.
 */
module Dashboard {
  import opened Types
  import opened Aggregation
  import Seqs

  // ------------------------------------------------------------- the history

  /** One point of the history chart: a calendar month and its figures. */
  datatype HistoryEntry = HistoryEntry(year: int, month: int, saldo: real, receitas: real, despesas: real)

  /** The calendar month with the given month index, as `new Date(y, m, 1)` normalises it. */
  function YearOf(index: int): int
  {
    index / 12
  }

  function MonthOf(index: int): (m: int)
    ensures 0 <= m < 12
  {
    index % 12
  }

  predicate InMonth(t: Transaction, year: int, month: int)
  {
    t.date.month == month && t.date.year == year
  }

  function InMonthTest(year: int, month: int): Transaction -> bool
  {
    t => InMonth(t, year, month)
  }

  /** The transactions whose date falls in the given calendar month. */
  function MonthTransactions(txs: seq<Transaction>, year: int, month: int): seq<Transaction>
  {
    Seqs.Filter(txs, InMonthTest(year, month))
  }

  /** The history entry of the calendar month with the given month index. */
  function HistoryEntryAt(txs: seq<Transaction>, index: int): HistoryEntry
  {
    var year, month := YearOf(index), MonthOf(index);
    var monthTransactions := MonthTransactions(txs, year, month);
    var monthIncome := TotalIncome(monthTransactions);
    var monthExpense := TotalExpense(monthTransactions);
    HistoryEntry(year, month, monthIncome - monthExpense, monthIncome, monthExpense)
  }

  /** The `for (i = 5; i >= 0; i--)` loop that pushes one entry per month, oldest first. */
  method BalanceHistory(txs: seq<Transaction>, now: CalendarDate) returns (history: seq<HistoryEntry>)
    ensures |history| == 6
    ensures forall k :: 0 <= k < 6 ==> history[k] == HistoryEntryAt(txs, MonthIndex(now) - 5 + k)
  {
    history := [];
    var i := 5;
    while i >= 0
      invariant -1 <= i <= 5
      invariant |history| == 5 - i
      invariant forall k :: 0 <= k < |history| ==> history[k] == HistoryEntryAt(txs, MonthIndex(now) - 5 + k)
    {
      var index := now.year * 12 + now.month - i;
      var year, month := index / 12, index % 12;
      var monthTransactions := Seqs.Filter(txs, InMonthTest(year, month));
      var monthIncome := Sum(Seqs.Filter(monthTransactions, IsIncome));
      var monthExpense := Sum(Seqs.Filter(monthTransactions, IsExpense));
      history := history + [HistoryEntry(year, month, monthIncome - monthExpense, monthIncome, monthExpense)];
      i := i - 1;
    }
  }

  /** The six entries cover consecutive calendar months, the last one the current month. */
  lemma HistoryMonthsConsecutive(txs: seq<Transaction>, now: CalendarDate, k: int)
    requires 0 <= k < 6
    requires 0 <= now.month < 12
    ensures var e := HistoryEntryAt(txs, MonthIndex(now) - 5 + k);
      0 <= e.month < 12 && e.year * 12 + e.month == MonthIndex(now) - 5 + k
    ensures HistoryEntryAt(txs, MonthIndex(now)).year == now.year
    ensures HistoryEntryAt(txs, MonthIndex(now)).month == now.month
  {
  }

  /** Every entry's balance is its income minus its expense. */
  lemma HistoryEntryBalance(txs: seq<Transaction>, index: int)
    ensures HistoryEntryAt(txs, index).saldo == HistoryEntryAt(txs, index).receitas - HistoryEntryAt(txs, index).despesas
  {
  }

  /**
   * A transaction is counted in the bucket of a month index exactly when its
   * own date has that month index, so it is counted in at most one bucket.
   */
  lemma {:induction false} CountedInOwnMonth(txs: seq<Transaction>, t: Transaction, index: int)
    requires 0 <= t.date.month < 12
    ensures t in MonthTransactions(txs, YearOf(index), MonthOf(index)) <==> t in txs && MonthIndex(t.date) == index
  {
    Seqs.FilterMembership(txs, InMonthTest(YearOf(index), MonthOf(index)), t);
  }

  /** A month without transactions gives a zero entry. */
  lemma {:induction false} EmptyMonthIsZero(txs: seq<Transaction>, index: int)
    requires forall t :: t in txs ==> MonthIndex(t.date) != index || !(0 <= t.date.month < 12)
    ensures HistoryEntryAt(txs, index).receitas == 0.0
    ensures HistoryEntryAt(txs, index).despesas == 0.0
    ensures HistoryEntryAt(txs, index).saldo == 0.0
  {
    var year, month := YearOf(index), MonthOf(index);
    Seqs.FilterEmpty(txs, InMonthTest(year, month));
    assert MonthTransactions(txs, year, month) == [] by {
      forall i | 0 <= i < |txs| ensures !InMonthTest(year, month)(txs[i]) {
        assert txs[i] in txs;
      }
    }
  }

  // ------------------------------------------------------- the category block

  /** The `reduce` over the expenses that updates the dictionary `acc` in place. */
  method ExpenseByCategory(txs: seq<Transaction>) returns (acc: seq<CategoryEntry>)
    ensures acc == Accumulate(Expenses(txs))
  {
    var expenses := Seqs.Filter(txs, IsExpense);
    acc := [];
    var i := 0;
    while i < |expenses|
      invariant 0 <= i <= |expenses|
      invariant acc == Accumulate(expenses[..i])
    {
      var t := expenses[i];
      assert expenses[..i + 1][..i] == expenses[..i];
      var k := FindName(acc, t.category);
      if k >= 0 {
        acc := acc[k := CategoryEntry(t.category, acc[k].value + t.amount)];
      } else {
        acc := acc + [CategoryEntry(t.category, 0.0 + t.amount)];
      }
      i := i + 1;
    }
    assert expenses[..|expenses|] == expenses;
  }

  /** The dictionary's keys are the expense categories and its values add up to the expense total. */
  lemma ExpenseByCategorySpec(txs: seq<Transaction>)
    ensures DistinctNames(Accumulate(Expenses(txs)))
    ensures Names(Accumulate(Expenses(txs))) == Categories(Expenses(txs))
    ensures forall i :: 0 <= i < |Accumulate(Expenses(txs))| ==>
              Accumulate(Expenses(txs))[i].value == CategoryTotal(Expenses(txs), Accumulate(Expenses(txs))[i].name)
    ensures SumValues(Accumulate(Expenses(txs))) == TotalExpense(txs)
  {
    AccumulateSpec(Expenses(txs));
  }

  /** `sortedCategories[0] || ['', 0]`. */
  function TopCategory(sorted: seq<CategoryEntry>): CategoryEntry
  {
    if sorted == [] then CategoryEntry("", 0.0) else sorted[0]
  }

  /**
   * With no expense the top category is the empty placeholder; otherwise it is
   * an expense category whose total is at least every category's total.
   */
  lemma TopCategorySpec(txs: seq<Transaction>)
    ensures Expenses(txs) == [] ==> TopCategory(SortedCategories(txs)) == CategoryEntry("", 0.0)
    ensures Expenses(txs) != [] ==>
              var top := TopCategory(SortedCategories(txs));
              && top.name in Categories(Expenses(txs))
              && top.value == CategoryTotal(Expenses(txs), top.name)
              && forall c :: c in Categories(Expenses(txs)) ==> CategoryTotal(Expenses(txs), c) <= top.value
  {
    SortedCategoriesSpec(txs);
    var sorted := SortedCategories(txs);
    if sorted != [] {
      assert sorted[0].name in Names(sorted);
      forall c | c in Categories(Expenses(txs)) ensures CategoryTotal(Expenses(txs), c) <= sorted[0].value {
        assert c in Names(sorted);
        var k :| 0 <= k < |sorted| && sorted[k].name == c;
        if k > 0 { assert sorted[0].value >= sorted[k].value; }
      }
    }
  }

  // ------------------------------------------------------------ single figures

  /** `Math.max(...amounts, 0)` over the expense amounts. */
  function MaxWithZero(xs: seq<Transaction>): (r: real)
    ensures r >= 0.0
    ensures forall t :: t in xs ==> t.amount <= r
    ensures r == 0.0 || exists t :: t in xs && t.amount == r
  {
    if xs == [] then 0.0
    else
      var rest := MaxWithZero(xs[..|xs| - 1]);
      var last := xs[|xs| - 1];
      assert xs == xs[..|xs| - 1] + [last];
      if last.amount > rest then last.amount else rest
  }

  function BiggestExpense(txs: seq<Transaction>): real
  {
    MaxWithZero(Expenses(txs))
  }

  /** The largest single expense is at least 0 and every expense amount, and is one of them or 0. */
  lemma {:induction false} BiggestExpenseSpec(txs: seq<Transaction>)
    ensures BiggestExpense(txs) >= 0.0
    ensures forall t :: t in txs && t.kind == Expense ==> t.amount <= BiggestExpense(txs)
    ensures BiggestExpense(txs) == 0.0 || exists t :: t in txs && t.kind == Expense && t.amount == BiggestExpense(txs)
  {
    forall t ensures t in Expenses(txs) <==> t in txs && t.kind == Expense {
      Seqs.FilterMembership(txs, IsExpense, t);
    }
  }

  /** The monthly average assumes six months whatever the data span. */
  function AvgMonthlyExpense(expense: real): real
  {
    expense / 6.0
  }

  /** `income > 0 ? ((income - expense) / income) * 100 : 0`. */
  function SavingsRate(income: real, expense: real): (r: real)
    ensures income <= 0.0 ==> r == 0.0
    ensures income > 0.0 ==> r * income == (income - expense) * 100.0
  {
    if income > 0.0 then ((income - expense) / income) * 100.0 else 0.0
  }

  datatype SavingsBand = Excellent | Good | NeedsImprovement

  /** The savings-rate card: above 20 excellent, above 10 good, otherwise to improve. */
  function Band(rate: real): SavingsBand
  {
    if rate > 20.0 then Excellent else if rate > 10.0 then Good else NeedsImprovement
  }

  /** The three bands partition the rates. */
  lemma BandSpec(rate: real)
    ensures Band(rate) == Excellent <==> rate > 20.0
    ensures Band(rate) == Good <==> 10.0 < rate <= 20.0
    ensures Band(rate) == NeedsImprovement <==> rate <= 10.0
  {
  }

  /** The spending-control card: controlled when spending is below 80% of income. */
  predicate SpendingControlled(income: real, expense: real)
  {
    expense < income * 0.8
  }

  /**
   * With a positive income the two cards agree: spending is controlled
   * exactly when the savings rate is excellent.
   */
  lemma ControlledIffExcellent(income: real, expense: real)
    requires income > 0.0
    ensures SpendingControlled(income, expense) <==> Band(SavingsRate(income, expense)) == Excellent
  {
    var r := SavingsRate(income, expense);
    assert r * income == (income - expense) * 100.0;
    if r > 20.0 {
      assert r * income > 20.0 * income;
    } else {
      assert r * income <= 20.0 * income;
    }
  }

  /** The balance card reads "positive" for a balance of at least zero. */
  predicate BalancePositive(balance: real)
  {
    balance >= 0.0
  }

  /** The top-category card: the name, or "Sem dados" for the empty placeholder. */
  function TopCategoryLabel(top: CategoryEntry): string
  {
    if top.name == "" then "Sem dados" else top.name
  }

  /** The top-category amount is shown only when positive. */
  predicate ShowTopCategoryAmount(top: CategoryEntry)
  {
    top.value > 0.0
  }

  /**
   * The summary cards: the balance card is positive exactly when expense does
   * not exceed income; without expenses the top-category card shows "Sem
   * dados" and no amount.
   */
  lemma SummaryCards(txs: seq<Transaction>)
    ensures BalancePositive(Balance(txs)) <==> TotalExpense(txs) <= TotalIncome(txs)
    ensures Expenses(txs) == [] ==> TopCategoryLabel(TopCategory(SortedCategories(txs))) == "Sem dados"
    ensures Expenses(txs) == [] ==> !ShowTopCategoryAmount(TopCategory(SortedCategories(txs)))
  {
    TopCategorySpec(txs);
  }

  // ----------------------------------------------------------------- the block

  datatype Metrics = Metrics(
    balance: real,
    income: real,
    expense: real,
    balanceHistory: seq<HistoryEntry>,
    expenseByCategory: seq<CategoryEntry>,
    biggestExpense: real,
    avgMonthlyExpense: real,
    savingsRate: real,
    topCategory: CategoryEntry)

  /** The dashboard's `useMemo` block over the transactions and the current date. */
  method ComputeMetrics(txs: seq<Transaction>, now: CalendarDate) returns (m: Metrics)
    ensures m.income == TotalIncome(txs) && m.expense == TotalExpense(txs)
    ensures m.balance == m.income - m.expense
    ensures |m.balanceHistory| == 6
    ensures forall k :: 0 <= k < 6 ==> m.balanceHistory[k] == HistoryEntryAt(txs, MonthIndex(now) - 5 + k)
    ensures m.expenseByCategory == Accumulate(Expenses(txs))
    ensures m.topCategory == TopCategory(SortedCategories(txs))
    ensures m.biggestExpense == BiggestExpense(txs)
    ensures m.avgMonthlyExpense == m.expense / 6.0
    ensures m.savingsRate == SavingsRate(m.income, m.expense)
  {
    var income := Sum(Seqs.Filter(txs, IsIncome));
    var expense := Sum(Seqs.Filter(txs, IsExpense));
    var balance := income - expense;
    var balanceHistory := BalanceHistory(txs, now);
    var expenseByCategory := ExpenseByCategory(txs);
    var sortedCategories := SortByValueDesc(expenseByCategory);
    var topCategory := TopCategory(sortedCategories);
    var biggestExpense := MaxWithZero(Seqs.Filter(txs, IsExpense));
    var avgMonthlyExpense := AvgMonthlyExpense(expense);
    var savingsRate := SavingsRate(income, expense);
    m := Metrics(balance, income, expense, balanceHistory, expenseByCategory, biggestExpense,
                 avgMonthlyExpense, savingsRate, topCategory);
  }
}
