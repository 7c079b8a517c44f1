/**
 * One person's panel: the totals block, the overdue badge of a history row,
 * the entry form (its validation, the record it hands over and the fields it
 * clears), the category choices per type, and the newest-first history.
 */
module FinancePanel {
  import opened Types
  import opened Aggregation
  import opened JsText
  import Advisory
  import Seqs

  /** The panel's `useMemo` totals over the person's transactions. */
  function PanelTotals(p: PersonData): (r: Totals)
    ensures r.income == Sum(Incomes(p.transactions)) && r.expense == Sum(Expenses(p.transactions))
    ensures r.balance == r.income - r.expense
    ensures r.balance == Net(p.transactions)
  {
    ComputeTotals(p.transactions)
  }

  /** `TransactionRow.isOverdue`: an expense with a due date strictly before today. */
  predicate IsOverdue(t: Transaction, today: int)
  {
    if t.kind != Expense || t.dueDate.None? then false else t.dueDate.value < today
  }

  /**
   * The badge as the row computes it, on instants in minutes: the due date
   * denotes midnight UTC of its day, today is local midnight, `offset`
   * minutes (local time minus UTC) away from midnight UTC.
   */
  predicate IsOverdueAtInstants(t: Transaction, today: int, offset: int)
  {
    if t.kind != Expense || t.dueDate.None? then false
    else Advisory.OverdueAtInstants(t.dueDate.value, today, offset)
  }

  /** At UTC the badge on instants is the whole-day badge. */
  lemma BadgeAgreesAtUtc(t: Transaction, today: int)
    ensures IsOverdueAtInstants(t, today, 0) <==> IsOverdue(t, today)
  {
    if t.kind == Expense && t.dueDate.Some? {
      Advisory.InstantsAgreeAtUtc(t, today);
    }
  }

  /** West of UTC an expense due today carries the badge, though it is not overdue in whole days. */
  lemma DueTodayBadgeWestOfUtc(t: Transaction, today: int, offset: int)
    requires t.kind == Expense && t.dueDate == Some(today)
    requires -Advisory.MinutesPerDay < offset < 0
    ensures IsOverdueAtInstants(t, today, offset)
    ensures !IsOverdue(t, today)
  {
    Advisory.DueTodayOverdueWestOfUtc(today, offset);
  }

  /**
   * A row carries the overdue badge exactly when its transaction is on the
   * advisory report's overdue list; incomes and undated expenses never do.
   */
  lemma IsOverdueAgreesWithReport(txs: seq<Transaction>, today: int)
    ensures forall t :: t in txs ==> (IsOverdue(t, today) <==> t in Advisory.OverdueBills(txs, today))
    ensures forall t: Transaction :: t.kind == Income || t.dueDate.None? ==> !IsOverdue(t, today)
  {
    Advisory.OverdueBillsSpec(txs, today);
  }

  /** `[...transactions].reverse()`: the history, newest first, from a copy. */
  function History(txs: seq<Transaction>): seq<Transaction>
  {
    Seqs.Reverse(txs)
  }

  /** Row `i` of the history is the `i`-th transaction counted from the end; the placeholder shows exactly when there is none. */
  lemma HistoryNewestFirst(txs: seq<Transaction>)
    ensures |History(txs)| == |txs|
    ensures forall i :: 0 <= i < |txs| ==> History(txs)[i] == txs[|txs| - 1 - i]
    ensures History(txs) == [] <==> txs == []
  {
    forall i | 0 <= i < |txs| ensures History(txs)[i] == txs[|txs| - 1 - i] {
      Seqs.ReverseAt(txs, i);
    }
  }

  const IncomeCategories: seq<string> := ["Salário", "Investimentos", "Vendas", "Outros"]
  const ExpenseCategories: seq<string> :=
    ["Alimentação", "Transporte", "Moradia", "Lazer", "Saúde", "Educação", "Contas", "Outros"]

  /** The options of the category select for the chosen type. */
  function CategoryChoices(kind: TxKind): seq<string>
  {
    if kind == Income then IncomeCategories else ExpenseCategories
  }

  const DefaultCategory: string := "Alimentação"

  /** Four income choices and eight expense choices; the form's initial category is an expense choice only. */
  lemma CategoryChoicesSpec()
    ensures |CategoryChoices(Income)| == 4 && |CategoryChoices(Expense)| == 8
    ensures DefaultCategory in CategoryChoices(Expense)
    ensures DefaultCategory !in CategoryChoices(Income)
  {
    assert DefaultCategory == ExpenseCategories[0];
    assert DefaultCategory[0] == 'A';
    assert IncomeCategories[0][0] == 'S' && IncomeCategories[1][0] == 'I';
    assert IncomeCategories[2][0] == 'V' && IncomeCategories[3][0] == 'O';
  }

  /** The submit guard: a description that is not empty and an amount that parses to a number above 0. */
  predicate SubmitAccepted(description: string, amount: string)
  {
    description != [] && ParseFloat(amount).Some? && ParseFloat(amount).value > 0.0
  }

  /** The due date a record carries: the form's, for an expense only. */
  function RecordDueDate(kind: TxKind, dueDate: Option<int>): (d: Option<int>)
    ensures d.Some? <==> kind == Expense && dueDate.Some?
    ensures d.Some? ==> d == dueDate
  {
    if kind == Expense && dueDate.Some? then dueDate else None
  }

  /** The entry form's state; an empty date field is `None`. */
  class EntryForm {
    var description: string
    var amount: string
    var category: string
    var dueDate: Option<int>
    var formType: TxKind

    constructor()
      ensures description == "" && amount == "" && category == DefaultCategory
      ensures dueDate == None && formType == Expense
    {
      description := "";
      amount := "";
      category := DefaultCategory;
      dueDate := None;
      formType := Expense;
    }

    /** The two type buttons; the category is not reset. */
    method SetFormType(kind: TxKind)
      modifies this
      ensures formType == kind
      ensures description == old(description) && amount == old(amount)
      ensures category == old(category) && dueDate == old(dueDate)
    {
      formType := kind;
    }

    method SetDescription(value: string)
      modifies this
      ensures description == value
      ensures amount == old(amount) && category == old(category)
      ensures dueDate == old(dueDate) && formType == old(formType)
    {
      description := value;
    }

    method SetAmount(value: string)
      modifies this
      ensures amount == value
      ensures description == old(description) && category == old(category)
      ensures dueDate == old(dueDate) && formType == old(formType)
    {
      amount := value;
    }

    method SetCategory(value: string)
      modifies this
      ensures category == value
      ensures description == old(description) && amount == old(amount)
      ensures dueDate == old(dueDate) && formType == old(formType)
    {
      category := value;
    }

    method SetDueDate(value: Option<int>)
      modifies this
      ensures dueDate == value
      ensures description == old(description) && amount == old(amount)
      ensures category == old(category) && formType == old(formType)
    {
      dueDate := value;
    }

    /**
     * `handleSubmit`: refused (the alert) unless the guard holds, and then
     * nothing changes; otherwise hands over the record and clears description,
     * amount and due date, keeping category and type.
     */
    method HandleSubmit() returns (record: Option<TransactionData>)
      modifies this
      ensures SubmitAccepted(old(description), old(amount)) ==>
                && record == Some(TransactionData(old(description), ParseFloat(old(amount)).value, old(formType),
                                                  old(category), RecordDueDate(old(formType), old(dueDate))))
                && description == "" && amount == "" && dueDate == None
      ensures !SubmitAccepted(old(description), old(amount)) ==>
                record == None && description == old(description) && amount == old(amount) && dueDate == old(dueDate)
      ensures category == old(category) && formType == old(formType)
    {
      var numericAmount := ParseFloat(amount);
      if description == [] || numericAmount.None? || numericAmount.value <= 0.0 {
        return None;
      }
      var due := if formType == Expense && dueDate.Some? then dueDate else None;
      record := Some(TransactionData(description, numericAmount.value, formType, category, due));
      description := "";
      amount := "";
      dueDate := None;
    }
  }

  /**
   * Switching the fresh form to income and submitting without touching the
   * select files the income under the expense category "Alimentação", which
   * is not among the income choices.
   */
  method IncomeUnderExpenseCategory() returns (record: Option<TransactionData>)
    ensures record.Some? && record.value.kind == Income
    ensures record.value.category == DefaultCategory && record.value.category !in CategoryChoices(Income)
  {
    var form := new EntryForm();
    form.SetFormType(Income);
    form.SetDescription("Salário");
    form.SetAmount(NatToString(100));
    ParseFloatNat(100);
    CategoryChoicesSpec();
    record := form.HandleSubmit();
  }
}
