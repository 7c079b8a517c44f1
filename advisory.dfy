/**
 * The rule-based advisory report (`getFinancialAnalysis`), run synchronously
 * over the transactions and the day number of "today".
 *
 * Each rule yields at most one section, in a fixed order: overdue bills,
 * bills due within seven days, the highest-spending category, one
 * income-versus-expense commentary, and the generic tips when fewer than two
 * sections fired. The report is the rendered sections joined by a separator,
 * or a fixed "no insights" text when none fired.
 *
 * The sections are kept as data (`Section`) and rendered by `Render`; money
 * and date formatting (`toLocaleString`) are the `Formatter`'s opaque
 * functions. `GetFinancialAnalysis` is the imperative builder (a list of
 * parts grown by push, each section grown by `+=`), proved equal to `Report`.
 */
module Advisory {
  import opened Types
  import opened Aggregation
  import Seqs

  // ---------------------------------------------------------------- the rules

  /** Rule 1's test: a due date strictly before today. */
  predicate IsOverdueBill(t: Transaction, today: int)
  {
    t.dueDate.Some? && t.dueDate.value < today
  }

  /** Rule 2's test: a due date 0 to 7 whole days after today. */
  predicate IsUpcomingBill(t: Transaction, today: int)
  {
    t.dueDate.Some? && 0 <= t.dueDate.value - today <= 7
  }

  function OverdueTest(today: int): Transaction -> bool
  {
    t => IsOverdueBill(t, today)
  }

  function UpcomingTest(today: int): Transaction -> bool
  {
    t => IsUpcomingBill(t, today)
  }

  /** The comparator key `new Date(t.dueDate!).getTime()`, as a day number. */
  function DueKey(t: Transaction): real
  {
    match t.dueDate
    case Some(d) => d as real
    case None => 0.0
  }

  /** The overdue expenses, earliest due date first. */
  function OverdueBills(txs: seq<Transaction>, today: int): seq<Transaction>
  {
    Seqs.SortBy(Seqs.Filter(Expenses(txs), OverdueTest(today)), DueKey)
  }

  /** The expenses due within the next seven days, earliest due date first. */
  function UpcomingBills(txs: seq<Transaction>, today: int): seq<Transaction>
  {
    Seqs.SortBy(Seqs.Filter(Expenses(txs), UpcomingTest(today)), DueKey)
  }

  lemma {:induction false} ExpensesMembership(txs: seq<Transaction>, t: Transaction)
    ensures t in Expenses(txs) <==> t in txs && t.kind == Expense
  {
    Seqs.FilterMembership(txs, IsExpense, t);
  }

  /**
   * The overdue list holds exactly the expenses due strictly before today
   * (as a permutation of their filtered list), sorted by due date.
   */
  lemma {:induction false} OverdueBillsSpec(txs: seq<Transaction>, today: int)
    ensures forall t :: t in OverdueBills(txs, today) <==>
              t in txs && t.kind == Expense && t.dueDate.Some? && t.dueDate.value < today
    ensures multiset(OverdueBills(txs, today)) == multiset(Seqs.Filter(Expenses(txs), OverdueTest(today)))
    ensures forall i, j :: 0 <= i < j < |OverdueBills(txs, today)| ==>
              OverdueBills(txs, today)[i].dueDate.value <= OverdueBills(txs, today)[j].dueDate.value
  {
    var filtered := Seqs.Filter(Expenses(txs), OverdueTest(today));
    var r := OverdueBills(txs, today);
    Seqs.SortBySpec(filtered, DueKey);
    forall t ensures t in r <==> t in txs && t.kind == Expense && IsOverdueBill(t, today) {
      Seqs.SortByMembership(filtered, DueKey, t);
      Seqs.FilterMembership(Expenses(txs), OverdueTest(today), t);
      ExpensesMembership(txs, t);
    }
    forall i, j | 0 <= i < j < |r| ensures r[i].dueDate.Some? && r[j].dueDate.Some? && r[i].dueDate.value <= r[j].dueDate.value {
      assert r[i] in r && r[j] in r;
      assert DueKey(r[i]) <= DueKey(r[j]);
    }
  }

  /**
   * The upcoming list holds exactly the expenses due 0 to 7 days after today
   * (today included, today + 8 excluded), sorted by due date.
   */
  lemma {:induction false} UpcomingBillsSpec(txs: seq<Transaction>, today: int)
    ensures forall t :: t in UpcomingBills(txs, today) <==>
              t in txs && t.kind == Expense && t.dueDate.Some? && today <= t.dueDate.value <= today + 7
    ensures multiset(UpcomingBills(txs, today)) == multiset(Seqs.Filter(Expenses(txs), UpcomingTest(today)))
    ensures forall i, j :: 0 <= i < j < |UpcomingBills(txs, today)| ==>
              UpcomingBills(txs, today)[i].dueDate.value <= UpcomingBills(txs, today)[j].dueDate.value
  {
    var filtered := Seqs.Filter(Expenses(txs), UpcomingTest(today));
    var r := UpcomingBills(txs, today);
    Seqs.SortBySpec(filtered, DueKey);
    forall t ensures t in r <==> t in txs && t.kind == Expense && IsUpcomingBill(t, today) {
      Seqs.SortByMembership(filtered, DueKey, t);
      Seqs.FilterMembership(Expenses(txs), UpcomingTest(today), t);
      ExpensesMembership(txs, t);
    }
    forall i, j | 0 <= i < j < |r| ensures r[i].dueDate.Some? && r[j].dueDate.Some? && r[i].dueDate.value <= r[j].dueDate.value {
      assert r[i] in r && r[j] in r;
      assert DueKey(r[i]) <= DueKey(r[j]);
    }
  }

  /** With whole-day dates no bill is both overdue and upcoming. */
  lemma OverdueUpcomingDisjoint(txs: seq<Transaction>, today: int)
    ensures forall t :: !(t in OverdueBills(txs, today) && t in UpcomingBills(txs, today))
  {
    OverdueBillsSpec(txs, today);
    UpcomingBillsSpec(txs, today);
  }

  // ------------------------------------------- due dates as instants in a time zone

  const MinutesPerDay: int := 1440

  /** `Math.ceil(x / y)` for a positive divisor. */
  function CeilDiv(x: int, y: int): (q: int)
    requires y > 0
    ensures (q - 1) * y < x <= q * y
  {
    -((-x) / y)
  }

  /**
   * The overdue test on instants, counted in minutes since the epoch: a
   * `YYYY-MM-DD` due date denotes midnight UTC of that day, while "today" is
   * local midnight, which lies `offset` minutes (local time minus UTC)
   * before midnight UTC of the same calendar day.
   */
  predicate OverdueAtInstants(due: int, today: int, offset: int)
  {
    due * MinutesPerDay < today * MinutesPerDay - offset
  }

  /** The upcoming test on instants: the difference rounded up to whole days is 0 to 7. */
  predicate UpcomingAtInstants(due: int, today: int, offset: int)
  {
    var diffDays := CeilDiv(due * MinutesPerDay - (today * MinutesPerDay - offset), MinutesPerDay);
    0 <= diffDays <= 7
  }

  /** In a zone at UTC the instant tests are the whole-day tests used by the report. */
  lemma InstantsAgreeAtUtc(t: Transaction, today: int)
    requires t.dueDate.Some?
    ensures OverdueAtInstants(t.dueDate.value, today, 0) <==> IsOverdueBill(t, today)
    ensures UpcomingAtInstants(t.dueDate.value, today, 0) <==> IsUpcomingBill(t, today)
  {
    var d := t.dueDate.value;
    var q := CeilDiv(d * MinutesPerDay - today * MinutesPerDay, MinutesPerDay);
    assert (q - 1) * MinutesPerDay < (d - today) * MinutesPerDay <= q * MinutesPerDay;
    assert q - 1 < d - today <= q;
  }

  /**
   * West of UTC (Brasília is 180 minutes behind) a bill due today is listed
   * as overdue, and also as upcoming.
   */
  lemma DueTodayOverdueWestOfUtc(today: int, offset: int)
    requires -MinutesPerDay < offset < 0
    ensures OverdueAtInstants(today, today, offset)
    ensures UpcomingAtInstants(today, today, offset)
  {
    assert CeilDiv(offset, MinutesPerDay) == 0;
  }

  /** East of UTC a bill due in exactly seven days is missing from the upcoming list. */
  lemma SeventhDayMissedEastOfUtc(today: int, offset: int)
    requires 0 < offset < MinutesPerDay
    ensures !UpcomingAtInstants(today + 7, today, offset)
  {
    var x := (today + 7) * MinutesPerDay - (today * MinutesPerDay - offset);
    assert x == 7 * MinutesPerDay + offset;
    assert CeilDiv(x, MinutesPerDay) == 8;
  }

  /** East of UTC a bill due yesterday is listed as overdue, and also as upcoming. */
  lemma DueYesterdayUpcomingEastOfUtc(today: int, offset: int)
    requires 0 < offset < MinutesPerDay
    ensures OverdueAtInstants(today - 1, today, offset)
    ensures UpcomingAtInstants(today - 1, today, offset)
  {
    var x := (today - 1) * MinutesPerDay - (today * MinutesPerDay - offset);
    assert x == offset - MinutesPerDay;
    assert CeilDiv(x, MinutesPerDay) == 0;
  }

  // ------------------------------------------------------------- the sections

  datatype Section =
    | OverdueSection(bills: seq<Transaction>)
    | UpcomingSection(bills: seq<Transaction>)
    | TopSpendingSection(category: string, total: real)
    | NegativeBalanceSection(expense: real, income: real)
    | BudgetCautionSection(expense: real, income: real)
    | PositiveBalanceSection(balance: real)
    | GeneralTipsSection

  /** The position of a section kind in the fixed order of the report. */
  function Rank(s: Section): nat
  {
    match s
    case OverdueSection(_) => 0
    case UpcomingSection(_) => 1
    case TopSpendingSection(_, _) => 2
    case NegativeBalanceSection(_, _) => 3
    case BudgetCautionSection(_, _) => 3
    case PositiveBalanceSection(_) => 3
    case GeneralTipsSection => 4
  }

  /** At most one section, and that of the given kind. */
  predicate AtMostOneOfRank(r: seq<Section>, k: nat)
  {
    |r| <= 1 && forall x :: x in r ==> Rank(x) == k
  }

  function OverdueRule(txs: seq<Transaction>, today: int): (r: seq<Section>)
    ensures AtMostOneOfRank(r, 0)
  {
    var bills := OverdueBills(txs, today);
    if |bills| > 0 then [OverdueSection(bills)] else []
  }

  function UpcomingRule(txs: seq<Transaction>, today: int): (r: seq<Section>)
    ensures AtMostOneOfRank(r, 1)
  {
    var bills := UpcomingBills(txs, today);
    if |bills| > 0 then [UpcomingSection(bills)] else []
  }

  /** Rule 3: the head of the expense categories sorted by total, largest first. */
  function TopCategoryRule(txs: seq<Transaction>): (r: seq<Section>)
    ensures AtMostOneOfRank(r, 2)
  {
    if |Expenses(txs)| > 0 then
      var sorted := SortedCategories(txs);
      if sorted != [] then [TopSpendingSection(sorted[0].name, sorted[0].value)] else []
    else []
  }

  /**
   * Rule 4: exactly one commentary when either total is positive, chosen by
   * precedence: negative balance, then expenses above 80% of income, then a
   * non-negative balance.
   */
  function BalanceRule(income: real, expense: real): (r: seq<Section>)
    ensures AtMostOneOfRank(r, 3)
  {
    if income > 0.0 || expense > 0.0 then
      if expense > income then [NegativeBalanceSection(expense, income)]
      else if income > 0.0 && expense > income * 0.8 then [BudgetCautionSection(expense, income)]
      else if income > 0.0 && income - expense >= 0.0 then [PositiveBalanceSection(income - expense)]
      else []
    else []
  }

  /**
   * The commentary fires exactly when some total is positive; a negative
   * balance wins, then expenses above 80% of income, then a non-negative
   * balance (which a positive income with at most 80% spent always is).
   */
  lemma BalanceRuleSpec(income: real, expense: real)
    ensures |BalanceRule(income, expense)| == (if income > 0.0 || expense > 0.0 then 1 else 0)
    ensures BalanceRule(income, expense) == [NegativeBalanceSection(expense, income)] <==>
              (income > 0.0 || expense > 0.0) && expense > income
    ensures BalanceRule(income, expense) == [BudgetCautionSection(expense, income)] <==>
              income > 0.0 && income * 0.8 < expense <= income
    ensures BalanceRule(income, expense) == [PositiveBalanceSection(income - expense)] <==>
              income > 0.0 && expense <= income * 0.8
  {
  }

  /** Rules 1 to 4, in order. */
  function RuleSections(txs: seq<Transaction>, today: int): seq<Section>
  {
    OverdueRule(txs, today) + UpcomingRule(txs, today) + TopCategoryRule(txs)
      + BalanceRule(TotalIncome(txs), TotalExpense(txs))
  }

  /** Rule 5: the generic tips when fewer than two sections fired and there is any transaction. */
  function TipsRule(txs: seq<Transaction>, fired: seq<Section>): (r: seq<Section>)
    ensures AtMostOneOfRank(r, 4)
  {
    if |fired| < 2 && |txs| > 0 then [GeneralTipsSection] else []
  }

  function Sections(txs: seq<Transaction>, today: int): seq<Section>
  {
    RuleSections(txs, today) + TipsRule(txs, RuleSections(txs, today))
  }

  /** Sections appear in the fixed order, each kind at most once. */
  lemma SectionsInFixedOrder(txs: seq<Transaction>, today: int)
    ensures forall i, j :: 0 <= i < j < |Sections(txs, today)| ==>
              Rank(Sections(txs, today)[i]) < Rank(Sections(txs, today)[j])
  {
    var r := RuleSections(txs, today);
    RanksIncrease(OverdueRule(txs, today), UpcomingRule(txs, today), TopCategoryRule(txs),
                  BalanceRule(TotalIncome(txs), TotalExpense(txs)), TipsRule(txs, r));
  }

  lemma RanksIncrease(a: seq<Section>, b: seq<Section>, c: seq<Section>, d: seq<Section>, e: seq<Section>)
    requires AtMostOneOfRank(a, 0) && AtMostOneOfRank(b, 1) && AtMostOneOfRank(c, 2)
    requires AtMostOneOfRank(d, 3) && AtMostOneOfRank(e, 4)
    ensures forall i, j :: 0 <= i < j < |a + b + c + d + e| ==>
              Rank((a + b + c + d + e)[i]) < Rank((a + b + c + d + e)[j])
  {
    var s := a + b + c + d + e;
    forall i | 0 <= i < |s|
      ensures Rank(s[i]) == (if i < |a| then 0 else if i < |a| + |b| then 1
                             else if i < |a| + |b| + |c| then 2
                             else if i < |a| + |b| + |c| + |d| then 3 else 4)
    {
      if i < |a| { assert s[i] == a[i]; }
      else if i < |a| + |b| { assert s[i] == b[i - |a|]; }
      else if i < |a| + |b| + |c| { assert s[i] == c[i - |a| - |b|]; }
      else if i < |a| + |b| + |c| + |d| { assert s[i] == d[i - |a| - |b| - |c|]; }
      else { assert s[i] == e[i - |a| - |b| - |c| - |d|]; }
    }
  }

  /** The category section is present iff there is an expense, and it names a largest category. */
  lemma TopCategoryRuleSpec(txs: seq<Transaction>)
    ensures |TopCategoryRule(txs)| == (if Expenses(txs) != [] then 1 else 0)
    ensures forall s :: s in TopCategoryRule(txs) ==>
              && s.TopSpendingSection?
              && s.category in Categories(Expenses(txs))
              && s.total == CategoryTotal(Expenses(txs), s.category)
              && forall c :: c in Categories(Expenses(txs)) ==> CategoryTotal(Expenses(txs), c) <= s.total
  {
    SortedCategoriesSpec(txs);
    var sorted := SortedCategories(txs);
    if sorted != [] {
      assert sorted[0].name in Names(sorted);
      forall c | c in Categories(Expenses(txs)) ensures CategoryTotal(Expenses(txs), c) <= sorted[0].value {
        assert c in Names(sorted);
        var k :| 0 <= k < |sorted| && sorted[k].name == c;
        if k > 0 { assert sorted[0].value >= sorted[k].value; }
      }
    }
    if Expenses(txs) == [] {
      assert |Expenses(txs)| == 0;
    }
  }

  /** The tips section is appended iff fewer than two rule sections fired and the list is non-empty. */
  lemma TipsRuleSpec(txs: seq<Transaction>, today: int)
    ensures GeneralTipsSection in Sections(txs, today) <==> |RuleSections(txs, today)| < 2 && txs != []
  {
    var r := RuleSections(txs, today);
    var tips := TipsRule(txs, r);
    RuleSectionsRanks(txs, today);
    assert Rank(GeneralTipsSection) == 4;
    assert GeneralTipsSection !in r;
    assert GeneralTipsSection in Sections(txs, today) <==> GeneralTipsSection in tips;
  }

  /** Every section a rule before the tips emits ranks below the tips. */
  lemma RuleSectionsRanks(txs: seq<Transaction>, today: int)
    ensures forall x :: x in RuleSections(txs, today) ==> Rank(x) <= 3
  {
    var a, b := OverdueRule(txs, today), UpcomingRule(txs, today);
    var c, d := TopCategoryRule(txs), BalanceRule(TotalIncome(txs), TotalExpense(txs));
    assert forall x :: x in a + b + c + d ==> x in a || x in b || x in c || x in d;
  }

  /** No section fires exactly when there are no transactions. */
  lemma NoSectionsIff(txs: seq<Transaction>, today: int)
    ensures Sections(txs, today) == [] <==> txs == []
  {
    if txs == [] {
      assert Expenses(txs) == [] && Incomes(txs) == [];
      Seqs.FilterEmpty(txs, OverdueTest(today));
      assert OverdueBills(txs, today) == [];
      assert UpcomingBills(txs, today) == [];
    }
  }

  /** With no expense at all only the balance commentary (and possibly the tips) can fire. */
  lemma IncomeOnly(txs: seq<Transaction>, today: int)
    requires Expenses(txs) == []
    requires TotalIncome(txs) > 0.0
    ensures Sections(txs, today)[0] == PositiveBalanceSection(TotalIncome(txs))
    ensures forall s :: s in Sections(txs, today) ==> s.PositiveBalanceSection? || s.GeneralTipsSection?
  {
    OverdueBillsSpec(txs, today);
    UpcomingBillsSpec(txs, today);
    forall t | t in txs ensures t.kind != Expense {
      ExpensesMembership(txs, t);
    }
    assert TotalExpense(txs) == 0.0;
  }

  // ------------------------------------------------------------ the rendering

  /** The two formatting collaborators: money as currency text, a due date as a date text. */
  datatype Formatter = Formatter(money: real -> string, date: Option<int> -> string)

  const Separator: string := "\n\n---\n\n"

  const NoInsightsTitle: string := "# Nenhum insight por enquanto\n\n"
  const NoInsightsText: string :=
    NoInsightsTitle + "Adicione algumas transações, especialmente despesas com datas de vencimento, para receber sugestões personalizadas."

  const OverdueHeading: string := "# \U{26A0}\U{FE0F} Contas Atrasadas\n\n"
  const OverdueIntro: string :=
    "**Atenção:** Você possui contas que já venceram. Pagar contas em atraso pode gerar multas e juros. Priorize o pagamento delas o mais rápido possível.\n\n"
  const OverdueListTitle: string := "**Contas vencidas:**\n"
  const OverdueVerb: string := "Venceu em"

  const UpcomingHeading: string := "# \U{1F5D3}\U{FE0F} Contas Próximas do Vencimento\n\n"
  const UpcomingIntro: string :=
    "**Fique de olho!** As seguintes contas vencem em breve. Organize-se para não perder o prazo.\n\n"
  const UpcomingListTitle: string := "**Contas a vencer:**\n"
  const UpcomingVerb: string := "Vence em"

  const TopSpendingHeading: string := "# \U{1F4CA} Análise de Gastos\n\n"
  const BalanceHeading: string := "# \U{2696}\U{FE0F} Balanço Mensal\n\n"
  const PositiveHeading: string := "# \U{1F4B0} Saldo Positivo!\n\n"
  const TipsHeading: string := "# \U{2728} Dicas Gerais\n\n"

  /** One listed bill: description, due date, amount. */
  function BillLine(t: Transaction, verb: string, fmt: Formatter): string
  {
    "* " + t.description + " (" + verb + " " + fmt.date(t.dueDate) + ") - " + fmt.money(t.amount) + "\n"
  }

  /** The `forEach` that appends one line per bill. */
  function BillLines(bills: seq<Transaction>, verb: string, fmt: Formatter): string
  {
    if bills == [] then "" else BillLines(bills[..|bills| - 1], verb, fmt) + BillLine(bills[|bills| - 1], verb, fmt)
  }

  function TopSpendingBody(category: string, total: real, fmt: Formatter): string
  {
    "**Onde seu dinheiro está indo?** Sua maior despesa é com **" + category + "**, totalizando **" + fmt.money(total) + "**.\n\n"
      + "* Avalie se é possível reduzir despesas nessa área. Pequenos cortes podem fazer uma grande diferença no final do mês."
  }

  function NegativeBalanceBody(expense: real, income: real, fmt: Formatter): string
  {
    "**Atenção, saldo negativo!** Suas despesas (" + fmt.money(expense) + ") foram maiores que suas receitas (" + fmt.money(income) + "). É importante reavaliar seus gastos.\n\n"
      + "* Reveja seu orçamento e identifique onde pode economizar para reverter essa situação."
  }

  function BudgetCautionBody(expense: real, income: real, fmt: Formatter): string
  {
    "**Cuidado com o orçamento!** Suas despesas (" + fmt.money(expense) + ") representam mais de 80% da sua receita (" + fmt.money(income) + "). Isso pode deixar pouco espaço para imprevistos e para poupar.\n\n"
      + "* Tente identificar gastos não essenciais que podem ser cortados ou reduzidos."
  }

  function PositiveBalanceBody(balance: real, fmt: Formatter): string
  {
    "**Bom trabalho!** Você manteve um saldo positivo de **" + fmt.money(balance) + "**.\n\n"
      + "* Considere usar parte desse valor para começar uma reserva de emergência ou para investir em seus objetivos de longo prazo."
  }

  const GeneralTipsBody: string :=
    "* **Planejamento é tudo:** Crie um orçamento mensal. Defina limites de gastos para cada categoria e acompanhe seu progresso.\n"
      + "* **Reserva de Emergência:** Ter um fundo para cobrir de 3 a 6 meses de despesas essenciais pode trazer muita tranquilidade. Comece a construir o seu, mesmo que com pouco.\n"

  function Heading(s: Section): string
  {
    match s
    case OverdueSection(_) => OverdueHeading
    case UpcomingSection(_) => UpcomingHeading
    case TopSpendingSection(_, _) => TopSpendingHeading
    case NegativeBalanceSection(_, _) => BalanceHeading
    case BudgetCautionSection(_, _) => BalanceHeading
    case PositiveBalanceSection(_) => PositiveHeading
    case GeneralTipsSection => TipsHeading
  }

  function Body(s: Section, fmt: Formatter): string
  {
    match s
    case OverdueSection(bills) => OverdueIntro + OverdueListTitle + BillLines(bills, OverdueVerb, fmt)
    case UpcomingSection(bills) => UpcomingIntro + UpcomingListTitle + BillLines(bills, UpcomingVerb, fmt)
    case TopSpendingSection(c, total) => TopSpendingBody(c, total, fmt)
    case NegativeBalanceSection(e, i) => NegativeBalanceBody(e, i, fmt)
    case BudgetCautionSection(e, i) => BudgetCautionBody(e, i, fmt)
    case PositiveBalanceSection(b) => PositiveBalanceBody(b, fmt)
    case GeneralTipsSection => GeneralTipsBody
  }

  /** The markdown text of one section: its heading, then its body. */
  function Render(s: Section, fmt: Formatter): string
  {
    Heading(s) + Body(s, fmt)
  }

  function Renderer(fmt: Formatter): Section -> string
  {
    s => Render(s, fmt)
  }

  /** The rendered text of each section, in order. */
  function RenderAll(sections: seq<Section>, fmt: Formatter): (parts: seq<string>)
    ensures |parts| == |sections|
  {
    Seqs.Map(sections, Renderer(fmt))
  }

  lemma RenderAllConcat(a: seq<Section>, b: seq<Section>, fmt: Formatter)
    ensures RenderAll(a + b, fmt) == RenderAll(a, fmt) + RenderAll(b, fmt)
  {
    Seqs.MapConcat(a, b, Renderer(fmt));
  }

  lemma RenderAllOne(s: Section, fmt: Formatter)
    ensures RenderAll([s], fmt) == [Render(s, fmt)]
  {
    Seqs.MapAt([s], Renderer(fmt), 0);
  }

  lemma RenderAllHead(sections: seq<Section>, fmt: Formatter)
    requires sections != []
    ensures RenderAll(sections, fmt)[0] == Render(sections[0], fmt)
  {
    Seqs.MapAt(sections, Renderer(fmt), 0);
  }

  /** The parts joined by the separator, or the fixed no-insights text when there are none. */
  function ReportOf(sections: seq<Section>, fmt: Formatter): string
  {
    var parts := RenderAll(sections, fmt);
    if |parts| == 0 then NoInsightsText else Seqs.Join(parts, Separator)
  }

  /** The report of `getFinancialAnalysis`. */
  function Report(txs: seq<Transaction>, today: int, fmt: Formatter): string
  {
    ReportOf(Sections(txs, today), fmt)
  }

  /** A section heading: "# ", then a mark that is not the letter N. */
  predicate Headed(s: string)
  {
    |s| >= 3 && s[0] == '#' && s[1] == ' ' && s[2] != 'N'
  }

  lemma HeadingIsHeaded(s: Section)
    ensures Headed(Heading(s))
  {
  }

  lemma HeadedPrefix(h: string, rest: string)
    requires Headed(h)
    ensures Headed(h + rest)
  {
  }

  /** Every rendered section opens with a heading, never with the no-insights title. */
  lemma RenderOpening(s: Section, fmt: Formatter)
    ensures Headed(Render(s, fmt))
  {
    HeadingIsHeaded(s);
    HeadedPrefix(Heading(s), Body(s, fmt));
  }

  /**
   * A report of sections is the no-insights text exactly when there is no
   * section; otherwise it is the rendered parts joined by the separator, and
   * it opens with the first rendered section.
   */
  lemma ReportOfNoInsightsIff(sections: seq<Section>, fmt: Formatter)
    ensures ReportOf(sections, fmt) == NoInsightsText <==> sections == []
    ensures sections != [] ==> ReportOf(sections, fmt) == Seqs.Join(RenderAll(sections, fmt), Separator)
    ensures sections != [] ==> Render(sections[0], fmt) <= ReportOf(sections, fmt)
  {
    if sections != [] {
      Seqs.JoinStartsWithFirst(RenderAll(sections, fmt), Separator);
      var parts := RenderAll(sections, fmt);
      RenderAllHead(sections, fmt);
      RenderOpening(sections[0], fmt);
      JoinHeaded(parts);
      NoInsightsNotHeaded();
    }
  }

  lemma NoInsightsNotHeaded()
    ensures !Headed(NoInsightsText)
  {
    assert NoInsightsTitle[2] == 'N';
  }

  lemma JoinHeaded(parts: seq<string>)
    requires parts != [] && Headed(parts[0])
    ensures Headed(Seqs.Join(parts, Separator))
  {
    Seqs.JoinStartsWithFirst(parts, Separator);
  }

  /** The report is the fixed no-insights text exactly when there are no transactions. */
  lemma ReportIsNoInsightsIff(txs: seq<Transaction>, today: int, fmt: Formatter)
    ensures Report(txs, today, fmt) == NoInsightsText <==> txs == []
  {
    NoSectionsIff(txs, today);
    ReportOfNoInsightsIff(Sections(txs, today), fmt);
  }

  // ----------------------------------------------------- the imperative builder

  /** Appends one line per bill to `section`, as the `forEach` does. */
  method AppendBillLines(section: string, bills: seq<Transaction>, verb: string, fmt: Formatter) returns (result: string)
    ensures result == section + BillLines(bills, verb, fmt)
  {
    result := section;
    var i := 0;
    while i < |bills|
      invariant 0 <= i <= |bills|
      invariant result == section + BillLines(bills[..i], verb, fmt)
    {
      assert bills[..i + 1][..i] == bills[..i];
      result := result + BillLine(bills[i], verb, fmt);
      i := i + 1;
    }
    assert bills[..|bills|] == bills;
  }

  /** A bill section built as the source does: heading, intro, list title, then one line per bill. */
  method BuildBillSection(heading: string, intro: string, title: string, bills: seq<Transaction>, verb: string, fmt: Formatter)
    returns (section: string)
    ensures section == heading + (intro + title + BillLines(bills, verb, fmt))
  {
    section := heading;
    section := section + intro;
    section := section + title;
    section := AppendBillLines(section, bills, verb, fmt);
  }

  /** Rule 1: pushes the overdue-bills section when there is an overdue bill. */
  method ApplyOverdueRule(analysisParts: seq<string>, txs: seq<Transaction>, today: int, fmt: Formatter)
    returns (parts: seq<string>)
    ensures parts == analysisParts + RenderAll(OverdueRule(txs, today), fmt)
  {
    parts := analysisParts;
    var overdueBills := Seqs.SortBy(Seqs.Filter(Expenses(txs), OverdueTest(today)), DueKey);
    if |overdueBills| > 0 {
      var section := BuildBillSection(OverdueHeading, OverdueIntro, OverdueListTitle, overdueBills, OverdueVerb, fmt);
      RenderAllOne(OverdueSection(overdueBills), fmt);
      parts := parts + [section];
    }
  }

  /** Rule 2: pushes the upcoming-bills section when a bill falls due within seven days. */
  method ApplyUpcomingRule(analysisParts: seq<string>, txs: seq<Transaction>, today: int, fmt: Formatter)
    returns (parts: seq<string>)
    ensures parts == analysisParts + RenderAll(UpcomingRule(txs, today), fmt)
  {
    parts := analysisParts;
    var upcomingBills := Seqs.SortBy(Seqs.Filter(Expenses(txs), UpcomingTest(today)), DueKey);
    if |upcomingBills| > 0 {
      var section := BuildBillSection(UpcomingHeading, UpcomingIntro, UpcomingListTitle, upcomingBills, UpcomingVerb, fmt);
      RenderAllOne(UpcomingSection(upcomingBills), fmt);
      parts := parts + [section];
    }
  }

  /** Rule 3: pushes the section naming the first category of the totals sorted largest first. */
  method ApplyTopCategoryRule(analysisParts: seq<string>, txs: seq<Transaction>, fmt: Formatter)
    returns (parts: seq<string>)
    ensures parts == analysisParts + RenderAll(TopCategoryRule(txs), fmt)
  {
    parts := analysisParts;
    var expenses := Expenses(txs);
    if |expenses| > 0 {
      var expenseByCategory := Accumulate(expenses);
      var sorted := SortByValueDesc(expenseByCategory);
      if sorted != [] {
        var highest := sorted[0];
        var section := TopSpendingHeading + TopSpendingBody(highest.name, highest.value, fmt);
        RenderAllOne(TopSpendingSection(highest.name, highest.value), fmt);
        parts := parts + [section];
      }
    }
  }

  /** Rule 4: pushes at most one commentary on income against expenses. */
  method ApplyBalanceRule(analysisParts: seq<string>, income: real, expenseTotal: real, fmt: Formatter)
    returns (parts: seq<string>)
    ensures parts == analysisParts + RenderAll(BalanceRule(income, expenseTotal), fmt)
  {
    parts := analysisParts;
    var balance := income - expenseTotal;
    if income > 0.0 || expenseTotal > 0.0 {
      var commentary: Option<Section> := None;
      if expenseTotal > income {
        commentary := Some(NegativeBalanceSection(expenseTotal, income));
      } else if income > 0.0 && expenseTotal > income * 0.8 {
        commentary := Some(BudgetCautionSection(expenseTotal, income));
      } else if income > 0.0 && balance >= 0.0 {
        commentary := Some(PositiveBalanceSection(balance));
      }
      if commentary.Some? {
        var section := Heading(commentary.value);
        section := section + Body(commentary.value, fmt);
        RenderAllOne(commentary.value, fmt);
        parts := parts + [section];
      }
    }
  }

  /** Rule 5: pushes the general tips when fewer than two sections were pushed and there is a transaction. */
  method ApplyTipsRule(analysisParts: seq<string>, ghost fired: seq<Section>, txs: seq<Transaction>, fmt: Formatter)
    returns (parts: seq<string>)
    requires |analysisParts| == |fired|
    ensures parts == analysisParts + RenderAll(TipsRule(txs, fired), fmt)
  {
    parts := analysisParts;
    if |parts| < 2 && |txs| > 0 {
      var section := TipsHeading + GeneralTipsBody;
      RenderAllOne(GeneralTipsSection, fmt);
      parts := parts + [section];
    }
  }

  /** `getFinancialAnalysis`: the parts list is grown rule by rule, then joined. */
  method GetFinancialAnalysis(data: PersonData, today: int, fmt: Formatter) returns (report: string)
    ensures report == Report(data.transactions, today, fmt)
  {
    var txs := data.transactions;
    var analysisParts: seq<string> := [];
    analysisParts := ApplyOverdueRule(analysisParts, txs, today, fmt);
    analysisParts := ApplyUpcomingRule(analysisParts, txs, today, fmt);
    analysisParts := ApplyTopCategoryRule(analysisParts, txs, fmt);
    var income := Sum(Incomes(txs));
    var expenseTotal := Sum(Expenses(txs));
    analysisParts := ApplyBalanceRule(analysisParts, income, expenseTotal, fmt);

    ghost var a, b, c, d := OverdueRule(txs, today), UpcomingRule(txs, today), TopCategoryRule(txs), BalanceRule(income, expenseTotal);
    assert [] + RenderAll(a, fmt) == RenderAll(a, fmt);
    RenderAllConcat(a, b, fmt);
    RenderAllConcat(a + b, c, fmt);
    RenderAllConcat(a + b + c, d, fmt);
    ghost var fired := a + b + c + d;
    assert fired == RuleSections(txs, today);
    assert analysisParts == RenderAll(fired, fmt);

    analysisParts := ApplyTipsRule(analysisParts, fired, txs, fmt);
    RenderAllConcat(fired, TipsRule(txs, fired), fmt);
    assert analysisParts == RenderAll(Sections(txs, today), fmt);

    if |analysisParts| == 0 {
      report := NoInsightsText;
    } else {
      report := Seqs.Join(analysisParts, Separator);
    }
  }
}
