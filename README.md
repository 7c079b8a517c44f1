# Couple finance tracker: a verified model of its derived figures and rules

The application is a client-side finance tracker. One person (or a couple, in
the combined view) records income and expense transactions and savings goals.
Most of the code is React rendering. The part modelled here is the
deterministic logic inside it:

- **The rule-based advisory report** (`services/geminiService.ts`). It is built
  from the transactions and today's date, section by section, in a fixed order:
  overdue bills, bills due within seven days, the largest spending category,
  one income-versus-expense commentary, and a generic-tips fallback. The parts
  are joined with a separator; when no section fires, a fixed "no insights"
  text is returned instead.
  - The report is modelled twice. The pure function `Advisory.Report` works on
    a `Section` datatype. The method `Advisory.GetFinancialAnalysis` mirrors the
    imperative original (a `parts` accumulator, sections built with `+=`, the
    bill loops) and is proved to return exactly `Report`.
- **The aggregations of the dashboards**:
  - type-filtered totals and the balance;
  - the per-category expense dictionary, which `reduce` builds in insertion
    order and which is then sorted largest first;
  - the top category and the largest single expense;
  - the savings rate and its bands;
  - the six-month history (`dashboard.dfy`);
  - the chart breakdown with its share guard and colour cycle
    (`analysis_dashboard.dfy`);
  - the couple totals over both persons' concatenated lists
    (`combined_view.dfy`).
- **The savings-goal panel** (`savings_goal_panel.dfy`):
  - progress and its capped bar;
  - the cents mask of the deposit field and the pt-BR amount parser, proved to
    round-trip;
  - the deposit and goal-creation guards;
  - the 5/10/15% suggestions, "apply to first goal" and the prefilled creation
    form.
  - The two components whose state changes in place are classes: `GoalCard`
    and `PanelState`.
- **One person's panel** (`finance_panel.dfy`): the totals, the overdue badge,
  the entry form (the class `EntryForm`), the category choices per type and
  the newest-first history.
- **The root state** (`app.dfy`): appending a transaction, renaming, choosing
  the initial document from storage, and the theme switch (the class
  `AppState`).

Shared pieces:

- `types.dfy` holds the data model.
- `seqs.dfy` holds the JavaScript array operations the code relies on:
  - `filter`;
  - the comparator `sort`, which is stable, as in modern engines; it is
    modelled as a stable insertion sort on a numeric key;
  - `map`, `join` and `reverse`.
- `js_text.dfy` holds the string primitives: `trim`, the regular-expression
  replacements, `parseFloat` and `toString` of whole numbers.

Modelling conventions:

- **Amounts** are exact `real`s.
- **Due dates** are whole day numbers.
- **A creation date** keeps the calendar fields the code reads from it.
- **A JavaScript object used as a dictionary** is a sequence of entries in
  first-insertion order.
- **`null`/`undefined` and NaN** become `None`.
- **Money and date formatting inside the report** are parameters (`Formatter`),
  since their locale output is not part of the logic.

One behaviour of the code is modelled as written and proved as such: the
entry form keeps its category when the type buttons switch between income and
expense. The initial category `Alimentação` is an expense choice, so an income
submitted without touching the select is filed under it
(`FinancePanel.IncomeUnderExpenseCategory`).

## Model

| member | source | states |
|---|---|---|
| Seqs.FilterMembership | services/geminiService.ts:11 | `filter` keeps exactly the elements of the input that satisfy the test |
| Seqs.SortBySpec | services/geminiService.ts:16 | the comparator sort on a numeric key yields a permutation of its input, ordered by the key |
| Seqs.SortByHead | components/Dashboard.tsx:106-109 | the first element after sorting is the earliest element of the input with the least key (stable sort) |
| Seqs.ReverseAt | components/FinancePanel.tsx:224 | element i of the reversed list is element i counted from the end |
| Types.NewTransaction | App.tsx:55-59 | the new transaction carries every field the form supplied, plus the generated id and date |
| Aggregation.ComputeTotals | components/Dashboard.tsx:60-68 | balance is income minus expense; it equals the one-pass signed sum (incomes added, expenses subtracted); income plus expense is the gross sum |
| Aggregation.BalanceIsNet | components/Dashboard.tsx:60-68 | the two-filter computation of the balance equals the reference one-pass signed sum |
| Aggregation.TotalsOfConcat | components/CombinedView.tsx:25-27 | income and expense totals of a concatenation are the sums of the parts' totals |
| Aggregation.CategoryTotalConcat | components/CombinedView.tsx:30-35 | a category's summed amount over a concatenation is the sum over the two parts |
| Aggregation.CategoryTotalAbsent | components/Dashboard.tsx:99-104 | a category with no transaction sums to 0 |
| Aggregation.FindName | components/Dashboard.tsx:102 | the lookup `acc[c]` yields the position holding key c, or -1 exactly when no entry holds it |
| Aggregation.AppendOne | components/Dashboard.tsx:101-104 | one more transaction adds its category and adds its amount to the sum and to its own category only |
| Aggregation.AddToNewKey | components/Dashboard.tsx:102 | adding a key the dictionary lacks appends it with the amount and keeps the dictionary in step with the transactions |
| Aggregation.AppendEntry | components/Dashboard.tsx:102 | appending an entry under a new key keeps keys distinct and adds exactly that key |
| Aggregation.AddToExistingKey | components/Dashboard.tsx:102 | adding to a present key updates it in place and keeps the dictionary in step with the transactions |
| Aggregation.AddToPreserves | components/Dashboard.tsx:101-104 | one step of the reduce keeps the dictionary exact for the transactions seen so far |
| Aggregation.AccumulateSpec | components/Dashboard.tsx:99-104 | the reduce yields distinct keys that are exactly the input's categories, each with that category's summed amount, values adding up to the input's sum |
| Aggregation.SortByValueDesc | components/Dashboard.tsx:106-107 | sorting keeps the number of entries |
| Aggregation.SortByValueDescSpec | components/Dashboard.tsx:106-107 | the sorted entries are a permutation with non-increasing values, the same distinct keys and the same sum |
| Aggregation.SortedCategoriesSpec | services/geminiService.ts:51-56 | the sorted expense categories are one per expense category, each with its total, non-increasing, summing to the expense total, empty exactly when there is no expense |
| Aggregation.SortedHeadIsFirstMaximum | services/geminiService.ts:56 | the head of the sorted list has the largest value and is the earliest-inserted entry with that value (stable tie-break) |
| Advisory.ExpensesMembership | services/geminiService.ts:11 | a transaction is among the expenses exactly when it is in the list with type expense |
| Advisory.OverdueBillsSpec | services/geminiService.ts:14-16 | the overdue list holds exactly the expenses with a due date strictly before today, is a permutation of the filtered list, and is sorted ascending by due date |
| Advisory.UpcomingBillsSpec | services/geminiService.ts:29-37 | the upcoming list holds exactly the expenses due 0 to 7 days after today (today included, today + 8 excluded), sorted ascending by due date |
| Advisory.OverdueUpcomingDisjoint | services/geminiService.ts:15 | with whole-day dates no bill is both overdue and upcoming |
| Advisory.CeilDiv | services/geminiService.ts:34 | `Math.ceil(x / y)` for a positive divisor is the least q with x <= q * y |
| Advisory.InstantsAgreeAtUtc | services/geminiService.ts:31-35 | for a clock at UTC the millisecond comparisons agree with the whole-day overdue and upcoming tests |
| Advisory.DueTodayOverdueWestOfUtc | services/geminiService.ts:15 | west of UTC, a bill due today is both overdue and upcoming when compared at instants |
| Advisory.SeventhDayMissedEastOfUtc | services/geminiService.ts:31-35 | east of UTC, a bill due in seven days is not counted as upcoming when compared at instants |
| Advisory.DueYesterdayUpcomingEastOfUtc | services/geminiService.ts:14-35 | east of UTC, a bill due yesterday is both overdue and upcoming when compared at instants |
| Advisory.OverdueRule | services/geminiService.ts:18-26 | the overdue rule emits at most one section, of the first rank |
| Advisory.UpcomingRule | services/geminiService.ts:39-47 | the upcoming rule emits at most one section, of the second rank |
| Advisory.TopCategoryRule | services/geminiService.ts:50-64 | the category rule emits at most one section, of the third rank |
| Advisory.BalanceRule | services/geminiService.ts:71-88 | the balance rule emits at most one section, of the fourth rank |
| Advisory.TipsRule | services/geminiService.ts:91-96 | the tips rule emits at most one section, of the last rank |
| Advisory.BalanceRuleSpec | services/geminiService.ts:71-88 | exactly one commentary when income or expense is positive and none otherwise: negative when expense > income, else caution when income > 0 and expense > 0.8 income, else positive when income > 0 and balance >= 0 |
| Advisory.SectionsInFixedOrder | services/geminiService.ts:13-96 | sections come in the order overdue, upcoming, category, balance, tips, each at most once |
| Advisory.RanksIncrease | services/geminiService.ts:13-96 | appending the rules' outputs in program order gives strictly increasing ranks |
| Advisory.TopCategoryRuleSpec | services/geminiService.ts:50-63 | the category section is present exactly when there is an expense, and names an expense category whose total is at least every category's total |
| Advisory.TipsRuleSpec | services/geminiService.ts:91-96 | the tips section is present exactly when fewer than two sections fired before it and the list is non-empty |
| Advisory.RuleSectionsRanks | services/geminiService.ts:13-88 | no rule before the tips emits a tips-ranked section |
| Advisory.NoSectionsIff | services/geminiService.ts:91-98 | no section fires exactly when there is no transaction |
| Advisory.IncomeOnly | services/geminiService.ts:71-96 | with incomes only and a positive income, the report opens with the positive-balance section and holds nothing but that and tips |
| Advisory.RenderAll | services/geminiService.ts:25 | one rendered part per section |
| Advisory.RenderAllConcat | services/geminiService.ts:25 | rendering a concatenation of sections renders each part in turn |
| Advisory.RenderAllHead | services/geminiService.ts:101 | the first part is the first section rendered |
| Advisory.HeadingIsHeaded | services/geminiService.ts:19 | every section heading starts with a Markdown "# " |
| Advisory.RenderOpening | services/geminiService.ts:19-25 | every rendered section starts with "# " |
| Advisory.NoInsightsNotHeaded | services/geminiService.ts:99 | the no-insights text does not start like a section |
| Advisory.JoinHeaded | services/geminiService.ts:101 | the join of parts whose first part is headed is headed |
| Advisory.ReportOfNoInsightsIff | services/geminiService.ts:98-101 | the result is the no-insights text exactly when no section fired; otherwise it is the parts joined with the separator and opens with the first rendered section |
| Advisory.ReportIsNoInsightsIff | services/geminiService.ts:98-99 | the report is the no-insights text exactly when the transaction list is empty |
| Advisory.AppendBillLines | services/geminiService.ts:22-24 | the `forEach` loop appends one line per bill, in list order |
| Advisory.BuildBillSection | services/geminiService.ts:19-24 | a bill section is its heading, intro, list title and bill lines in order |
| Advisory.ApplyOverdueRule | services/geminiService.ts:18-26 | the parts grow by the overdue rule's rendered section, if any |
| Advisory.ApplyUpcomingRule | services/geminiService.ts:39-47 | the parts grow by the upcoming rule's rendered section, if any |
| Advisory.ApplyTopCategoryRule | services/geminiService.ts:50-64 | the parts grow by the category rule's rendered section, if any |
| Advisory.ApplyBalanceRule | services/geminiService.ts:71-88 | the parts grow by the balance rule's rendered section, if any |
| Advisory.ApplyTipsRule | services/geminiService.ts:91-96 | the parts grow by the tips section when fewer than two parts exist and there is a transaction |
| Advisory.GetFinancialAnalysis | services/geminiService.ts:7-102 | the imperative report builder returns exactly the pure report of the transactions and today |
| Dashboard.MonthOf | components/Dashboard.tsx:75 | the normalised month is in 0..11 |
| Dashboard.BalanceHistory | components/Dashboard.tsx:71-96 | the loop yields exactly six entries, entry k being the figures of the month k - 5 months from now |
| Dashboard.HistoryMonthsConsecutive | components/Dashboard.tsx:74-75 | the six entries cover consecutive calendar months, oldest first, the last being the current month |
| Dashboard.HistoryEntryBalance | components/Dashboard.tsx:92 | each entry's balance is its income minus its expense |
| Dashboard.CountedInOwnMonth | components/Dashboard.tsx:76-80 | a transaction counts in a month's bucket exactly when its own month and year are that month |
| Dashboard.EmptyMonthIsZero | components/Dashboard.tsx:82-95 | a month without transactions gives zero income, expense and balance |
| Dashboard.ExpenseByCategory | components/Dashboard.tsx:99-104 | the loop that updates the dictionary in place yields the reduce's dictionary |
| Dashboard.ExpenseByCategorySpec | components/Dashboard.tsx:99-104 | the dictionary's keys are exactly the expense categories, each with its total, values adding up to the expense total |
| Dashboard.TopCategorySpec | components/Dashboard.tsx:106-109 | with no expense the top category is `['', 0]`; otherwise it is an expense category whose total is at least every category's |
| Dashboard.MaxWithZero | components/Dashboard.tsx:110-112 | `Math.max(..., 0)` is at least 0 and every amount, and equals one of them or 0 |
| Dashboard.BiggestExpenseSpec | components/Dashboard.tsx:110-112 | the biggest expense is at least 0 and every expense amount, and is one of them or 0 |
| Dashboard.SavingsRate | components/Dashboard.tsx:118 | 0 when income is not positive (no division by zero); otherwise rate times income equals (income - expense) * 100 |
| Dashboard.BandSpec | components/Dashboard.tsx:238-241 | the bands partition the rates: above 20, above 10 up to 20, at most 10 |
| Dashboard.ControlledIffExcellent | components/Dashboard.tsx:426-438 | with positive income, spending is controlled (expense < 0.8 income) exactly when the savings band is excellent |
| Dashboard.SummaryCards | components/Dashboard.tsx:221-230 | the balance card is positive exactly when expense does not exceed income; without expenses the top-category card reads "Sem dados" with no amount |
| Dashboard.ComputeMetrics | components/Dashboard.tsx:59-131 | the block's figures: totals, balance, the six-entry history, the dictionary, top category, biggest expense, expense / 6 and the savings rate |
| AnalysisDashboard.MapBreakdownSum | components/AnalysisDashboard.tsx:55-60 | mapping entries to slices keeps the sum of values |
| AnalysisDashboard.MappedSlices | components/AnalysisDashboard.tsx:55-60 | each slice carries its key, its value and the expense total |
| AnalysisDashboard.BreakdownEntries | components/AnalysisDashboard.tsx:41-61 | every slice names an expense category, carries that category's total, and its total field is the expense total |
| AnalysisDashboard.BreakdownCovers | components/AnalysisDashboard.tsx:47-60 | every expense category has a slice |
| AnalysisDashboard.BreakdownOrder | components/AnalysisDashboard.tsx:55-61 | slice names are distinct, values non-increasing, and values add up to the expense total |
| AnalysisDashboard.BreakdownEmptyIff | components/AnalysisDashboard.tsx:86 | the breakdown (and so the empty-state view) is empty exactly when there is no expense |
| AnalysisDashboard.SharePercent | components/AnalysisDashboard.tsx:161-164 | 0 when the total is not positive (no division by zero); otherwise share times total equals value * 100 |
| AnalysisDashboard.SharesScale | components/AnalysisDashboard.tsx:161-164 | with a positive total, the shares add up to the values' sum * 100 / total |
| AnalysisDashboard.SharesAddUpTo100 | components/AnalysisDashboard.tsx:140-142 | with a positive expense total, the slices' shares add up to 100 |
| AnalysisDashboard.ColorCycle | components/AnalysisDashboard.tsx:118 | colours repeat every eight slices and neighbouring slices never share one |
| CombinedView.AllTransactions | components/CombinedView.tsx:25 | the combined list is person 1's transactions followed by person 2's |
| CombinedView.CombinedTotals | components/CombinedView.tsx:26-28 | combined income and expense are the sums of each person's totals; the balance is their difference and the sum of both balances |
| CombinedView.CategoriesConcat | components/CombinedView.tsx:30-35 | the categories of a concatenation are the union of the parts' categories |
| CombinedView.CombinedCategories | components/CombinedView.tsx:30-39 | one entry per category either person spent in, each the two persons' sums added, distinct, non-increasing, adding up to the combined expense |
| SavingsGoalPanel.Progress | components/SavingsGoalPanel.tsx:33-34 | 0 for a non-positive target; otherwise progress times target equals current * 100 |
| SavingsGoalPanel.BarWidth | components/SavingsGoalPanel.tsx:95 | the bar is at most 100 and at most the progress, and is either the progress or 100 |
| SavingsGoalPanel.GoalReachedIff | components/SavingsGoalPanel.tsx:100 | with a positive target the note shows exactly when current >= target; with none it never shows |
| SavingsGoalPanel.BarFullIffReached | components/SavingsGoalPanel.tsx:95-100 | the bar is full exactly when the note shows |
| SavingsGoalPanel.TwoDigits | components/SavingsGoalPanel.tsx:44-47 | the cents are written as exactly two digits |
| SavingsGoalPanel.TwoDigitsValue | components/SavingsGoalPanel.tsx:44-47 | the two cent digits read back as the cents |
| SavingsGoalPanel.RemoveDotsOfDigits | components/SavingsGoalPanel.tsx:15 | removing dots leaves a run of digits unchanged |
| SavingsGoalPanel.RemoveDotsGrouped | components/SavingsGoalPanel.tsx:15 | removing dots from dot-grouped digits gives the digits back |
| SavingsGoalPanel.RemoveDotsAround | components/SavingsGoalPanel.tsx:15 | removing dots drops a separating dot and keeps both sides |
| SavingsGoalPanel.RemoveDotsConcat | components/SavingsGoalPanel.tsx:15 | removing dots works part by part |
| SavingsGoalPanel.FormatCentsRoundTrip | components/SavingsGoalPanel.tsx:13-17 | a cents value written pt-BR style (dot thousands, comma decimals) parses back to cents / 100 |
| SavingsGoalPanel.CentsValue | components/SavingsGoalPanel.tsx:16 | the units digits, a dot and the two cent digits parse to cents / 100 |
| SavingsGoalPanel.DecimalParse | components/SavingsGoalPanel.tsx:16 | digits, a dot and two digits parse to their value over 100 |
| SavingsGoalPanel.FractionValue | components/SavingsGoalPanel.tsx:16 | two fraction digits weigh as hundredths |
| SavingsGoalPanel.DepositMaskRoundTrip | components/SavingsGoalPanel.tsx:36-50 | the masked field reads back as the typed digits over 100, and as 0 when no digit was typed |
| SavingsGoalPanel.AcceptedDeposit | components/SavingsGoalPanel.tsx:53-54 | a deposit is allowed exactly when the field parses to a number above 0 |
| SavingsGoalPanel.EmptyFieldNeverDeposits | components/SavingsGoalPanel.tsx:52-58 | a field with no digits or only zeros never deposits |
| SavingsGoalPanel.GoalCard.constructor | components/SavingsGoalPanel.tsx:32 | a card starts with an empty deposit field |
| SavingsGoalPanel.GoalCard.HandleDepositAmountChange | components/SavingsGoalPanel.tsx:36-50 | the field becomes the masked text of the input |
| SavingsGoalPanel.GoalCard.HandleDeposit | components/SavingsGoalPanel.tsx:52-58 | when the amount is a number above 0, deposit it into this goal and clear the field; otherwise no call and no change |
| SavingsGoalPanel.SuggestionsSpec | components/SavingsGoalPanel.tsx:166-169 | three suggestions, 5%, 10% and 15% in order, each the balance times its percent, increasing and below the balance |
| SavingsGoalPanel.RoundedCents | components/SavingsGoalPanel.tsx:176 | the nearest whole number of cents, halves away from zero |
| SavingsGoalPanel.ToFixed2 | components/SavingsGoalPanel.tsx:176 | rounding to two decimals moves the value by at most half a cent |
| SavingsGoalPanel.ToFixed2Idempotent | components/SavingsGoalPanel.tsx:176 | rounding twice is rounding once |
| SavingsGoalPanel.ApplyToFirstGoal | components/SavingsGoalPanel.tsx:173-181 | no call exactly when there is no goal; otherwise a deposit into the first goal of the amount rounded to two decimals |
| SavingsGoalPanel.Ceil | components/SavingsGoalPanel.tsx:338 | `Math.ceil` is the least whole number not below the value |
| SavingsGoalPanel.PrefillPassesGuard | components/SavingsGoalPanel.tsx:337-338 | a form prefilled from a positive suggestion passes the creation guard, with a whole target that covers the suggestion |
| SavingsGoalPanel.PrefillNameNotBlank | components/SavingsGoalPanel.tsx:337 | the prefilled name is not blank |
| SavingsGoalPanel.PanelState.constructor | components/SavingsGoalPanel.tsx:137-142 | the panel starts closed, with empty fields and no suggestions |
| SavingsGoalPanel.PanelState.OpenForm | components/SavingsGoalPanel.tsx:256 | opens the creation form and changes nothing else |
| SavingsGoalPanel.PanelState.CancelForm | components/SavingsGoalPanel.tsx:241 | closes the form and keeps what was typed |
| SavingsGoalPanel.PanelState.SetGoalName | components/SavingsGoalPanel.tsx:226 | replaces the name field only |
| SavingsGoalPanel.PanelState.SetTargetAmount | components/SavingsGoalPanel.tsx:234 | replaces the target field only |
| SavingsGoalPanel.PanelState.HandleCreateGoal | components/SavingsGoalPanel.tsx:145-156 | with a non-blank name and a target parsing above 0, hands over the untrimmed name and the target, then clears and closes the form; otherwise nothing changes |
| SavingsGoalPanel.PanelState.SuggestSaveAmount | components/SavingsGoalPanel.tsx:158-171 | refused exactly when the balance is not positive (nothing changes); otherwise opens the three suggestions |
| SavingsGoalPanel.PanelState.CloseSuggestions | components/SavingsGoalPanel.tsx:292 | closes the suggestions only |
| SavingsGoalPanel.PanelState.CreateGoalFromSuggestion | components/SavingsGoalPanel.tsx:336-341 | prefills "Nova Meta" and the rounded-up amount, opens the form and closes the suggestions |
| SavingsGoalPanel.PrefillThenCreate | components/SavingsGoalPanel.tsx:336-341 | submitting a form prefilled from a positive suggestion creates "Nova Meta" with the rounded-up target |
| JsText.TrimStart | components/SavingsGoalPanel.tsx:147 | trimming the start keeps a suffix that does not start with white space |
| JsText.TrimEnd | components/SavingsGoalPanel.tsx:147 | trimming the end keeps a prefix that does not end with white space |
| JsText.TrimEmptyIff | components/SavingsGoalPanel.tsx:147 | a string trims to nothing exactly when all its characters are white space |
| JsText.NotBlank | components/SavingsGoalPanel.tsx:147 | a string with a character that is not white space trims to something |
| JsText.NatToStringValue | components/SavingsGoalPanel.tsx:338 | the decimal digits of a whole number read back as that number |
| JsText.DigitPrefixOfDigits | components/SavingsGoalPanel.tsx:16 | `parseFloat` reads the whole run of leading digits |
| JsText.ParseFloatDecimal | components/SavingsGoalPanel.tsx:16 | `parseFloat` of digits, a dot and digits is their decimal value |
| JsText.ParseFloatDigitStart | components/SavingsGoalPanel.tsx:16 | input starting with a digit is read without sign or white space |
| JsText.ParseUnsignedSplit | components/SavingsGoalPanel.tsx:16 | the mantissa starts after the leading digits |
| JsText.ParseMantissaFraction | components/SavingsGoalPanel.tsx:16 | a fraction with nothing after it has no exponent |
| JsText.ParseFloatNat | components/SavingsGoalPanel.tsx:338 | the digits of a whole number parse back to it |
| JsText.KeepDigits | components/SavingsGoalPanel.tsx:39 | only digits remain |
| JsText.RemoveDots | components/SavingsGoalPanel.tsx:15 | no '.' remains |
| JsText.ReplaceFirstComma | components/SavingsGoalPanel.tsx:15 | the length is unchanged |
| JsText.ReplaceFirstCommaAfter | components/SavingsGoalPanel.tsx:15 | only the first ',' becomes '.' |
| FinancePanel.PanelTotals | components/FinancePanel.tsx:60-65 | income and expense are the type-filtered sums; balance is their difference and the one-pass signed sum |
| FinancePanel.IsOverdueAgreesWithReport | components/FinancePanel.tsx:20-25 | a row is overdue exactly when its transaction is on the report's overdue list; incomes and undated expenses never are |
| FinancePanel.BadgeAgreesAtUtc | components/FinancePanel.tsx:19-24 | for a clock at UTC the badge computed on instants is the whole-day badge |
| FinancePanel.DueTodayBadgeWestOfUtc | components/FinancePanel.tsx:24 | west of UTC an expense due today carries the badge on instants, though it is not overdue in whole days |
| FinancePanel.HistoryNewestFirst | components/FinancePanel.tsx:224 | history row i is the i-th transaction counted from the end; the placeholder shows exactly when there is none |
| FinancePanel.CategoryChoicesSpec | components/FinancePanel.tsx:89-91 | four income choices and eight expense choices; the initial category is an expense choice only |
| FinancePanel.RecordDueDate | components/FinancePanel.tsx:75-81 | the record carries a due date exactly when the type is expense and a date was given, and then it is that date |
| FinancePanel.EntryForm.constructor | components/FinancePanel.tsx:54-58 | the form starts empty, with category "Alimentação" and type expense |
| FinancePanel.EntryForm.SetFormType | components/FinancePanel.tsx:134-140 | switches the type and keeps the category |
| FinancePanel.EntryForm.SetDescription | components/FinancePanel.tsx:158 | replaces the description only |
| FinancePanel.EntryForm.SetAmount | components/FinancePanel.tsx:173 | replaces the amount only |
| FinancePanel.EntryForm.SetCategory | components/FinancePanel.tsx:203 | replaces the category only |
| FinancePanel.EntryForm.SetDueDate | components/FinancePanel.tsx:189 | replaces the due date only |
| FinancePanel.EntryForm.HandleSubmit | components/FinancePanel.tsx:67-87 | with a description and an amount parsing above 0, hands over the record and clears description, amount and due date, keeping category and type; otherwise nothing changes |
| FinancePanel.IncomeUnderExpenseCategory | components/FinancePanel.tsx:56-91 | an income submitted from the fresh form after switching type is filed under "Alimentação", which is not an income choice |
| App.AddTransaction | App.tsx:54-65 | exactly one transaction, the new one, is appended at the end; earlier transactions, the name and the goals are unchanged |
| App.AddTransactionTotals | App.tsx:61-64 | adding raises the total of the new transaction's type by its amount and leaves the other total unchanged |
| App.Rename | App.tsx:67-72 | only the name is replaced |
| App.RenameLastWins | App.tsx:67-72 | the last of two renames wins, and renaming commutes with adding |
| App.Lookup | App.tsx:22 | a member is found exactly when some member has that key |
| App.LookupLastOccurrence | App.tsx:22 | a found member holds the value of the last member with that key, as `JSON.parse` keeps the last of repeated keys |
| App.LoadInitialState | App.tsx:16-30 | the stored document is used as it is exactly when it parsed, its name is truthy and its transactions are an array; otherwise the default "Meu Painel" with no transactions |
| App.SavedDocumentRestored | App.tsx:22 | a stored object with a string name and an array of transactions is restored exactly when the name is not empty |
| App.LookupSkipsTail | App.tsx:22 | members with other keys after the one sought do not change the lookup |
| App.InitialTheme | App.tsx:32-41 | the stored theme if any, else dark exactly when the system prefers dark |
| App.Toggled | App.tsx:74-76 | toggling always changes the theme |
| App.ToggleTwice | App.tsx:74-76 | toggling twice restores the theme |
| App.AppState.constructor | App.tsx:16-41 | the state starts from the chosen document and the initial theme |
| App.AppState.HandleAddTransaction | App.tsx:54-65 | the document becomes the appended one; the theme is unchanged |
| App.AppState.HandleNameChange | App.tsx:67-72 | the document becomes the renamed one; the theme is unchanged |
| App.AppState.ToggleTheme | App.tsx:74-76 | the theme is toggled; the document is unchanged |

## Left out

- Floating point. Amounts are exact reals, so binary rounding is not modelled:
  `0.1 + 0.2`, `toFixed` on values such as 1.005, and the precision lost by
  `Number(rawValue)` for very long digit strings.
- Locale formatting inside the report and the views: `toLocaleString` for
  money and dates, `Intl.NumberFormat`, compact currency, month labels, the
  rounded share text. The report takes money and date formatters as
  parameters. The one format modelled is the pt-BR cents text of the deposit
  field: thousands grouped with '.', decimals with ','.
- The clock and time zones as effects. Today is a day number and the current
  month a calendar date, both given as parameters. The generated id
  (`tx-<milliseconds>`) and the creation date are parameters of
  `App.AddTransaction`. The difference between UTC and local midnight is
  modelled separately, under "Findings".
- The 500 ms `setTimeout` and Promise around the report: its body runs
  synchronously.
- `localStorage` reads and writes, the `JSON.parse` text parser, `console.error`
  and the `matchMedia` query. The loader receives storage's content already
  classified as missing, unparsable or parsed, and the theme initialiser
  receives the stored theme and the system preference as values. A stored
  theme string other than light or dark is not modelled.
- App.LoadInitialState: the accepted document is kept as a JSON value. The
  source uses it unchecked as a person's document, so no conversion into
  `PersonData` is modelled.
- The effect of the handlers the savings panel receives (`onDepositToGoal`,
  `onAddGoal`): their implementation is not part of this model. The model
  states only which call is made, with which arguments.
- Toast timers, `alert` and the clipboard. A refused suggestion or submit is
  reported as a value, or as "no change".
- The hover state of the chart, recharts, icons, Tailwind classes and all JSX.
  The header, action panel, PDF generator (jsPDF) and AI assistant components
  are not part of this model.
- The key order of JavaScript objects. Integer-like keys are listed first in
  ascending order; the model keeps first-insertion order for every category
  name. This matters only for ties between equal totals and for names such
  as "2024".
- Aggregation.AddTo: the dictionary is a plain `{}`, which inherits the
  members of `Object.prototype`. A category named `__proto__`, `toString`,
  `constructor`, `valueOf` or after any other inherited member does not behave
  as a key:
  - `acc["__proto__"] || 0` is the prototype object and the assignment is
    ignored, so the category disappears;
  - the others start from a function, so the value becomes a string onto
    which later amounts are concatenated, and the sort comparator yields NaN.

  The model treats every category name as an ordinary key. So
  `Aggregation.AccumulateSpec`, `Aggregation.SortedCategoriesSpec`,
  `Advisory.TopCategoryRuleSpec` and the breakdown lemmas hold only for
  category names that are not inherited members.
- FinancePanel.IsOverdue: the badge is modelled in whole days. The row
  compares UTC midnight of the due day with local midnight, as the report
  does. `FinancePanel.IsOverdueAtInstants` states that comparison, and it is
  listed under "Findings".
- JsText.ParseFloat: the result is an exact real, so overflow to Infinity
  (`parseFloat("1e400")`) is not modelled, and the literal "Infinity" gives
  no number where JavaScript gives Infinity.
- JsText.IsJsSpace: this is the white-space set of `trim` as listed in the
  ECMAScript standard (section 7.2 white space and 7.3 line terminators).
  Characters assigned to the Unicode Zs category after that list are not
  included.
- App.InitialPersonData: the source builds it without `savingsGoals`; the
  model uses an empty list.

## Findings

| source | as written | input that shows it | evidently intended | confidence | as-written member | corrected member |
|---|---|---|---|---|---|---|
| services/geminiService.ts:15 | `new Date(t.dueDate) < today` compares UTC midnight of the due day with local midnight of today | a clock at UTC-3 (Brazil) and a bill due today: it is both overdue and upcoming | a bill due today is upcoming and not overdue: day-granularity comparison | not executed | Advisory.DueTodayOverdueWestOfUtc | Advisory.OverdueUpcomingDisjoint |
| services/geminiService.ts:31-35 | `Math.ceil((due - today) / day)` on the same mixed instants: UTC midnight of the due day minus local midnight of today | a clock one hour east of UTC and a bill due in seven days: the difference is seven days and one hour, rounded up to 8, outside 0..7 | bills due 0 to 7 whole days ahead are upcoming | not executed | Advisory.SeventhDayMissedEastOfUtc | Advisory.InstantsAgreeAtUtc |
| components/FinancePanel.tsx:24 | the row badge compares `new Date(dueDate)` (UTC midnight) with local midnight of today | a clock at UTC-3 and an expense due today: the row shows the overdue badge | an expense due today carries no overdue badge: day-granularity comparison, the same as the report's | not executed | FinancePanel.DueTodayBadgeWestOfUtc | FinancePanel.IsOverdueAgreesWithReport |
| services/geminiService.ts:34-35 | `diffDays >= 0` on the same mixed instants: `Math.ceil` of a difference between minus one day and zero is -0, which passes the test | a clock one hour east of UTC and a bill due yesterday: it is both overdue and upcoming | a bill due yesterday is overdue and not upcoming | not executed | Advisory.DueYesterdayUpcomingEastOfUtc | Advisory.OverdueUpcomingDisjoint |
