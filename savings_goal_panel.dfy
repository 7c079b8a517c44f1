/**
 * The savings-goal panel: a goal's progress and its capped bar, the cents
 * mask of the deposit field and the pt-BR amount parser that reads it back,
 * the deposit and goal-creation guards, the 5/10/15% suggestion calculator,
 * and the two ways a suggestion is used.
 *
 * The two handlers the panel receives (`onDepositToGoal`, `onAddGoal`) are
 * not modelled: a method reports the call it makes, as a value.
 */
module SavingsGoalPanel {
  import opened Types
  import opened JsText
  import Seqs

  /** `goal.currentAmount / goal.targetAmount * 100`, or 0 for a target that is not positive. */
  function Progress(g: SavingsGoal): (p: real)
    ensures g.targetAmount <= 0.0 ==> p == 0.0
    ensures g.targetAmount > 0.0 ==> p * g.targetAmount == g.currentAmount * 100.0
  {
    if g.targetAmount > 0.0 then (g.currentAmount / g.targetAmount) * 100.0 else 0.0
  }

  /** The width of the progress bar, in percent. */
  function BarWidth(progress: real): (w: real)
    ensures w <= 100.0 && w <= progress
    ensures w == progress || w == 100.0
  {
    if progress > 100.0 then 100.0 else progress
  }

  /** Whether the "goal reached" note shows. */
  predicate GoalReached(g: SavingsGoal)
  {
    Progress(g) >= 100.0
  }

  /** With a positive target, the note shows exactly when the saved amount has reached the target; with none it never shows. */
  lemma GoalReachedIff(g: SavingsGoal)
    ensures g.targetAmount > 0.0 ==> (GoalReached(g) <==> g.currentAmount >= g.targetAmount)
    ensures g.targetAmount <= 0.0 ==> !GoalReached(g)
  {
    if g.targetAmount > 0.0 {
      var p := Progress(g);
      assert (p - 100.0) * g.targetAmount == (g.currentAmount - g.targetAmount) * 100.0;
      if p >= 100.0 {
        assert (p - 100.0) * g.targetAmount >= 0.0;
      } else {
        assert (100.0 - p) * g.targetAmount > 0.0;
      }
    }
  }

  /** The bar is full exactly when the goal is reached. */
  lemma BarFullIffReached(g: SavingsGoal)
    ensures BarWidth(Progress(g)) == 100.0 <==> GoalReached(g)
  {
  }

  /** `parseAmount`: 0 for empty input; otherwise every '.' removed, the first ',' made '.', then `parseFloat`. */
  function ParseAmount(input: string): Option<real>
  {
    if input == [] then Some(0.0) else ParseFloat(ReplaceFirstComma(RemoveDots(input)))
  }

  /** Thousands grouping of a run of digits with '.', as the pt-BR locale writes it. */
  function GroupThousands(d: string): (r: string)
    requires AllDigits(d)
  {
    if |d| <= 3 then d else GroupThousands(d[..|d| - 3]) + "." + d[|d| - 3..]
  }

  /** Exactly two digits: `n` padded with a leading zero. */
  function TwoDigits(n: nat): (r: string)
    requires n < 100
    ensures |r| == 2 && AllDigits(r)
  {
    [DigitChar(n / 10), DigitChar(n % 10)]
  }

  lemma TwoDigitsValue(n: nat)
    requires n < 100
    ensures DigitsValue(TwoDigits(n)) == n
  {
    var r := TwoDigits(n);
    assert r[..1][..0] == [];
    assert DigitsValue(r[..1]) == n / 10;
    assert r[..|r| - 1] == r[..1];
  }

  /** A cents value written pt-BR style with two decimals: dot-grouped units, ',' and the two cent digits. */
  function FormatCents(cents: nat): string
  {
    GroupThousands(NatToString(cents / 100)) + "," + TwoDigits(cents % 100)
  }

  /** `handleDepositAmountChange`: the digits typed, read as cents; no digit gives the empty field. */
  function DepositMask(input: string): string
  {
    var raw := KeepDigits(input);
    if raw == [] then "" else FormatCents(DigitsValue(raw))
  }

  lemma {:induction false} RemoveDotsOfDigits(d: string)
    requires AllDigits(d)
    ensures RemoveDots(d) == d
  {
    Seqs.FilterKeepsAll(d, NotDot);
  }

  lemma {:induction false} RemoveDotsGrouped(d: string)
    requires AllDigits(d)
    ensures RemoveDots(GroupThousands(d)) == d
    decreases |d|
  {
    if |d| <= 3 {
      RemoveDotsOfDigits(d);
    } else {
      var hi, lo := d[..|d| - 3], d[|d| - 3..];
      RemoveDotsGrouped(hi);
      RemoveDotsOfDigits(lo);
      RemoveDotsAround(GroupThousands(hi), lo);
      assert hi + lo == d;
    }
  }

  lemma RemoveDotsAround(a: string, b: string)
    ensures RemoveDots(a + "." + b) == RemoveDots(a) + RemoveDots(b)
  {
    RemoveDotsConcat(a + ".", b);
    RemoveDotsConcat(a, ".");
    assert RemoveDots(".") == [];
  }

  lemma RemoveDotsConcat(a: string, b: string)
    ensures RemoveDots(a + b) == RemoveDots(a) + RemoveDots(b)
  {
    Seqs.FilterConcat(a, b, NotDot);
  }

  /** Round trip: the pt-BR text of a cents value parses back to cents / 100. */
  lemma FormatCentsRoundTrip(cents: nat)
    ensures ParseAmount(FormatCents(cents)) == Some(cents as real / 100.0)
  {
    var units := NatToString(cents / 100);
    var frac := TwoDigits(cents % 100);
    var g := GroupThousands(units);
    assert FormatCents(cents) == g + "," + frac;
    RemoveDotsConcat(g + ",", frac);
    RemoveDotsConcat(g, ",");
    RemoveDotsGrouped(units);
    RemoveDotsOfDigits(frac);
    assert RemoveDots(",") == ",";
    assert RemoveDots(FormatCents(cents)) == units + "," + frac;
    assert ',' !in units by {
      forall i | 0 <= i < |units| ensures units[i] != ',' {
        assert IsDigit(units[i]);
      }
    }
    ReplaceFirstCommaAfter(units, frac);
    CentsValue(cents);
  }

  lemma CentsValue(cents: nat)
    ensures ParseFloat(NatToString(cents / 100) + "." + TwoDigits(cents % 100)) == Some(cents as real / 100.0)
  {
    var u, f := cents / 100, cents % 100;
    NatToStringValue(u);
    TwoDigitsValue(f);
    DecimalParse(NatToString(u), TwoDigits(f), u, f, cents);
  }

  lemma DecimalParse(d: string, fr: string, u: nat, f: nat, cents: nat)
    requires d != [] && AllDigits(d) && AllDigits(fr) && |fr| == 2
    requires DigitsValue(d) == u && DigitsValue(fr) == f && u * 100 + f == cents
    ensures ParseFloat(d + "." + fr) == Some(cents as real / 100.0)
  {
    var v := DigitsValue(d) as real + DigitsValue(fr) as real / Pow10(|fr|);
    assert v == cents as real / 100.0 by {
      FractionValue(fr, f);
      CentsSplit(u, f, cents);
    }
    ParseFloatDecimal(d, fr);
  }

  lemma CentsSplit(u: nat, f: nat, cents: nat)
    requires u * 100 + f == cents
    ensures u as real + f as real / 100.0 == cents as real / 100.0
  {
    assert u as real * 100.0 + f as real == cents as real;
  }

  lemma FractionValue(fr: string, f: nat)
    requires AllDigits(fr) && |fr| == 2 && DigitsValue(fr) == f
    ensures DigitsValue(fr) as real / Pow10(|fr|) == f as real / 100.0
  {
    PowTwo();
  }

  lemma PowTwo()
    ensures Pow10(2) == 100.0
  {
    assert Pow10(1) == 10.0;
  }

  /** What the deposit field holds reads back as the typed digits over 100, and as 0 when none was typed. */
  lemma DepositMaskRoundTrip(input: string)
    ensures KeepDigits(input) == [] ==> ParseAmount(DepositMask(input)) == Some(0.0)
    ensures KeepDigits(input) != [] ==>
              ParseAmount(DepositMask(input)) == Some(DigitsValue(KeepDigits(input)) as real / 100.0)
  {
    if KeepDigits(input) != [] {
      FormatCentsRoundTrip(DigitsValue(KeepDigits(input)));
    }
  }

  /** The call the deposit button makes: `onDepositToGoal(goalId, amount)`. */
  datatype DepositCall = DepositCall(goalId: string, amount: real)

  /** The amount a deposit field allows to be deposited: a number greater than 0. */
  function AcceptedDeposit(field: string): (a: Option<real>)
    ensures a.Some? ==> a.value > 0.0 && ParseAmount(field) == a
    ensures a.None? ==> ParseAmount(field).None? || ParseAmount(field).value <= 0.0
  {
    match ParseAmount(field)
    case Some(amount) => if amount > 0.0 then Some(amount) else None
    case None => None
  }

  /** An empty or digit-free field never deposits. */
  lemma EmptyFieldNeverDeposits(input: string)
    requires KeepDigits(input) == [] || DigitsValue(KeepDigits(input)) == 0
    ensures AcceptedDeposit(DepositMask(input)) == None
  {
    DepositMaskRoundTrip(input);
  }

  /** One goal card: the goal it shows and the text of its deposit field. */
  class GoalCard {
    const goal: SavingsGoal
    var depositAmount: string

    constructor(goal: SavingsGoal)
      ensures this.goal == goal && depositAmount == ""
    {
      this.goal := goal;
      depositAmount := "";
    }

    /** The field is replaced by the masked text of what was typed. */
    method HandleDepositAmountChange(value: string)
      modifies this
      ensures depositAmount == DepositMask(value)
    {
      var raw := KeepDigits(value);
      if raw == [] {
        depositAmount := "";
        return;
      }
      depositAmount := FormatCents(DigitsValue(raw));
    }

    /** Deposits the parsed amount into this goal and clears the field, only when it is a number above 0. */
    method HandleDeposit() returns (call: Option<DepositCall>)
      modifies this
      ensures AcceptedDeposit(old(depositAmount)).Some? ==>
                call == Some(DepositCall(goal.id, AcceptedDeposit(old(depositAmount)).value)) && depositAmount == ""
      ensures AcceptedDeposit(old(depositAmount)).None? ==> call == None && depositAmount == old(depositAmount)
    {
      var amount := ParseAmount(depositAmount);
      call := None;
      if amount.Some? && amount.value > 0.0 {
        call := Some(DepositCall(goal.id, amount.value));
        depositAmount := "";
      }
    }
  }

  /** The record handed to `onAddGoal`. */
  datatype NewGoal = NewGoal(name: string, targetAmount: real)

  /** One quick suggestion: a fraction of the balance and the amount it makes. */
  datatype Suggestion = Suggestion(percent: real, amount: real)

  const SuggestionPercents: seq<real> := [0.05, 0.1, 0.15]

  function SuggestionFor(balance: real): real -> Suggestion
  {
    (p: real) => Suggestion(p, balance * p)
  }

  /** `[0.05, 0.1, 0.15].map(p => ({ percent: p, amount: currentBalance * p }))`. */
  function Suggestions(balance: real): seq<Suggestion>
  {
    Seqs.Map(SuggestionPercents, SuggestionFor(balance))
  }

  /** Three suggestions, 5%, 10% and 15% in that order, each the balance times its percent, growing with the percent. */
  lemma SuggestionsSpec(balance: real)
    requires balance > 0.0
    ensures |Suggestions(balance)| == 3
    ensures Suggestions(balance)[0].percent == 0.05
    ensures Suggestions(balance)[1].percent == 0.1
    ensures Suggestions(balance)[2].percent == 0.15
    ensures forall k :: 0 <= k < 3 ==> Suggestions(balance)[k].amount == balance * Suggestions(balance)[k].percent
    ensures 0.0 < Suggestions(balance)[0].amount < Suggestions(balance)[1].amount < Suggestions(balance)[2].amount
    ensures Suggestions(balance)[2].amount < balance
  {
    Seqs.MapAt(SuggestionPercents, SuggestionFor(balance), 0);
    Seqs.MapAt(SuggestionPercents, SuggestionFor(balance), 1);
    Seqs.MapAt(SuggestionPercents, SuggestionFor(balance), 2);
  }

  /** The whole number of cents `toFixed(2)` keeps: the nearest one, halves away from zero. */
  function RoundedCents(x: real): (k: int)
    ensures x >= 0.0 ==> x * 100.0 - 0.5 < k as real <= x * 100.0 + 0.5
    ensures x < 0.0 ==> x * 100.0 - 0.5 <= k as real < x * 100.0 + 0.5
  {
    if x < 0.0 then -((-x * 100.0 + 0.5).Floor) else (x * 100.0 + 0.5).Floor
  }

  /** `Number(x.toFixed(2))`: the value rounded to two decimals. */
  function ToFixed2(x: real): (r: real)
    ensures -0.005 <= r - x <= 0.005
  {
    RoundedCents(x) as real / 100.0
  }

  /** Rounding a value that already has two decimals keeps it. */
  lemma ToFixed2Idempotent(x: real)
    ensures ToFixed2(ToFixed2(x)) == ToFixed2(x)
  {
    var k := RoundedCents(x);
    var r := k as real / 100.0;
    assert r * 100.0 == k as real;
    var k' := RoundedCents(r);
    if r >= 0.0 {
      assert k as real - 0.5 < k' as real <= k as real + 0.5;
      assert k - 1 < k' < k + 1;
    } else {
      assert k as real - 0.5 <= k' as real < k as real + 0.5;
      assert k - 1 < k' < k + 1;
    }
  }

  /** `applyToFirstGoal`: nothing without goals; otherwise the amount, to two decimals, into the first goal. */
  function ApplyToFirstGoal(savingsGoals: seq<SavingsGoal>, amount: real): (call: Option<DepositCall>)
    ensures savingsGoals == [] <==> call == None
    ensures call.Some? ==> call.value.goalId == savingsGoals[0].id && call.value.amount == ToFixed2(amount)
  {
    if |savingsGoals| == 0 then None else Some(DepositCall(savingsGoals[0].id, ToFixed2(amount)))
  }

  /** `Math.ceil`. */
  function Ceil(x: real): (c: int)
    ensures x <= c as real < x + 1.0
  {
    -((-x).Floor)
  }

  /** The goal-creation guard: a name that is not blank and a target that parses to a number above 0. */
  predicate CreateAccepted(goalName: string, targetAmount: string)
  {
    Trim(goalName) != [] && ParseFloat(targetAmount).Some? && ParseFloat(targetAmount).value > 0.0
  }

  const PrefillName: string := "Nova Meta"

  /** A prefilled form for a positive suggestion passes the guard, with a whole target at least the suggestion. */
  lemma PrefillPassesGuard(amount: real)
    requires amount > 0.0
    ensures CreateAccepted(PrefillName, IntToString(Ceil(amount)))
    ensures ParseFloat(IntToString(Ceil(amount))) == Some(Ceil(amount) as real)
    ensures amount <= Ceil(amount) as real < amount + 1.0
  {
    PrefillNameNotBlank();
    var c := Ceil(amount);
    assert c >= 1;
    assert IntToString(c) == NatToString(c);
    ParseFloatNat(c);
  }

  lemma PrefillNameNotBlank()
    ensures Trim(PrefillName) != []
  {
    var n := PrefillName;
    assert n[0] == 'N';
    NotBlank(n, 0);
  }

  /** The panel's own state: the creation form, its two fields, and the open suggestions (`null` as `None`). */
  class PanelState {
    var isCreating: bool
    var goalName: string
    var targetAmount: string
    var suggestionOptions: Option<seq<Suggestion>>

    constructor()
      ensures !isCreating && goalName == "" && targetAmount == "" && suggestionOptions == None
    {
      isCreating := false;
      goalName := "";
      targetAmount := "";
      suggestionOptions := None;
    }

    /** The "add new goal" button opens the form. */
    method OpenForm()
      modifies this
      ensures isCreating
      ensures goalName == old(goalName) && targetAmount == old(targetAmount)
      ensures suggestionOptions == old(suggestionOptions)
    {
      isCreating := true;
    }

    /** "Cancelar" closes the form and keeps what was typed. */
    method CancelForm()
      modifies this
      ensures !isCreating
      ensures goalName == old(goalName) && targetAmount == old(targetAmount)
      ensures suggestionOptions == old(suggestionOptions)
    {
      isCreating := false;
    }

    method SetGoalName(value: string)
      modifies this
      ensures goalName == value
      ensures isCreating == old(isCreating) && targetAmount == old(targetAmount)
      ensures suggestionOptions == old(suggestionOptions)
    {
      goalName := value;
    }

    method SetTargetAmount(value: string)
      modifies this
      ensures targetAmount == value
      ensures isCreating == old(isCreating) && goalName == old(goalName)
      ensures suggestionOptions == old(suggestionOptions)
    {
      targetAmount := value;
    }

    /** Creates the goal with the untrimmed name and the parsed target, then resets and closes the form; otherwise nothing changes. */
    method HandleCreateGoal() returns (added: Option<NewGoal>)
      modifies this
      ensures CreateAccepted(old(goalName), old(targetAmount)) ==>
                && added == Some(NewGoal(old(goalName), ParseFloat(old(targetAmount)).value))
                && goalName == "" && targetAmount == "" && !isCreating
      ensures !CreateAccepted(old(goalName), old(targetAmount)) ==>
                && added == None
                && goalName == old(goalName) && targetAmount == old(targetAmount) && isCreating == old(isCreating)
      ensures suggestionOptions == old(suggestionOptions)
    {
      var amount := ParseFloat(targetAmount);
      added := None;
      if Trim(goalName) != [] && amount.Some? && amount.value > 0.0 {
        added := Some(NewGoal(goalName, amount.value));
        goalName := "";
        targetAmount := "";
        isCreating := false;
      }
    }

    /** Refuses (the alert) when the balance is not positive; otherwise opens the three suggestions. */
    method SuggestSaveAmount(currentBalance: real) returns (refused: bool)
      modifies this
      ensures refused <==> currentBalance <= 0.0
      ensures refused ==> suggestionOptions == old(suggestionOptions)
      ensures !refused ==> suggestionOptions == Some(Suggestions(currentBalance))
      ensures isCreating == old(isCreating) && goalName == old(goalName) && targetAmount == old(targetAmount)
    {
      if currentBalance <= 0.0 {
        return true;
      }
      suggestionOptions := Some(Suggestions(currentBalance));
      refused := false;
    }

    /** "Fechar" closes the suggestions. */
    method CloseSuggestions()
      modifies this
      ensures suggestionOptions == None
      ensures isCreating == old(isCreating) && goalName == old(goalName) && targetAmount == old(targetAmount)
    {
      suggestionOptions := None;
    }

    /** With no goal yet, a suggestion prefills the creation form with "Nova Meta" and the rounded-up amount. */
    method CreateGoalFromSuggestion(amount: real)
      modifies this
      ensures goalName == PrefillName && targetAmount == IntToString(Ceil(amount))
      ensures isCreating && suggestionOptions == None
    {
      goalName := PrefillName;
      targetAmount := IntToString(Ceil(amount));
      isCreating := true;
      suggestionOptions := None;
    }
  }

  /** A goal created from a positive suggestion is accepted at once, with the rounded-up target. */
  method PrefillThenCreate(amount: real) returns (added: Option<NewGoal>)
    requires amount > 0.0
    ensures added == Some(NewGoal(PrefillName, Ceil(amount) as real))
  {
    var panel := new PanelState();
    panel.CreateGoalFromSuggestion(amount);
    PrefillPassesGuard(amount);
    added := panel.HandleCreateGoal();
  }
}
