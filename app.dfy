/**
 * The root component's state transitions: appending a transaction,
 * renaming the panel, choosing the initial document from what storage held,
 * and the light/dark theme switch.
 *
 * Storage, `JSON.parse` and the clock are not modelled as effects: the
 * loader receives what storage held, already parsed, and the handler that
 * appends receives the generated id and date.
 */
module App {
  import opened Types
  import opened Aggregation

  /** The default document: the name 'Meu Painel', no transactions, no goals. */
  const InitialPersonData: PersonData := PersonData("Meu Painel", [], [])

  /** `handleAddTransaction`: the form's fields plus `id` and `date`, appended at the end. */
  function AddTransaction(p: PersonData, data: TransactionData, id: string, date: CalendarDate): (r: PersonData)
    ensures |r.transactions| == |p.transactions| + 1
    ensures r.transactions[..|p.transactions|] == p.transactions
    ensures r.transactions[|p.transactions|] == NewTransaction(data, id, date)
    ensures r.name == p.name && r.savingsGoals == p.savingsGoals
  {
    p.(transactions := p.transactions + [NewTransaction(data, id, date)])
  }

  /** Adding a transaction raises the total of its own type by its amount and leaves the other total alone. */
  lemma AddTransactionTotals(p: PersonData, data: TransactionData, id: string, date: CalendarDate)
    ensures data.kind == Income ==>
              && TotalIncome(AddTransaction(p, data, id, date).transactions) == TotalIncome(p.transactions) + data.amount
              && TotalExpense(AddTransaction(p, data, id, date).transactions) == TotalExpense(p.transactions)
    ensures data.kind == Expense ==>
              && TotalExpense(AddTransaction(p, data, id, date).transactions) == TotalExpense(p.transactions) + data.amount
              && TotalIncome(AddTransaction(p, data, id, date).transactions) == TotalIncome(p.transactions)
  {
    var t := NewTransaction(data, id, date);
    TotalsOfConcat(p.transactions, [t]);
    assert [t][..0] == [];
  }

  /** `handleNameChange`: only the name is replaced. */
  function Rename(p: PersonData, newName: string): (r: PersonData)
    ensures r.name == newName
    ensures r.transactions == p.transactions && r.savingsGoals == p.savingsGoals
  {
    p.(name := newName)
  }

  /** Only the last of several renames matters, and renaming commutes with adding a transaction. */
  lemma RenameLastWins(p: PersonData, a: string, b: string, data: TransactionData, id: string, date: CalendarDate)
    ensures Rename(Rename(p, a), b) == Rename(p, b)
    ensures Rename(AddTransaction(p, data, id, date), a) == AddTransaction(Rename(p, a), data, id, date)
  {
  }

  /** A value `JSON.parse` may return; an object keeps its members in text order. */
  datatype Json =
    | JNull
    | JBool(b: bool)
    | JNumber(n: real)
    | JString(s: string)
    | JArray(items: seq<Json>)
    | JObject(members: seq<(string, Json)>)

  /** A member of an object; with a repeated key the last one counts, as in `JSON.parse`. */
  function Lookup(members: seq<(string, Json)>, key: string): (r: Option<Json>)
    ensures r.Some? <==> exists i :: 0 <= i < |members| && members[i].0 == key
  {
    if members == [] then None
    else if members[|members| - 1].0 == key then Some(members[|members| - 1].1)
    else Lookup(members[..|members| - 1], key)
  }

  /** A found member holds the value of the last occurrence of its key. */
  lemma {:induction false} LookupLastOccurrence(members: seq<(string, Json)>, key: string)
    ensures Lookup(members, key).Some? ==>
              exists i :: 0 <= i < |members| && members[i] == (key, Lookup(members, key).value)
                && forall j :: i < j < |members| ==> members[j].0 != key
  {
    if members != [] && members[|members| - 1].0 != key {
      var init := members[..|members| - 1];
      LookupLastOccurrence(init, key);
      if Lookup(init, key).Some? {
        var i :| 0 <= i < |init| && init[i] == (key, Lookup(init, key).value)
                 && forall j :: i < j < |init| ==> init[j].0 != key;
        assert members[i] == init[i];
        assert forall j :: i < j < |members| ==> members[j].0 != key by {
          forall j | i < j < |members| ensures members[j].0 != key {
            if j < |init| {
              assert members[j] == init[j];
            }
          }
        }
      }
    }
  }

  /** `parsed.key`: a member of an object, `undefined` (here `None`) otherwise. */
  function Member(j: Json, key: string): Option<Json>
  {
    if j.JObject? then Lookup(j.members, key) else None
  }

  /** JavaScript truthiness of a member; `undefined` is falsy. */
  predicate Truthy(v: Option<Json>)
  {
    match v
    case None => false
    case Some(JNull) => false
    case Some(JBool(b)) => b
    case Some(JNumber(n)) => n != 0.0
    case Some(JString(s)) => s != ""
    case Some(JArray(_)) => true
    case Some(JObject(_)) => true
  }

  /** What storage held: nothing (or the empty string), text `JSON.parse` rejects, or a parsed value. */
  datatype Stored = Missing | Unparsable | Parsed(value: Json)

  /** The initial document: the stored one as it is, or the default. */
  datatype InitialState = Restored(document: Json) | Default(data: PersonData)

  /** The basic validation: a truthy `name` and an array under `transactions`. */
  predicate LooksLikePersonData(j: Json)
  {
    Truthy(Member(j, "name")) && Member(j, "transactions").Some? && Member(j, "transactions").value.JArray?
  }

  /** The loader of the initial state. */
  function LoadInitialState(stored: Stored): (r: InitialState)
    ensures r.Restored? <==> stored.Parsed? && LooksLikePersonData(stored.value)
    ensures r.Restored? ==> r.document == stored.value
    ensures r.Default? ==> r.data == InitialPersonData
  {
    match stored
    case Parsed(j) => if Truthy(Member(j, "name")) && Member(j, "transactions").Some? && Member(j, "transactions").value.JArray?
                      then Restored(j) else Default(InitialPersonData)
    case _ => Default(InitialPersonData)
  }

  /**
   * A stored object whose `name` is a string and whose `transactions` is an
   * array, later members not repeating either key, is restored exactly when
   * the name is not empty.
   */
  lemma SavedDocumentRestored(name: string, items: seq<Json>, rest: seq<(string, Json)>)
    requires forall i :: 0 <= i < |rest| ==> rest[i].0 != "name" && rest[i].0 != "transactions"
    ensures LoadInitialState(Parsed(JObject([("name", JString(name)), ("transactions", JArray(items))] + rest))).Restored?
            <==> name != ""
  {
    var members := [("name", JString(name)), ("transactions", JArray(items))] + rest;
    LookupSkipsTail([("name", JString(name))], [("transactions", JArray(items))] + rest, "name");
    assert [("name", JString(name))] + ([("transactions", JArray(items))] + rest) == members;
    LookupSkipsTail([("name", JString(name)), ("transactions", JArray(items))], rest, "transactions");
  }

  lemma {:induction false} LookupSkipsTail(init: seq<(string, Json)>, tail: seq<(string, Json)>, key: string)
    requires forall i :: 0 <= i < |tail| ==> tail[i].0 != key
    ensures Lookup(init + tail, key) == Lookup(init, key)
    decreases |tail|
  {
    if tail == [] {
      assert init + tail == init;
    } else {
      var all := init + tail;
      assert all[..|all| - 1] == init + tail[..|tail| - 1];
      LookupSkipsTail(init, tail[..|tail| - 1], key);
    }
  }

  datatype Theme = Light | Dark

  /** The theme first shown: the stored one, else dark when the system prefers it, else light. */
  function InitialTheme(stored: Option<Theme>, prefersDark: bool): (t: Theme)
    ensures stored.Some? ==> t == stored.value
    ensures stored.None? ==> (t == Dark <==> prefersDark)
  {
    if stored.Some? then stored.value else if prefersDark then Dark else Light
  }

  /** `toggleTheme`'s update. */
  function Toggled(t: Theme): (r: Theme)
    ensures r != t
  {
    if t == Light then Dark else Light
  }

  /** Toggling twice restores the theme. */
  lemma ToggleTwice(t: Theme)
    ensures Toggled(Toggled(t)) == t
  {
  }

  /** The root component: the current document and the theme. */
  class AppState {
    var personData: PersonData
    var theme: Theme

    constructor(initial: PersonData, storedTheme: Option<Theme>, prefersDark: bool)
      ensures personData == initial && theme == InitialTheme(storedTheme, prefersDark)
    {
      personData := initial;
      theme := InitialTheme(storedTheme, prefersDark);
    }

    method HandleAddTransaction(data: TransactionData, id: string, date: CalendarDate)
      modifies this
      ensures personData == AddTransaction(old(personData), data, id, date)
      ensures theme == old(theme)
    {
      var newTransaction := NewTransaction(data, id, date);
      personData := personData.(transactions := personData.transactions + [newTransaction]);
    }

    method HandleNameChange(newName: string)
      modifies this
      ensures personData == Rename(old(personData), newName)
      ensures theme == old(theme)
    {
      personData := personData.(name := newName);
    }

    method ToggleTheme()
      modifies this
      ensures theme == Toggled(old(theme))
      ensures personData == old(personData)
    {
      theme := if theme == Light then Dark else Light;
    }
  }
}
