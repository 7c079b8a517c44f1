/**
 * The data model of the finance tracker: transactions, savings goals, the
 * per-person root document and the couple view that pairs two of them.
 *
 * Amounts are exact reals (the application uses JavaScript numbers; binary
 * floating point is not modelled). A due date is a whole day number, and the
 * creation timestamp keeps the calendar fields the application reads from it.
 */
module Types {

  datatype Option<+T> = None | Some(value: T)

  /** The two kinds of transaction: a field of type 'income' | 'expense'. */
  datatype TxKind = Income | Expense

  /** A calendar date as JavaScript's Date reports it: full year, month 0..11, day of month. */
  datatype CalendarDate = CalendarDate(year: int, month: int, day: int)

  /** The month index that orders calendar months: year * 12 + month. */
  function MonthIndex(d: CalendarDate): int
  {
    d.year * 12 + d.month
  }

  /**
   * One money movement. The category is free text (not an enumeration) and
   * the due date is optional: a transaction may carry none.
   */
  datatype Transaction = Transaction(
    id: string,
    description: string,
    amount: real,
    kind: TxKind,
    category: string,
    date: CalendarDate,
    dueDate: Option<int>)

  /** The fields the entry form supplies: a transaction without `id` and `date`. */
  datatype TransactionData = TransactionData(
    description: string,
    amount: real,
    kind: TxKind,
    category: string,
    dueDate: Option<int>)

  datatype SavingsGoal = SavingsGoal(id: string, name: string, targetAmount: real, currentAmount: real)

  /** The root document of one person: a display name, the transactions in insertion order, the goals. */
  datatype PersonData = PersonData(name: string, transactions: seq<Transaction>, savingsGoals: seq<SavingsGoal>)

  /** Exactly two persons' documents. */
  datatype CoupleFinances = CoupleFinances(person1: PersonData, person2: PersonData)

  /** A transaction built from form data plus the generated `id` and `date`. */
  function NewTransaction(data: TransactionData, id: string, date: CalendarDate): (t: Transaction)
    ensures t.id == id && t.date == date
    ensures t.description == data.description && t.amount == data.amount && t.kind == data.kind
    ensures t.category == data.category && t.dueDate == data.dueDate
  {
    Transaction(id, data.description, data.amount, data.kind, data.category, date, data.dueDate)
  }
}
