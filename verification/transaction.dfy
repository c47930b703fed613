/**
  A money movement: a signed amount (negative for spending), its category, the date it
  happened on (for a recurring transaction, the first occurrence), a free-text note and
  the recurrence settings. Transactions are immutable values.
 */
module Transactions {
  import opened Wrappers
  import opened Categories

  /** Points in time, as seconds since an epoch. */
  type Date = int

  /** Money, as an exact count of minor units (cents). */
  type Amount = int

  /** How often a recurring transaction repeats. */
  datatype RecurringInterval = Daily | Weekly | Monthly | Yearly {

    /** The enum's raw (stored and displayed) string. */
    function RawValue(): string {
      match this
      case Daily => "Daily"
      case Weekly => "Weekly"
      case Monthly => "Monthly"
      case Yearly => "Yearly"
    }
  }

  /** `RecurringInterval.allCases`: every interval exactly once, in declaration order. */
  function AllIntervals(): (r: seq<RecurringInterval>)
    ensures forall i: RecurringInterval :: i in r
    ensures forall j, k :: 0 <= j < k < |r| ==> r[j] != r[k]
    ensures |r| == 4
  {
    var r := [Daily, Weekly, Monthly, Yearly];
    forall i: RecurringInterval ensures i in r {
      IntervalCases(i);
    }
    r
  }

  lemma IntervalCases(i: RecurringInterval)
    ensures i == Daily || i == Weekly || i == Monthly || i == Yearly
  {
  }

  /** `RecurringInterval(rawValue:)`: only the four raw strings name an interval. */
  function FromRawValue(s: string): (r: Option<RecurringInterval>)
    ensures r.Some? <==> s in {"Daily", "Weekly", "Monthly", "Yearly"}
    ensures r.Some? ==> r.value.RawValue() == s
  {
    if s == "Daily" then Some(Daily)
    else if s == "Weekly" then Some(Weekly)
    else if s == "Monthly" then Some(Monthly)
    else if s == "Yearly" then Some(Yearly)
    else None
  }

  /** Reading back a raw value gives the interval it came from, so raw values are distinct. */
  lemma RawValueRoundTrip(i: RecurringInterval)
    ensures FromRawValue(i.RawValue()) == Some(i)
  {
  }

  datatype Transaction = Transaction(
    amount: Amount,
    category: Category,
    date: Date,
    note: string,
    isRecurring: bool,
    recurringInterval: Option<RecurringInterval>)

  /** The memberwise initializer, with its defaults: not recurring, no interval. */
  function NewTransaction(amount: Amount, category: Category, date: Date, note: string,
                          isRecurring: bool := false,
                          recurringInterval: Option<RecurringInterval> := None): (r: Transaction)
    ensures r.amount == amount && r.category == category && r.date == date && r.note == note
    ensures r.isRecurring == isRecurring && r.recurringInterval == recurringInterval
  {
    Transaction(amount, category, date, note, isRecurring, recurringInterval)
  }

  /** Omitting the recurrence arguments gives a one-off transaction without an interval. */
  lemma NewTransactionDefaults(amount: Amount, category: Category, date: Date, note: string)
    ensures !NewTransaction(amount, category, date, note).isRecurring
    ensures NewTransaction(amount, category, date, note).recurringInterval.None?
  {
  }

  /** The initializer does not tie the interval to the flag: a recurring transaction without an
      interval and a one-off transaction with one can both be built. */
  lemma FlagAndIntervalIndependent(amount: Amount, category: Category, date: Date, note: string)
    ensures var t := NewTransaction(amount, category, date, note, true, None);
      t.isRecurring && t.recurringInterval.None?
    ensures var t := NewTransaction(amount, category, date, note, false, Some(Monthly));
      !t.isRecurring && t.recurringInterval.Some?
  {
  }

  predicate IsIncome(t: Transaction) { t.amount > 0 }

  predicate IsExpense(t: Transaction) { t.amount < 0 }

  function AmountOf(t: Transaction): int { t.amount }

  function DateKey(t: Transaction): int { t.date }

  /** Sorting by this key puts the newest transaction first. */
  function NegDateKey(t: Transaction): int { -t.date }
}
