/**
  The form for entering a transaction. It keeps the typed amount and note, the date, whether
  the money goes out or comes in, the category picked from the list for that direction and
  the recurrence settings. Saving hands the transaction to the caller when the form was
  opened with a callback, and otherwise appends it to the transaction store.
 */
module AddTransaction {
  import opened Wrappers
  import opened Categories
  import opened Transactions
  import opened AmountInput
  import opened Recurrence
  import opened TransactionStores

  /** The kind of category offered for the chosen direction. */
  function KindFor(isExpense: bool): TransactionType {
    if isExpense then Expense else Income
  }

  class AddTransactionForm {
    var amount: string
    var note: string
    var date: Date
    var isExpense: bool
    var isRecurring: bool
    var recurringInterval: RecurringInterval
    var selectedCategory: Category
    /** Opened for recurring transactions only: the recurrence toggle is hidden and forced on. */
    const isRecurringOnly: bool
    /** Opened with an `onAdd` callback, which then receives the saved transaction. */
    const hasCallback: bool

    /** The form as opened: empty fields, dated `now`, repeating monthly, and the first
        category offered for the chosen direction selected. */
    constructor(now: Date, isRecurringOnly: bool := false, isExpense: bool := true,
                isRecurring: bool := false, hasCallback: bool := false)
      ensures amount == [] && note == [] && date == now
      ensures this.isExpense == isExpense && this.isRecurring == isRecurring
      ensures this.isRecurringOnly == isRecurringOnly && this.hasCallback == hasCallback
      ensures recurringInterval == Monthly
      ensures selectedCategory == AvailableCategories()[0]
    {
      amount := [];
      note := [];
      date := now;
      this.isExpense := isExpense;
      this.isRecurring := isRecurring;
      recurringInterval := Monthly;
      selectedCategory := if isExpense then ExpenseCategories()[0] else IncomeCategories()[0];
      this.isRecurringOnly := isRecurringOnly;
      this.hasCallback := hasCallback;
    }

    /** `availableCategories`: the picker list of the chosen direction. */
    function AvailableCategories(): seq<Category>
      reads this
    {
      if isExpense then ExpenseCategories() else IncomeCategories()
    }

    /** The list offered is never empty, and offers exactly the default categories of the
        chosen direction. */
    lemma AvailableCategoriesMembers(c: Category)
      ensures |AvailableCategories()| > 0
      ensures c in AvailableCategories() <==> c in DefaultCategories && c.kind == KindFor(isExpense)
    {
      if c in DefaultCategories {
        IncomePickerMembers(c);
        ExpensePickerMembers(c);
      } else {
        CategoriesPartition();
        assert c !in IncomeCategories() && c !in ExpenseCategories();
      }
    }

    /** Picking the other direction (`onChange(of: isExpense)`): the selection goes back to
        the first category offered for the new direction. Picking the same one changes
        nothing. */
    method ChangeType(newValue: bool)
      modifies this
      ensures isExpense == newValue
      ensures newValue != old(isExpense) ==> selectedCategory == AvailableCategories()[0]
      ensures newValue == old(isExpense) ==> selectedCategory == old(selectedCategory)
      ensures amount == old(amount) && note == old(note) && date == old(date)
      ensures isRecurring == old(isRecurring) && recurringInterval == old(recurringInterval)
    {
      if newValue != isExpense {
        isExpense := newValue;
        selectedCategory := if newValue then ExpenseCategories()[0] else IncomeCategories()[0];
      }
    }

    /** Showing the recurrence section of a recurring-only form switches recurrence on. */
    method ShowRecurringSection()
      modifies this
      ensures isRecurring == (old(isRecurring) || isRecurringOnly)
      ensures amount == old(amount) && note == old(note) && date == old(date) && isExpense == old(isExpense)
      ensures recurringInterval == old(recurringInterval) && selectedCategory == old(selectedCategory)
    {
      if isRecurringOnly {
        isRecurring := true;
      }
    }

    /** The condition `saveTransaction` checks: the amount text is non-empty and reads as a
        number once commas become points. */
    predicate CanSave(parse: Parser)
      reads this
    {
      ParseAmount(parse, amount).Some? && amount != []
    }

    /** `isValid`, which enables the Add button: the save condition, and a non-empty note. */
    predicate IsValid(parse: Parser)
      reads this
    {
      ParseAmount(parse, amount).Some? && amount != [] && note != []
    }

    /** The transaction saved for the amount read as `value`: spent when the form is set to
        expense and received otherwise, with the form's category, date and note, and carrying
        the chosen interval exactly when it recurs. */
    function Built(value: Amount): (t: Transaction)
      reads this
      ensures t.amount == (if isExpense then -value else value)
      ensures t.category == selectedCategory && t.date == date && t.note == note
      ensures t.isRecurring == isRecurring
      ensures t.recurringInterval.Some? <==> isRecurring
      ensures t.recurringInterval.Some? ==> t.recurringInterval.value == recurringInterval
    {
      var finalAmount := if isExpense then -value else value;
      NewTransaction(finalAmount, selectedCategory, date, note, isRecurring,
                     if isRecurring then Some(recurringInterval) else None)
    }

    /** A positive amount makes a spending or an income as chosen, and a recurring
        transaction from the form always repeats, so it is expanded. */
    lemma BuiltMeaning(value: Amount)
      requires value > 0
      ensures IsExpense(Built(value)) <==> isExpense
      ensures IsIncome(Built(value)) <==> !isExpense
      ensures Expands(Built(value)) <==> isRecurring
    {
    }

    /** `saveTransaction`. When the amount is empty or unreadable nothing happens. Otherwise
        the built transaction is handed to the callback when there is one (the result), and
        appended to the store when there is none: exactly one of the two. An enabled Add
        button always saves. */
    method SaveTransaction(parse: Parser, store: TransactionStore) returns (handedOver: Option<Transaction>)
      modifies store
      ensures !CanSave(parse) ==> handedOver.None? && store.transactions == old(store.transactions)
      ensures CanSave(parse) && hasCallback ==>
        handedOver == Some(Built(ParseAmount(parse, amount).value)) && store.transactions == old(store.transactions)
      ensures CanSave(parse) && !hasCallback ==>
        handedOver.None? && store.transactions == old(store.transactions) + [Built(ParseAmount(parse, amount).value)]
      ensures IsValid(parse) ==> handedOver.Some? || |store.transactions| == |old(store.transactions)| + 1
    {
      handedOver := None;
      var parsed := ParseAmount(parse, amount);
      if parsed.None? || amount == [] {
        return;
      }
      var transaction := Built(parsed.value);
      if hasCallback {
        handedOver := Some(transaction);
      } else {
        store.AddTransaction(transaction);
      }
    }
  }
}
