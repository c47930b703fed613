/**
  The first-run setup flow, a sequence of screens: welcome (step 0), name (step 1), opening
  balance (step 2), recurring transactions (step 3) and goals (step 4). Each screen's
  continue action moves to the next one. The balance screen records the opening balance as
  an income transaction, at most once; the last two screens collect transactions and goals
  in lists that are handed to the stores when the screen is left.
 */
module Setup {
  import opened Wrappers
  import opened Sequences
  import opened Categories
  import opened Transactions
  import opened Goals
  import opened AmountInput
  import opened TransactionStores
  import opened GoalsStores

  const LastStep: nat := 4

  /** The category the opening balance is recorded under. */
  const InitialBalanceCategory := Category("Initial Balance", "dollarsign.circle.fill", "blue", Income)

  /** The transaction recording an opening balance of `balance` at `now`: a one-off income
      entry (for a positive balance) noted as the opening balance. */
  function InitialBalanceTransaction(balance: Amount, now: Date): (t: Transaction)
    ensures t.amount == balance && t.date == now && t.note == "Initial Balance"
    ensures t.category.name == "Initial Balance" && t.category.kind == Income
    ensures !t.isRecurring && t.recurringInterval.None?
  {
    NewTransaction(balance, InitialBalanceCategory, now, "Initial Balance", false)
  }

  class SetupFlow {
    var currentStep: nat
    var initialBalance: string
    var recurringTransactions: seq<Transaction>
    var setupGoals: seq<Goal>
    var hasAddedInitialBalance: bool
    /** Stored across launches; once set, setup is not shown again. */
    var hasCompletedSetup: bool

    /** The opening balance is recorded only by leaving the balance screen, so once it is
        recorded the flow is past that screen. */
    ghost predicate Valid()
      reads this
    {
      currentStep <= LastStep && (hasAddedInitialBalance ==> currentStep > 2)
    }

    constructor()
      ensures Valid()
      ensures currentStep == 0 && initialBalance == [] && recurringTransactions == [] && setupGoals == []
      ensures !hasAddedInitialBalance && !hasCompletedSetup
    {
      currentStep := 0;
      initialBalance := [];
      recurringTransactions := [];
      setupGoals := [];
      hasAddedInitialBalance := false;
      hasCompletedSetup := false;
    }

    /** Continuing from the welcome or the name screen moves one screen on. */
    method Continue()
      requires Valid() && currentStep < 2
      modifies this
      ensures Valid() && currentStep == old(currentStep) + 1
      ensures hasAddedInitialBalance == old(hasAddedInitialBalance) && hasCompletedSetup == old(hasCompletedSetup)
      ensures recurringTransactions == old(recurringTransactions) && setupGoals == old(setupGoals)
      ensures initialBalance == old(initialBalance)
    {
      currentStep := currentStep + 1;
    }

    /** The balance screen's Continue is enabled only once some balance text has been typed,
        whether or not it reads as a number. */
    predicate CanContinueFromBalance()
      reads this
    {
      initialBalance != []
    }

    /** Continuing from the balance screen. When the balance has not been recorded yet and the
        typed text reads as a number, the opening balance transaction is appended to the store
        and the flag is set; otherwise the store is left alone. Either way the flow moves on
        to the recurring transactions screen. */
    method ContinueFromBalance(parse: Parser, store: TransactionStore, now: Date)
      requires Valid() && currentStep == 2
      modifies this, store
      ensures Valid() && currentStep == 3
      ensures !old(hasAddedInitialBalance) && ParseAmount(parse, initialBalance).Some? ==>
        hasAddedInitialBalance &&
        store.transactions == old(store.transactions) + [InitialBalanceTransaction(ParseAmount(parse, initialBalance).value, now)]
      ensures !(!old(hasAddedInitialBalance) && ParseAmount(parse, initialBalance).Some?) ==>
        hasAddedInitialBalance == old(hasAddedInitialBalance) && store.transactions == old(store.transactions)
      ensures hasCompletedSetup == old(hasCompletedSetup) && initialBalance == old(initialBalance)
      ensures recurringTransactions == old(recurringTransactions) && setupGoals == old(setupGoals)
    {
      var balance := ParseAmount(parse, initialBalance);
      if !hasAddedInitialBalance && balance.Some? {
        store.AddTransaction(InitialBalanceTransaction(balance.value, now));
        hasAddedInitialBalance := true;
      }
      currentStep := 3;
    }

    /** A transaction entered on the recurring transactions screen joins the end of its list. */
    method AddRecurringTransaction(t: Transaction)
      requires Valid()
      modifies this
      ensures Valid() && recurringTransactions == old(recurringTransactions) + [t]
      ensures currentStep == old(currentStep) && setupGoals == old(setupGoals)
      ensures hasAddedInitialBalance == old(hasAddedInitialBalance) && hasCompletedSetup == old(hasCompletedSetup)
      ensures initialBalance == old(initialBalance)
    {
      recurringTransactions := recurringTransactions + [t];
    }

    /** Swiping rows away on the recurring transactions screen removes exactly those rows. */
    method RemoveRecurringTransactions(offsets: set<nat>)
      requires Valid() && forall k :: k in offsets ==> k < |recurringTransactions|
      modifies this
      ensures Valid() && recurringTransactions == RemoveOffsets(old(recurringTransactions), offsets)
      ensures |recurringTransactions| == |old(recurringTransactions)| - |offsets|
      ensures currentStep == old(currentStep) && setupGoals == old(setupGoals)
      ensures hasAddedInitialBalance == old(hasAddedInitialBalance) && hasCompletedSetup == old(hasCompletedSetup)
      ensures initialBalance == old(initialBalance)
    {
      KeptIndicesCount(|recurringTransactions|, offsets);
      recurringTransactions := RemoveOffsets(recurringTransactions, offsets);
    }

    /** Leaving the recurring transactions screen, by Continue or by Skip alike: every
        collected transaction is appended to the store, in list order, and the flow moves on
        to the goals screen. */
    method FinishRecurringTransactions(store: TransactionStore)
      requires Valid() && currentStep == 3
      modifies this, store
      ensures Valid() && currentStep == 4
      ensures store.transactions == old(store.transactions) + recurringTransactions
      ensures recurringTransactions == old(recurringTransactions) && setupGoals == old(setupGoals)
      ensures hasAddedInitialBalance == old(hasAddedInitialBalance) && hasCompletedSetup == old(hasCompletedSetup)
      ensures initialBalance == old(initialBalance)
    {
      var pending := recurringTransactions;
      for i := 0 to |pending|
        invariant store.transactions == old(store.transactions) + pending[..i]
        modifies store
      {
        assert pending[..i + 1] == pending[..i] + [pending[i]];
        store.AddTransaction(pending[i]);
      }
      assert pending[..|pending|] == pending;
      currentStep := 4;
    }

    /** A goal entered on the goals screen joins the end of its list. */
    method AddSetupGoal(g: Goal)
      requires Valid()
      modifies this
      ensures Valid() && setupGoals == old(setupGoals) + [g]
      ensures currentStep == old(currentStep) && recurringTransactions == old(recurringTransactions)
      ensures hasAddedInitialBalance == old(hasAddedInitialBalance) && hasCompletedSetup == old(hasCompletedSetup)
      ensures initialBalance == old(initialBalance)
    {
      setupGoals := setupGoals + [g];
    }

    /** Swiping rows away on the goals screen removes exactly those rows. */
    method RemoveSetupGoals(offsets: set<nat>)
      requires Valid() && forall k :: k in offsets ==> k < |setupGoals|
      modifies this
      ensures Valid() && setupGoals == RemoveOffsets(old(setupGoals), offsets)
      ensures |setupGoals| == |old(setupGoals)| - |offsets|
      ensures currentStep == old(currentStep) && recurringTransactions == old(recurringTransactions)
      ensures hasAddedInitialBalance == old(hasAddedInitialBalance) && hasCompletedSetup == old(hasCompletedSetup)
      ensures initialBalance == old(initialBalance)
    {
      KeptIndicesCount(|setupGoals|, offsets);
      setupGoals := RemoveOffsets(setupGoals, offsets);
    }

    /** "Complete Setup" is enabled only once a goal has been entered; Skip always is. */
    predicate CanComplete()
      reads this
    {
      setupGoals != []
    }

    /** Leaving the goals screen, by Complete Setup or by Skip alike (Skip also with no goals):
        every collected goal is added to the store, in list order, and setup is marked
        complete. */
    method FinishGoals(store: GoalsStore)
      requires Valid() && currentStep == 4
      modifies this, store
      ensures Valid() && hasCompletedSetup && currentStep == 4
      ensures store.goals == old(store.goals) + setupGoals
      ensures recurringTransactions == old(recurringTransactions) && setupGoals == old(setupGoals)
      ensures hasAddedInitialBalance == old(hasAddedInitialBalance) && initialBalance == old(initialBalance)
    {
      var pending := setupGoals;
      for i := 0 to |pending|
        invariant store.goals == old(store.goals) + pending[..i]
        modifies store
      {
        assert pending[..i + 1] == pending[..i] + [pending[i]];
        store.AddGoal(pending[i]);
      }
      assert pending[..|pending|] == pending;
      hasCompletedSetup := true;
    }
  }
}
