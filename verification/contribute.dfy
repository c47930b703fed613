/**
  The form for putting money towards a goal. Saving a positive amount adds it to the goal
  and records the money leaving as a one-off spending transaction.
 */
module Contribute {
  import opened Wrappers
  import opened Categories
  import opened Transactions
  import opened Goals
  import opened GoalsStores
  import opened TransactionStores
  import opened AmountInput
  import opened Calendars
  import opened Recurrence

  class ContributeForm {
    /** The goal as it was when the form was opened. */
    const goal: Goal
    var amount: string
    var note: string
    var date: Date

    constructor(goal: Goal, now: Date)
      ensures this.goal == goal && amount == [] && note == [] && date == now
    {
      this.goal := goal;
      amount := [];
      note := [];
      date := now;
    }

    /** `remainingToGoal`: what would still be missing after this contribution, or what is
        missing now when the amount does not read as a number. */
    function RemainingToGoal(parse: Parser): (r: Amount)
      reads this
      ensures ParseAmount(parse, amount).None? ==> r == goal.targetAmount - goal.currentAmount
      ensures ParseAmount(parse, amount).Some? ==>
        r == goal.targetAmount - goal.currentAmount - ParseAmount(parse, amount).value
    {
      match ParseAmount(parse, amount)
      case None => goal.targetAmount - goal.currentAmount
      case Some(contribution) => goal.targetAmount - (goal.currentAmount + contribution)
    }

    /** The condition `saveContribution` checks: the amount reads as a positive number. */
    predicate CanSave(parse: Parser)
      reads this
    {
      ParseAmount(parse, amount).Some? && ParseAmount(parse, amount).value > 0
    }

    /** The transaction recording a contribution of `value`: money out, once, under a
        category named after the goal, noted with the user's note or a default one. */
    function ContributionTransaction(value: Amount): (t: Transaction)
      reads this
      ensures t.amount == -value && !t.isRecurring && t.recurringInterval.None?
      ensures t.category == Category("Goal: " + goal.name, goal.icon, "blue", Expense)
      ensures t.date == date
      ensures t.note == if note == [] then "Contribution to " + goal.name else note
    {
      NewTransaction(-value, Category("Goal: " + goal.name, goal.icon, "blue", Expense), date,
                     if note == [] then "Contribution to " + goal.name else note, false)
    }

    /** Recording a contribution lowers the balance by exactly its value, and counts it as
        spending. */
    lemma ContributionLowersBalance(step: Stepper, ts: seq<Transaction>, now: Date, value: Amount)
      requires value > 0
      ensures Balance(step, ts + [ContributionTransaction(value)], now) == Balance(step, ts, now) - value
      ensures IsExpense(ContributionTransaction(value))
    {
      BalanceAppend(step, ts, ContributionTransaction(value), now);
    }

    /** `saveContribution`. Unless the amount reads as a positive number nothing happens.
        Otherwise the first goal with this goal's identity becomes this goal with the value
        added (what remains of it is what was previewed), and exactly one contribution
        transaction is appended to the store. */
    method SaveContribution(parse: Parser, goals: GoalsStore, transactions: TransactionStore)
      modifies goals, transactions
      ensures !CanSave(parse) ==>
        goals.goals == old(goals.goals) && transactions.transactions == old(transactions.transactions)
      ensures CanSave(parse) ==>
        transactions.transactions == old(transactions.transactions) + [ContributionTransaction(ParseAmount(parse, amount).value)]
      ensures CanSave(parse) ==> |goals.goals| == |old(goals.goals)| && forall k :: 0 <= k < |goals.goals| ==>
        goals.goals[k] == if Some(k) == FirstIndexOf(old(goals.goals), goal.id)
                          then goal.(currentAmount := goal.currentAmount + ParseAmount(parse, amount).value)
                          else old(goals.goals)[k]
      ensures CanSave(parse) ==> forall k :: 0 <= k < |goals.goals| && Some(k) == FirstIndexOf(old(goals.goals), goal.id) ==>
        goals.goals[k].targetAmount - goals.goals[k].currentAmount == RemainingToGoal(parse)
    {
      var contribution := ParseAmount(parse, amount);
      if contribution.None? || contribution.value <= 0 {
        return;
      }
      goals.ContributeToGoal(goal, contribution.value);
      var transaction := ContributionTransaction(contribution.value);
      transactions.AddTransaction(transaction);
    }
  }
}
