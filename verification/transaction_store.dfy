/**
  The app's transaction store: the list of stored transactions (one-off transactions and
  recurring templates) in the order they were added, and the derived views over it.
 */
module TransactionStores {
  import opened Wrappers
  import opened Sequences
  import opened Transactions
  import opened Calendars
  import opened Recurrence

  /** The dates from `anchor` stepping up to `bound`, when they satisfy the characterisation
      of the occurrences, are the occurrences. */
  lemma OccurrencesExactly(step: Stepper, interval: RecurringInterval, anchor: Date, bound: Date, dates: seq<Date>)
    requires forall k {:trigger dates[k]} :: 0 <= k < |dates| ==>
      dates[k] == Iterate(step, interval, anchor, k) && dates[k] <= bound
    requires Iterate(step, interval, anchor, |dates|) > bound
    ensures dates == Occurrences(step, interval, anchor, bound)
  {
    forall m: nat | m < |dates| ensures Iterate(step, interval, anchor, m) <= bound {
      assert dates[m] == Iterate(step, interval, anchor, m);
    }
    OccurrenceCountUnique(step, interval, anchor, bound, |dates|);
  }

  /** The loop inside `effectiveTransactions` for one stored transaction: a recurring template
      with an interval yields a copy on its date and then on each date one step after the
      previous one, as long as the date is not after `now`; anything else yields itself. */
  method ExpandTemplate(step: Stepper, t: Transaction, now: Date) returns (part: seq<Transaction>)
    ensures part == Expand(step, t, now)
  {
    if t.isRecurring && t.recurringInterval.Some? {
      var interval := t.recurringInterval.value;
      part := [];
      ghost var dates: seq<Date> := [];
      var date := t.date;
      while date <= now
        invariant date == Iterate(step, interval, t.date, |dates|)
        invariant forall k {:trigger dates[k]} :: 0 <= k < |dates| ==>
          dates[k] == Iterate(step, interval, t.date, k) && dates[k] <= now
        invariant part == Instances(t, dates)
        decreases now - date
      {
        part := part + [NewTransaction(t.amount, t.category, date, t.note, true, Some(interval))];
        dates := dates + [date];
        date := step(interval, date);
      }
      OccurrencesExactly(step, interval, t.date, now, dates);
    } else {
      part := [t];
    }
  }

  /** The first loop inside `getUpcomingTransactions`: step from the anchor until the date is
      after `now`. The result is the first occurrence after `now`. */
  method StepPast(step: Stepper, interval: RecurringInterval, anchor: Date, now: Date) returns (date: Date)
    ensures date == Iterate(step, interval, anchor, OccurrenceCount(step, interval, anchor, now))
    ensures date > now
  {
    date := anchor;
    ghost var skip: nat := 0;
    while date <= now
      invariant date == Iterate(step, interval, anchor, skip)
      invariant forall m: nat :: m < skip ==> Iterate(step, interval, anchor, m) <= now
      decreases now - date
    {
      date := step(interval, date);
      skip := skip + 1;
    }
    OccurrenceCountUnique(step, interval, anchor, now, skip);
  }

  /** The per-template work of `getUpcomingTransactions`: a recurring expense with an interval
      yields a copy on each occurrence after `now` up to `horizon`; anything else yields
      nothing. */
  method UpcomingOfTemplate(step: Stepper, t: Transaction, now: Date, horizon: Date) returns (part: seq<Transaction>)
    ensures part == UpcomingOf(step, t, now, horizon)
  {
    part := [];
    if t.isRecurring && t.amount < 0 {
      if t.recurringInterval.None? {
        return;
      }
      var interval := t.recurringInterval.value;
      var date := StepPast(step, interval, t.date, now);
      var first := date;
      ghost var dates: seq<Date> := [];
      while date <= horizon
        invariant date == Iterate(step, interval, first, |dates|)
        invariant forall k {:trigger dates[k]} :: 0 <= k < |dates| ==>
          dates[k] == Iterate(step, interval, first, k) && dates[k] <= horizon
        invariant part == Instances(t, dates)
        decreases horizon - date
      {
        part := part + [NewTransaction(t.amount, t.category, date, t.note, true, Some(interval))];
        dates := dates + [date];
        date := step(interval, date);
      }
      OccurrencesExactly(step, interval, first, horizon, dates);
    }
  }

  class TransactionStore {
    /** The stored transactions, oldest addition first. */
    var transactions: seq<Transaction>

    /** A fresh store holds no transactions (loading saved ones is not modelled). */
    constructor()
      ensures transactions == []
    {
      transactions := [];
    }

    /** `addTransaction`: the transaction goes at the end; the earlier ones stay as they were. */
    method AddTransaction(t: Transaction)
      modifies this
      ensures transactions == old(transactions) + [t]
    {
      transactions := transactions + [t];
    }

    /** `deleteTransactions(at:)`: exactly the transactions at the given offsets are removed,
        and the others keep their relative order. */
    method DeleteTransactions(offsets: set<nat>)
      requires forall k :: k in offsets ==> k < |transactions|
      modifies this
      ensures transactions == RemoveOffsets(old(transactions), offsets)
      ensures |transactions| == |old(transactions)| - |offsets|
    {
      KeptIndicesCount(|transactions|, offsets);
      transactions := RemoveOffsets(transactions, offsets);
    }

    /** `clearAll`: the store is emptied. */
    method ClearAll()
      modifies this
      ensures transactions == []
    {
      transactions := [];
    }

    /** `effectiveTransactions`: each stored transaction in turn, a recurring template with an
        interval replaced by its occurrences up to `now` found by stepping from its date. */
    method EffectiveTransactions(cal: Calendar, now: Date) returns (result: seq<Transaction>)
      ensures result == Effective(cal.step, transactions, now)
    {
      result := [];
      for j := 0 to |transactions|
        invariant result == Effective(cal.step, transactions[..j], now)
      {
        var part := ExpandTemplate(cal.step, transactions[j], now);
        assert transactions[..j + 1][..j] == transactions[..j];
        result := result + part;
      }
      assert transactions[..|transactions|] == transactions;
    }

    /** `currentBalance`: the sum of the effective amounts; zero for an empty store. */
    function CurrentBalance(cal: Calendar, now: Date): (r: int)
      reads this
      ensures r == Sum(Effective(cal.step, transactions, now), AmountOf)
      ensures transactions == [] ==> r == 0
    {
      Balance(cal.step, transactions, now)
    }

    /** `getUpcomingTransactions(limit:)`: for each stored recurring expense with an interval,
        step past `now`, then collect the occurrences up to three months ahead; sort all of
        them by date and keep the first `limit`. */
    method GetUpcomingTransactions(cal: Calendar, now: Date, limit: nat := 5) returns (result: seq<Transaction>)
      ensures result == UpcomingWithin(cal, transactions, now, limit)
      ensures |result| <= limit && SortedBy(result, DateKey)
    {
      var horizon := cal.addMonths(3, now).GetOr(now);
      var upcoming: seq<Transaction> := [];
      for j := 0 to |transactions|
        invariant upcoming == AllUpcoming(cal.step, transactions[..j], now, horizon)
      {
        var part := UpcomingOfTemplate(cal.step, transactions[j], now, horizon);
        assert transactions[..j + 1][..j] == transactions[..j];
        upcoming := upcoming + part;
      }
      assert transactions[..|transactions|] == transactions;
      result := Take(SortBy(upcoming, DateKey), limit);
      UpcomingWithinOrdered(cal, transactions, now, limit);
    }
  }
}
