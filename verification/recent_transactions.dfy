/**
  The dashboard's recent-activity card: the three newest one-off transactions as stored,
  ignoring recurring templates and without expanding them.
 */
module RecentTransactions {
  import opened Sequences
  import opened Transactions
  import opened TransactionsView

  predicate IsOneOff(t: Transaction) { !t.isRecurring }

  /** `recentTransactions`: the stored one-off transactions, newest first, cut to three. */
  function RecentTransactions(stored: seq<Transaction>): seq<Transaction> {
    Take(SortBy(Filter(stored, IsOneOff), NegDateKey), 3)
  }

  /** At most three stored one-off transactions are shown, newest first. */
  lemma RecentTransactionsShape(stored: seq<Transaction>)
    ensures var r := RecentTransactions(stored);
      |r| <= 3 && NewestFirst(r) && forall x :: x in r ==> x in stored && !x.isRecurring
  {
    var sorted := SortBy(Filter(stored, IsOneOff), NegDateKey);
    TakeSorted(sorted, NegDateKey, 3);
    TakeSubmultiset(sorted, 3);
    var r := Take(sorted, 3);
    forall x | x in r ensures x in stored && !x.isRecurring {
      assert x in multiset(r);
      assert x in multiset(sorted);
      assert x in Filter(stored, IsOneOff);
    }
  }

  /** Any one-off transaction left out is no newer than every one shown, and with three or
      fewer one-off transactions all of them are shown. */
  lemma RecentTransactionsKeepsNewest(stored: seq<Transaction>)
    ensures forall x, y ::
      (x in stored && !x.isRecurring && x !in RecentTransactions(stored) && y in RecentTransactions(stored))
      ==> x.date <= y.date
    ensures |Filter(stored, IsOneOff)| <= 3 ==>
      multiset(RecentTransactions(stored)) == multiset(Filter(stored, IsOneOff))
  {
    var sorted := SortBy(Filter(stored, IsOneOff), NegDateKey);
    TakeSorted(sorted, NegDateKey, 3);
    forall x | x in stored && !x.isRecurring ensures x in sorted {
      assert x in Filter(stored, IsOneOff);
      assert x in multiset(sorted);
    }
  }
}
