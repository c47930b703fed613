/**
  The dashboard's upcoming card: the stored recurring templates of one sign, earliest
  anchor date first. It lists templates as stored, not their occurrences, with no cap and
  no date window.
 */
module UpcomingTransactions {
  import opened Sequences
  import opened Transactions

  /** The card's toggle: recurring expenses or recurring income. */
  datatype UpcomingType = Expenses | Incomes

  /** A stored transaction the card shows in the given mode: recurring, and negative for
      expenses or positive for income. A zero amount is shown in neither. */
  predicate ShownAsUpcoming(mode: UpcomingType, t: Transaction) {
    t.isRecurring && (if mode == Expenses then t.amount < 0 else t.amount > 0)
  }

  /** `upcomingTransactions`: the shown templates sorted by anchor date, earliest first. Every
      shown template appears as often as it is stored, and nothing else appears. */
  function UpcomingTransactions(stored: seq<Transaction>, mode: UpcomingType): (r: seq<Transaction>)
    ensures SortedBy(r, DateKey)
    ensures forall x :: multiset(r)[x] == if ShownAsUpcoming(mode, x) then multiset(stored)[x] else 0
    ensures forall x :: x in r ==> x in stored && x.isRecurring && x.amount != 0
  {
    var shown := t => ShownAsUpcoming(mode, t);
    var kept := Filter(stored, shown);
    forall x ensures multiset(kept)[x] == if ShownAsUpcoming(mode, x) then multiset(stored)[x] else 0 {
      FilterCount(stored, shown, x);
    }
    var r := SortBy(kept, DateKey);
    assert forall x :: x in r ==> x in kept by {
      forall x | x in r ensures x in kept {
        assert x in multiset(r);
      }
    }
    r
  }
}
