/**
  The transaction history screen: every effective transaction, newest first, optionally
  narrowed by a search text matched against the note and the category name, and by
  whether it is income or an expense.
 */
module TransactionsView {
  import opened Sequences
  import opened Transactions
  import opened Calendars
  import opened Recurrence

  /** The segmented filter above the list. */
  datatype TransactionFilter = All | IncomeOnly | ExpenseOnly

  /** `localizedCaseInsensitiveContains`: whether the first text contains the second. */
  type Matcher = (string, string) -> bool

  /** The search text occurs in the transaction's note or in its category's name. */
  predicate MatchesSearch(contains: Matcher, searchText: string, t: Transaction) {
    contains(t.note, searchText) || contains(t.category.name, searchText)
  }

  /** What the selected filter lets through: everything, strictly positive amounts, or
      strictly negative amounts. A zero amount passes only `All`. */
  predicate PassesFilter(filter: TransactionFilter, t: Transaction) {
    match filter
    case All => true
    case IncomeOnly => t.amount > 0
    case ExpenseOnly => t.amount < 0
  }

  /** Dates never increase along the sequence. */
  ghost predicate NewestFirst(s: seq<Transaction>) {
    forall i, j :: 0 <= i < j < |s| ==> s[i].date >= s[j].date
  }

  /** The search as a test on one transaction. */
  function SearchPredicate(contains: Matcher, searchText: string): Transaction -> bool {
    t => MatchesSearch(contains, searchText, t)
  }

  /** The transactions matching the search text, or all of them when it is empty. */
  function SearchResults(s: seq<Transaction>, searchText: string, contains: Matcher): (r: seq<Transaction>)
    ensures forall x :: x in r <==> x in s && (searchText == [] || MatchesSearch(contains, searchText, x))
  {
    if searchText == [] then s else Filter(s, SearchPredicate(contains, searchText))
  }

  /** The transactions passing the selected filter. */
  function ApplyFilter(s: seq<Transaction>, filter: TransactionFilter): (r: seq<Transaction>)
    ensures forall x :: x in r <==> x in s && PassesFilter(filter, x)
  {
    match filter
    case All => s
    case IncomeOnly => Filter(s, IsIncome)
    case ExpenseOnly => Filter(s, IsExpense)
  }

  /** `filteredTransactions`: the effective transactions sorted newest first, then those
      matching the search text, then those passing the filter. */
  function FilteredTransactions(step: Stepper, stored: seq<Transaction>, now: Date,
                                searchText: string, filter: TransactionFilter, contains: Matcher): seq<Transaction> {
    ApplyFilter(SearchResults(SortBy(Effective(step, stored, now), NegDateKey), searchText, contains), filter)
  }

  /** The history is newest first. */
  lemma FilteredTransactionsNewestFirst(step: Stepper, stored: seq<Transaction>, now: Date,
                                        searchText: string, filter: TransactionFilter, contains: Matcher)
    ensures NewestFirst(FilteredTransactions(step, stored, now, searchText, filter, contains))
  {
    var all := SortBy(Effective(step, stored, now), NegDateKey);
    var found := SearchResults(all, searchText, contains);
    FilterSorted(all, SearchPredicate(contains, searchText), NegDateKey);
    FilterSorted(found, IsIncome, NegDateKey);
    FilterSorted(found, IsExpense, NegDateKey);
    assert SortedBy(ApplyFilter(found, filter), NegDateKey);
  }

  /** A transaction is in the history exactly when it is effective, matches the search (or the
      search is empty) and passes the filter: nothing else gets in and nothing matching is
      dropped. */
  lemma FilteredTransactionsMembers(step: Stepper, stored: seq<Transaction>, now: Date,
                                    searchText: string, filter: TransactionFilter, contains: Matcher, x: Transaction)
    ensures x in FilteredTransactions(step, stored, now, searchText, filter, contains)
      <==> (x in Effective(step, stored, now)
        && (searchText == [] || MatchesSearch(contains, searchText, x))
        && PassesFilter(filter, x))
  {
    var effective := Effective(step, stored, now);
    var all := SortBy(effective, NegDateKey);
    assert x in all <==> x in multiset(all);
  }

  /** With no search text and the `All` filter, the history is a rearrangement of the
      effective transactions. */
  lemma FilteredTransactionsUnfiltered(step: Stepper, stored: seq<Transaction>, now: Date, contains: Matcher)
    ensures multiset(FilteredTransactions(step, stored, now, [], All, contains)) == multiset(Effective(step, stored, now))
  {
  }
}
