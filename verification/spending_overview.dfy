/**
  The dashboard's spending overview: the stored transactions that fall into the current
  week, month or year, the total spent in that period, and the per-category chart of that
  spending, largest first. Recurring templates are taken as stored, without expansion.
 */
module SpendingOverview {
  import opened Sequences
  import opened Transactions
  import opened Calendars

  /** The segmented picker's choices. */
  datatype TimeFrame = Week | Month | Year {

    function RawValue(): string {
      match this
      case Week => "Week"
      case Month => "Month"
      case Year => "Year"
    }

    /** The calendar granularity the frame compares dates at. */
    function Period(): Granularity {
      match this
      case Week => WeekOfYear
      case Month => Granularity.Month
      case Year => Granularity.Year
    }
  }

  /** The period test for one transaction. */
  function InPeriod(cal: Calendar, frame: TimeFrame, now: Date): Transaction -> bool {
    (t: Transaction) => cal.samePeriod(frame.Period(), t.date, now)
  }

  /** `filteredTransactions`: the stored transactions in the same period as `now`. */
  function PeriodTransactions(cal: Calendar, stored: seq<Transaction>, now: Date, frame: TimeFrame): seq<Transaction> {
    Filter(stored, InPeriod(cal, frame, now))
  }

  /** Each stored transaction is kept as often as it is stored when its date is in the period
      of `now`, and dropped otherwise. */
  lemma PeriodTransactionsExactly(cal: Calendar, stored: seq<Transaction>, now: Date, frame: TimeFrame, x: Transaction)
    ensures multiset(PeriodTransactions(cal, stored, now, frame))[x]
      == if cal.samePeriod(frame.Period(), x.date, now) then multiset(stored)[x] else 0
  {
    FilterCount(stored, InPeriod(cal, frame, now), x);
  }

  /** `abs(amount)`. */
  function Magnitude(t: Transaction): int {
    if t.amount < 0 then -t.amount else t.amount
  }

  /** `totalSpending`: the magnitudes of the spending transactions, added up. */
  function TotalSpending(s: seq<Transaction>): int {
    Sum(Filter(s, IsExpense), Magnitude)
  }

  /** One more transaction adds what it spent, and income or zero amounts add nothing. */
  lemma TotalSpendingAppend(s: seq<Transaction>, t: Transaction)
    ensures TotalSpending([]) == 0
    ensures TotalSpending(s + [t]) == TotalSpending(s) + (if t.amount < 0 then -t.amount else 0)
  {
    FilterConcat(s, [t], IsExpense);
    SumConcat(Filter(s, IsExpense), Filter([t], IsExpense), Magnitude);
    assert Filter([t], IsExpense) == if t.amount < 0 then [t] else [];
    assert Sum([t], Magnitude) == Magnitude(t) by {
      assert [t][..0] == [];
    }
  }

  /** What was spent in category `name`: the magnitudes of its negative amounts. */
  function SpentOn(s: seq<Transaction>, name: string): int {
    if s == [] then 0
    else
      var t := s[|s| - 1];
      SpentOn(s[..|s| - 1], name) + (if t.amount < 0 && t.category.name == name then -t.amount else 0)
  }

  /** Some transaction in `s` spends money in category `name`. */
  ghost predicate HasExpense(s: seq<Transaction>, name: string) {
    exists i :: 0 <= i < |s| && s[i].amount < 0 && s[i].category.name == name
  }

  /** Growing by one transaction adds a category exactly when that transaction spends in it. */
  lemma HasExpenseAppend(s: seq<Transaction>, t: Transaction, name: string)
    ensures HasExpense(s + [t], name) <==> HasExpense(s, name) || (t.amount < 0 && t.category.name == name)
  {
    var u := s + [t];
    if HasExpense(u, name) && !(t.amount < 0 && t.category.name == name) {
      var i :| 0 <= i < |u| && u[i].amount < 0 && u[i].category.name == name;
      assert i < |s| && s[i] == u[i];
    }
    if HasExpense(s, name) {
      var i :| 0 <= i < |s| && s[i].amount < 0 && s[i].category.name == name;
      assert u[i] == s[i];
    }
    if t.amount < 0 && t.category.name == name {
      assert u[|s|] == t;
    }
  }

  /** A category has spending exactly when money was spent in it, and never a negative total. */
  lemma {:induction false} SpentOnPositive(s: seq<Transaction>, name: string)
    ensures SpentOn(s, name) >= 0
    ensures SpentOn(s, name) > 0 <==> HasExpense(s, name)
  {
    if s != [] {
      var n := |s| - 1;
      SpentOnPositive(s[..n], name);
      assert s == s[..n] + [s[n]];
      HasExpenseAppend(s[..n], s[n], name);
    }
  }

  /** One bar of the chart: a category name and what was spent in it. */
  datatype ChartEntry = ChartEntry(category: string, amount: int)

  function EntryCategory(e: ChartEntry): string { e.category }

  function EntryAmount(e: ChartEntry): int { e.amount }

  /** Sorting by this key puts the largest amount first. */
  function NegEntryAmount(e: ChartEntry): int { -e.amount }

  /** The categories of the entries, in order. */
  function CategoryNames(entries: seq<ChartEntry>): (r: seq<string>)
    ensures |r| == |entries| && forall k :: 0 <= k < |r| ==> r[k] == entries[k].category
  {
    seq(|entries|, k requires 0 <= k < |entries| => entries[k].category)
  }

  /** What was spent in each of `names`, added up. */
  function SpentAcross(names: seq<string>, s: seq<Transaction>): int {
    if names == [] then 0
    else SpentAcross(names[..|names| - 1], s) + SpentOn(s, names[|names| - 1])
  }

  /** One more transaction adds its spending to the total over distinct names when its
      category is among them. */
  lemma {:induction false} SpentAcrossAppend(names: seq<string>, s: seq<Transaction>, t: Transaction)
    requires forall i, j :: 0 <= i < j < |names| ==> names[i] != names[j]
    ensures SpentAcross(names, s + [t])
      == SpentAcross(names, s) + (if t.amount < 0 && t.category.name in names then -t.amount else 0)
  {
    if names != [] {
      var n := |names| - 1;
      var front := names[..n];
      SpentAcrossAppend(front, s, t);
      assert (s + [t])[..|s|] == s;
      assert names == front + [names[n]];
      assert t.category.name in names <==> t.category.name in front || t.category.name == names[n];
      assert names[n] !in front;
    }
  }

  /** Adding up the spending of distinct names that cover every category spent in gives the
      total spending. */
  lemma {:induction false} SpentAcrossTotal(names: seq<string>, s: seq<Transaction>)
    requires forall i, j :: 0 <= i < j < |names| ==> names[i] != names[j]
    requires forall name :: HasExpense(s, name) ==> name in names
    ensures SpentAcross(names, s) == TotalSpending(s)
  {
    if s == [] {
      SpentAcrossEmpty(names);
      assert Filter(s, IsExpense) == [];
    } else {
      var n := |s| - 1;
      var front, t := s[..n], s[n];
      assert s == front + [t];
      forall name | HasExpense(front, name) ensures name in names {
        HasExpenseAppend(front, t, name);
      }
      SpentAcrossTotal(names, front);
      SpentAcrossAppend(names, front, t);
      TotalSpendingAppend(front, t);
      HasExpenseAppend(front, t, t.category.name);
    }
  }

  lemma {:induction false} SpentAcrossEmpty(names: seq<string>)
    ensures SpentAcross(names, []) == 0
  {
    if names != [] {
      SpentAcrossEmpty(names[..|names| - 1]);
    }
  }

  /** Entries carrying each category's spending add up to the spending across their names. */
  lemma {:induction false} EntriesSum(entries: seq<ChartEntry>, s: seq<Transaction>)
    requires forall k :: 0 <= k < |entries| ==> entries[k].amount == SpentOn(s, entries[k].category)
    ensures Sum(entries, EntryAmount) == SpentAcross(CategoryNames(entries), s)
  {
    if entries != [] {
      var n := |entries| - 1;
      EntriesSum(entries[..n], s);
      assert CategoryNames(entries)[..n] == CategoryNames(entries[..n]);
    }
  }

  /** The dictionary loop of `chartData`: for every spending transaction, add its magnitude to
      its category's running total. */
  method CategoryTotals(s: seq<Transaction>) returns (totals: map<string, int>)
    ensures forall name :: name in totals <==> HasExpense(s, name)
    ensures forall name :: name in totals ==> totals[name] == SpentOn(s, name)
  {
    totals := map[];
    for i := 0 to |s|
      invariant forall name :: name in totals <==> HasExpense(s[..i], name)
      invariant forall name :: name in totals ==> totals[name] == SpentOn(s[..i], name)
    {
      var t := s[i];
      assert s[..i + 1] == s[..i] + [t];
      assert s[..i + 1][..i] == s[..i];
      forall name ensures HasExpense(s[..i + 1], name) <==> HasExpense(s[..i], name) || (t.amount < 0 && t.category.name == name) {
        HasExpenseAppend(s[..i], t, name);
      }
      if t.amount < 0 {
        var amount := -t.amount;
        var name := t.category.name;
        var before := if name in totals then totals[name] else 0;
        SpentOnPositive(s[..i], name);
        totals := totals[name := before + amount];
      }
    }
    assert s[..|s|] == s;
  }

  /** `categoryTotals.map { ($0.key, $0.value) }`: one entry per key, in some order. */
  method Entries(totals: map<string, int>) returns (entries: seq<ChartEntry>)
    ensures forall k :: 0 <= k < |entries| ==> entries[k].category in totals && entries[k].amount == totals[entries[k].category]
    ensures forall name :: name in totals ==> name in CategoryNames(entries)
    ensures KeysDistinct(entries, EntryCategory)
  {
    entries := [];
    var keys := totals.Keys;
    while keys != {}
      invariant keys <= totals.Keys
      invariant forall k :: 0 <= k < |entries| ==>
        entries[k].category in totals && entries[k].category !in keys && entries[k].amount == totals[entries[k].category]
      invariant forall name :: name in totals ==> name in keys || name in CategoryNames(entries)
      invariant KeysDistinct(entries, EntryCategory)
      decreases |keys|
    {
      var name :| name in keys;
      var before := entries;
      entries := entries + [ChartEntry(name, totals[name])];
      keys := keys - {name};
      assert CategoryNames(entries) == CategoryNames(before) + [name];
    }
  }

  /** `entries` lists every category spent in during `s` once, with what was spent in it. */
  ghost predicate ListsSpending(entries: seq<ChartEntry>, s: seq<Transaction>) {
    && (forall k :: 0 <= k < |entries| ==> entries[k].amount == SpentOn(s, entries[k].category))
    && (forall k :: 0 <= k < |entries| ==> HasExpense(s, entries[k].category))
    && (forall name :: HasExpense(s, name) ==> name in CategoryNames(entries))
    && KeysDistinct(entries, EntryCategory)
  }

  /** Any rearrangement of such a listing is one too. */
  lemma ListsSpendingPermutation(entries: seq<ChartEntry>, chart: seq<ChartEntry>, s: seq<Transaction>)
    requires multiset(entries) == multiset(chart)
    requires ListsSpending(entries, s)
    ensures ListsSpending(chart, s)
  {
    KeysDistinctPermutation(entries, chart, EntryCategory);
    forall k | 0 <= k < |chart| ensures chart[k].amount == SpentOn(s, chart[k].category) && HasExpense(s, chart[k].category) {
      assert chart[k] in multiset(entries);
    }
    forall name | HasExpense(s, name) ensures name in CategoryNames(chart) {
      var k :| 0 <= k < |entries| && CategoryNames(entries)[k] == name;
      assert entries[k] in multiset(chart);
      var j :| 0 <= j < |chart| && chart[j] == entries[k];
      assert CategoryNames(chart)[j] == name;
    }
  }

  /** A listing's entries are positive, name exactly the categories spent in, and add up to the
      total spending. */
  lemma ListsSpendingMeaning(entries: seq<ChartEntry>, s: seq<Transaction>)
    requires ListsSpending(entries, s)
    ensures forall e :: e in entries ==> e.amount == SpentOn(s, e.category) && e.amount > 0
    ensures forall name :: name in CategoryNames(entries) <==> HasExpense(s, name)
    ensures Sum(entries, EntryAmount) == TotalSpending(s)
  {
    forall e | e in entries ensures e.amount == SpentOn(s, e.category) && e.amount > 0 {
      SpentOnPositive(s, e.category);
    }
    EntriesSum(entries, s);
    SpentAcrossTotal(CategoryNames(entries), s);
  }

  /** `chartData`: one entry per category spent in during the period, carrying what was spent
      in it, largest first; the entries add up to the period's total spending. */
  method ChartData(cal: Calendar, stored: seq<Transaction>, now: Date, frame: TimeFrame) returns (chart: seq<ChartEntry>)
    ensures forall e :: e in chart ==>
      e.amount == SpentOn(PeriodTransactions(cal, stored, now, frame), e.category) && e.amount > 0
    ensures forall name :: name in CategoryNames(chart) <==> HasExpense(PeriodTransactions(cal, stored, now, frame), name)
    ensures KeysDistinct(chart, EntryCategory)
    ensures SortedBy(chart, NegEntryAmount)
    ensures Sum(chart, EntryAmount) == TotalSpending(PeriodTransactions(cal, stored, now, frame))
  {
    var period := PeriodTransactions(cal, stored, now, frame);
    var totals := CategoryTotals(period);
    var entries := Entries(totals);
    assert ListsSpending(entries, period);
    chart := SortBy(entries, NegEntryAmount);
    ListsSpendingPermutation(entries, chart, period);
    ListsSpendingMeaning(chart, period);
  }
}
