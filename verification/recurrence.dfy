/**
  How stored transactions become the concrete dated transactions the app shows and sums.
  A recurring template with an interval stands for its occurrences: the anchor date, then
  each later date one interval after the previous occurrence (stepping is cumulative, so a
  monthly template anchored on the 31st drifts to the 29th after February). Everything
  else stands for itself. The upcoming-payments list instead looks forward from `now`.
 */
module Recurrence {
  import opened Wrappers
  import opened Sequences
  import opened Transactions
  import opened Calendars

  // ---------------------------------------------------------------------------
  // Stepping

  /** The date reached from `anchor` after `n` steps of `interval`, each step taken from the
      previous result. */
  function Iterate(step: Stepper, interval: RecurringInterval, anchor: Date, n: nat): (r: Date)
    ensures r >= anchor + n
  {
    if n == 0 then anchor else step(interval, Iterate(step, interval, anchor, n - 1))
  }

  /** Later steps reach strictly later dates. */
  lemma {:induction false} IterateIncreasing(step: Stepper, interval: RecurringInterval, anchor: Date, m: nat, n: nat)
    requires m < n
    ensures Iterate(step, interval, anchor, m) < Iterate(step, interval, anchor, n)
    decreases n
  {
    if m < n - 1 {
      IterateIncreasing(step, interval, anchor, m, n - 1);
    }
  }

  /** Stepping `a` times and then `b` more times is stepping `a + b` times. */
  lemma {:induction false} IterateAdd(step: Stepper, interval: RecurringInterval, anchor: Date, a: nat, b: nat)
    ensures Iterate(step, interval, Iterate(step, interval, anchor, a), b) == Iterate(step, interval, anchor, a + b)
    decreases b
  {
    if b > 0 {
      IterateAdd(step, interval, anchor, a, b - 1);
    }
  }

  function CountFrom(step: Stepper, interval: RecurringInterval, anchor: Date, bound: Date, k: nat): (n: nat)
    requires forall m: nat :: m < k ==> Iterate(step, interval, anchor, m) <= bound
    ensures k <= n
    ensures Iterate(step, interval, anchor, n) > bound
    ensures forall m: nat :: m < n ==> Iterate(step, interval, anchor, m) <= bound
    decreases bound - anchor - k + 1
  {
    if Iterate(step, interval, anchor, k) > bound then k
    else CountFrom(step, interval, anchor, bound, k + 1)
  }

  /** How many steps from `anchor` stay at or before `bound`: the first step count that
      passes it. */
  function OccurrenceCount(step: Stepper, interval: RecurringInterval, anchor: Date, bound: Date): (n: nat)
    ensures Iterate(step, interval, anchor, n) > bound
    ensures forall m: nat :: m < n ==> Iterate(step, interval, anchor, m) <= bound
  {
    CountFrom(step, interval, anchor, bound, 0)
  }

  /** A step count with the two properties above is the occurrence count. */
  lemma OccurrenceCountUnique(step: Stepper, interval: RecurringInterval, anchor: Date, bound: Date, n: nat)
    requires Iterate(step, interval, anchor, n) > bound
    requires forall m: nat :: m < n ==> Iterate(step, interval, anchor, m) <= bound
    ensures n == OccurrenceCount(step, interval, anchor, bound)
  {
  }

  /** The dates `anchor`, one step later, two steps later, ... that are at or before `bound`. */
  function Occurrences(step: Stepper, interval: RecurringInterval, anchor: Date, bound: Date): (r: seq<Date>)
    ensures forall k {:trigger r[k]} :: 0 <= k < |r| ==> r[k] == Iterate(step, interval, anchor, k) && r[k] <= bound
    ensures Iterate(step, interval, anchor, |r|) > bound
    ensures r == [] <==> anchor > bound
  {
    seq(OccurrenceCount(step, interval, anchor, bound), k requires 0 <= k => Iterate(step, interval, anchor, k))
  }

  /** The occurrences strictly increase, and every reachable date at or before `bound` is one. */
  lemma OccurrencesOrderedAndComplete(step: Stepper, interval: RecurringInterval, anchor: Date, bound: Date)
    ensures var r := Occurrences(step, interval, anchor, bound);
      forall j, k :: 0 <= j < k < |r| ==> r[j] < r[k]
    ensures var r := Occurrences(step, interval, anchor, bound);
      forall m: nat :: Iterate(step, interval, anchor, m) <= bound ==> m < |r|
  {
    var r := Occurrences(step, interval, anchor, bound);
    forall j, k | 0 <= j < k < |r| ensures r[j] < r[k] {
      IterateIncreasing(step, interval, anchor, j, k);
    }
    forall m: nat | Iterate(step, interval, anchor, m) <= bound ensures m < |r| {
      if m > |r| {
        IterateIncreasing(step, interval, anchor, |r|, m);
      }
    }
  }

  // ---------------------------------------------------------------------------
  // effectiveTransactions

  /** A template that `effectiveTransactions` expands: recurring and with an interval. */
  predicate Expands(t: Transaction) {
    t.isRecurring && t.recurringInterval.Some?
  }

  /** One occurrence of template `t`: its amount, category and note on `date`, marked recurring
      with the template's interval. */
  function Instance(t: Transaction, date: Date): Transaction {
    Transaction(t.amount, t.category, date, t.note, true, t.recurringInterval)
  }

  /** One occurrence of `t` per date, in the order of the dates. */
  function Instances(t: Transaction, dates: seq<Date>): (r: seq<Transaction>)
    ensures |r| == |dates|
    ensures forall k :: 0 <= k < |r| ==> r[k] == Instance(t, dates[k])
  {
    seq(|dates|, k requires 0 <= k < |dates| => Instance(t, dates[k]))
  }

  /** `t` copies every field of template `template` except the date, and is marked recurring. */
  predicate CopiesTemplate(t: Transaction, template: Transaction) {
    t.amount == template.amount && t.category == template.category && t.note == template.note
    && t.isRecurring && t.recurringInterval == template.recurringInterval
  }

  /** What one stored transaction contributes to `effectiveTransactions`. A template that does
      not expand contributes exactly itself, whatever its date. An expanding template
      contributes one copy per occurrence up to `now`, dated with the occurrences in order,
      and nothing when it is anchored after `now`. */
  function Expand(step: Stepper, t: Transaction, now: Date): (r: seq<Transaction>)
    ensures !Expands(t) ==> r == [t]
  {
    if Expands(t) then Instances(t, Occurrences(step, t.recurringInterval.value, t.date, now))
    else [t]
  }

  /** An expanding template contributes one copy per occurrence up to `now`, dated with the
      occurrences in order: the first copy is dated at the anchor, each later one a step after
      the one before, the step after the last copy is past `now`, and there are no copies
      when the anchor is after `now`. */
  lemma ExpandOccurrences(step: Stepper, t: Transaction, now: Date)
    requires Expands(t)
    ensures var r := Expand(step, t, now);
      forall k :: 0 <= k < |r| ==>
        CopiesTemplate(r[k], t) && r[k].date == Iterate(step, t.recurringInterval.value, t.date, k) && r[k].date <= now
    ensures Iterate(step, t.recurringInterval.value, t.date, |Expand(step, t, now)|) > now
    ensures Expand(step, t, now) == [] <==> t.date > now
  {
  }

  /** `effectiveTransactions`: every stored transaction replaced by what it contributes, in
      store order. */
  function Effective(step: Stepper, ts: seq<Transaction>, now: Date): seq<Transaction> {
    if ts == [] then []
    else Effective(step, ts[..|ts| - 1], now) + Expand(step, ts[|ts| - 1], now)
  }

  /** Expanding a concatenated store expands each part on its own. */
  lemma {:induction false} EffectiveConcat(step: Stepper, a: seq<Transaction>, b: seq<Transaction>, now: Date)
    ensures Effective(step, a + b, now) == Effective(step, a, now) + Effective(step, b, now)
    decreases |b|
  {
    if b == [] {
      assert a + b == a;
    } else {
      var n := |b| - 1;
      calc {
        Effective(step, a + b, now);
        { assert (a + b)[..|a + b| - 1] == a + b[..n]; assert (a + b)[|a + b| - 1] == b[n]; }
        Effective(step, a + b[..n], now) + Expand(step, b[n], now);
        { EffectiveConcat(step, a, b[..n], now); }
        Effective(step, a, now) + Effective(step, b[..n], now) + Expand(step, b[n], now);
        Effective(step, a, now) + Effective(step, b, now);
      }
    }
  }

  /** Store order is kept: what the `i`th stored transaction contributes comes after what
      every earlier one contributes and before what every later one contributes. */
  lemma EffectiveSplitAt(step: Stepper, ts: seq<Transaction>, i: nat, now: Date)
    requires i < |ts|
    ensures Effective(step, ts, now)
      == Effective(step, ts[..i], now) + Expand(step, ts[i], now) + Effective(step, ts[i + 1..], now)
  {
    assert ts == ts[..i] + [ts[i]] + ts[i + 1..];
    EffectiveConcat(step, ts[..i] + [ts[i]], ts[i + 1..], now);
    EffectiveConcat(step, ts[..i], [ts[i]], now);
    assert Effective(step, [ts[i]], now) == Effective(step, [], now) + Expand(step, ts[i], now);
  }

  /** Every effective transaction was contributed by some stored transaction, and everything a
      stored transaction contributes is effective. */
  lemma EffectiveMembers(step: Stepper, ts: seq<Transaction>, now: Date, x: Transaction)
    ensures x in Effective(step, ts, now) <==> exists j :: 0 <= j < |ts| && x in Expand(step, ts[j], now)
  {
    if x in Effective(step, ts, now) {
      EffectiveMembersIn(step, ts, now, x);
    }
    if exists j :: 0 <= j < |ts| && x in Expand(step, ts[j], now) {
      var j :| 0 <= j < |ts| && x in Expand(step, ts[j], now);
      EffectiveSplitAt(step, ts, j, now);
    }
  }

  lemma {:induction false} EffectiveMembersIn(step: Stepper, ts: seq<Transaction>, now: Date, x: Transaction)
    requires x in Effective(step, ts, now)
    ensures exists j :: 0 <= j < |ts| && x in Expand(step, ts[j], now)
    decreases |ts|
  {
    var n := |ts| - 1;
    if x !in Expand(step, ts[n], now) {
      EffectiveMembersIn(step, ts[..n], now, x);
      var j :| 0 <= j < n && x in Expand(step, ts[..n][j], now);
      assert ts[..n][j] == ts[j];
    }
  }

  /** Every effective transaction is dated at or before `now`, except stored transactions that
      do not expand: those are included even when dated in the future. */
  lemma EffectiveDates(step: Stepper, ts: seq<Transaction>, now: Date)
    ensures forall x :: x in Effective(step, ts, now) ==> x.date <= now || (x in ts && !Expands(x))
    ensures forall j :: 0 <= j < |ts| && !Expands(ts[j]) ==> ts[j] in Effective(step, ts, now)
  {
    forall x | x in Effective(step, ts, now) ensures x.date <= now || (x in ts && !Expands(x)) {
      EffectiveMembers(step, ts, now, x);
      var j :| 0 <= j < |ts| && x in Expand(step, ts[j], now);
      if Expands(ts[j]) {
        ExpandOccurrences(step, ts[j], now);
        var k :| 0 <= k < |Expand(step, ts[j], now)| && Expand(step, ts[j], now)[k] == x;
      }
    }
    forall j | 0 <= j < |ts| && !Expands(ts[j]) ensures ts[j] in Effective(step, ts, now) {
      EffectiveMembers(step, ts, now, ts[j]);
    }
  }

  // ---------------------------------------------------------------------------
  // currentBalance

  /** `currentBalance`: the amounts of the effective transactions, summed left to right. */
  function Balance(step: Stepper, ts: seq<Transaction>, now: Date): int {
    Sum(Effective(step, ts, now), AmountOf)
  }

  /** What one stored transaction adds to the balance: its amount once if it does not expand,
      otherwise its amount once per occurrence up to `now`. */
  lemma ExpandTotal(step: Stepper, t: Transaction, now: Date)
    ensures Sum(Expand(step, t, now), AmountOf)
      == if Expands(t) then |Occurrences(step, t.recurringInterval.value, t.date, now)| * t.amount
         else t.amount
  {
    var r := Expand(step, t, now);
    if Expands(t) {
      ExpandOccurrences(step, t, now);
      SumConstant(r, AmountOf, t.amount);
    } else {
      assert r == [][..0] + [t];
    }
  }

  /** The balance of a store is the balance of its first part plus what the rest adds; in
      particular adding one transaction adds exactly its contribution, and an empty store has
      balance zero. */
  lemma BalanceAppend(step: Stepper, ts: seq<Transaction>, t: Transaction, now: Date)
    ensures Balance(step, [], now) == 0
    ensures Balance(step, ts + [t], now) == Balance(step, ts, now)
      + if Expands(t) then |Occurrences(step, t.recurringInterval.value, t.date, now)| * t.amount
        else t.amount
  {
    EffectiveConcat(step, ts, [t], now);
    assert Effective(step, [t], now) == Effective(step, [], now) + Expand(step, t, now);
    SumConcat(Effective(step, ts, now), Expand(step, t, now), AmountOf);
    ExpandTotal(step, t, now);
  }

  /** The balance of two store parts together is the sum of their balances. */
  lemma BalanceConcat(step: Stepper, a: seq<Transaction>, b: seq<Transaction>, now: Date)
    ensures Balance(step, a + b, now) == Balance(step, a, now) + Balance(step, b, now)
  {
    EffectiveConcat(step, a, b, now);
    SumConcat(Effective(step, a, now), Effective(step, b, now), AmountOf);
  }

  /** The balance does not depend on the order in which transactions are stored. */
  lemma {:induction false} BalancePermutation(step: Stepper, a: seq<Transaction>, b: seq<Transaction>, now: Date)
    requires multiset(a) == multiset(b)
    ensures Balance(step, a, now) == Balance(step, b, now)
    decreases |a|
  {
    if a == [] {
      assert |b| == |multiset(b)| == 0;
    } else {
      var n := |a| - 1;
      var x := a[n];
      assert a == a[..n] + [x];
      assert x in multiset(b);
      var i :| 0 <= i < |b| && b[i] == x;
      var before, after := b[..i], b[i + 1..];
      assert b == before + [x] + after;
      calc {
        multiset(before + after) + multiset{x};
        multiset(before) + multiset(after) + multiset([x]);
        multiset(before + [x] + after);
        multiset(a);
        multiset(a[..n] + [x]);
        multiset(a[..n]) + multiset{x};
      }
      assert multiset(before + after) == multiset(before + after) + multiset{x} - multiset{x};
      assert multiset(a[..n]) == multiset(a[..n]) + multiset{x} - multiset{x};
      BalancePermutation(step, a[..n], before + after, now);
      BalanceConcat(step, a[..n], [x], now);
      BalanceConcat(step, before + [x], after, now);
      BalanceConcat(step, before, [x], now);
      BalanceConcat(step, before, after, now);
    }
  }

  // ---------------------------------------------------------------------------
  // getUpcomingTransactions

  /** The dates of a template's occurrences strictly after `now` and at or before `horizon`,
      found by first stepping past `now` and then stepping up to `horizon`. */
  function UpcomingDates(step: Stepper, interval: RecurringInterval, anchor: Date, now: Date, horizon: Date): seq<Date> {
    Occurrences(step, interval, Iterate(step, interval, anchor, OccurrenceCount(step, interval, anchor, now)), horizon)
  }

  /** The upcoming dates are the occurrences that follow the last one at or before `now`, in
      order, and all lie strictly after `now` and at or before `horizon`. */
  lemma UpcomingDatesShift(step: Stepper, interval: RecurringInterval, anchor: Date, now: Date, horizon: Date)
    ensures var r := UpcomingDates(step, interval, anchor, now, horizon);
      var skip := OccurrenceCount(step, interval, anchor, now);
      forall k {:trigger r[k]} :: 0 <= k < |r| ==> r[k] == Iterate(step, interval, anchor, skip + k) && now < r[k] <= horizon
  {
    UpcomingDatesAreSteps(step, interval, anchor, now, horizon);
    UpcomingDatesInWindow(step, interval, anchor, now, horizon);
  }

  lemma UpcomingDatesAreSteps(step: Stepper, interval: RecurringInterval, anchor: Date, now: Date, horizon: Date)
    ensures var r := UpcomingDates(step, interval, anchor, now, horizon);
      var skip := OccurrenceCount(step, interval, anchor, now);
      forall k {:trigger r[k]} :: 0 <= k < |r| ==> r[k] == Iterate(step, interval, anchor, skip + k)
  {
    var skip := OccurrenceCount(step, interval, anchor, now);
    var r := UpcomingDates(step, interval, anchor, now, horizon);
    forall k | 0 <= k < |r| ensures r[k] == Iterate(step, interval, anchor, skip + k) {
      IterateAdd(step, interval, anchor, skip, k);
    }
  }

  lemma UpcomingDatesInWindow(step: Stepper, interval: RecurringInterval, anchor: Date, now: Date, horizon: Date)
    ensures var r := UpcomingDates(step, interval, anchor, now, horizon);
      forall k :: 0 <= k < |r| ==> now < r[k] <= horizon
  {
  }

  /** Every occurrence strictly after `now` and at or before `horizon` is an upcoming date. */
  lemma UpcomingDatesComplete(step: Stepper, interval: RecurringInterval, anchor: Date, now: Date, horizon: Date, m: nat)
    requires now < Iterate(step, interval, anchor, m) <= horizon
    ensures Iterate(step, interval, anchor, m) in UpcomingDates(step, interval, anchor, now, horizon)
  {
    var skip := OccurrenceCount(step, interval, anchor, now);
    var first := Iterate(step, interval, anchor, skip);
    var r := UpcomingDates(step, interval, anchor, now, horizon);
    UpcomingDatesShift(step, interval, anchor, now, horizon);
    assert skip <= m;
    IterateAdd(step, interval, anchor, skip, m - skip);
    OccurrencesOrderedAndComplete(step, interval, first, horizon);
    assert r[m - skip] == Iterate(step, interval, anchor, m);
  }

  /** A template the upcoming list looks at: a recurring expense. */
  predicate IsRecurringExpense(t: Transaction) {
    t.isRecurring && t.amount < 0
  }

  /** `date` is one of the template's occurrences. */
  ghost predicate ReachableFrom(step: Stepper, t: Transaction, date: Date) {
    t.recurringInterval.Some? && exists m: nat :: Iterate(step, t.recurringInterval.value, t.date, m) == date
  }

  /** What one stored transaction contributes to the upcoming list: nothing unless it is a
      recurring expense with an interval (a recurring template without one is dropped here,
      although `effectiveTransactions` keeps it), otherwise a copy for each of its occurrences
      strictly after `now` and at or before `horizon`. */
  function UpcomingOf(step: Stepper, t: Transaction, now: Date, horizon: Date): (r: seq<Transaction>)
    ensures !(IsRecurringExpense(t) && t.recurringInterval.Some?) ==> r == []
  {
    if IsRecurringExpense(t) then
      match t.recurringInterval
      case None => []
      case Some(interval) => Instances(t, UpcomingDates(step, interval, t.date, now, horizon))
    else
      []
  }

  /** Each upcoming copy has the template's fields, and its date is one of the template's
      occurrences, strictly after `now` and at or before `horizon`. */
  lemma UpcomingOfCopies(step: Stepper, t: Transaction, now: Date, horizon: Date)
    ensures forall x :: x in UpcomingOf(step, t, now, horizon) ==>
      CopiesTemplate(x, t) && now < x.date <= horizon && ReachableFrom(step, t, x.date)
  {
    var r := UpcomingOf(step, t, now, horizon);
    forall k | 0 <= k < |r| ensures CopiesTemplate(r[k], t) && now < r[k].date <= horizon && ReachableFrom(step, t, r[k].date) {
      UpcomingCopy(step, t, now, horizon, k);
    }
  }

  lemma UpcomingCopy(step: Stepper, t: Transaction, now: Date, horizon: Date, k: nat)
    requires k < |UpcomingOf(step, t, now, horizon)|
    ensures var x := UpcomingOf(step, t, now, horizon)[k];
      CopiesTemplate(x, t) && now < x.date <= horizon && ReachableFrom(step, t, x.date)
  {
    var interval := t.recurringInterval.value;
    var dates := UpcomingDates(step, interval, t.date, now, horizon);
    var m := OccurrenceCount(step, interval, t.date, now) + k;
    UpcomingDatesShift(step, interval, t.date, now, horizon);
    assert UpcomingOf(step, t, now, horizon)[k] == Instance(t, dates[k]);
    Reachable(step, t, m);
  }

  /** Every step count reaches an occurrence. */
  lemma Reachable(step: Stepper, t: Transaction, m: nat)
    requires t.recurringInterval.Some?
    ensures ReachableFrom(step, t, Iterate(step, t.recurringInterval.value, t.date, m))
  {
  }

  /** The upcoming occurrences of every stored transaction, in store order. */
  function AllUpcoming(step: Stepper, ts: seq<Transaction>, now: Date, horizon: Date): (r: seq<Transaction>)
    ensures forall x :: x in r ==> exists t :: t in ts && x in UpcomingOf(step, t, now, horizon)
  {
    if ts == [] then []
    else
      var n := |ts| - 1;
      var front := AllUpcoming(step, ts[..n], now, horizon);
      assert forall t :: t in ts[..n] ==> t in ts;
      front + UpcomingOf(step, ts[n], now, horizon)
  }

  /** Nothing upcoming is lost before the sort: every occurrence of a stored recurring expense
      strictly after `now` and at or before `horizon` is collected. */
  lemma {:induction false} AllUpcomingComplete(step: Stepper, ts: seq<Transaction>, now: Date, horizon: Date, j: nat, m: nat)
    requires j < |ts| && IsRecurringExpense(ts[j]) && ts[j].recurringInterval.Some?
    requires now < Iterate(step, ts[j].recurringInterval.value, ts[j].date, m) <= horizon
    ensures Instance(ts[j], Iterate(step, ts[j].recurringInterval.value, ts[j].date, m))
      in AllUpcoming(step, ts, now, horizon)
    decreases |ts|
  {
    var t := ts[j];
    var interval := t.recurringInterval.value;
    var date := Iterate(step, interval, t.date, m);
    var n := |ts| - 1;
    if j == n {
      UpcomingDatesComplete(step, interval, t.date, now, horizon, m);
      var dates := UpcomingDates(step, interval, t.date, now, horizon);
      var k :| 0 <= k < |dates| && dates[k] == date;
      assert UpcomingOf(step, t, now, horizon)[k] == Instance(t, date);
    } else {
      assert ts[..n][j] == t;
      AllUpcomingComplete(step, ts[..n], now, horizon, j, m);
    }
  }

  /** `getUpcomingTransactions(limit:)`: all upcoming occurrences within three months of `now`,
      ordered by date, cut to the first `limit`. */
  function UpcomingWithin(cal: Calendar, ts: seq<Transaction>, now: Date, limit: nat): seq<Transaction> {
    Take(SortBy(AllUpcoming(cal.step, ts, now, UpcomingHorizon(cal, now)), DateKey), limit)
  }

  /** The upcoming list holds at most `limit` transactions in date order. Anything upcoming
      that the cap leaves out is no earlier than anything kept, and when there are no more
      than `limit` upcoming occurrences all of them are kept. */
  lemma UpcomingWithinOrdered(cal: Calendar, ts: seq<Transaction>, now: Date, limit: nat)
    ensures var r := UpcomingWithin(cal, ts, now, limit);
      |r| <= limit && SortedBy(r, DateKey)
    ensures var all := AllUpcoming(cal.step, ts, now, UpcomingHorizon(cal, now));
      var r := UpcomingWithin(cal, ts, now, limit);
      forall x, y :: x in all && x !in r && y in r ==> y.date <= x.date
    ensures var all := AllUpcoming(cal.step, ts, now, UpcomingHorizon(cal, now));
      |all| <= limit ==> multiset(UpcomingWithin(cal, ts, now, limit)) == multiset(all)
  {
    var all := AllUpcoming(cal.step, ts, now, UpcomingHorizon(cal, now));
    var sorted := SortBy(all, DateKey);
    var r := Take(sorted, limit);
    TakeSorted(sorted, DateKey, limit);
    forall x, y | x in all && x !in r && y in r ensures y.date <= x.date {
      assert x in multiset(sorted);
    }
  }

  /** Each upcoming transaction is an occurrence of a stored recurring expense with an
      interval, copied from it, strictly after `now` and at most three months ahead. */
  lemma UpcomingWithinOrigin(cal: Calendar, ts: seq<Transaction>, now: Date, limit: nat)
    ensures forall x :: x in UpcomingWithin(cal, ts, now, limit) ==>
      exists t :: (t in ts && IsRecurringExpense(t) && t.recurringInterval.Some? && CopiesTemplate(x, t)
        && now < x.date <= UpcomingHorizon(cal, now) && ReachableFrom(cal.step, t, x.date))
  {
    var horizon := UpcomingHorizon(cal, now);
    var all := AllUpcoming(cal.step, ts, now, horizon);
    var sorted := SortBy(all, DateKey);
    var r := Take(sorted, limit);
    TakeSubmultiset(sorted, limit);
    forall x | x in r
      ensures exists t :: (t in ts && IsRecurringExpense(t) && t.recurringInterval.Some? && CopiesTemplate(x, t)
        && now < x.date <= horizon && ReachableFrom(cal.step, t, x.date))
    {
      assert x in multiset(sorted);
      assert x in all;
      var t :| t in ts && x in UpcomingOf(cal.step, t, now, horizon);
      UpcomingOfCopies(cal.step, t, now, horizon);
    }
  }

  /** A recurring template without an interval stands for itself in the effective list but
      never appears among the upcoming transactions. */
  lemma NilIntervalTemplate(step: Stepper, t: Transaction, now: Date, horizon: Date)
    requires t.isRecurring && t.recurringInterval.None?
    ensures Expand(step, t, now) == [t]
    ensures UpcomingOf(step, t, now, horizon) == []
  {
  }
}
