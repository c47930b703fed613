# SpendSense in Dafny

A model of SpendSense, a personal finance tracker for iOS, and proofs about that model.

The heart of the app is its transaction store. Some stored transactions are recurring
templates: daily, weekly, monthly or yearly. `effectiveTransactions` expands each template
into one dated instance per occurrence up to now. The balance is the sum of the effective
amounts. The upcoming list steps each recurring expense past now, collects its occurrences
for the next three months, sorts them by date and keeps the first few.

Around the store the model covers:

- the goals store, with updates and contributions matched by goal identity;
- the default categories and the income and expense pickers built from them;
- the history screen's search and income/expense filter;
- the recent-activity card, the upcoming-templates card and the spending overview chart;
- the add-transaction, add-goal and contribute forms;
- the first-run setup flow;
- the scraper that reads products out of an Amazon result page.

The model is built like this:

- Dates are integers (seconds) and amounts are exact integers (cents).
- The clock is an explicit `now` argument.
- The calendar is a value holding three operations:
  - a stepper that always moves a date strictly forward;
  - an "add months" operation that may fail;
  - a same-week/month/year test.
- Parsing typed text as a number is a partial function passed in as a parameter.
  So is the case-insensitive "contains" test.
- Stores, forms and the setup flow are classes whose methods update their fields.
- The screens' derived lists are functions.
- Every loop in the app is a method proved equal to a specification function:
  - expanding a template;
  - stepping past now;
  - collecting upcoming dates;
  - the chart's dictionary loop;
  - the scraper's block loop;
  - the setup flow's hand-over loops.

Module layout: `Wrappers` (optionals), `Sequences` (filter, sort, prefix, remove at
offsets, sum), `Text` (first occurrence, character replacement, splitting, `extractValue`),
`Categories`, `Transactions`, `Goals`, `Calendars`, `Recurrence` (the expansion and
upcoming specifications), `TransactionStores`, `GoalsStores`, `TransactionsView`,
`RecentTransactions`, `UpcomingTransactions`, `SpendingOverview`, `AmountInput`, `Amazon`,
`AddTransaction`, `AddGoal`, `Contribute`, `Setup`.

Two behaviours of the store are easy to miss:

- A one-off transaction counts in the effective list and the balance whatever its date,
  also when it is dated after now. `Recurrence.EffectiveDates` states this.
- A transaction flagged recurring but without an interval stands for itself in the effective
  list. It is dropped from the upcoming list (`Recurrence.NilIntervalTemplate`).

## Model

| member | source | states |
|---|---|---|
| Sequences.Filter | SpendSense/Views/TransactionsView.swift:25-28 | `filter`: at most as long as the input; an element is in the result iff it is in the input and passes the test |
| Sequences.FilterCount | SpendSense/Views/Components/UpcomingTransactionsView.swift:19-22 | filtering keeps each passing element exactly as often as it occurs and drops each failing one |
| Sequences.FilterSorted | SpendSense/Views/TransactionsView.swift:25-37 | filtering a sorted sequence leaves it sorted |
| Sequences.SortBy | SpendSense/Models/TransactionStore.swift:138 | `sorted(by:)` on an integer key: the result is sorted and is a permutation of the input |
| Sequences.Take | SpendSense/Models/TransactionStore.swift:139 | `prefix(n)`: the first `min(n, count)` elements |
| Sequences.TakeSorted | SpendSense/Models/TransactionStore.swift:137-139 | a prefix of a sorted sequence is sorted, and everything cut off has a key no smaller than anything kept |
| Sequences.RemoveOffsets | SpendSense/Models/TransactionStore.swift:61 | `remove(atOffsets:)`: the elements at the kept offsets, in their original order |
| Sequences.KeptIndicesCount | SpendSense/Models/GoalsStore.swift:27 | removing in-range offsets shortens the list by exactly their number |
| Sequences.RemoveOffsetsMembers | SpendSense/Models/GoalsStore.swift:27 | an element survives removal iff it sits at some offset that was not removed |
| Sequences.Sum | SpendSense/Models/TransactionStore.swift:52 | `reduce(0) { $0 + f($1) }`: the values added left to right; `SumConcat` and `SumPermutation` state that it splits over concatenation and ignores order |
| Sequences.SumPermutation | SpendSense/Views/Components/SpendingOverviewView.swift:41-45 | reordering does not change a sum |
| Sequences.KeysDistinctPermutation | SpendSense/Views/Components/SpendingOverviewView.swift:40-41 | reordering keeps keys distinct |
| Text.IndexOf | SpendSense/Services/AmazonService.swift:62-63 | `range(of:)?.lowerBound`, a search from the start; `IndexOfMeaning` states what it finds |
| Text.IndexOfMeaning | SpendSense/Services/AmazonService.swift:62-63 | `range(of:)`: found iff the pattern is non-empty and occurs, and then at its first occurrence |
| Text.ReplaceChar | SpendSense/Views/AddTransactionView.swift:29 | `replacingOccurrences(of: ",", with: ".")`: same length, each comma becomes a point, every other character is kept, no comma remains |
| Text.Split | SpendSense/Services/AmazonService.swift:34 | `components(separatedBy:)`: never an empty list; `SplitPiecesFree` and `JoinSplit` state that the pieces hold no separator and glue back to the text |
| Text.SplitPiecesFree | SpendSense/Services/AmazonService.swift:34 | no block produced by `components(separatedBy:)` contains the separator |
| Text.JoinSplit | SpendSense/Services/AmazonService.swift:34 | the blocks glued back with the separator give back the page: splitting loses nothing |
| Text.ExtractValue | SpendSense/Services/AmazonService.swift:61-68 | nil when the start marker does not occur; a value found never contains the end marker |
| Text.ExtractValueAfterStart | SpendSense/Services/AmazonService.swift:61-68 | after the first start marker, a value is found iff the end marker occurs, and it is exactly the text before that end marker's first occurrence |
| Categories.IncomeCategories | SpendSense/Models/Category.swift:38-40 | the income picker is the first six defaults in order, starting with "Salary" |
| Categories.ExpenseCategories | SpendSense/Models/Category.swift:42-44 | the expense picker is the last ten defaults in order, starting with "Food" |
| Categories.CategoriesPartition | SpendSense/Models/Category.swift:16-44 | there are 16 defaults, and the income list followed by the expense list is exactly the default list |
| Categories.IncomePickerMembers | SpendSense/Models/Category.swift:38-40 | a default category is in the income picker iff its type is income |
| Categories.ExpensePickerMembers | SpendSense/Models/Category.swift:42-44 | a default category is in the expense picker iff its type is expense |
| Categories.DefaultKind | SpendSense/Models/Category.swift:17-35 | the six listed first are exactly the income defaults, the ten after them exactly the expense defaults |
| Transactions.AllIntervals | SpendSense/Models/Transaction.swift:12-17 | `allCases`: four distinct intervals, every interval among them |
| Transactions.IntervalCases | SpendSense/Models/Transaction.swift:12-17 | every interval is one of the four cases |
| Transactions.FromRawValue | SpendSense/Models/Transaction.swift:12-17 | `init(rawValue:)` succeeds iff the text is one of the four raw strings, and gives the interval with that raw value |
| Transactions.RawValueRoundTrip | SpendSense/Models/Transaction.swift:12-17 | reading back an interval's raw value gives the interval, so raw values are distinct |
| Transactions.NewTransaction | SpendSense/Models/Transaction.swift:19-27 | the initializer stores every argument in its field |
| Transactions.NewTransactionDefaults | SpendSense/Models/Transaction.swift:19 | omitted recurrence arguments give a one-off transaction without an interval |
| Transactions.FlagAndIntervalIndependent | SpendSense/Models/Transaction.swift:19-27 | recurring-without-interval and one-off-with-interval transactions can both be built |
| Calendars.UpcomingHorizon | SpendSense/Models/TransactionStore.swift:86 | the window ends three months after now, or at now when the calendar cannot compute that |
| Recurrence.Iterate | SpendSense/Models/TransactionStore.swift:32-42 | stepping `n` times from the anchor, each step from the previous date, ends at least `n` after the anchor |
| Recurrence.IterateIncreasing | SpendSense/Models/TransactionStore.swift:32-42 | more steps reach strictly later dates |
| Recurrence.IterateAdd | SpendSense/Models/TransactionStore.swift:39 | stepping is cumulative: `a` steps then `b` steps is `a + b` steps |
| Recurrence.CountFrom | SpendSense/Models/TransactionStore.swift:22 | the first step count past the bound, found by counting up: every smaller count stays at or before the bound |
| Recurrence.OccurrenceCount | SpendSense/Models/TransactionStore.swift:22-43 | the number of occurrences at or before the bound: all earlier step counts are at or before it, this one is after it |
| Recurrence.OccurrenceCountUnique | SpendSense/Models/TransactionStore.swift:22-43 | any step count with those two properties is the occurrence count |
| Recurrence.Occurrences | SpendSense/Models/TransactionStore.swift:19-43 | the k-th date is k steps from the anchor and at or before the bound, the next one is past it, and there are none iff the anchor is past the bound |
| Recurrence.OccurrencesOrderedAndComplete | SpendSense/Models/TransactionStore.swift:19-43 | occurrence dates strictly increase, and every reachable date at or before the bound is among them |
| Recurrence.Instances | SpendSense/Models/TransactionStore.swift:23-30 | one instance per date, in date order, copying amount, category and note and marked recurring with the template's interval |
| Recurrence.Expand | SpendSense/Models/TransactionStore.swift:45-46 | a transaction that is not recurring with an interval contributes exactly itself, whatever its date |
| Recurrence.ExpandOccurrences | SpendSense/Models/TransactionStore.swift:17-44 | a recurring template with an interval contributes one instance per occurrence up to now, and nothing when its anchor is after now |
| Recurrence.Effective | SpendSense/Models/TransactionStore.swift:14-49 | `effectiveTransactions`: each stored transaction replaced by its contribution, in store order; the `Effective…` lemmas below state its meaning |
| Recurrence.EffectiveConcat | SpendSense/Models/TransactionStore.swift:16 | `flatMap`: the effective list of two store parts is the concatenation of theirs |
| Recurrence.EffectiveSplitAt | SpendSense/Models/TransactionStore.swift:16 | store order is kept: earlier templates' instances come before a template's, later ones' after |
| Recurrence.EffectiveMembers | SpendSense/Models/TransactionStore.swift:16-48 | a transaction is effective iff some stored transaction contributes it |
| Recurrence.EffectiveMembersIn | SpendSense/Models/TransactionStore.swift:16-48 | every effective transaction comes from some stored transaction |
| Recurrence.EffectiveDates | SpendSense/Models/TransactionStore.swift:17-46 | every effective transaction is dated at or before now unless it is a stored non-expanding one, and every stored non-expanding transaction is effective |
| Recurrence.Balance | SpendSense/Models/TransactionStore.swift:51-53 | `currentBalance`: the effective amounts summed; `BalanceAppend`, `BalanceConcat` and `BalancePermutation` state its meaning |
| Recurrence.ExpandTotal | SpendSense/Models/TransactionStore.swift:51-53 | a stored transaction adds its amount once, or once per occurrence when it expands |
| Recurrence.BalanceAppend | SpendSense/Models/TransactionStore.swift:51-53 | the empty store's balance is 0, and appending a transaction adds exactly what it contributes |
| Recurrence.BalanceConcat | SpendSense/Models/TransactionStore.swift:51-53 | the balance of two store parts together is the sum of their balances |
| Recurrence.BalancePermutation | SpendSense/Models/TransactionStore.swift:14-53 | the balance does not depend on the order of the stored transactions |
| Recurrence.UpcomingDates | SpendSense/Models/TransactionStore.swift:96-132 | the dates one template yields for the upcoming list; the `UpcomingDates…` lemmas below state which they are |
| Recurrence.UpcomingDatesShift | SpendSense/Models/TransactionStore.swift:96-132 | the upcoming dates continue the occurrence sequence right after the last occurrence at or before now |
| Recurrence.UpcomingDatesAreSteps | SpendSense/Models/TransactionStore.swift:96-132 | the k-th upcoming date is the occurrence at step count (occurrences up to now) + k |
| Recurrence.UpcomingDatesInWindow | SpendSense/Models/TransactionStore.swift:97-111 | each upcoming date is strictly after now and at or before the horizon |
| Recurrence.UpcomingDatesComplete | SpendSense/Models/TransactionStore.swift:96-132 | every occurrence strictly after now and at or before the horizon is an upcoming date |
| Recurrence.UpcomingOf | SpendSense/Models/TransactionStore.swift:89-91 | a transaction that is not a recurring expense with an interval contributes nothing upcoming |
| Recurrence.UpcomingOfCopies | SpendSense/Models/TransactionStore.swift:111-120 | each upcoming copy repeats the template's fields, lies in the window and is one of its occurrences |
| Recurrence.UpcomingCopy | SpendSense/Models/TransactionStore.swift:111-120 | the k-th upcoming copy is such a copy |
| Recurrence.Reachable | SpendSense/Models/TransactionStore.swift:122-131 | every step count reaches one of the template's occurrences |
| Recurrence.AllUpcoming | SpendSense/Models/TransactionStore.swift:88-135 | every collected upcoming transaction comes from some stored template |
| Recurrence.AllUpcomingComplete | SpendSense/Models/TransactionStore.swift:88-135 | every in-window occurrence of a stored recurring expense is collected before sorting |
| Recurrence.UpcomingWithin | SpendSense/Models/TransactionStore.swift:83-140 | `getUpcomingTransactions`: all upcoming copies, sorted by date, cut to `limit`; `UpcomingWithinOrdered` and `UpcomingWithinOrigin` state its meaning |
| Recurrence.UpcomingWithinOrdered | SpendSense/Models/TransactionStore.swift:137-139 | at most `limit` items, by date ascending; anything cut is no earlier than anything kept; nothing is cut when there are at most `limit` |
| Recurrence.UpcomingWithinOrigin | SpendSense/Models/TransactionStore.swift:86-132 | each upcoming item copies a stored recurring expense with an interval and is one of its occurrences, strictly after now and at or before the horizon |
| Recurrence.NilIntervalTemplate | SpendSense/Models/TransactionStore.swift:17 | a recurring template without an interval is emitted once as effective but never upcoming |
| TransactionStores.OccurrencesExactly | SpendSense/Models/TransactionStore.swift:22-43 | dates that are successive steps up to the bound, with the next step past it, are exactly the occurrences |
| TransactionStores.ExpandTemplate | SpendSense/Models/TransactionStore.swift:16-47 | the stepping loop for one stored transaction produces exactly its specified contribution |
| TransactionStores.StepPast | SpendSense/Models/TransactionStore.swift:97-108 | the skipping loop stops at the first occurrence strictly after now |
| TransactionStores.UpcomingOfTemplate | SpendSense/Models/TransactionStore.swift:90-135 | the two loops for one template produce exactly its specified upcoming contribution |
| TransactionStores.TransactionStore.constructor | SpendSense/Models/TransactionStore.swift:6 | a new store is empty |
| TransactionStores.TransactionStore.AddTransaction | SpendSense/Models/TransactionStore.swift:55-58 | appends at the end, keeping everything before |
| TransactionStores.TransactionStore.DeleteTransactions | SpendSense/Models/TransactionStore.swift:60-63 | removes exactly the given offsets, keeping the rest in order; the length drops by their number |
| TransactionStores.TransactionStore.ClearAll | SpendSense/Models/TransactionStore.swift:78-81 | leaves the store empty |
| TransactionStores.TransactionStore.EffectiveTransactions | SpendSense/Models/TransactionStore.swift:14-49 | the result is the effective list of the stored transactions |
| TransactionStores.TransactionStore.CurrentBalance | SpendSense/Models/TransactionStore.swift:51-53 | the sum of the effective amounts, and 0 for an empty store |
| TransactionStores.TransactionStore.GetUpcomingTransactions | SpendSense/Models/TransactionStore.swift:83-140 | the result is the specified upcoming list: at most `limit` items, by date ascending |
| GoalsStores.FirstIndexOf | SpendSense/Models/GoalsStore.swift:20 | `firstIndex(where:)`: nil iff no goal has the identity, otherwise the smallest position holding it |
| GoalsStores.FirstIndexAfterReplace | SpendSense/Models/GoalsStore.swift:19-24 | after replacing the first match by a goal of the same identity, it is still the first match |
| GoalsStores.GoalsStore.constructor | SpendSense/Models/GoalsStore.swift:6 | a new store is empty |
| GoalsStores.GoalsStore.AddGoal | SpendSense/Models/GoalsStore.swift:14-17 | appends one goal, keeping the others |
| GoalsStores.GoalsStore.UpdateGoal | SpendSense/Models/GoalsStore.swift:19-24 | replaces only the first goal with the identity; with no match nothing changes |
| GoalsStores.GoalsStore.DeleteGoals | SpendSense/Models/GoalsStore.swift:26-29 | removes exactly the given offsets, keeping the rest in order |
| GoalsStores.GoalsStore.ClearAll | SpendSense/Models/GoalsStore.swift:44-47 | leaves the store empty |
| GoalsStores.GoalsStore.ContributeToGoal | SpendSense/Models/GoalsStore.swift:49-56 | the first match's slot gets the argument goal with the amount added, so the argument's other fields win; other slots and the length are kept; with no match nothing changes |
| TransactionsView.MatchesSearch | SpendSense/Views/TransactionsView.swift:26-27 | the search test: the note or the category name contains the search text |
| TransactionsView.FilteredTransactions | SpendSense/Views/TransactionsView.swift:23-38 | `filteredTransactions`: the effective list newest first, searched, then filtered; the `FilteredTransactions…` lemmas below state its meaning |
| TransactionsView.SearchResults | SpendSense/Views/TransactionsView.swift:25-28 | with empty search text everything is kept; otherwise exactly what matches in note or category name |
| TransactionsView.ApplyFilter | SpendSense/Views/TransactionsView.swift:30-37 | `.income` keeps exactly amounts above 0, `.expense` exactly amounts below 0, `.all` everything |
| TransactionsView.FilteredTransactionsNewestFirst | SpendSense/Views/TransactionsView.swift:24 | the history is newest first |
| TransactionsView.FilteredTransactionsMembers | SpendSense/Views/TransactionsView.swift:23-38 | a transaction is listed iff it is effective, matches the search (or the search is empty) and passes the filter |
| TransactionsView.FilteredTransactionsUnfiltered | SpendSense/Views/TransactionsView.swift:24-32 | with no search and `.all` the history is a permutation of the effective list |
| RecentTransactions.RecentTransactions | SpendSense/Views/Components/RecentTransactionsView.swift:6-11 | `recentTransactions`: stored one-off transactions, newest first, at most three; the two lemmas below state its meaning |
| RecentTransactions.RecentTransactionsShape | SpendSense/Views/Components/RecentTransactionsView.swift:6-11 | at most three items, newest first, each a stored one-off transaction |
| RecentTransactions.RecentTransactionsKeepsNewest | SpendSense/Views/Components/RecentTransactionsView.swift:7-10 | a one-off transaction left out is no newer than any shown; with three or fewer one-off transactions all are shown |
| UpcomingTransactions.UpcomingTransactions | SpendSense/Views/Components/UpcomingTransactionsView.swift:17-24 | sorted by anchor date ascending; exactly the stored recurring templates of the chosen sign, each as often as stored; never a zero amount |
| SpendingOverview.PeriodTransactions | SpendSense/Views/Components/SpendingOverviewView.swift:14-28 | `filteredTransactions`: the stored transactions in the chosen week, month or year of now; `PeriodTransactionsExactly` states its meaning |
| SpendingOverview.PeriodTransactionsExactly | SpendSense/Views/Components/SpendingOverviewView.swift:14-28 | exactly the stored transactions in the same week, month or year as now, each as often as stored |
| SpendingOverview.TotalSpending | SpendSense/Views/Components/SpendingOverviewView.swift:44-46 | `totalSpending`: the magnitudes of the negative amounts summed; `TotalSpendingAppend` and `SpentAcrossTotal` state its meaning |
| SpendingOverview.SpentOn | SpendSense/Views/Components/SpendingOverviewView.swift:33-38 | one category's dictionary total; `SpentOnPositive` and `CategoryTotals` state its meaning |
| SpendingOverview.TotalSpendingAppend | SpendSense/Views/Components/SpendingOverviewView.swift:44-46 | nothing spent in an empty period; a transaction adds its magnitude when negative and nothing otherwise |
| SpendingOverview.HasExpenseAppend | SpendSense/Views/Components/SpendingOverviewView.swift:33-38 | one more transaction adds a spending category exactly when it spends in it |
| SpendingOverview.SpentOnPositive | SpendSense/Views/Components/SpendingOverviewView.swift:33-38 | a category's total is never negative, and positive iff money was spent in it |
| SpendingOverview.SpentAcrossAppend | SpendSense/Views/Components/SpendingOverviewView.swift:33-38 | over distinct names, one more transaction adds its spending when its category is among them |
| SpendingOverview.SpentAcrossTotal | SpendSense/Views/Components/SpendingOverviewView.swift:31-46 | the totals of distinct names covering every category spent in add up to the total spending |
| SpendingOverview.EntriesSum | SpendSense/Views/Components/SpendingOverviewView.swift:40 | entries carrying their categories' totals add up to the totals over their names |
| SpendingOverview.CategoryTotals | SpendSense/Views/Components/SpendingOverviewView.swift:31-38 | the dictionary loop: a key for exactly the categories spent in, each holding the magnitude spent in it |
| SpendingOverview.Entries | SpendSense/Views/Components/SpendingOverviewView.swift:40 | one entry per dictionary key, carrying its value, with distinct categories |
| SpendingOverview.ListsSpendingPermutation | SpendSense/Views/Components/SpendingOverviewView.swift:40-41 | sorting a listing of the totals leaves a listing of the totals |
| SpendingOverview.ListsSpendingMeaning | SpendSense/Views/Components/SpendingOverviewView.swift:31-46 | a listing's amounts are positive, its names are exactly the categories spent in, and it adds up to the total spending |
| SpendingOverview.ChartData | SpendSense/Views/Components/SpendingOverviewView.swift:30-42 | one entry per distinct category spent in during the period, each the positive total spent in it, largest first, adding up to `totalSpending` |
| Amazon.ProductOf | SpendSense/Services/AmazonService.swift:37-53 | a block yields a product iff it has a title, a readable price and an ASIN; the product is stamped with now, and its current price and price history are its price |
| Amazon.ProductOfFields | SpendSense/Services/AmazonService.swift:38-52 | the title, price and image come from the block, the URL is the product page of the ASIN, and the title holds no quote |
| Amazon.ProductOfNeedsMarkers | SpendSense/Services/AmazonService.swift:37-38 | a block without a title marker or a price marker yields nothing |
| Amazon.ProductsOf | SpendSense/Services/AmazonService.swift:36-55 | no more products than blocks |
| Amazon.ProductsOfOrigin | SpendSense/Services/AmazonService.swift:36-55 | every product found is the product of one of the blocks |
| Amazon.ProductsOfStep | SpendSense/Services/AmazonService.swift:54 | one more block appends its product, if any, at the end |
| Amazon.ProductsOfComplete | SpendSense/Services/AmazonService.swift:36-55 | every block that describes a product contributes it |
| Amazon.ProductsOfUrls | SpendSense/Services/AmazonService.swift:42 | every product URL starts with "https://www.amazon.com/dp/" |
| Amazon.CollectProducts | SpendSense/Services/AmazonService.swift:36-56 | the loop over blocks produces exactly their products, in order |
| Amazon.ParseSearchResults | SpendSense/Services/AmazonService.swift:29-59 | the products of every block after the first, in page order; at most one fewer than the blocks |
| Amazon.NoBlocksNoProducts | SpendSense/Services/AmazonService.swift:34-36 | a page without "data-asin=" yields no products |
| AmountInput.ParseAmount | SpendSense/Views/AddTransactionView.swift:114 | `Double(text.replacingOccurrences(of: ",", with: "."))`: the text read as a number after each comma becomes a point; `Text.ReplaceChar` states the replacement |
| AddTransaction.AddTransactionForm.constructor | SpendSense/Views/AddTransactionView.swift:15-26 | the form opens empty, repeating monthly, with the first category of the chosen direction selected |
| AddTransaction.AddTransactionForm.AvailableCategoriesMembers | SpendSense/Views/AddTransactionView.swift:35-37 | the picker offers exactly the default categories of the chosen direction, and never none |
| AddTransaction.AddTransactionForm.ChangeType | SpendSense/Views/AddTransactionView.swift:61-64 | switching direction resets the selection to the first category of the new list; everything else is kept |
| AddTransaction.AddTransactionForm.ShowRecurringSection | SpendSense/Views/AddTransactionView.swift:82-86 | a recurring-only form switches recurrence on; other forms are left alone |
| AddTransaction.AddTransactionForm.Built | SpendSense/Views/AddTransactionView.swift:117-126 | the amount is negated for an expense, and the interval is present iff the transaction recurs |
| AddTransaction.AddTransactionForm.BuiltMeaning | SpendSense/Views/AddTransactionView.swift:117-126 | a positive amount gives an expense iff the form is set to expense, and a saved transaction expands iff it recurs |
| AddTransaction.AddTransactionForm.SaveTransaction | SpendSense/Views/AddTransactionView.swift:113-135 | nothing happens without a readable non-empty amount; otherwise the callback gets the transaction or the store appends it, exactly one; a valid form (`isValid`, lines 28-33) always saves |
| AddGoal.ProductInfo | SpendSense/Views/AddGoalView.swift:96-104 | title, price as initial price, current price, URL and update date are copied |
| AddGoal.ProductInfoFromSearch | SpendSense/Views/AddGoalView.swift:96-104 | for a product straight from the search, initial and current price agree |
| AddGoal.AddGoalForm.constructor | SpendSense/Views/AddGoalView.swift:5-12 | the form opens empty, without a deadline (picker at thirty days ahead), icon "target", no product |
| AddGoal.AddGoalForm.SelectProduct | SpendSense/Views/AddGoalView.swift:83-87 | choosing a product sets it, the name to its title and the target text to its formatted current price |
| AddGoal.AddGoalForm.SelectIcon | SpendSense/Views/AddGoalView.swift:52-60 | tapping an offered icon selects it |
| AddGoal.AddGoalForm.Built | SpendSense/Views/AddGoalView.swift:96-113 | saved amount 0, target as parsed, a deadline iff one was set, product details iff a product was chosen |
| AddGoal.AddGoalForm.SaveGoal | SpendSense/Views/AddGoalView.swift:92-122 | nothing happens without a readable target and a name; otherwise the callback gets the goal or the store adds it, exactly one |
| Contribute.ContributeForm.constructor | SpendSense/Views/ContributeToGoalView.swift:6-9 | the form opens empty on the given goal |
| Contribute.ContributeForm.RemainingToGoal | SpendSense/Views/ContributeToGoalView.swift:71-76 | target minus saved, less the contribution when it reads as a number |
| Contribute.ContributeForm.ContributionTransaction | SpendSense/Views/ContributeToGoalView.swift:86-97 | a one-off spending of the contribution under "Goal: name" of type expense, noted with the user's note or "Contribution to name" |
| Contribute.ContributeForm.ContributionLowersBalance | SpendSense/Views/ContributeToGoalView.swift:86-100 | recording a contribution lowers the balance by exactly its value |
| Contribute.ContributeForm.SaveContribution | SpendSense/Views/ContributeToGoalView.swift:78-103 | nothing happens unless the amount reads as positive; otherwise the goal's slot gets the contribution added, leaving what was previewed as remaining, and one contribution transaction is appended |
| Setup.InitialBalanceTransaction | SpendSense/Views/Setup/SetupView.swift:36-47 | a one-off income-category transaction of the balance, noted "Initial Balance" |
| Setup.SetupFlow.constructor | SpendSense/Views/Setup/SetupView.swift:7-12 | setup starts at step 0 with empty lists and no balance recorded |
| Setup.SetupFlow.Continue | SpendSense/Views/Setup/SetupView.swift:18-29 | the welcome and name screens move one step on |
| Setup.SetupFlow.ContinueFromBalance | SpendSense/Views/Setup/SetupView.swift:30-52 | the balance transaction is appended only when not yet recorded and readable, and then the flag is set; the flow always moves to step 3 |
| Setup.SetupFlow.AddRecurringTransaction | SpendSense/Views/Setup/SetupView.swift:274-282 | a new transaction joins the end of the list |
| Setup.SetupFlow.RemoveRecurringTransactions | SpendSense/Views/Setup/SetupView.swift:224-226 | exactly the swiped rows are removed |
| Setup.SetupFlow.FinishRecurringTransactions | SpendSense/Views/Setup/SetupView.swift:53-60 | Skip and Continue alike append every collected transaction in order and move to step 4 |
| Setup.SetupFlow.AddSetupGoal | SpendSense/Views/Setup/SetupView.swift:382-385 | a new goal joins the end of the list |
| Setup.SetupFlow.RemoveSetupGoals | SpendSense/Views/Setup/SetupView.swift:345-347 | exactly the swiped rows are removed |
| Setup.SetupFlow.FinishGoals | SpendSense/Views/Setup/SetupView.swift:61-68 | Skip and Complete alike add every collected goal in order and mark setup complete, also with no goals |

## Left out

- Persistence is not modelled: UserDefaults, JSON encoding and loading at start-up. The stores start empty.
- The clock is not read: `Date()` becomes a `now` argument.
- Calendar arithmetic is not modelled. Stepping, adding months and the week/month/year comparison are parameters.
- Recurrence.Iterate: the app falls back to the unchanged date when the calendar cannot step, and its loops would then never end. The model assumes every step moves strictly forward.
- Floating point is not modelled: amounts are exact integers, so rounding and `%.2f` formatting are absent. The product-selection formatter is a parameter.
- Parsing numbers (`Double(_:)`) and `localizedCaseInsensitiveContains` are parameters.
- Transaction and category UUIDs are not modelled: no modelled operation reads them. Goal identities are numbers, and a new goal's identity is an argument.
- Sequences.SortBy: claims a sorted permutation, not the order of items with equal keys. Swift's `sorted(by:)` does not guarantee stability.
- Fetching search results over the network (`searchProducts`) is not modelled. The scraper works on the page text.
- The SwiftUI screens are not modelled: layout, sheets, `dismiss()`, animation and which buttons are shown. The disabled states of the setup balance Continue and Complete Setup buttons and the add form's `isValid` are stated as predicates (`CanContinueFromBalance`, `CanComplete`, `IsValid`). They are not preconditions, because the actions themselves do not check them.
- Setup.SetupFlow: each step's methods require the flow to be on that step, because only that step's screen is shown. The name screen's storage of the user's name is not modelled.
- The user, profile, PDF export, goals overview and icon picker screens are not modelled: they hold no logic over the modelled data.
- The colour name extension is not modelled: nothing modelled reads colours.
- `Transaction.placeholder` is not modelled: it is a constant built from the clock.
- TransactionsView.FilteredTransactions: the Swift filter closure is stated as the search predicate. Which of several same-dated transactions comes first is not claimed.
- Strings are sequences of characters: grapheme clustering and locale-aware comparison are not modelled.
