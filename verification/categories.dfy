/**
  Transaction categories: a name, an SF Symbol icon name, a colour name and whether
  the category books income or expenses. The app ships a fixed list of sixteen
  defaults and derives the income and expense pickers from it by filtering.
 */
module Categories {
  import opened Sequences

  /** Whether a category (and the transactions booked under it) is spending or earning. */
  datatype TransactionType = Expense | Income

  datatype Category = Category(name: string, icon: string, color: string, kind: TransactionType)

  predicate IsIncomeCategory(c: Category) { c.kind == Income }

  predicate IsExpenseCategory(c: Category) { c.kind == Expense }

  /** The six income categories, in the order the app lists them. */
  const IncomeDefaults: seq<Category> := [
    Category("Salary", "dollarsign.circle.fill", "green", Income),
    Category("Freelance", "briefcase.fill", "blue", Income),
    Category("Investments", "chart.line.uptrend.xyaxis", "purple", Income),
    Category("Allowance", "gift.fill", "pink", Income),
    Category("Part-time Job", "clock.fill", "orange", Income),
    Category("Financial Aid", "graduationcap.fill", "blue", Income)
  ]

  /** The ten expense categories, in the order the app lists them. */
  const ExpenseDefaults: seq<Category> := [
    Category("Food", "fork.knife", "red", Expense),
    Category("Rent", "house.fill", "blue", Expense),
    Category("Entertainment", "tv.fill", "purple", Expense),
    Category("Textbooks", "book.fill", "brown", Expense),
    Category("Transportation", "car.fill", "green", Expense),
    Category("Utilities", "bolt.fill", "yellow", Expense),
    Category("Groceries", "cart.fill", "orange", Expense),
    Category("Healthcare", "cross.fill", "red", Expense),
    Category("Shopping", "bag.fill", "pink", Expense),
    Category("Subscriptions", "repeat.circle.fill", "purple", Expense)
  ]

  /** `Category.defaultCategories`: the income categories followed by the expense ones. */
  const DefaultCategories: seq<Category> := IncomeDefaults + ExpenseDefaults

  /** `Category.incomeCategories`: the defaults of type income, in their original order,
      which are exactly the first six; the list starts with "Salary". */
  function IncomeCategories(): (r: seq<Category>)
    ensures r == DefaultCategories[..6]
    ensures |r| == 6 && r[0].name == "Salary"
  {
    FilterFront(IncomeDefaults, ExpenseDefaults, IsIncomeCategory);
    assert DefaultCategories[..6] == IncomeDefaults;
    Filter(DefaultCategories, IsIncomeCategory)
  }

  /** `Category.expenseCategories`: the defaults of type expense, in their original order,
      which are exactly the last ten; the list starts with "Food". */
  function ExpenseCategories(): (r: seq<Category>)
    ensures r == DefaultCategories[6..]
    ensures |r| == 10 && r[0].name == "Food"
  {
    FilterBack(IncomeDefaults, ExpenseDefaults, IsExpenseCategory);
    assert DefaultCategories[6..] == ExpenseDefaults;
    Filter(DefaultCategories, IsExpenseCategory)
  }

  /** The defaults number sixteen, and the two pickers partition them: together they are the
      defaults, in order. */
  lemma CategoriesPartition()
    ensures |DefaultCategories| == 16
    ensures IncomeCategories() + ExpenseCategories() == DefaultCategories
  {
    assert DefaultCategories[..6] + DefaultCategories[6..] == DefaultCategories;
  }

  /** A default category is offered for income exactly when its type is income. */
  lemma IncomePickerMembers(c: Category)
    requires c in DefaultCategories
    ensures c in IncomeCategories() <==> c.kind == Income
  {
    assert IncomeCategories() == IncomeDefaults;
    DefaultKind(c);
  }

  /** A default category is offered for expenses exactly when its type is expense. */
  lemma ExpensePickerMembers(c: Category)
    requires c in DefaultCategories
    ensures c in ExpenseCategories() <==> c.kind == Expense
  {
    assert ExpenseCategories() == ExpenseDefaults;
    DefaultKind(c);
  }

  lemma DefaultKind(c: Category)
    requires c in DefaultCategories
    ensures c in IncomeDefaults <==> c.kind == Income
    ensures c in ExpenseDefaults <==> c.kind == Expense
  {
    assert forall k :: 0 <= k < |IncomeDefaults| ==> IncomeDefaults[k].kind == Income;
    assert forall k :: 0 <= k < |ExpenseDefaults| ==> ExpenseDefaults[k].kind == Expense;
    var k :| 0 <= k < |DefaultCategories| && DefaultCategories[k] == c;
    if k < 6 {
      assert c == IncomeDefaults[k];
    } else {
      assert c == ExpenseDefaults[k - 6];
    }
  }
}
