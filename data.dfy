/** The constants of `src/lib/data.ts`: the default category lists, the icon
    table and the mock transactions, with the invariants they satisfy. */
module Data {
  import opened Seqs
  import opened Ledger

  /** The literal union that types `Transaction.category`. */
  const CategoryUnion: set<string> := {
    "Food & Drinks", "Transport", "Shopping", "Entertainment", "Health", "Salary",
    "Utilities", "Housing", "Freelance", "Investment", "Other"
  }

  /** `categories`: the expense labels. */
  const Categories: seq<string> := [
    "Food & Drinks", "Transport", "Shopping", "Entertainment", "Health", "Utilities",
    "Housing", "Other"
  ]

  /** `incomeCategories`. */
  const IncomeCategories: seq<string> := ["Salary", "Freelance", "Investment", "Other"]

  /** The label every list falls back on. */
  const OtherLabel: string := "Other"

  /** `categoryIcons`: label to icon name. */
  const CategoryIcons: map<string, string> := map[
    "Food & Drinks" := "utensils-crossed",
    "Transport" := "bus",
    "Shopping" := "shopping-bag",
    "Entertainment" := "popcorn",
    "Health" := "heart-pulse",
    "Salary" := "landmark",
    "Freelance" := "briefcase",
    "Investment" := "trending-up",
    "Utilities" := "lightbulb",
    "Housing" := "home",
    "Other" := "shapes"
  ]

  /** `mockTransactions`; `75.50` is written 7550, and so on. */
  const MockTransactions: seq<Transaction> := [
    Transaction("1", Date(2024, 6, 28), "Monthly Salary", "Salary", 500000, Income),
    Transaction("2", Date(2024, 6, 25), "Grocery shopping", "Food & Drinks", 7550, Expense),
    Transaction("3", Date(2024, 6, 24), "New headphones", "Shopping", 19999, Expense),
    Transaction("4", Date(2024, 6, 22), "Train ticket", "Transport", 3000, Expense),
    Transaction("5", Date(2024, 6, 20), "Dinner with friends", "Food & Drinks", 5025, Expense),
    Transaction("6", Date(2024, 6, 18), "Movie tickets", "Entertainment", 2500, Expense),
    Transaction("7", Date(2024, 6, 15), "Electricity bill", "Utilities", 6500, Expense),
    Transaction("8", Date(2024, 6, 10), "Pharmacy", "Health", 1570, Expense),
    Transaction("9", Date(2024, 6, 5), "Freelance project payment", "Salary", 75000, Income),
    Transaction("10", Date(2024, 6, 1), "Rent", "Housing", 120000, Expense)
  ]

  /** The fallback label is offered for both types. */
  lemma OtherInBothLists()
    ensures OtherLabel in Categories && OtherLabel in IncomeCategories
  {
    assert Categories[7] == OtherLabel;
    assert IncomeCategories[3] == OtherLabel;
  }

  lemma LabelsDistinct()
    ensures Distinct(Categories) && Distinct(IncomeCategories)
  {
  }

  /** Every offered label has an icon, and every label is one the record type allows. */
  lemma LabelsHaveIcons()
    ensures forall c :: c in Categories ==> c in CategoryIcons && c in CategoryUnion
    ensures forall c :: c in IncomeCategories ==> c in CategoryIcons && c in CategoryUnion
  {
  }

  /** The mock records are well formed: positive amounts, allowed labels, valid days. */
  lemma MockTransactionsWellFormed()
    ensures forall t :: t in MockTransactions ==>
      t.amount > 0 && t.category in CategoryUnion && ValidDate(t.date)
  {
    MockCategoriesAllowed();
    forall t | t in MockTransactions ensures t.amount > 0 && ValidDate(t.date) {
    }
  }

  lemma MockCategoriesAllowed()
    ensures forall t :: t in MockTransactions ==> t.category in CategoryUnion
  {
    var used := ["Salary", "Food & Drinks", "Shopping", "Transport", "Entertainment", "Utilities",
                 "Health", "Housing"];
    assert forall i :: 0 <= i < |MockTransactions| ==> MockTransactions[i].category in used;
    assert forall c :: c in used ==> c in CategoryUnion;
  }

  /** The two income entries: the salary first and the freelance payment ninth. */
  lemma MockIncomeEntries()
    ensures |MockTransactions| == 10
    ensures forall p :: 0 <= p < |MockTransactions| ==>
      (MockTransactions[p].kind == Income <==> p == 0 || p == 8)
    ensures MockTransactions[0].amount == 500000 && MockTransactions[8].amount == 75000
  {
  }

  lemma MockIdsDistinct()
    ensures forall i, j :: 0 <= i < j < |MockTransactions| ==>
      MockTransactions[i].id != MockTransactions[j].id
  {
  }

  /** Listed newest first. */
  lemma MockNewestFirst()
    ensures forall i, j :: 0 <= i < j < |MockTransactions| ==>
      NotAfter(MockTransactions[j].date, MockTransactions[i].date)
  {
  }
}
