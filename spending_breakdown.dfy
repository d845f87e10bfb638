/** `SpendingBreakdownChart`: one pie slice per expense category. */
module SpendingBreakdown {
  import opened Seqs
  import opened Ledger
  import opened CategoryTotals

  datatype Slice = Slice(category: string, amount: int, fill: string)

  /** The colours of `chartConfig`; its `amount` key carries a label and no colour. */
  const ChartColors: map<string, string> := map[
    "Food & Drinks" := "hsl(var(--chart-1))",
    "Transport" := "hsl(var(--chart-2))",
    "Shopping" := "hsl(var(--chart-3))",
    "Entertainment" := "hsl(var(--chart-4))",
    "Health" := "hsl(var(--chart-5))",
    "Utilities" := "hsl(var(--chart-1))",
    "Housing" := "hsl(var(--chart-2))",
    "Other" := "hsl(var(--chart-3))"
  ]

  const FallbackFill: string := "hsl(var(--chart-5))"

  /** `chartConfig[category]?.color || 'hsl(var(--chart-5))'`. */
  function Fill(category: string): (r: string)
    ensures category in ChartColors ==> r == ChartColors[category]
    ensures category !in ChartColors ==> r == FallbackFill
  {
    if category in ChartColors && ChartColors[category] != "" then ChartColors[category] else FallbackFill
  }

  /** The `categoryTotals` reduce over the expense transactions. */
  method ExpenseTotals(expenseData: seq<Transaction>) returns (acc: seq<Entry>)
    ensures acc == Tally(expenseData)
  {
    acc := [];
    var i := 0;
    while i < |expenseData|
      invariant 0 <= i <= |expenseData|
      invariant acc == Tally(expenseData[..i])
    {
      var t := expenseData[i];
      assert expenseData[..i + 1] == expenseData[..i] + [t];
      TallyStep(expenseData[..i], t);
      acc := Bump(acc, t.category, t.amount);
      i := i + 1;
    }
    assert expenseData[..i] == expenseData;
  }

  function ToSlices(entries: seq<Entry>): (r: seq<Slice>)
    ensures |r| == |entries|
    ensures forall i :: 0 <= i < |r| ==>
      r[i] == Slice(entries[i].category, entries[i].total, Fill(entries[i].category))
  {
    if entries == [] then []
    else [Slice(entries[0].category, entries[0].total, Fill(entries[0].category))] + ToSlices(entries[1..])
  }

  /** `chartData`. */
  function ChartData(ts: seq<Transaction>): seq<Slice>
  {
    ToSlices(Tally(OfType(ts, Expense)))
  }

  function SliceAmount(sl: Slice): int { sl.amount }

  /** `totalExpenses`: the sum over the slices. */
  function TotalExpenses(ts: seq<Transaction>): int
  {
    SumOf(ChartData(ts), SliceAmount)
  }

  lemma {:induction false} ToSlicesSum(entries: seq<Entry>)
    ensures SumOf(ToSlices(entries), SliceAmount) == SumOf(entries, TotalOf)
  {
    if entries != [] {
      ToSlicesSum(entries[1..]);
      assert ToSlices(entries)[1..] == ToSlices(entries[1..]);
    }
  }

  /** The centre label is the sum of all expense amounts; income never counts. */
  lemma TotalIsExpenseSum(ts: seq<Transaction>)
    ensures TotalExpenses(ts) == Sum(OfType(ts, Expense))
  {
    ToSlicesSum(Tally(OfType(ts, Expense)));
    TallySum(OfType(ts, Expense));
  }

  /** One slice per distinct expense category, carrying that category's expense sum. */
  lemma SlicePerCategory(ts: seq<Transaction>)
    ensures Distinct(SliceLabels(ChartData(ts)))
    ensures forall c :: c in SliceLabels(ChartData(ts)) <==>
      exists t :: t in ts && t.kind == Expense && t.category == c
    ensures forall i :: 0 <= i < |ChartData(ts)| ==>
      ChartData(ts)[i].amount == Sum(OfCategory(OfType(ts, Expense), ChartData(ts)[i].category))
  {
    var s := OfType(ts, Expense);
    OfTypeMembers(ts, Expense);
    TallyLabels(s);
    assert SliceLabels(ChartData(ts)) == Labels(Tally(s));
    forall c | c in CategoriesOf(s) ensures exists t :: t in ts && t.kind == Expense && t.category == c {
      var t :| t in s && t.category == c;
    }
    forall i | 0 <= i < |ChartData(ts)|
      ensures ChartData(ts)[i].amount == Sum(OfCategory(s, ChartData(ts)[i].category))
    {
      TallyEntry(s, i);
    }
  }

  /** The slice labels, in order. */
  function SliceLabels(sl: seq<Slice>): (r: seq<string>)
    ensures |r| == |sl| && forall i :: 0 <= i < |sl| ==> r[i] == sl[i].category
  {
    if sl == [] then [] else [sl[0].category] + SliceLabels(sl[1..])
  }

  /** The empty-state message shows exactly when there is no expense. */
  lemma EmptyIffNoExpense(ts: seq<Transaction>)
    ensures ChartData(ts) == [] <==> forall t :: t in ts ==> t.kind != Expense
  {
    TallyLength(OfType(ts, Expense));
    OfTypeMembers(ts, Expense);
    if exists t :: t in ts && t.kind == Expense {
      var t :| t in ts && t.kind == Expense;
      assert t.category in CategoriesOf(OfType(ts, Expense));
    } else {
      assert OfType(ts, Expense) == [];
    }
  }
}
