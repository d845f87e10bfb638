/** `SummaryCards`: total income, total expenses and the balance. */
module SummaryCards {
  import opened Seqs
  import opened Ledger

  datatype Summary = Summary(income: int, expenses: int, balance: int)

  function Summarize(s: seq<Transaction>): (r: Summary)
    ensures r.balance == r.income - r.expenses
  {
    var income := Sum(OfType(s, Income));
    var expenses := Sum(OfType(s, Expense));
    Summary(income, expenses, income - expenses)
  }

  /** Income and expenses together are every amount, since a type is one or the other. */
  lemma SummaryCoversAll(s: seq<Transaction>)
    ensures Summarize(s).income + Summarize(s).expenses == Sum(s)
    ensures Summarize(s).balance == Sum(s) - 2 * Summarize(s).expenses
  {
    TypesPartitionSum(s);
  }

  /** The cards do not depend on the order of the list. */
  lemma SummaryPermutationInvariant(s: seq<Transaction>, u: seq<Transaction>)
    requires multiset(s) == multiset(u)
    ensures Summarize(s) == Summarize(u)
  {
    OfTypePermutation(s, u, Income);
    OfTypePermutation(s, u, Expense);
    SumOfPermutation(OfType(s, Income), OfType(u, Income), AmountOf);
    SumOfPermutation(OfType(s, Expense), OfType(u, Expense), AmountOf);
  }

  /** Recording one more transaction moves only its own type's total, and the balance with it. */
  lemma SummaryAppend(s: seq<Transaction>, t: Transaction)
    ensures t.kind == Income ==>
      Summarize(s + [t]) == Summary(Summarize(s).income + t.amount, Summarize(s).expenses,
                                    Summarize(s).balance + t.amount)
    ensures t.kind == Expense ==>
      Summarize(s + [t]) == Summary(Summarize(s).income, Summarize(s).expenses + t.amount,
                                    Summarize(s).balance - t.amount)
  {
    OfTypeConcat(s, [t], Income);
    OfTypeConcat(s, [t], Expense);
    SumOfConcat(OfType(s, Income), OfType([t], Income), AmountOf);
    SumOfConcat(OfType(s, Expense), OfType([t], Expense), AmountOf);
  }
}
