/** `getFinancialAdvice`: the server action that sends the mock transactions and
    their income total to the spending-pattern advisor. */
module AdviceAction {
  import opened Seqs
  import opened Ledger
  import opened Data

  /** One element of the advisor's `transactions` input: no `id`, no `userId`. */
  datatype AdviceTransaction = AdviceTransaction(date: Date, description: string, amount: int,
                                                 kind: TxType, category: string)

  datatype AdviceInput = AdviceInput(transactions: seq<AdviceTransaction>, income: int)

  /** What the action resolves with, or the error it throws. */
  datatype AdviceResult = Insights(insights: string) | Thrown(message: string)

  const FailureMessage: string := "Failed to retrieve financial advice from AI."

  function Project(t: Transaction): AdviceTransaction
  {
    AdviceTransaction(t.date, t.description, t.amount, t.kind, t.category)
  }

  /** `mockTransactions.map(t => ({ date, description, amount, type, category }))`. */
  function ProjectAll(ts: seq<Transaction>): (r: seq<AdviceTransaction>)
    ensures |r| == |ts|
    ensures forall i :: 0 <= i < |ts| ==> r[i] == Project(ts[i])
  {
    if ts == [] then [] else [Project(ts[0])] + ProjectAll(ts[1..])
  }

  /** The input built from a transaction list. */
  function InputOf(ts: seq<Transaction>): AdviceInput
  {
    AdviceInput(ProjectAll(ts), Sum(OfType(ts, Income)))
  }

  /** `getFinancialAdvice()`: the advisor's outcome on `InputOf(MockTransactions)` is
      passed in; a throw is replaced by the fixed message. */
  function GetFinancialAdvice(outcome: Outcome<string>): (r: AdviceResult)
    ensures outcome.Succeeded? <==> r.Insights?
    ensures outcome.Succeeded? ==> r.insights == outcome.value
    ensures outcome.Failed? ==> r == Thrown(FailureMessage)
  {
    match outcome
    case Succeeded(insights) => Insights(insights)
    case Failed => Thrown(FailureMessage)
  }

  /** The income sent is 5000 + 750 (written 575000), the only two income entries. */
  lemma MockIncome()
    ensures InputOf(MockTransactions).income == 575000
  {
    MockIncomeEntries();
    TwoOfType(MockTransactions, Income, 0, 8);
  }

  /** A list whose only entries of type `k` sit at `i` and `j` sums to those two. */
  lemma TwoOfType(s: seq<Transaction>, k: TxType, i: nat, j: nat)
    requires i < j < |s|
    requires forall p :: 0 <= p < |s| ==> (s[p].kind == k <==> p == i || p == j)
    ensures Sum(OfType(s, k)) == s[i].amount + s[j].amount
  {
    FilterTwo(s, k, i, j);
    PairSum(s[i], s[j]);
  }

  lemma FilterTwo(s: seq<Transaction>, k: TxType, i: nat, j: nat)
    requires i < j < |s|
    requires forall p :: 0 <= p < |s| ==> (s[p].kind == k <==> p == i || p == j)
    ensures OfType(s, k) == [s[i], s[j]]
  {
    assert s == s[0..i + 1] + s[i + 1..|s|];
    OneOfType(s, k, 0, i + 1, i);
    OneOfType(s, k, i + 1, |s|, j);
    OfTypeConcat(s[0..i + 1], s[i + 1..|s|], k);
  }

  lemma PairSum(x: Transaction, y: Transaction)
    ensures Sum([x, y]) == x.amount + y.amount
  {
    var pair := [x, y];
    assert pair[1..] == [y] && [y][1..] == [];
    assert SumOf([y], AmountOf) == y.amount;
    assert SumOf(pair, AmountOf) == x.amount + SumOf([y], AmountOf);
  }

  /** A slice whose only entry of type `k` sits at `i` filters to that entry. */
  lemma OneOfType(s: seq<Transaction>, k: TxType, lo: nat, hi: nat, i: nat)
    requires lo <= i < hi <= |s|
    requires forall p :: lo <= p < hi ==> (s[p].kind == k <==> p == i)
    ensures OfType(s[lo..hi], k) == [s[i]]
  {
    assert s[lo..hi] == s[lo..i] + [s[i]] + s[i + 1..hi];
    NoneOfType(s, k, lo, i);
    NoneOfType(s, k, i + 1, hi);
    OfTypeConcat(s[lo..i] + [s[i]], s[i + 1..hi], k);
    OfTypeConcat(s[lo..i], [s[i]], k);
    assert OfType([s[i]], k) == [s[i]];
  }

  /** A slice with no entry of type `k` filters to nothing. */
  lemma {:induction false} NoneOfType(s: seq<Transaction>, k: TxType, lo: nat, hi: nat)
    requires lo <= hi <= |s|
    requires forall p :: lo <= p < hi ==> s[p].kind != k
    ensures OfType(s[lo..hi], k) == []
    decreases hi - lo
  {
    if lo < hi {
      assert s[lo..hi][1..] == s[lo + 1..hi];
      NoneOfType(s, k, lo + 1, hi);
    }
  }

  /** Two transactions that differ only in their id are sent alike. */
  lemma ProjectionForgetsId(ts: seq<Transaction>, us: seq<Transaction>)
    requires |ts| == |us|
    requires forall i :: 0 <= i < |ts| ==> ts[i].(id := "") == us[i].(id := "")
    ensures InputOf(ts) == InputOf(us)
  {
    assert ProjectAll(ts) == ProjectAll(us) by {
      forall i | 0 <= i < |ts| ensures ProjectAll(ts)[i] == ProjectAll(us)[i] {
        assert ts[i].(id := "") == us[i].(id := "");
      }
    }
    OfTypeSameBut(ts, us, Income);
  }

  /** The income filter does not look at ids either. */
  lemma {:induction false} OfTypeSameBut(ts: seq<Transaction>, us: seq<Transaction>, k: TxType)
    requires |ts| == |us|
    requires forall i :: 0 <= i < |ts| ==> ts[i].(id := "") == us[i].(id := "")
    ensures Sum(OfType(ts, k)) == Sum(OfType(us, k))
  {
    if ts != [] {
      assert ts[0].(id := "") == us[0].(id := "");
      OfTypeSameBut(ts[1..], us[1..], k);
      assert OfType(ts, k) == (if ts[0].kind == k then [ts[0]] else []) + OfType(ts[1..], k);
      assert OfType(us, k) == (if us[0].kind == k then [us[0]] else []) + OfType(us[1..], k);
      SumOfConcat(if ts[0].kind == k then [ts[0]] else [], OfType(ts[1..], k), AmountOf);
      SumOfConcat(if us[0].kind == k then [us[0]] else [], OfType(us[1..], k), AmountOf);
    }
  }
}
