/** `TopCategories`: per-type category totals, the five largest of each type,
    and the sum of the listed entries. */
module TopCategories {
  import opened Seqs
  import opened Ledger
  import opened CategoryTotals

  /** The `categoryTotals` reduce: one accumulator per transaction type. */
  method CategoryTotalsByType(ts: seq<Transaction>) returns (expense: seq<Entry>, income: seq<Entry>)
    ensures expense == Tally(OfType(ts, Expense))
    ensures income == Tally(OfType(ts, Income))
  {
    expense, income := [], [];
    var i := 0;
    while i < |ts|
      invariant 0 <= i <= |ts|
      invariant expense == Tally(OfType(ts[..i], Expense))
      invariant income == Tally(OfType(ts[..i], Income))
    {
      var t := ts[i];
      assert ts[..i + 1] == ts[..i] + [t];
      TypedTallyStep(ts[..i], t, Expense);
      TypedTallyStep(ts[..i], t, Income);
      if t.kind == Expense {
        expense := Bump(expense, t.category, t.amount);
      } else {
        income := Bump(income, t.category, t.amount);
      }
      i := i + 1;
    }
    assert ts[..i] == ts;
  }

  /** One step of the reduce touches only the accumulator of the transaction's type. */
  lemma TypedTallyStep(pre: seq<Transaction>, t: Transaction, k: TxType)
    ensures Tally(OfType(pre + [t], k)) ==
      if t.kind == k then Bump(Tally(OfType(pre, k)), t.category, t.amount) else Tally(OfType(pre, k))
  {
    OfTypeConcat(pre, [t], k);
    if t.kind == k {
      assert OfType([t], k) == [t];
      TallyStep(OfType(pre, k), t);
    } else {
      assert OfType([t], k) == [];
      assert OfType(pre, k) + [] == OfType(pre, k);
    }
  }

  /** `sortAndSlice`: entries by descending total (ties keep insertion order), first five. */
  function SortAndSlice(entries: seq<Entry>): (r: seq<Entry>)
    ensures |r| == if |entries| < 5 then |entries| else 5
    ensures Descending(r, TotalOf)
    ensures forall e :: e in r ==> e in entries
  {
    var sorted := SortDesc(entries, TotalOf);
    var r := Take(sorted, 5);
    assert forall e :: e in r ==> e in multiset(sorted);
    r
  }

  /** `totalExpenses` / `totalIncomes`: the sum over the listed entries only. */
  function ListedTotal(top: seq<Entry>): int
  {
    SumOf(top, TotalOf)
  }

  /** The top list of one type. */
  function TopOf(ts: seq<Transaction>, k: TxType): seq<Entry>
  {
    SortAndSlice(Tally(OfType(ts, k)))
  }

  /** A listed total is the sum of the amounts of that type and that category; the
      same label under the other type is totalled separately. */
  lemma TopEntryTotal(ts: seq<Transaction>, k: TxType, e: Entry)
    requires e in TopOf(ts, k)
    ensures e.total == Sum(OfCategory(OfType(ts, k), e.category))
    ensures exists t :: t in ts && t.kind == k && t.category == e.category
  {
    OfTypeMembers(ts, k);
    var entries := Tally(OfType(ts, k));
    assert e in entries;
    var i :| 0 <= i < |entries| && entries[i] == e;
    TallyEntry(OfType(ts, k), i);
    var t :| t in OfType(ts, k) && t.category == e.category;
    assert t in ts && t.kind == k;
  }

  /** At most five entries: as many as there are distinct categories of that type, up to five. */
  lemma TopLength(ts: seq<Transaction>, k: TxType)
    ensures var n := |CategoriesOf(OfType(ts, k))|;
      |TopOf(ts, k)| == if n < 5 then n else 5
  {
    TallyLength(OfType(ts, k));
  }

  /** No transaction of a type: nothing listed for it. */
  lemma TopEmptyWithoutType(ts: seq<Transaction>, k: TxType)
    requires forall t :: t in ts ==> t.kind != k
    ensures TopOf(ts, k) == []
  {
    TopLength(ts, k);
    OfTypeMembers(ts, k);
    assert OfType(ts, k) == [];
    assert CategoriesOf([]) == {};
  }

  /** Every category left off the list has a total no larger than the last listed one. */
  lemma LeftOutNotLarger(ts: seq<Transaction>, k: TxType, e: Entry)
    requires e in Tally(OfType(ts, k)) && e !in TopOf(ts, k)
    ensures |TopOf(ts, k)| == 5
    ensures e.total <= TopOf(ts, k)[4].total
  {
    var entries := Tally(OfType(ts, k));
    var sorted := SortDesc(entries, TotalOf);
    assert e in multiset(sorted);
    var j :| 0 <= j < |sorted| && sorted[j] == e;
    if j < 5 {
      assert false;
    }
    assert TopOf(ts, k)[4] == sorted[4];
  }

  /** With non-negative amounts the listed total never exceeds the type's full total. */
  lemma ListedTotalBounded(ts: seq<Transaction>, k: TxType)
    requires forall t :: t in ts ==> t.amount >= 0
    ensures ListedTotal(TopOf(ts, k)) <= Sum(OfType(ts, k))
    ensures |CategoriesOf(OfType(ts, k))| <= 5 ==> ListedTotal(TopOf(ts, k)) == Sum(OfType(ts, k))
  {
    var s := OfType(ts, k);
    OfTypeMembers(ts, k);
    var entries := Tally(s);
    var sorted := SortDesc(entries, TotalOf);
    TallySum(s);
    SumOfPermutation(sorted, entries, TotalOf);
    TallyNonNegative(s);
    var n := if |sorted| < 5 then |sorted| else 5;
    assert sorted == sorted[..n] + sorted[n..];
    SumOfConcat(sorted[..n], sorted[n..], TotalOf);
    assert TopOf(ts, k) == sorted[..n];
    assert forall e :: e in sorted[n..] ==> e in multiset(entries);
    NonNegativeSum(sorted[n..]);
    TallyLength(s);
  }

  lemma {:induction false} NonNegativeSum(es: seq<Entry>)
    requires forall e :: e in es ==> e.total >= 0
    ensures SumOf(es, TotalOf) >= 0
  {
    if es != [] {
      NonNegativeSum(es[1..]);
    }
  }
}
