/** `IncomeExpenseChart`: per-day income and expense buckets, in date order,
    the last thirty days that have any transaction. */
module IncomeExpenseChart {
  import opened Seqs
  import opened Ledger

  datatype Bucket = Bucket(date: Date, income: int, expense: int)

  function IncomeOf(b: Bucket): int { b.income }
  function ExpenseOf(b: Bucket): int { b.expense }

  /** The ascending `getTime()` order, as a descending key. */
  function AscendingKey(b: Bucket): int { -DayNumber(b.date) }

  const MaxDays: nat := 30

  function Days(acc: seq<Bucket>): (r: seq<Date>)
    ensures |r| == |acc| && forall i :: 0 <= i < |acc| ==> r[i] == acc[i].date
  {
    if acc == [] then [] else [acc[0].date] + Days(acc[1..])
  }

  /** One step of the `dataByDate` reduce: create the day's bucket if absent, then
      add the amount to `income` for an income and to `expense` otherwise. */
  function AddToDay(acc: seq<Bucket>, t: Transaction): seq<Bucket>
  {
    var inc, exp := if t.kind == Income then t.amount else 0, if t.kind == Income then 0 else t.amount;
    if acc == [] then [Bucket(t.date, inc, exp)]
    else if acc[0].date == t.date then [Bucket(t.date, acc[0].income + inc, acc[0].expense + exp)] + acc[1..]
    else [acc[0]] + AddToDay(acc[1..], t)
  }

  /** `dataByDate` after folding `s` from the left, in bucket creation order. */
  function DayBuckets(s: seq<Transaction>): seq<Bucket>
  {
    if s == [] then [] else AddToDay(DayBuckets(s[..|s| - 1]), s[|s| - 1])
  }

  /** The `dataByDate` reduce. */
  method DataByDate(ts: seq<Transaction>) returns (acc: seq<Bucket>)
    ensures acc == DayBuckets(ts)
  {
    acc := [];
    var i := 0;
    while i < |ts|
      invariant 0 <= i <= |ts|
      invariant acc == DayBuckets(ts[..i])
    {
      assert ts[..i + 1][..i] == ts[..i];
      acc := AddToDay(acc, ts[i]);
      i := i + 1;
    }
    assert ts[..i] == ts;
  }

  /** The buckets sorted by ascending date. */
  function SortedBuckets(ts: seq<Transaction>): seq<Bucket>
  {
    SortDesc(DayBuckets(ts), AscendingKey)
  }

  /** `chartData`: sorted by date, then `slice(-30)`. */
  function ChartData(ts: seq<Transaction>): (r: seq<Bucket>)
    ensures |r| <= MaxDays
  {
    LastN(SortedBuckets(ts), MaxDays)
  }

  /** Each bucket's day lies strictly before the next one's. */
  predicate StrictlyAscending(bs: seq<Bucket>)
  {
    forall i, j :: 0 <= i < j < |bs| ==> Before(bs[i].date, bs[j].date)
  }

  /** `s.filter(t => t.date === d)`. */
  function OnDay(s: seq<Transaction>, d: Date): seq<Transaction>
  {
    if s == [] then [] else (if s[0].date == d then [s[0]] else []) + OnDay(s[1..], d)
  }

  /** `acc[d]` with absent buckets read as zero. */
  function DayTotals(acc: seq<Bucket>, d: Date): (int, int)
  {
    if acc == [] then (0, 0)
    else if acc[0].date == d then (acc[0].income, acc[0].expense)
    else DayTotals(acc[1..], d)
  }

  lemma {:induction false} AddToDayDays(acc: seq<Bucket>, t: Transaction)
    ensures Days(AddToDay(acc, t)) == if t.date in Days(acc) then Days(acc) else Days(acc) + [t.date]
  {
    if acc != [] {
      assert Days(acc) == [acc[0].date] + Days(acc[1..]);
      var r := AddToDay(acc, t);
      assert Days(r) == [r[0].date] + Days(r[1..]);
      if acc[0].date != t.date {
        AddToDayDays(acc[1..], t);
        assert r[1..] == AddToDay(acc[1..], t);
      } else {
        assert r[1..] == acc[1..];
      }
    }
  }

  lemma {:induction false} AddToDayTotals(acc: seq<Bucket>, t: Transaction, d: Date)
    ensures DayTotals(AddToDay(acc, t), d) ==
      if d != t.date then DayTotals(acc, d)
      else if t.kind == Income then (DayTotals(acc, d).0 + t.amount, DayTotals(acc, d).1)
      else (DayTotals(acc, d).0, DayTotals(acc, d).1 + t.amount)
  {
    if acc != [] {
      var r := AddToDay(acc, t);
      if acc[0].date != t.date {
        AddToDayTotals(acc[1..], t, d);
        assert r[1..] == AddToDay(acc[1..], t);
      } else {
        assert r[1..] == acc[1..];
      }
    }
  }

  lemma {:induction false} AddToDaySums(acc: seq<Bucket>, t: Transaction)
    ensures SumOf(AddToDay(acc, t), IncomeOf) == SumOf(acc, IncomeOf) + (if t.kind == Income then t.amount else 0)
    ensures SumOf(AddToDay(acc, t), ExpenseOf) == SumOf(acc, ExpenseOf) + (if t.kind == Income then 0 else t.amount)
  {
    if acc != [] {
      var r := AddToDay(acc, t);
      if acc[0].date != t.date {
        AddToDaySums(acc[1..], t);
        assert r[1..] == AddToDay(acc[1..], t);
      } else {
        assert r[1..] == acc[1..];
      }
    }
  }

  lemma {:induction false} DayBucketsDays(s: seq<Transaction>)
    ensures Distinct(Days(DayBuckets(s)))
    ensures forall d :: d in Days(DayBuckets(s)) <==> exists t :: t in s && t.date == d
  {
    if s != [] {
      var init, last := s[..|s| - 1], s[|s| - 1];
      assert s == init + [last];
      DayBucketsDays(init);
      AddToDayDays(DayBuckets(init), last);
      forall d | d in Days(DayBuckets(s)) ensures exists t :: t in s && t.date == d {
        if d != last.date {
          var t :| t in init && t.date == d;
          assert t in s;
        }
      }
      forall d | (exists t :: t in s && t.date == d) ensures d in Days(DayBuckets(s)) {
        var t :| t in s && t.date == d;
        if t != last {
          assert t in init;
        }
      }
    }
  }

  lemma OnDayConcat(a: seq<Transaction>, b: seq<Transaction>, d: Date)
    ensures OnDay(a + b, d) == OnDay(a, d) + OnDay(b, d)
    decreases |a|
  {
    if a == [] {
      assert a + b == b;
    } else {
      assert (a + b)[0] == a[0] && (a + b)[1..] == a[1..] + b;
      OnDayConcat(a[1..], b, d);
    }
  }

  /** A day's income is the sum of that day's income amounts; its expense is the
      sum of that day's other amounts. */
  lemma {:induction false} DayBucketsTotals(s: seq<Transaction>, d: Date)
    ensures DayTotals(DayBuckets(s), d) ==
      (Sum(OfType(OnDay(s, d), Income)), Sum(OfType(OnDay(s, d), Expense)))
  {
    if s != [] {
      var init, last := s[..|s| - 1], s[|s| - 1];
      assert s == init + [last];
      assert DayBuckets(s) == AddToDay(DayBuckets(init), last);
      DayBucketsTotals(init, d);
      AddToDayTotals(DayBuckets(init), last, d);
      OnDayConcat(init, [last], d);
      DayTypeSums(OnDay(init, d), OnDay([last], d));
      if last.date == d {
        assert OnDay([last], d) == [last];
        assert OfType([last], last.kind) == [last];
      } else {
        assert OnDay([last], d) == [];
      }
    }
  }

  lemma DayTypeSums(a: seq<Transaction>, b: seq<Transaction>)
    ensures Sum(OfType(a + b, Income)) == Sum(OfType(a, Income)) + Sum(OfType(b, Income))
    ensures Sum(OfType(a + b, Expense)) == Sum(OfType(a, Expense)) + Sum(OfType(b, Expense))
  {
    OfTypeConcat(a, b, Income);
    OfTypeConcat(a, b, Expense);
    SumOfConcat(OfType(a, Income), OfType(b, Income), AmountOf);
    SumOfConcat(OfType(a, Expense), OfType(b, Expense), AmountOf);
  }

  lemma {:induction false} DayBucketsSums(s: seq<Transaction>)
    ensures SumOf(DayBuckets(s), IncomeOf) == Sum(OfType(s, Income))
    ensures SumOf(DayBuckets(s), ExpenseOf) == Sum(OfType(s, Expense))
  {
    if s != [] {
      var init, last := s[..|s| - 1], s[|s| - 1];
      assert s == init + [last];
      DayBucketsSums(init);
      AddToDaySums(DayBuckets(init), last);
      OfTypeConcat(init, [last], Income);
      OfTypeConcat(init, [last], Expense);
      SumOfConcat(OfType(init, Income), OfType([last], Income), AmountOf);
      SumOfConcat(OfType(init, Expense), OfType([last], Expense), AmountOf);
    }
  }

  lemma {:induction false} BucketIsDayTotals(acc: seq<Bucket>, i: nat)
    requires Distinct(Days(acc)) && i < |acc|
    ensures (acc[i].income, acc[i].expense) == DayTotals(acc, acc[i].date)
  {
    if i > 0 {
      assert Days(acc)[0] != Days(acc)[i];
      assert Days(acc[1..]) == Days(acc)[1..];
      BucketIsDayTotals(acc[1..], i - 1);
    }
  }

  /** Every drawn bar is one of the day buckets. */
  lemma ChartBucketIsBucket(ts: seq<Transaction>, i: nat)
    requires i < |ChartData(ts)|
    ensures ChartData(ts)[i] in DayBuckets(ts)
  {
    var sorted := SortedBuckets(ts);
    var k := |sorted| - |ChartData(ts)| + i;
    assert ChartData(ts)[i] == sorted[k];
    InPermutation(sorted, DayBuckets(ts), k);
  }

  /** Each day bucket carries its day's income and expense sums. */
  lemma BucketTotals(ts: seq<Transaction>, b: Bucket)
    requires b in DayBuckets(ts)
    ensures b.income == Sum(OfType(OnDay(ts, b.date), Income))
    ensures b.expense == Sum(OfType(OnDay(ts, b.date), Expense))
    ensures exists t :: t in ts && t.date == b.date
  {
    var buckets := DayBuckets(ts);
    var p :| 0 <= p < |buckets| && buckets[p] == b;
    DayBucketsDays(ts);
    assert Days(buckets)[p] == b.date;
    assert b.date in Days(buckets);
    var t :| t in ts && t.date == b.date;
    var totals := DayTotals(buckets, b.date);
    assert (b.income, b.expense) == totals by {
      BucketIsDayTotals(buckets, p);
    }
    assert totals == (Sum(OfType(OnDay(ts, b.date), Income)), Sum(OfType(OnDay(ts, b.date), Expense))) by {
      DayBucketsTotals(ts, b.date);
    }
  }

  /** Each drawn bucket carries its day's income and expense sums. */
  lemma ChartBucketTotals(ts: seq<Transaction>, i: nat)
    requires i < |ChartData(ts)|
    ensures ChartData(ts)[i].income == Sum(OfType(OnDay(ts, ChartData(ts)[i].date), Income))
    ensures ChartData(ts)[i].expense == Sum(OfType(OnDay(ts, ChartData(ts)[i].date), Expense))
    ensures exists t :: t in ts && t.date == ChartData(ts)[i].date
  {
    ChartBucketIsBucket(ts, i);
    BucketTotals(ts, ChartData(ts)[i]);
  }

  /** Sorted buckets of days that are valid calendar days are strictly ascending. */
  lemma SortedStrictlyAscending(ts: seq<Transaction>)
    requires forall t :: t in ts ==> ValidDate(t.date)
    ensures StrictlyAscending(SortedBuckets(ts))
  {
    var buckets := DayBuckets(ts);
    var sorted := SortedBuckets(ts);
    DayBucketsDays(ts);
    assert Distinct(buckets) by {
      forall p, q | 0 <= p < q < |buckets| ensures buckets[p] != buckets[q] {
        assert Days(buckets)[p] != Days(buckets)[q];
      }
    }
    forall i, j | 0 <= i < j < |sorted| ensures Before(sorted[i].date, sorted[j].date) {
      InPermutation(sorted, buckets, i);
      InPermutation(sorted, buckets, j);
      if sorted[i] == sorted[j] {
        RepeatCount(sorted, i, j);
        DistinctCount(buckets, sorted[i]);
        assert false;
      }
      var p :| 0 <= p < |buckets| && buckets[p] == sorted[i];
      var q :| 0 <= q < |buckets| && buckets[q] == sorted[j];
      assert p != q;
      assert Days(buckets)[p] != Days(buckets)[q] by {
        if p < q {} else {}
      }
      assert sorted[i].date in Days(buckets) && sorted[j].date in Days(buckets);
      var ti :| ti in ts && ti.date == sorted[i].date;
      var tj :| tj in ts && tj.date == sorted[j].date;
      DayNumberOrder(sorted[i].date, sorted[j].date);
      assert AscendingKey(sorted[i]) >= AscendingKey(sorted[j]);
    }
  }

  /** The chart is strictly ascending by day. */
  lemma ChartAscending(ts: seq<Transaction>)
    requires forall t :: t in ts ==> ValidDate(t.date)
    ensures StrictlyAscending(ChartData(ts))
  {
    SortedStrictlyAscending(ts);
    SuffixAscending(SortedBuckets(ts), ChartData(ts));
  }

  /** A suffix of a strictly ascending list is strictly ascending. */
  lemma SuffixAscending(sorted: seq<Bucket>, chart: seq<Bucket>)
    requires StrictlyAscending(sorted) && |chart| <= |sorted|
    requires forall j :: 0 <= j < |chart| ==> chart[j] == sorted[|sorted| - |chart| + j]
    ensures StrictlyAscending(chart)
  {
    var m := |sorted| - |chart|;
    forall i, j | 0 <= i < j < |chart| ensures Before(chart[i].date, chart[j].date) {
      assert chart[i] == sorted[m + i] && chart[j] == sorted[m + j];
    }
  }

  /** One bar per distinct day, up to thirty. */
  lemma ChartLength(ts: seq<Transaction>)
    ensures var n := |set t | t in ts :: t.date|;
      |ChartData(ts)| == if n < MaxDays then n else MaxDays
  {
    var buckets := DayBuckets(ts);
    DayBucketsDays(ts);
    DistinctCardinality(Days(buckets));
    assert (set d | d in Days(buckets)) == (set t | t in ts :: t.date);
    assert |SortedBuckets(ts)| == |buckets|;
  }

  /** A day with transactions that is not drawn lies before every drawn day. */
  lemma ChartKeepsLatestDays(ts: seq<Transaction>)
    requires forall t :: t in ts ==> ValidDate(t.date)
    ensures forall t, i :: t in ts && t.date !in Days(ChartData(ts)) && 0 <= i < |ChartData(ts)| ==>
      Before(t.date, ChartData(ts)[i].date)
  {
    var buckets, sorted, chart := DayBuckets(ts), SortedBuckets(ts), ChartData(ts);
    SortedStrictlyAscending(ts);
    DayBucketsDays(ts);
    assert multiset(sorted) == multiset(buckets);
    assert forall j :: 0 <= j < |chart| ==> chart[j] == sorted[|sorted| - |chart| + j];
    forall t | t in ts && t.date !in Days(chart)
      ensures forall i :: 0 <= i < |chart| ==> Before(t.date, chart[i].date)
    {
      DroppedBefore(buckets, sorted, chart, t.date);
    }
  }

  /** The same on plain lists: a day of the buckets that the suffix leaves out lies
      before every kept day. */
  lemma DroppedBefore(buckets: seq<Bucket>, sorted: seq<Bucket>, chart: seq<Bucket>, d: Date)
    requires multiset(sorted) == multiset(buckets) && StrictlyAscending(sorted)
    requires |chart| <= |sorted|
    requires forall j :: 0 <= j < |chart| ==> chart[j] == sorted[|sorted| - |chart| + j]
    requires d in Days(buckets) && d !in Days(chart)
    ensures forall i :: 0 <= i < |chart| ==> Before(d, chart[i].date)
  {
    var p :| 0 <= p < |buckets| && Days(buckets)[p] == d;
    InPermutation(buckets, sorted, p);
    var k :| 0 <= k < |sorted| && sorted[k] == buckets[p];
    SuffixDropBefore(sorted, chart, k);
  }

  /** In an ascending list, a day left out of a suffix lies before every day kept. */
  lemma SuffixDropBefore(sorted: seq<Bucket>, chart: seq<Bucket>, k: nat)
    requires StrictlyAscending(sorted) && |chart| <= |sorted| && k < |sorted|
    requires forall j :: 0 <= j < |chart| ==> chart[j] == sorted[|sorted| - |chart| + j]
    requires sorted[k].date !in Days(chart)
    ensures forall i :: 0 <= i < |chart| ==> Before(sorted[k].date, chart[i].date)
  {
    var m := |sorted| - |chart|;
    assert k < m;
  }

  /** With at most thirty days nothing is cut, so the bars add up to all income and expense. */
  lemma ChartSumsWhenShort(ts: seq<Transaction>)
    requires |DayBuckets(ts)| <= MaxDays
    ensures SumOf(ChartData(ts), IncomeOf) == Sum(OfType(ts, Income))
    ensures SumOf(ChartData(ts), ExpenseOf) == Sum(OfType(ts, Expense))
  {
    var buckets := DayBuckets(ts);
    var sorted := SortedBuckets(ts);
    assert ChartData(ts) == sorted;
    SumOfPermutation(sorted, buckets, IncomeOf);
    SumOfPermutation(sorted, buckets, ExpenseOf);
    DayBucketsSums(ts);
  }

  /** No transactions, no bars. */
  lemma ChartEmpty(ts: seq<Transaction>)
    ensures ChartData(ts) == [] <==> ts == []
  {
    if ts != [] {
      DayBucketsDays(ts);
      assert ts[0] in ts;
      assert ts[0].date in Days(DayBuckets(ts));
    }
  }
}
