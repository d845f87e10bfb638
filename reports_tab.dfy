/** `ReportsTab`: the year options of the period selector and the period filter. */
module ReportsTab {
  import opened Seqs
  import opened Ledger

  const ReportsTabName: string := "reports"

  /** The selector value that stands for every year or every month. */
  const All: int := -1

  /** `years.add(y)` on a `Set`, which keeps its first-insertion order. */
  function AddYear(years: seq<int>, y: int): seq<int>
  {
    if y in years then years else years + [y]
  }

  /** `new Set(transactions.map(t => year of t.date))`, in insertion order. */
  function YearsOf(ts: seq<Transaction>): seq<int>
  {
    if ts == [] then [] else AddYear(YearsOf(ts[..|ts| - 1]), ts[|ts| - 1].date.year)
  }

  function YearKey(y: int): int { y }

  /** `generateYearOptions`: the years of the list plus the current one, newest first. */
  function YearOptions(ts: seq<Transaction>, currentYear: int): seq<int>
  {
    if ts == [] then [currentYear]
    else SortDesc(AddYear(YearsOf(ts), currentYear), YearKey)
  }

  /** `generateYearOptions` as the component runs it: build the set, add the current
      year, sort by `b - a`. */
  method GenerateYearOptions(ts: seq<Transaction>, currentYear: int) returns (r: seq<int>)
    ensures r == YearOptions(ts, currentYear)
    ensures currentYear in r
    ensures forall t :: t in ts ==> t.date.year in r
    ensures forall i, j :: 0 <= i < j < |r| ==> r[i] > r[j]
  {
    if |ts| == 0 {
      return [currentYear];
    }
    var years: seq<int> := [];
    var i := 0;
    while i < |ts|
      invariant 0 <= i <= |ts|
      invariant years == YearsOf(ts[..i])
    {
      assert ts[..i + 1][..i] == ts[..i];
      var y := ts[i].date.year;
      if y !in years {
        years := years + [y];
      }
      i := i + 1;
    }
    assert ts[..i] == ts;
    if currentYear !in years {
      years := years + [currentYear];
    }
    r := SortDesc(years, YearKey);
    YearOptionsDescending(ts, currentYear);
    YearOptionsMembers(ts, currentYear, currentYear);
    forall t | t in ts ensures t.date.year in r {
      YearOptionsMembers(ts, currentYear, t.date.year);
    }
  }

  lemma {:induction false} YearsOfFacts(ts: seq<Transaction>)
    ensures Distinct(YearsOf(ts))
    ensures forall y :: y in YearsOf(ts) <==> exists t :: t in ts && t.date.year == y
  {
    if ts != [] {
      var init, last := ts[..|ts| - 1], ts[|ts| - 1];
      assert ts == init + [last];
      YearsOfFacts(init);
      forall y | y in YearsOf(ts) ensures exists t :: t in ts && t.date.year == y {
        if y != last.date.year {
          var t :| t in init && t.date.year == y;
          assert t in ts;
        }
      }
      forall y | (exists t :: t in ts && t.date.year == y) ensures y in YearsOf(ts) {
        var t :| t in ts && t.date.year == y;
        if t != last {
          assert t in init;
        }
      }
    }
  }

  /** The options are the current year and every transaction's year. */
  lemma YearOptionsMembers(ts: seq<Transaction>, currentYear: int, y: int)
    ensures y in YearOptions(ts, currentYear) <==>
      y == currentYear || exists t :: t in ts && t.date.year == y
  {
    if ts != [] {
      var years := AddYear(YearsOf(ts), currentYear);
      var r := SortDesc(years, YearKey);
      YearsOfFacts(ts);
      assert y in r <==> y in multiset(r);
      assert y in years <==> y in multiset(years);
      assert y in years <==> y in YearsOf(ts) || y == currentYear;
    }
  }

  /** The options are strictly descending, so no year is offered twice. */
  lemma YearOptionsDescending(ts: seq<Transaction>, currentYear: int)
    ensures forall i, j :: 0 <= i < j < |YearOptions(ts, currentYear)| ==>
      YearOptions(ts, currentYear)[i] > YearOptions(ts, currentYear)[j]
  {
    if ts != [] {
      var years := AddYear(YearsOf(ts), currentYear);
      var r := SortDesc(years, YearKey);
      YearsOfFacts(ts);
      assert Distinct(years);
      DistinctPermutation(r, years);
      forall i, j | 0 <= i < j < |r| ensures r[i] > r[j] {
        assert YearKey(r[i]) >= YearKey(r[j]);
      }
    }
  }

  /** The current year is the only option exactly when every transaction is of that
      year; in particular an empty list offers the current year alone. */
  lemma YearOptionsOnlyCurrent(ts: seq<Transaction>, currentYear: int)
    ensures YearOptions(ts, currentYear) == [currentYear] <==>
      forall t :: t in ts ==> t.date.year == currentYear
  {
    if forall t :: t in ts ==> t.date.year == currentYear {
      if ts != [] {
        YearsOfOneYear(ts, currentYear);
        assert AddYear(YearsOf(ts), currentYear) == [currentYear];
        assert SortDesc([currentYear], YearKey) == [currentYear];
      }
    } else {
      var t :| t in ts && t.date.year != currentYear;
      YearOptionsMembers(ts, currentYear, t.date.year);
    }
  }

  lemma {:induction false} YearsOfOneYear(ts: seq<Transaction>, y: int)
    requires ts != [] && forall t :: t in ts ==> t.date.year == y
    ensures YearsOf(ts) == [y]
  {
    var init := ts[..|ts| - 1];
    assert ts[|ts| - 1] in ts;
    if init != [] {
      assert forall t :: t in init ==> t in ts;
      YearsOfOneYear(init, y);
    }
  }

  /** Whether a transaction falls in the selected year and month (`-1` matches all). */
  predicate InPeriod(t: Transaction, year: int, month: int)
  {
    (year == All || t.date.year == year) && (month == All || t.date.month == month)
  }

  /** The `transactions.filter` of the reports tab. */
  function OfPeriod(ts: seq<Transaction>, year: int, month: int): seq<Transaction>
  {
    if ts == [] then []
    else (if InPeriod(ts[0], year, month) then [ts[0]] else []) + OfPeriod(ts[1..], year, month)
  }

  /** `filteredTransactions`: unfiltered outside the reports tab. */
  function Filtered(ts: seq<Transaction>, tab: string, year: int, month: int): seq<Transaction>
  {
    if tab != ReportsTabName then ts else OfPeriod(ts, year, month)
  }

  lemma {:induction false} OfPeriodFacts(ts: seq<Transaction>, year: int, month: int)
    ensures IsSubsequence(OfPeriod(ts, year, month), ts)
    ensures forall t :: t in OfPeriod(ts, year, month) <==> t in ts && InPeriod(t, year, month)
  {
    if ts != [] {
      OfPeriodFacts(ts[1..], year, month);
      var rest := OfPeriod(ts[1..], year, month);
      if InPeriod(ts[0], year, month) {
        assert OfPeriod(ts, year, month) == [ts[0]] + rest;
        assert ([ts[0]] + rest)[1..] == rest;
      } else {
        assert OfPeriod(ts, year, month) == rest;
      }
    }
  }

  /** The filtered list keeps the input's order, and holds exactly the transactions of
      the selected period on the reports tab and all of them on any other tab. */
  lemma FilteredFacts(ts: seq<Transaction>, tab: string, year: int, month: int)
    ensures IsSubsequence(Filtered(ts, tab, year, month), ts)
    ensures forall t :: t in Filtered(ts, tab, year, month) <==>
      t in ts && (tab != ReportsTabName || InPeriod(t, year, month))
  {
    OfPeriodFacts(ts, year, month);
    SubsequenceOfSelf(ts);
  }

  /** With every year and every month selected, or off the reports tab, nothing is dropped. */
  lemma {:induction false} FilteredKeepsAll(ts: seq<Transaction>, tab: string, year: int, month: int)
    requires tab != ReportsTabName || (year == All && month == All)
    ensures Filtered(ts, tab, year, month) == ts
  {
    if tab == ReportsTabName && ts != [] {
      FilteredKeepsAll(ts[1..], tab, year, month);
      assert ts == [ts[0]] + ts[1..];
    }
  }
}
