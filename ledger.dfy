/** The `Transaction` record every dashboard component works on, the day
    order used by the charts and sorts, and the per-type sums. */
module Ledger {
  import opened Seqs

  datatype Option<T> = None | Some(value: T)

  /** How a call the model cannot see (the backend, the camera, a generative model)
      came back: with a value, or by throwing. */
  datatype Outcome<T> = Succeeded(value: T) | Failed

  /** `'income' | 'expense'`. */
  datatype TxType = Income | Expense

  /** A calendar day: month counts from 0 (January) to 11, as `Date.getMonth()` does. */
  datatype Date = Date(year: int, month: int, day: int)

  predicate ValidDate(d: Date)
  {
    0 <= d.month < 12 && 1 <= d.day <= 31
  }

  /** Chronological order of days. */
  predicate Before(a: Date, b: Date)
  {
    a.year < b.year
    || (a.year == b.year && a.month < b.month)
    || (a.year == b.year && a.month == b.month && a.day < b.day)
  }

  predicate NotAfter(a: Date, b: Date)
  {
    a == b || Before(a, b)
  }

  /** A count of days in which every month has 32 slots; the key by which the
      model sorts on `new Date(...).getTime()`. */
  function DayNumber(d: Date): int
  {
    (d.year * 12 + d.month) * 32 + d.day
  }

  /** On valid days, comparing day numbers is comparing days. */
  lemma DayNumberOrder(a: Date, b: Date)
    requires ValidDate(a) && ValidDate(b)
    ensures Before(a, b) <==> DayNumber(a) < DayNumber(b)
    ensures a == b <==> DayNumber(a) == DayNumber(b)
  {
    var ma, mb := a.year * 12 + a.month, b.year * 12 + b.month;
    assert DayNumber(a) == ma * 32 + a.day && DayNumber(b) == mb * 32 + b.day;
    if ma < mb {
      assert (mb - ma) * 32 >= 32;
    } else if mb < ma {
      assert (ma - mb) * 32 >= 32;
    }
    assert ma == mb <==> (a.year == b.year && a.month == b.month);
    assert ma < mb <==> (a.year < b.year || (a.year == b.year && a.month < b.month));
  }

  /** `src/lib/data.ts`'s `Transaction`; amounts count hundredths of the currency unit. */
  datatype Transaction = Transaction(
    id: string,
    date: Date,
    description: string,
    category: string,
    amount: int,
    kind: TxType)

  /** What the receipt-extraction flow returns: the grand total, a category label, the
      date as `YYYY-MM-DD` text, a merchant description and the transaction type. */
  datatype Receipt = Receipt(amount: int, category: string, date: string, description: string,
                             kind: TxType)

  function AmountOf(t: Transaction): int { t.amount }

  function DayKey(t: Transaction): int { DayNumber(t.date) }

  /** `transactions.filter(t => t.type === k)`. */
  function OfType(s: seq<Transaction>, k: TxType): seq<Transaction>
  {
    if s == [] then [] else (if s[0].kind == k then [s[0]] else []) + OfType(s[1..], k)
  }

  /** The filter keeps exactly the transactions of type `k`, in their order. */
  lemma {:induction false} OfTypeMembers(s: seq<Transaction>, k: TxType)
    ensures forall t :: t in OfType(s, k) <==> t in s && t.kind == k
    ensures IsSubsequence(OfType(s, k), s)
  {
    if s != [] {
      OfTypeMembers(s[1..], k);
      var rest := OfType(s[1..], k);
      if s[0].kind == k {
        assert OfType(s, k) == [s[0]] + rest;
        assert ([s[0]] + rest)[1..] == rest;
      } else {
        assert OfType(s, k) == rest;
      }
    }
  }

  /** `.reduce((acc, t) => acc + t.amount, 0)`. */
  function Sum(s: seq<Transaction>): int
  {
    SumOf(s, AmountOf)
  }

  lemma {:induction false} OfTypeConcat(a: seq<Transaction>, b: seq<Transaction>, k: TxType)
    ensures OfType(a + b, k) == OfType(a, k) + OfType(b, k)
  {
    if a == [] {
      assert a + b == b;
    } else {
      assert (a + b)[0] == a[0] && (a + b)[1..] == a[1..] + b;
      OfTypeConcat(a[1..], b, k);
    }
  }

  /** Filtering keeps exactly the multiplicities of the kept elements. */
  lemma {:induction false} OfTypeCount(s: seq<Transaction>, k: TxType, t: Transaction)
    ensures multiset(OfType(s, k))[t] == if t.kind == k then multiset(s)[t] else 0
  {
    if s != [] {
      OfTypeCount(s[1..], k, t);
      assert s == [s[0]] + s[1..];
    }
  }

  lemma OfTypePermutation(s: seq<Transaction>, u: seq<Transaction>, k: TxType)
    requires multiset(s) == multiset(u)
    ensures multiset(OfType(s, k)) == multiset(OfType(u, k))
  {
    forall t ensures multiset(OfType(s, k))[t] == multiset(OfType(u, k))[t] {
      OfTypeCount(s, k, t);
      OfTypeCount(u, k, t);
    }
  }

  /** The two types split every sum. */
  lemma {:induction false} TypesPartitionSum(s: seq<Transaction>)
    ensures Sum(OfType(s, Income)) + Sum(OfType(s, Expense)) == Sum(s)
  {
    if s != [] {
      TypesPartitionSum(s[1..]);
      if s[0].kind == Income {
        assert OfType(s, Income) == [s[0]] + OfType(s[1..], Income);
        assert OfType(s, Expense) == OfType(s[1..], Expense);
      } else {
        assert OfType(s, Expense) == [s[0]] + OfType(s[1..], Expense);
        assert OfType(s, Income) == OfType(s[1..], Income);
      }
      assert ([s[0]] + OfType(s[1..], s[0].kind))[1..] == OfType(s[1..], s[0].kind);
    }
  }
}
