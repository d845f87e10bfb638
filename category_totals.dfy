/** The `Record<string, number>` accumulator that the category charts build with
    `if (!acc[c]) acc[c] = 0; acc[c] += t.amount`, as an association list in
    key-insertion order (the order `Object.entries` returns string keys in). */
module CategoryTotals {
  import opened Seqs
  import opened Ledger

  datatype Entry = Entry(category: string, total: int)

  function TotalOf(e: Entry): int { e.total }

  function Labels(acc: seq<Entry>): (r: seq<string>)
    ensures |r| == |acc|
    ensures forall i :: 0 <= i < |acc| ==> r[i] == acc[i].category
  {
    if acc == [] then [] else [acc[0].category] + Labels(acc[1..])
  }

  /** `acc[c]` read as a number: 0 when the key is absent. */
  function Lookup(acc: seq<Entry>, c: string): int
  {
    if acc == [] then 0 else if acc[0].category == c then acc[0].total else Lookup(acc[1..], c)
  }

  /** One accumulator step: add `a` to the entry for `c`, creating it at the end if absent. */
  function Bump(acc: seq<Entry>, c: string, a: int): (r: seq<Entry>)
    ensures |r| == if c in Labels(acc) then |acc| else |acc| + 1
  {
    if acc == [] then [Entry(c, a)]
    else if acc[0].category == c then [Entry(c, acc[0].total + a)] + acc[1..]
    else
      assert Labels(acc) == [acc[0].category] + Labels(acc[1..]);
      [acc[0]] + Bump(acc[1..], c, a)
  }

  /** The accumulator after folding `s` from the left. */
  function Tally(s: seq<Transaction>): seq<Entry>
  {
    if s == [] then [] else Bump(Tally(s[..|s| - 1]), s[|s| - 1].category, s[|s| - 1].amount)
  }

  /** `s.filter(t => t.category === c)`. */
  function OfCategory(s: seq<Transaction>, c: string): seq<Transaction>
  {
    if s == [] then [] else (if s[0].category == c then [s[0]] else []) + OfCategory(s[1..], c)
  }

  /** The labels occurring in `s`. */
  function CategoriesOf(s: seq<Transaction>): set<string>
  {
    set t | t in s :: t.category
  }

  lemma {:induction false} BumpLabels(acc: seq<Entry>, c: string, a: int)
    ensures Labels(Bump(acc, c, a)) == if c in Labels(acc) then Labels(acc) else Labels(acc) + [c]
  {
    if acc != [] {
      assert Labels(acc) == [acc[0].category] + Labels(acc[1..]);
      if acc[0].category != c {
        BumpLabels(acc[1..], c, a);
        var r := [acc[0]] + Bump(acc[1..], c, a);
        assert Labels(r) == [acc[0].category] + Labels(r[1..]);
        assert r[1..] == Bump(acc[1..], c, a);
      } else {
        var r := [Entry(c, acc[0].total + a)] + acc[1..];
        assert Labels(r) == [c] + Labels(r[1..]);
        assert r[1..] == acc[1..];
      }
    }
  }

  lemma {:induction false} BumpLookup(acc: seq<Entry>, c: string, a: int, k: string)
    ensures Lookup(Bump(acc, c, a), k) == Lookup(acc, k) + (if k == c then a else 0)
  {
    if acc != [] && acc[0].category != c {
      BumpLookup(acc[1..], c, a, k);
      var r := [acc[0]] + Bump(acc[1..], c, a);
      assert r[1..] == Bump(acc[1..], c, a);
    } else if acc != [] {
      var r := [Entry(c, acc[0].total + a)] + acc[1..];
      assert r[1..] == acc[1..];
    }
  }

  lemma {:induction false} BumpTotal(acc: seq<Entry>, c: string, a: int)
    ensures SumOf(Bump(acc, c, a), TotalOf) == SumOf(acc, TotalOf) + a
  {
    if acc != [] && acc[0].category != c {
      BumpTotal(acc[1..], c, a);
      var r := [acc[0]] + Bump(acc[1..], c, a);
      assert r[1..] == Bump(acc[1..], c, a);
    } else if acc != [] {
      var r := [Entry(c, acc[0].total + a)] + acc[1..];
      assert r[1..] == acc[1..];
    }
  }

  /** In a list whose labels are distinct, each entry carries its label's total. */
  lemma {:induction false} EntryIsLookup(acc: seq<Entry>, i: nat)
    requires Distinct(Labels(acc)) && i < |acc|
    ensures acc[i].total == Lookup(acc, acc[i].category)
  {
    if i > 0 {
      assert acc[0].category != acc[i].category by {
        assert Labels(acc)[0] != Labels(acc)[i];
      }
      assert Labels(acc[1..]) == Labels(acc)[1..];
      EntryIsLookup(acc[1..], i - 1);
    }
  }

  lemma OfCategoryConcat(a: seq<Transaction>, b: seq<Transaction>, c: string)
    ensures OfCategory(a + b, c) == OfCategory(a, c) + OfCategory(b, c)
    decreases |a|
  {
    if a == [] {
      assert a + b == b;
    } else {
      assert (a + b)[0] == a[0] && (a + b)[1..] == a[1..] + b;
      OfCategoryConcat(a[1..], b, c);
    }
  }

  lemma {:induction false} TallyStep(s: seq<Transaction>, t: Transaction)
    ensures Tally(s + [t]) == Bump(Tally(s), t.category, t.amount)
  {
    assert (s + [t])[..|s|] == s;
  }

  /** The per-label total is the sum of that label's amounts. */
  lemma {:induction false} TallyLookup(s: seq<Transaction>, c: string)
    ensures Lookup(Tally(s), c) == Sum(OfCategory(s, c))
  {
    if s != [] {
      var init, last := s[..|s| - 1], s[|s| - 1];
      assert s == init + [last];
      TallyLookup(init, c);
      BumpLookup(Tally(init), last.category, last.amount, c);
      OfCategoryConcat(init, [last], c);
      SumOfConcat(OfCategory(init, c), OfCategory([last], c), AmountOf);
      assert OfCategory([last], c) == if last.category == c then [last] else [];
    }
  }

  /** One entry per distinct label, and no label twice. */
  lemma {:induction false} TallyLabels(s: seq<Transaction>)
    ensures Distinct(Labels(Tally(s)))
    ensures forall c :: c in Labels(Tally(s)) <==> c in CategoriesOf(s)
  {
    if s != [] {
      var init, last := s[..|s| - 1], s[|s| - 1];
      assert s == init + [last];
      TallyLabels(init);
      BumpLabels(Tally(init), last.category, last.amount);
      assert CategoriesOf(s) == CategoriesOf(init) + {last.category};
    }
  }

  /** The entries add up to the sum of all amounts. */
  lemma {:induction false} TallySum(s: seq<Transaction>)
    ensures SumOf(Tally(s), TotalOf) == Sum(s)
  {
    if s != [] {
      var init, last := s[..|s| - 1], s[|s| - 1];
      assert s == init + [last];
      TallySum(init);
      BumpTotal(Tally(init), last.category, last.amount);
      SumOfConcat(init, [last], AmountOf);
    }
  }

  /** Each entry's total is the sum over its label, and it is positive when amounts are. */
  lemma TallyEntry(s: seq<Transaction>, i: nat)
    requires i < |Tally(s)|
    ensures Tally(s)[i].total == Sum(OfCategory(s, Tally(s)[i].category))
    ensures Tally(s)[i].category in CategoriesOf(s)
  {
    TallyLabels(s);
    EntryIsLookup(Tally(s), i);
    TallyLookup(s, Tally(s)[i].category);
    assert Labels(Tally(s))[i] == Tally(s)[i].category;
  }

  /** The number of entries is the number of distinct labels. */
  lemma TallyLength(s: seq<Transaction>)
    ensures |Tally(s)| == |CategoriesOf(s)|
  {
    TallyLabels(s);
    DistinctCardinality(Labels(Tally(s)));
    assert (set x | x in Labels(Tally(s))) == CategoriesOf(s);
  }

  lemma {:induction false} BumpNonNegative(acc: seq<Entry>, c: string, a: int)
    requires a >= 0 && forall e :: e in acc ==> e.total >= 0
    ensures forall e :: e in Bump(acc, c, a) ==> e.total >= 0
  {
    if acc != [] && acc[0].category != c {
      BumpNonNegative(acc[1..], c, a);
    }
  }

  lemma {:induction false} TallyNonNegative(s: seq<Transaction>)
    requires forall t :: t in s ==> t.amount >= 0
    ensures forall e :: e in Tally(s) ==> e.total >= 0
  {
    if s != [] {
      TallyNonNegative(s[..|s| - 1]);
      BumpNonNegative(Tally(s[..|s| - 1]), s[|s| - 1].category, s[|s| - 1].amount);
    }
  }
}
