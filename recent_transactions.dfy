/** `RecentTransactions`: the first ten transactions, their signed amounts and the
    icon shown for each category. */
module RecentTransactions {
  import opened Seqs
  import opened Ledger
  import opened Data

  const RecentCount: nat := 10

  /** The name the icon lookup falls back on. */
  const FallbackIcon: string := "Shapes"

  /** `transactions.slice(0, 10)`: a prefix, at most ten long. */
  function Recent(ts: seq<Transaction>): (r: seq<Transaction>)
    ensures |r| == if |ts| < RecentCount then |ts| else RecentCount
    ensures r == ts[..|r|]
    ensures r == [] <==> ts == []
  {
    Take(ts, RecentCount)
  }

  /** `formatCurrency`: the formatted amount (locale formatting is not modelled and is
      passed in) with a '+' for income and a '-' for expense. */
  function SignedAmount(formatted: string, kind: TxType): (r: string)
    ensures |r| == |formatted| + 1 && r[1..] == formatted
    ensures r[0] == '+' <==> kind == Income
    ensures r[0] == '-' <==> kind == Expense
  {
    (if kind == Income then "+" else "-") + formatted
  }

  /** `categoryIcons[transaction.category] || 'Shapes'`: an absent or empty name falls back. */
  function IconName(category: string): (r: string)
    ensures category in CategoryIcons && CategoryIcons[category] != "" ==> r == CategoryIcons[category]
    ensures category !in CategoryIcons ==> r == FallbackIcon
  {
    if category in CategoryIcons && CategoryIcons[category] != "" then CategoryIcons[category]
    else FallbackIcon
  }

  /** Every label of the category union has its own icon name, and no label falls back. */
  lemma EveryCategoryNamed(c: string)
    requires c in CategoryUnion
    ensures IconName(c) == CategoryIcons[c] && IconName(c) != FallbackIcon
  {
    LabelsHaveIcons();
  }

  /** A letter `A`..`Z`. */
  predicate IsUpper(ch: char) { 'A' <= ch <= 'Z' }

  /** A letter `a`..`z`. */
  predicate IsLower(ch: char) { 'a' <= ch <= 'z' }

  /** The exports of the icon library as the component sees them through `import * as
      icons`: icon components are named in PascalCase; the only other exports that start
      with a lower-case letter are `icons` and `createLucideIcon`. */
  predicate IconExports(exports: set<string>)
  {
    forall n :: n in exports && n != "" && IsLower(n[0]) ==> n == "icons" || n == "createLucideIcon"
  }

  /** `DynamicIcon` as written: the name is looked up in the export namespace as it is. */
  function DynamicIconAsWritten(name: string, exports: set<string>): string
  {
    if name in exports then name else FallbackIcon
  }

  /** With the icon table's lower-case, hyphenated names, every category renders the
      fallback icon. */
  lemma AsWrittenAlwaysFallback(exports: set<string>, c: string)
    requires IconExports(exports) && c in CategoryUnion
    ensures DynamicIconAsWritten(IconName(c), exports) == FallbackIcon
  {
    EveryCategoryNamed(c);
    IconNamesKebab();
    var n := IconName(c);
    assert n != "" && IsLower(n[0]) && n != "icons" && n != "createLucideIcon";
  }

  /** The icon table's names are lower-case words joined by hyphens. */
  lemma IconNamesKebab()
    ensures forall c :: c in CategoryIcons ==>
      CategoryIcons[c] != "" && IsLower(CategoryIcons[c][0])
      && CategoryIcons[c] != "icons" && CategoryIcons[c] != "createLucideIcon"
  {
  }

  function ToUpper(ch: char): char
  {
    if IsLower(ch) then (ch as int - 'a' as int + 'A' as int) as char else ch
  }

  /** Hyphens dropped, the letter after each hyphen (and the first one) upper-cased. */
  function PascalFrom(s: string, upper: bool): (r: string)
    ensures '-' !in r
    ensures |r| <= |s|
    decreases |s|
  {
    if s == [] then []
    else if s[0] == '-' then PascalFrom(s[1..], true)
    else [if upper then ToUpper(s[0]) else s[0]] + PascalFrom(s[1..], false)
  }

  /** `utensils-crossed` to `UtensilsCrossed`, the name the library exports. */
  function PascalCase(s: string): (r: string)
    ensures '-' !in r
    ensures s != [] && IsLower(s[0]) ==> r != [] && IsUpper(r[0])
  {
    PascalFrom(s, true)
  }

  /** `DynamicIcon` as intended: the icon table's name converted before the lookup. */
  function DynamicIcon(name: string, exports: set<string>): (r: string)
    ensures r == FallbackIcon || (r in exports && r == PascalCase(name))
  {
    if PascalCase(name) in exports then PascalCase(name) else FallbackIcon
  }

  /** With the converted lookup, every category whose converted icon name is exported
      renders that icon, and the names convert as the library spells them. */
  lemma DynamicIconResolves(exports: set<string>, c: string)
    requires c in CategoryUnion && PascalCase(CategoryIcons[c]) in exports
    ensures DynamicIcon(IconName(c), exports) == PascalCase(CategoryIcons[c])
    ensures PascalCase(CategoryIcons[c]) != "" && IsUpper(PascalCase(CategoryIcons[c])[0])
  {
    EveryCategoryNamed(c);
    IconNamesKebab();
  }

  /** A single word only has its first letter upper-cased (`home` to `Home`). */
  lemma PascalCaseOfWord(w: string)
    requires w != [] && '-' !in w
    ensures PascalCase(w) == [ToUpper(w[0])] + w[1..]
  {
    PascalWord(w[1..]);
  }

  /** Each hyphen-joined word is capitalised and the hyphen dropped
      (`utensils-crossed` to `UtensilsCrossed`). */
  lemma PascalCaseOfPair(w: string, v: string)
    requires w != [] && v != [] && '-' !in w && '-' !in v
    ensures PascalCase(w + "-" + v) == [ToUpper(w[0])] + w[1..] + [ToUpper(v[0])] + v[1..]
  {
    var s := w + "-" + v;
    var rest := "-" + v;
    assert w[0] in w && v[0] in v;
    assert s[0] == w[0] && s[1..] == w[1..] + rest;
    assert PascalFrom(s, true) == [ToUpper(w[0])] + PascalFrom(w[1..] + rest, false);
    PascalConcat(w[1..], rest);
    assert rest[0] == '-' && rest[1..] == v;
    assert PascalFrom(rest, false) == PascalFrom(v, true);
    PascalWord(v[1..]);
    assert PascalFrom(v, true) == [ToUpper(v[0])] + v[1..];
  }

  /** A word without hyphens after its first letter is copied unchanged. */
  lemma {:induction false} PascalWord(w: string)
    requires '-' !in w
    ensures PascalFrom(w, false) == w
  {
    if w != [] {
      PascalWord(w[1..]);
    }
  }

  /** A hyphen-free prefix is copied unchanged. */
  lemma {:induction false} PascalConcat(a: string, b: string)
    requires '-' !in a
    ensures PascalFrom(a + b, false) == a + PascalFrom(b, false)
  {
    if a != [] {
      assert (a + b)[1..] == a[1..] + b;
      PascalConcat(a[1..], b);
    } else {
      assert a + b == b;
    }
  }
}
