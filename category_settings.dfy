/** `CategorySettingsDialog`: editing the two category lists and saving them. */
module CategorySettings {
  import opened Seqs
  import opened Ledger
  import opened UseCategories

  /** The characters `String.prototype.trim` removes: ECMAScript WhiteSpace (tab, vertical
      tab, form feed, space, no-break space, byte order mark and the space separators)
      and LineTerminator. */
  predicate IsJsSpace(c: char)
  {
    var n := c as int;
    n == 0x09 || n == 0x0A || n == 0x0B || n == 0x0C || n == 0x0D || n == 0x20
    || n == 0xA0 || n == 0x1680 || (0x2000 <= n <= 0x200A) || n == 0x2028 || n == 0x2029
    || n == 0x202F || n == 0x205F || n == 0x3000 || n == 0xFEFF
  }

  function TrimStart(s: string): (r: string)
    ensures |r| <= |s| && r == s[|s| - |r|..]
    ensures r != [] ==> !IsJsSpace(r[0])
    ensures forall i :: 0 <= i < |s| - |r| ==> IsJsSpace(s[i])
  {
    if s != [] && IsJsSpace(s[0]) then TrimStart(s[1..]) else s
  }

  function TrimEnd(s: string): (r: string)
    ensures |r| <= |s| && r == s[..|r|]
    ensures r != [] ==> !IsJsSpace(r[|r| - 1])
    ensures forall i :: |r| <= i < |s| ==> IsJsSpace(s[i])
  {
    if s != [] && IsJsSpace(s[|s| - 1]) then TrimEnd(s[..|s| - 1]) else s
  }

  /** `s.trim()`. */
  function Trim(s: string): string
  {
    TrimEnd(TrimStart(s))
  }

  /** A label with nothing to trim. */
  predicate Trimmed(s: string)
  {
    s != [] ==> !IsJsSpace(s[0]) && !IsJsSpace(s[|s| - 1])
  }

  /** The trimmed text is a slice of the input with no white space at either end, only
      white space is cut, and trimming again changes nothing. */
  lemma TrimFacts(s: string)
    ensures Trimmed(Trim(s))
    ensures exists i, j ::
              0 <= i <= j <= |s| && Trim(s) == s[i..j]
              && (forall k :: 0 <= k < i ==> IsJsSpace(s[k])) && (forall k :: j <= k < |s| ==> IsJsSpace(s[k]))
    ensures Trim(Trim(s)) == Trim(s)
  {
    var a := TrimStart(s);
    var r := TrimEnd(a);
    var i := |s| - |a|;
    assert r == s[i..i + |r|];
    if r != [] {
      assert r[0] == a[0];
    }
    TrimmedFixed(r);
  }

  lemma TrimmedFixed(s: string)
    requires Trimmed(s)
    ensures Trim(s) == s
  {
  }

  /** Trimming leaves nothing exactly when the text is all white space. */
  lemma TrimEmptyIff(s: string)
    ensures Trim(s) == "" <==> forall k :: 0 <= k < |s| ==> IsJsSpace(s[k])
  {
    if forall k :: 0 <= k < |s| ==> IsJsSpace(s[k]) {
      AllSpaceTrimsEmpty(s);
    }
    if Trim(s) == "" {
      var a := TrimStart(s);
      assert a == [];
    }
  }

  lemma {:induction false} AllSpaceTrimsEmpty(s: string)
    requires forall k :: 0 <= k < |s| ==> IsJsSpace(s[k])
    ensures TrimStart(s) == ""
  {
    if s != [] {
      AllSpaceTrimsEmpty(s[1..]);
    }
  }

  /** The list after `handleAddCategory` on the raw input text. */
  function Added(list: seq<string>, raw: string): seq<string>
  {
    var v := Trim(raw);
    if v != "" && v !in list then list + [v] else list
  }

  /** Whether an add takes place (`newValue.trim() && !includes(newValue.trim())`). */
  predicate Accepts(list: seq<string>, raw: string)
  {
    Trim(raw) != "" && Trim(raw) !in list
  }

  /** An accepted add appends exactly the trimmed text; a blank or present one changes nothing. */
  lemma AddedFacts(list: seq<string>, raw: string)
    ensures Accepts(list, raw) ==> Added(list, raw) == list + [Trim(raw)] && |Added(list, raw)| == |list| + 1
    ensures !Accepts(list, raw) ==> Added(list, raw) == list
    ensures Accepts(list, raw) <==> |Added(list, raw)| == |list| + 1
  {
  }

  /** Adding keeps a list free of duplicates. */
  lemma AddedKeepsDistinct(list: seq<string>, raw: string)
    requires Distinct(list)
    ensures Distinct(Added(list, raw))
  {
    if Accepts(list, raw) {
      AppendFresh(list, Trim(raw));
    }
  }

  lemma AppendFresh(list: seq<string>, v: string)
    requires Distinct(list) && v !in list
    ensures Distinct(list + [v])
  {
    var r := list + [v];
    forall i, j | 0 <= i < j < |r| ensures r[i] != r[j] {
      if j == |list| {
        assert r[i] == list[i];
      }
    }
  }

  /** Adding keeps every label non-empty and trimmed. */
  lemma AddedKeepsTrimmed(list: seq<string>, raw: string)
    requires forall c :: c in list ==> c != "" && Trimmed(c)
    ensures forall c :: c in Added(list, raw) ==> c != "" && Trimmed(c)
  {
    TrimClean(raw);
  }

  lemma TrimClean(s: string)
    ensures Trimmed(Trim(s))
  {
    var a := TrimStart(s);
    var r := TrimEnd(a);
    if r != [] {
      assert r[0] == a[0];
    }
  }

  /** `array.splice(index, 1)`: a negative index counts from the end, clamped at 0; an
      index at or past the end removes nothing. */
  function Removed(list: seq<string>, index: int): seq<string>
  {
    var start := if index < 0 then (if |list| + index < 0 then 0 else |list| + index) else index;
    if start < |list| then list[..start] + list[start + 1..] else list
  }

  /** Removing at a listed position drops exactly that label and keeps the order of the rest. */
  lemma RemovedFacts(list: seq<string>, index: int)
    ensures 0 <= index < |list| ==>
      |Removed(list, index)| == |list| - 1
      && (forall k :: 0 <= k < index ==> Removed(list, index)[k] == list[k])
      && (forall k :: index <= k < |list| - 1 ==> Removed(list, index)[k] == list[k + 1])
    ensures index >= |list| ==> Removed(list, index) == list
    ensures -|list| <= index < 0 ==> Removed(list, index) == list[..|list| + index] + list[|list| + index + 1..]
    ensures index < -|list| && list != [] ==> Removed(list, index) == list[1..]
    ensures IsSubsequence(Removed(list, index), list)
  {
    var start := if index < 0 then (if |list| + index < 0 then 0 else |list| + index) else index;
    if start < |list| {
      DropOne(list, start);
    } else {
      SubsequenceOfSelf(list);
    }
  }

  lemma {:induction false} DropOne(s: seq<string>, k: nat)
    requires k < |s|
    ensures IsSubsequence(s[..k] + s[k + 1..], s)
  {
    if k == 0 {
      assert s[..0] + s[1..] == s[1..];
      SubsequenceOfSelf(s[1..]);
    } else {
      DropOne(s[1..], k - 1);
      var r := s[..k] + s[k + 1..];
      assert r[0] == s[0];
      assert r[1..] == s[1..][..k - 1] + s[1..][k..];
    }
  }

  /** Removing keeps a list free of duplicates. */
  lemma RemovedKeepsDistinct(list: seq<string>, index: int)
    requires Distinct(list)
    ensures Distinct(Removed(list, index))
  {
    var start := if index < 0 then (if |list| + index < 0 then 0 else |list| + index) else index;
    if start < |list| {
      DropOneDistinct(list, start);
    }
  }

  lemma DropOneDistinct(s: seq<string>, k: nat)
    requires Distinct(s) && k < |s|
    ensures Distinct(s[..k] + s[k + 1..])
  {
    var r := s[..k] + s[k + 1..];
    forall i, j | 0 <= i < j < |r| ensures r[i] != r[j] {
      var i' := if i < k then i else i + 1;
      var j' := if j < k then j else j + 1;
      assert r[i] == s[i'] && r[j] == s[j'];
    }
  }

  /** `handleCategoryChange` neither trims nor checks for duplicates: renaming the
      second of `Food`, `Rent` to `Food` repeats a label. */
  lemma ChangeCanDuplicate()
    ensures Distinct(["Food", "Rent"]) && !Distinct(["Food", "Rent"][1 := "Food"])
  {
    var r := ["Food", "Rent"][1 := "Food"];
    assert r[0] == r[1];
  }

  class Dialog {
    var expense: seq<string>
    var income: seq<string>
    var newExpense: string
    var newIncome: string
    var isSaving: bool
    /** The `isOpen` prop, which `onOpenChange(false)` clears. */
    var isOpen: bool
    const hook: CategoriesHook

    constructor (hook: CategoriesHook, isOpen: bool)
      ensures this.hook == hook && this.isOpen == isOpen
      ensures expense == [] && income == [] && newExpense == "" && newIncome == "" && !isSaving
    {
      this.hook := hook;
      this.isOpen := isOpen;
      expense, income := [], [];
      newExpense, newIncome := "", "";
      isSaving := false;
    }

    /** The effect that copies the hook's lists once it has finished loading. */
    method Sync()
      modifies this
      ensures !hook.loading ==> expense == hook.categories.expense && income == hook.categories.income
      ensures hook.loading ==> expense == old(expense) && income == old(income)
      ensures newExpense == old(newExpense) && newIncome == old(newIncome)
      ensures isSaving == old(isSaving) && isOpen == old(isOpen)
    {
      if !hook.loading {
        expense := hook.categories.expense;
        income := hook.categories.income;
      }
    }

    /** `handleAddCategory(type)`. */
    method AddCategory(kind: TxType)
      modifies this
      ensures kind == Expense ==> expense == Added(old(expense), old(newExpense)) && income == old(income)
      ensures kind == Income ==> income == Added(old(income), old(newIncome)) && expense == old(expense)
      ensures kind == Expense ==>
        newExpense == (if Accepts(old(expense), old(newExpense)) then "" else old(newExpense))
        && newIncome == old(newIncome)
      ensures kind == Income ==>
        newIncome == (if Accepts(old(income), old(newIncome)) then "" else old(newIncome))
        && newExpense == old(newExpense)
      ensures isSaving == old(isSaving) && isOpen == old(isOpen)
    {
      var list := if kind == Expense then expense else income;
      var newValue := if kind == Expense then newExpense else newIncome;
      var v := Trim(newValue);
      if v != "" && v !in list {
        list := list + [v];
        if kind == Expense {
          expense := list;
          newExpense := "";
        } else {
          income := list;
          newIncome := "";
        }
      }
    }

    /** `handleRemoveCategory(type, index)`. */
    method RemoveCategory(kind: TxType, index: int)
      modifies this
      ensures kind == Expense ==> expense == Removed(old(expense), index) && income == old(income)
      ensures kind == Income ==> income == Removed(old(income), index) && expense == old(expense)
      ensures newExpense == old(newExpense) && newIncome == old(newIncome)
      ensures isSaving == old(isSaving) && isOpen == old(isOpen)
    {
      if kind == Expense {
        expense := Removed(expense, index);
      } else {
        income := Removed(income, index);
      }
    }

    /** `handleCategoryChange(type, index, value)`; the inputs are rendered from the
        list, so `index` is one of its positions. */
    method ChangeCategory(kind: TxType, index: nat, value: string)
      requires index < if kind == Expense then |expense| else |income|
      modifies this
      ensures kind == Expense ==> expense == old(expense)[index := value] && income == old(income)
      ensures kind == Income ==> income == old(income)[index := value] && expense == old(expense)
      ensures newExpense == old(newExpense) && newIncome == old(newIncome)
      ensures isSaving == old(isSaving) && isOpen == old(isOpen)
    {
      if kind == Expense {
        expense := expense[index := value];
      } else {
        income := income[index := value];
      }
    }

    /** `handleSave`: `saved` is how `saveUserCategories` came back, `refetch` what the
        re-fetch that `mutate` starts returns. */
    method Save(saved: Outcome<()>, refetch: Outcome<UserCategories>) returns (sent: UserCategories)
      requires hook.cache.Valid()
      modifies this, hook, hook.cache
      ensures sent == UserCategories(old(expense), old(income))
      ensures !isSaving && hook.cache.Valid()
      ensures expense == old(expense) && income == old(income)
      ensures newExpense == old(newExpense) && newIncome == old(newIncome)
      ensures saved.Succeeded? ==>
                !isOpen && !hook.loading
                && (refetch.Succeeded? ==> hook.categories == refetch.value)
                && (refetch.Failed? ==> hook.categories == hook.defaults)
      ensures saved.Failed? ==>
                isOpen == old(isOpen)
                && hook.categories == old(hook.categories) && hook.loading == old(hook.loading)
                && hook.cache.cache == old(hook.cache.cache) && hook.cache.hasFetched == old(hook.cache.hasFetched)
    {
      isSaving := true;
      sent := UserCategories(expense, income);
      if saved.Succeeded? {
        var _ := hook.Mutate(refetch);
        isOpen := false;
      }
      isSaving := false;
    }
  }
}
