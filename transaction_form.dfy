/** `AddTransactionForm`: the validation schema, the default values, the type toggle,
    the calendar's selectable days and the submit handler. */
module TransactionForm {
  import opened Seqs
  import opened Ledger
  import opened Data

  /** The form's values; `date` is `None` when the calendar has no day selected. */
  datatype FormValues = FormValues(kind: TxType, amount: int, category: string,
                                   date: Option<Date>, description: string)

  /** The record handed to `addTransaction`: the values plus `createdAt`. */
  datatype NewTransaction = NewTransaction(values: FormValues, createdAt: Date)

  const AmountMessage: string := "Amount must be positive."
  const CategoryMessage: string := "Please select a category."
  const DescriptionMessage: string := "Description is required."
  /** The message `z.date()` gives for a missing value. */
  const DateMessage: string := "Required"

  /** The first day the calendar offers, `new Date("1900-01-01")`. */
  const FirstDay: Date := Date(1900, 0, 1)

  /** The messages `formSchema` reports, in field order; `type` is one of the two
      values by construction, and any selected day is a valid `Date`. */
  function Issues(v: FormValues): (r: seq<string>)
    ensures AmountMessage in r <==> v.amount <= 0
    ensures CategoryMessage in r <==> v.category == ""
    ensures DateMessage in r <==> v.date.None?
    ensures DescriptionMessage in r <==> v.description == ""
    ensures |r| <= 4
  {
    (if v.amount > 0 then [] else [AmountMessage])
    + (if |v.category| >= 1 then [] else [CategoryMessage])
    + (if v.date.Some? then [] else [DateMessage])
    + (if |v.description| >= 1 then [] else [DescriptionMessage])
  }

  predicate Passes(v: FormValues)
  {
    Issues(v) == []
  }

  /** Validation passes exactly on a positive amount, a chosen category, a selected day
      and a description. */
  lemma PassesIff(v: FormValues)
    ensures Passes(v) <==> v.amount > 0 && v.category != "" && v.date.Some? && v.description != ""
  {
    if !Passes(v) {
      var m := Issues(v)[0];
      assert m in Issues(v);
    }
  }

  /** `defaultValues`, and the values `form.reset` writes, for a type and today's date. */
  function Blank(kind: TxType, today: Date): FormValues
  {
    FormValues(kind, 0, "", Some(today), "")
  }

  /** A blank form reports all three messages, so it cannot be submitted as it is. */
  lemma BlankFails(kind: TxType, today: Date)
    ensures Issues(Blank(kind, today)) == [AmountMessage, CategoryMessage, DescriptionMessage]
    ensures !Passes(Blank(kind, today))
  {
  }

  /** The values after picking a type: the category is cleared, the rest kept. */
  function Toggled(v: FormValues, kind: TxType): (r: FormValues)
    ensures r.kind == kind && r.category == ""
    ensures r.amount == v.amount && r.date == v.date && r.description == v.description
  {
    v.(kind := kind, category := "")
  }

  /** After a toggle the form asks for a category again. */
  lemma ToggleAsksForCategory(v: FormValues, kind: TxType)
    ensures CategoryMessage in Issues(Toggled(v, kind)) && !Passes(Toggled(v, kind))
  {
  }

  /** The select's options for the current type. */
  function OfferedCategories(kind: TxType): (r: seq<string>)
    ensures Distinct(r) && OtherLabel in r
    ensures forall c :: c in r ==> c in CategoryUnion
  {
    LabelsDistinct();
    OtherInBothLists();
    LabelsHaveIcons();
    if kind == Expense then Categories else IncomeCategories
  }

  /** The calendar's `disabled` rule: after today, or before 1900-01-01. */
  predicate Disabled(d: Date, today: Date)
  {
    Before(today, d) || Before(d, FirstDay)
  }

  /** A day is selectable exactly when it lies from 1900-01-01 to today, both included. */
  lemma SelectableIff(d: Date, today: Date)
    ensures !Disabled(d, today) <==> NotAfter(FirstDay, d) && NotAfter(d, today)
  {
    BeforeTotal(today, d);
    BeforeTotal(d, FirstDay);
  }

  /** The day order is total: not after means before or the same day. */
  lemma BeforeTotal(a: Date, b: Date)
    ensures !Before(a, b) <==> NotAfter(b, a)
  {
  }

  class Form {
    var values: FormValues
    var transactionType: TxType
    var isLoading: bool

    /** The toggle's state and the form's `type` field agree. */
    ghost predicate Valid()
      reads this
    {
      values.kind == transactionType
    }

    constructor (today: Date)
      ensures Valid()
      ensures values == Blank(Expense, today) && transactionType == Expense && !isLoading
    {
      values := Blank(Expense, today);
      transactionType := Expense;
      isLoading := false;
    }

    /** `onValueChange` of the type toggle; an empty value (`None`) is ignored. */
    method Toggle(value: Option<TxType>)
      requires Valid()
      modifies this
      ensures Valid()
      ensures value.None? ==> values == old(values) && transactionType == old(transactionType)
      ensures value.Some? ==> values == Toggled(old(values), value.value) && transactionType == value.value
      ensures isLoading == old(isLoading)
    {
      if value.Some? {
        values := values.(kind := value.value);
        transactionType := value.value;
        values := values.(category := "");
      }
    }

    /** The fields' `onChange`: the user enters an amount, picks a category, selects or
        clears a day in the calendar and types a description; the type is left alone. */
    method Fill(amount: int, category: string, date: Option<Date>, description: string)
      requires Valid()
      modifies this
      ensures Valid()
      ensures values == FormValues(old(values.kind), amount, category, date, description)
      ensures transactionType == old(transactionType) && isLoading == old(isLoading)
    {
      values := values.(amount := amount, category := category, date := date,
                        description := description);
    }

    /** `form.handleSubmit(onSubmit)`: the handler runs only on values that pass;
        `saved` is how `addTransaction` came back and `now` is `new Date()`. */
    method Submit(saved: Outcome<()>, now: Date) returns (sent: Option<NewTransaction>)
      requires Valid()
      modifies this
      ensures Valid() && transactionType == old(transactionType)
      ensures !Passes(old(values)) ==>
        sent.None? && values == old(values) && isLoading == old(isLoading)
      ensures Passes(old(values)) ==> sent == Some(NewTransaction(old(values), now)) && !isLoading
      ensures Passes(old(values)) && saved.Succeeded? ==> values == Blank(transactionType, now)
      ensures Passes(old(values)) && saved.Failed? ==> values == old(values)
    {
      if !Passes(values) {
        return None;
      }
      isLoading := true;
      sent := Some(NewTransaction(values, now));
      if saved.Succeeded? {
        values := Blank(transactionType, now);
      }
      isLoading := false;
    }
  }
}
