/** `DashboardPage`: the live transaction list of the signed-in user, the loading
    flags and the redirect of signed-out visitors. */
module DashboardPage {
  import opened Seqs
  import opened Ledger

  /** A stored date field: a Firestore timestamp, or a value stored as it is. */
  datatype DateField = Timestamp(instant: Date) | Stored(value: Date)

  /** One snapshot document: its document id, the fields it holds (an `id` field
      among them only if one was written), and the transaction fields. */
  datatype Doc = Doc(docId: string, storedId: Option<string>, date: DateField,
                     description: string, category: string, amount: int, kind: TxType)

  /** `x?.toDate ? x.toDate().toISOString() : x`, where the ISO text names the same day. */
  function ConvertField(f: DateField): (r: Date)
    ensures f.Timestamp? ==> r == f.instant
    ensures f.Stored? ==> r == f.value
  {
    match f
    case Timestamp(instant) => instant
    case Stored(value) => value
  }

  /** `{ id: doc.id, ...data, date: … }`: a stored `id` field overrides the document id. */
  function ToTransaction(doc: Doc): (t: Transaction)
    ensures t.id == (if doc.storedId.Some? then doc.storedId.value else doc.docId)
    ensures t.date == ConvertField(doc.date)
    ensures (t.description, t.category, t.amount, t.kind) ==
      (doc.description, doc.category, doc.amount, doc.kind)
  {
    Transaction(if doc.storedId.Some? then doc.storedId.value else doc.docId,
                ConvertField(doc.date), doc.description, doc.category, doc.amount, doc.kind)
  }

  /** The `forEach`/`push` pass over the snapshot, in document order. */
  function Mapped(docs: seq<Doc>): (r: seq<Transaction>)
    ensures |r| == |docs|
    ensures forall i :: 0 <= i < |docs| ==> r[i] == ToTransaction(docs[i])
  {
    if docs == [] then [] else [ToTransaction(docs[0])] + Mapped(docs[1..])
  }

  /** The list after the client-side sort, newest day first; equal days keep
      document order, as `Array.prototype.sort` is stable. */
  function Listed(docs: seq<Doc>): seq<Transaction>
  {
    SortDesc(Mapped(docs), DayKey)
  }

  /** The redirect effect: signed-out visitors go to '/login' once auth has settled. */
  predicate ShouldRedirect(authLoading: bool, signedIn: bool)
  {
    !authLoading && !signedIn
  }

  class Page {
    var transactions: seq<Transaction>
    var isDataLoading: bool

    constructor ()
      ensures transactions == [] && isDataLoading
    {
      transactions := [];
      isDataLoading := true;
    }

    /** The spinner shows while auth or data is loading. */
    predicate ShowLoading(authLoading: bool)
      reads this
    {
      authLoading || isDataLoading
    }

    /** The user effect: a signed-in user starts a load; no user changes nothing. */
    method UserEffect(signedIn: bool)
      modifies this
      ensures transactions == old(transactions)
      ensures isDataLoading == (signedIn || old(isDataLoading))
    {
      if signedIn {
        isDataLoading := true;
      }
    }

    /** The snapshot listener. */
    method OnSnapshot(docs: seq<Doc>)
      modifies this
      ensures transactions == Listed(docs)
      ensures !isDataLoading && !ShowLoading(false)
    {
      var userTransactions: seq<Transaction> := [];
      var i := 0;
      while i < |docs|
        invariant 0 <= i <= |docs|
        invariant userTransactions == Mapped(docs[..i])
      {
        userTransactions := userTransactions + [ToTransaction(docs[i])];
        i := i + 1;
      }
      assert docs[..i] == docs;
      transactions := SortDesc(userTransactions, DayKey);
      isDataLoading := false;
    }

    /** The listener's error callback. */
    method OnSnapshotError()
      modifies this
      ensures transactions == old(transactions)
      ensures !isDataLoading
    {
      isDataLoading := false;
    }
  }

  /** A signed-out visitor is redirected and, the data flag never having been cleared,
      sees the spinner rather than the dashboard. */
  method SignedOutVisit() returns (redirect: bool, spinner: bool)
    ensures redirect && spinner
  {
    var page := new Page();
    page.UserEffect(false);
    redirect := ShouldRedirect(false, false);
    spinner := page.ShowLoading(false);
  }

  /** The list is newest first: on calendar days, no entry is earlier than one after it. */
  lemma ListedNewestFirst(docs: seq<Doc>)
    requires forall d :: d in docs ==> ValidDate(ConvertField(d.date))
    ensures forall i, j :: 0 <= i < j < |Listed(docs)| ==>
      NotAfter(Listed(docs)[j].date, Listed(docs)[i].date)
  {
    var r := Listed(docs);
    forall i, j | 0 <= i < j < |r| ensures NotAfter(r[j].date, r[i].date) {
      InPermutation(r, Mapped(docs), i);
      InPermutation(r, Mapped(docs), j);
      MappedValid(docs, r[i]);
      MappedValid(docs, r[j]);
      DayNumberOrder(r[j].date, r[i].date);
      assert DayKey(r[i]) >= DayKey(r[j]);
    }
  }

  lemma MappedValid(docs: seq<Doc>, t: Transaction)
    requires forall d :: d in docs ==> ValidDate(ConvertField(d.date))
    requires t in Mapped(docs)
    ensures ValidDate(t.date)
  {
    var i :| 0 <= i < |Mapped(docs)| && Mapped(docs)[i] == t;
    assert docs[i] in docs;
  }

  /** One entry per document: the list is a reordering of the mapped documents, and
      days tied in the sort keep document order. */
  lemma ListedPermutation(docs: seq<Doc>, day: int)
    ensures |Listed(docs)| == |docs|
    ensures multiset(Listed(docs)) == multiset(Mapped(docs))
    ensures WithKey(Listed(docs), DayKey, day) == WithKey(Mapped(docs), DayKey, day)
  {
    SortDescStable(Mapped(docs), DayKey, day);
  }

  /** Every entry comes from one document, and carries that document's id when no
      document stores an `id` field of its own. */
  lemma ListedFromDocs(docs: seq<Doc>, t: Transaction)
    requires t in Listed(docs)
    ensures exists d :: d in docs && t == ToTransaction(d)
    ensures (forall d :: d in docs ==> d.storedId.None?) ==>
      exists d :: d in docs && t == ToTransaction(d) && t.id == d.docId
  {
    var m := Mapped(docs);
    assert t in multiset(m);
    var i :| 0 <= i < |m| && m[i] == t;
    assert docs[i] in docs;
  }
}
