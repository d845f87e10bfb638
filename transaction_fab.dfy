/** `TransactionFab`: the floating action button, its three actions and the one dialog
    that shows either the receipt scanner or the transaction form. */
module TransactionFab {
  import opened Ledger
  import opened TransactionForm

  /** `'income' | 'expense' | 'scan'`, the non-null values of `dialogContent`. */
  datatype Content = IncomeForm | ExpenseForm | Scanner

  /** `setDialogContent(result.type)`: the dialog content, and with it the dialog's title,
      for the scanned type. The form inside does not read it (it starts as an expense). */
  function FormFor(kind: TxType): (c: Content)
    ensures c != Scanner
    ensures c == IncomeForm <==> kind == Income
    ensures c == ExpenseForm <==> kind == Expense
  {
    match kind
    case Income => IncomeForm
    case Expense => ExpenseForm
  }

  class Fab {
    var isFabOpen: bool
    var dialogContent: Option<Content>
    var scanResult: Option<Receipt>
    var isScanning: bool
    /** `null` until the camera has been asked, then whether it was granted. */
    var hasCameraPermission: Option<bool>

    constructor ()
      ensures !isFabOpen && dialogContent == None && scanResult == None && !isScanning
      ensures hasCameraPermission == None
    {
      isFabOpen := false;
      dialogContent := None;
      scanResult := None;
      isScanning := false;
      hasCameraPermission := None;
    }

    /** The dialog's `open` prop, `!!dialogContent`. */
    predicate DialogOpen()
      reads this
    {
      dialogContent.Some?
    }

    /** The capture button is enabled (`!hasCameraPermission || isScanning` disables it). */
    predicate CaptureEnabled()
      reads this
    {
      hasCameraPermission == Some(true) && !isScanning
    }

    /** `onDialogOpenChange`: closing clears the content and the scanned result. */
    method OnDialogOpenChange(open: bool)
      modifies this
      ensures !open ==> dialogContent == None && scanResult == None && !DialogOpen()
      ensures open ==> dialogContent == old(dialogContent) && scanResult == old(scanResult)
      ensures isFabOpen == old(isFabOpen) && isScanning == old(isScanning)
      ensures hasCameraPermission == old(hasCameraPermission)
    {
      if !open {
        dialogContent := None;
        scanResult := None;
      }
    }

    /** `handleFabClick`: open the chosen dialog and fold the menu away. */
    method HandleFabClick(content: Content)
      modifies this
      ensures dialogContent == Some(content) && DialogOpen() && !isFabOpen
      ensures scanResult == old(scanResult) && isScanning == old(isScanning)
      ensures hasCameraPermission == old(hasCameraPermission)
    {
      dialogContent := Some(content);
      isFabOpen := false;
    }

    /** The main button flips the menu. */
    method ToggleFab()
      modifies this
      ensures isFabOpen == !old(isFabOpen)
      ensures dialogContent == old(dialogContent) && scanResult == old(scanResult)
      ensures isScanning == old(isScanning) && hasCameraPermission == old(hasCameraPermission)
    {
      isFabOpen := !isFabOpen;
    }

    /** The camera effect: it asks only while the scanner is shown; `granted` is how
        `getUserMedia` answered. */
    method CameraEffect(granted: bool)
      modifies this
      ensures old(dialogContent) == Some(Scanner) ==> hasCameraPermission == Some(granted)
      ensures old(dialogContent) != Some(Scanner) ==> hasCameraPermission == old(hasCameraPermission)
      ensures isFabOpen == old(isFabOpen) && dialogContent == old(dialogContent)
      ensures scanResult == old(scanResult) && isScanning == old(isScanning)
    {
      if dialogContent == Some(Scanner) {
        hasCameraPermission := Some(granted);
      }
    }

    /** The `onFormSubmit` callback the dialog hands to the form: it clears the content
        directly, so the scanned result is kept. The form never calls it; the intended
        use is `AddThenCloses`. */
    method OnFormSubmit()
      modifies this
      ensures dialogContent == None && !DialogOpen() && scanResult == old(scanResult)
      ensures isFabOpen == old(isFabOpen) && isScanning == old(isScanning)
      ensures hasCameraPermission == old(hasCameraPermission)
    {
      dialogContent := None;
    }

    /** `handleCaptureAndAnalyze`. `refsPresent` says whether the video and canvas are
        mounted, `hasContext` whether the canvas gives a 2D context, and `outcome` is how
        the extraction flow answered. `requested` says whether the flow was called. */
    method CaptureAndAnalyze(refsPresent: bool, hasContext: bool, outcome: Outcome<Receipt>)
      returns (requested: bool)
      modifies this
      ensures requested <==> refsPresent && hasContext
      ensures !refsPresent ==>
                isScanning == old(isScanning) && dialogContent == old(dialogContent)
                && scanResult == old(scanResult)
      ensures refsPresent && !hasContext ==>
                isScanning && dialogContent == old(dialogContent) && scanResult == old(scanResult)
      ensures requested ==> !isScanning
      ensures requested && outcome.Succeeded? ==>
                scanResult == Some(outcome.value) && dialogContent == Some(FormFor(outcome.value.kind))
      ensures requested && outcome.Failed? ==>
                dialogContent == None && scanResult == old(scanResult)
      ensures isFabOpen == old(isFabOpen) && hasCameraPermission == old(hasCameraPermission)
    {
      if !refsPresent {
        return false;
      }
      isScanning := true;
      if !hasContext {
        return false;
      }
      requested := true;
      if outcome.Succeeded? {
        scanResult := Some(outcome.value);
        dialogContent := Some(FormFor(outcome.value.kind));
      } else {
        dialogContent := None;
      }
      isScanning := false;
    }
  }

  /** Scanning a receipt from a fresh page: the dialog content ends as the scanned type
      (the title of the form dialog) with the result at hand, and closing the dialog then
      forgets the result. */
  method ScanToForm(receipt: Receipt)
    returns (formShown: Option<Content>, resultShown: Option<Receipt>, afterClose: Option<Receipt>)
    ensures formShown == Some(FormFor(receipt.kind)) && resultShown == Some(receipt)
    ensures afterClose == None
  {
    var fab := new Fab();
    fab.ToggleFab();
    fab.HandleFabClick(Scanner);
    fab.CameraEffect(true);
    var _ := fab.CaptureAndAnalyze(true, true, Succeeded(receipt));
    formShown := fab.dialogContent;
    resultShown := fab.scanResult;
    fab.OnDialogOpenChange(false);
    afterClose := fab.scanResult;
  }

  /** A canvas without a 2D context leaves the scanner spinning and the capture button
      disabled, whatever the camera answered. */
  method StuckWithoutContext(outcome: Outcome<Receipt>, granted: bool)
    returns (spinning: bool, enabled: bool)
    ensures spinning && !enabled
  {
    var fab := new Fab();
    fab.HandleFabClick(Scanner);
    fab.CameraEffect(granted);
    var _ := fab.CaptureAndAnalyze(true, false, outcome);
    fab.CameraEffect(granted);
    spinning := fab.isScanning;
    enabled := fab.CaptureEnabled();
  }

  /** Adding from the dialog as the code is written: the form declares only
      `onTransactionAdded`, so the `onFormSubmit` it is handed is never called. Whatever the
      entry and however the save ends, the dialog stays on the form. */
  method AddAsWritten(kind: TxType, today: Date, now: Date, amount: int, category: string,
                      date: Option<Date>, description: string, saved: Outcome<()>)
    returns (sent: Option<NewTransaction>, stillOpen: bool)
    ensures sent.Some? <==> amount > 0 && category != "" && date.Some? && description != ""
    ensures stillOpen
  {
    var fab := new Fab();
    fab.HandleFabClick(FormFor(kind));
    var form := new Form(today);
    form.Fill(amount, category, date, description);
    PassesIff(form.values);
    sent := form.Submit(saved, now);
    stillOpen := fab.DialogOpen();
  }

  /** Adding from the dialog as intended: once the entry is saved the form calls
      `onFormSubmit`, which closes the dialog and keeps the scanned result; an entry that
      is rejected or not saved leaves the dialog open. */
  method AddThenCloses(kind: TxType, today: Date, now: Date, amount: int, category: string,
                       date: Option<Date>, description: string, saved: Outcome<()>)
    returns (sent: Option<NewTransaction>, stillOpen: bool)
    ensures sent.Some? <==> amount > 0 && category != "" && date.Some? && description != ""
    ensures stillOpen <==> sent.None? || saved.Failed?
  {
    var fab := new Fab();
    fab.HandleFabClick(FormFor(kind));
    var form := new Form(today);
    form.Fill(amount, category, date, description);
    PassesIff(form.values);
    sent := form.Submit(saved, now);
    if sent.Some? && saved.Succeeded? {
      fab.OnFormSubmit();
    }
    stillOpen := fab.DialogOpen();
  }
}
