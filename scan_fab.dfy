/** `ScanFab`: the camera button whose dialog scans a receipt and hands the result to
    the rest of the page through a `scanComplete` event and the tab switch. */
module ScanFab {
  import opened Ledger

  /** The tab `setActiveTab` selects after a scan. */
  const AddTransactionTab: string := "add_transaction"

  class Scanner {
    var openScanDialog: bool
    var isScanning: bool
    /** `null` until the camera has been asked, then whether it was granted. */
    var hasCameraPermission: Option<bool>
    /** The parent's active tab, which `setActiveTab` sets. */
    var activeTab: string
    /** The `detail` of every `scanComplete` event dispatched so far, in order. */
    var emitted: seq<Receipt>

    constructor (tab: string)
      ensures !openScanDialog && !isScanning && hasCameraPermission == None
      ensures activeTab == tab && emitted == []
    {
      openScanDialog := false;
      isScanning := false;
      hasCameraPermission := None;
      activeTab := tab;
      emitted := [];
    }

    /** The capture button is enabled (`!hasCameraPermission || isScanning` disables it). */
    predicate CaptureEnabled()
      reads this
    {
      hasCameraPermission == Some(true) && !isScanning
    }

    /** The dialog's `onOpenChange`, wired to `setOpenScanDialog`; the trigger opens it. */
    method OnOpenChange(open: bool)
      modifies this
      ensures openScanDialog == open
      ensures isScanning == old(isScanning) && hasCameraPermission == old(hasCameraPermission)
      ensures activeTab == old(activeTab) && emitted == old(emitted)
    {
      openScanDialog := open;
    }

    /** The camera effect: the camera is asked for only while the dialog is open;
        `granted` is how `getUserMedia` answered and `asked` whether it was called. */
    method CameraEffect(granted: bool) returns (asked: bool)
      modifies this
      ensures asked == openScanDialog
      ensures asked ==> hasCameraPermission == Some(granted)
      ensures !asked ==> hasCameraPermission == old(hasCameraPermission)
      ensures openScanDialog == old(openScanDialog) && isScanning == old(isScanning)
      ensures activeTab == old(activeTab) && emitted == old(emitted)
    {
      asked := openScanDialog;
      if asked {
        hasCameraPermission := Some(granted);
      }
    }

    /** `handleCaptureAndAnalyze`. `refsPresent` says whether the video and canvas are
        mounted, `hasContext` whether the canvas gives a 2D context, and `outcome` is how
        the extraction flow answered. `requested` says whether the flow was called. */
    method CaptureAndAnalyze(refsPresent: bool, hasContext: bool, outcome: Outcome<Receipt>)
      returns (requested: bool)
      modifies this
      ensures requested <==> refsPresent && hasContext
      ensures !refsPresent ==> isScanning == old(isScanning)
      ensures refsPresent && !hasContext ==> isScanning
      ensures requested ==> !isScanning
      ensures requested && outcome.Succeeded? ==>
                emitted == old(emitted) + [outcome.value] && activeTab == AddTransactionTab
                && !openScanDialog
      ensures !(requested && outcome.Succeeded?) ==>
                emitted == old(emitted) && activeTab == old(activeTab)
                && openScanDialog == old(openScanDialog)
      ensures hasCameraPermission == old(hasCameraPermission)
    {
      if !refsPresent {
        return false;
      }
      isScanning := true;
      if !hasContext {
        return false;
      }
      requested := true;
      if outcome.Succeeded? {
        emitted := emitted + [outcome.value];
        activeTab := AddTransactionTab;
        openScanDialog := false;
      }
      isScanning := false;
    }
  }

  /** A successful scan from a fresh page hands over exactly the scanned receipt, once,
      and leaves the dialog closed on the add-transaction tab. */
  method ScanOnce(tab: string, receipt: Receipt)
    returns (handed: seq<Receipt>, shownTab: string, open: bool)
    ensures handed == [receipt] && shownTab == AddTransactionTab && !open
  {
    var fab := new Scanner(tab);
    fab.OnOpenChange(true);
    var _ := fab.CameraEffect(true);
    var _ := fab.CaptureAndAnalyze(true, true, Succeeded(receipt));
    handed := fab.emitted;
    shownTab := fab.activeTab;
    open := fab.openScanDialog;
  }

  /** A failed scan keeps the dialog open on the same tab and lets the user try again. */
  method FailThenRetry(tab: string)
    returns (open: bool, shownTab: string, canRetry: bool)
    ensures open && shownTab == tab && canRetry
  {
    var fab := new Scanner(tab);
    fab.OnOpenChange(true);
    var _ := fab.CameraEffect(true);
    var _ := fab.CaptureAndAnalyze(true, true, Failed);
    open := fab.openScanDialog;
    shownTab := fab.activeTab;
    canRetry := fab.CaptureEnabled();
  }

  /** With the dialog closed the camera is never asked for. */
  method ClosedNeverAsks(granted: bool) returns (asked: bool, permission: Option<bool>)
    ensures !asked && permission == None
  {
    var fab := new Scanner(AddTransactionTab);
    asked := fab.CameraEffect(granted);
    permission := fab.hasCameraPermission;
  }
}
