/** The receipt scan dialog (src/components/transactions/ReceiptScanDialog.tsx):
    what it shows for the state of the upload and of the scan, the balance
    of the extracted line items against the transaction, and the lines it
    hands to the split dialog. */
module ReceiptDialog {
  import opened Common
  import opened Numbers
  import opened Ledger
  import opened SplitDialog

  /** The state of the upload mutation. */
  datatype UploadState = UploadIdle | UploadPending | UploadError | UploadDone

  /** The status the dialog displays. */
  datatype DisplayStatus = Idle | Uploading | OfScan(status: ScanStatus)

  /** `scan?.status ?? (uploadMutation.isPending ? "uploading" : "idle")`. */
  function Status(scan: Option<ReceiptScan>, upload: UploadState): DisplayStatus
  {
    if scan.Some? then OfScan(scan.value.status)
    else if upload == UploadPending then Uploading
    else Idle
  }

  /** The parts of the dialog that can be shown. */
  datatype Panel = DropZone | UploadFailed | Scanning | ScanFailedPanel | ResultsTable | NoItems

  /** The panels shown for a status, an upload state and the scan's items. */
  function Panels(status: DisplayStatus, upload: UploadState, items: seq<ReceiptLineItem>): set<Panel>
  {
    (if (status == Idle || status == Uploading) && upload != UploadError then {DropZone} else {})
    + (if upload == UploadError then {UploadFailed} else {})
    + (if status == OfScan(ScanPending) || status == OfScan(Processing) then {Scanning} else {})
    + (if status == OfScan(ScanFailed) then {ScanFailedPanel} else {})
    + (if status == OfScan(Completed) && |items| > 0 then {ResultsTable} else {})
    + (if status == OfScan(Completed) && |items| == 0 then {NoItems} else {})
  }

  /** The one panel a status selects. */
  function PanelFor(status: DisplayStatus, items: seq<ReceiptLineItem>): Panel
  {
    match status
    case Idle => DropZone
    case Uploading => DropZone
    case OfScan(s) =>
      match s
      case ScanPending => Scanning
      case Processing => Scanning
      case ScanFailed => ScanFailedPanel
      case Completed => if |items| > 0 then ResultsTable else NoItems
  }

  /** Without an upload error exactly one panel is shown, the one the
      status selects. */
  lemma OnePanelAtATime(status: DisplayStatus, upload: UploadState, items: seq<ReceiptLineItem>)
    requires upload != UploadError
    ensures Panels(status, upload, items) == {PanelFor(status, items)}
  {
  }

  /** The results table is shown exactly for a completed scan with items,
      the empty message exactly for a completed scan without, the scanning
      panel exactly while the scan is pending or processing. */
  lemma PanelsFollowScan(status: DisplayStatus, upload: UploadState, items: seq<ReceiptLineItem>)
    ensures ResultsTable in Panels(status, upload, items) <==> status == OfScan(Completed) && |items| > 0
    ensures NoItems in Panels(status, upload, items) <==> status == OfScan(Completed) && |items| == 0
    ensures Scanning in Panels(status, upload, items) <==> status == OfScan(ScanPending) || status == OfScan(Processing)
  {
  }

  /** The dialog's own state: the scan being watched and the upload. */
  datatype DialogState = DialogState(scanId: Option<string>, upload: UploadState)

  /** `handleRetry`. */
  function Retry(st: DialogState): DialogState
  {
    DialogState(None, UploadIdle)
  }

  /** The dialog's `onOpenChange`: closing clears the scan and resets the
      upload. */
  function OpenChange(st: DialogState, open: bool): DialogState
  {
    if open then st else DialogState(None, UploadIdle)
  }

  /** Retry and close leave the same state, from which the dialog shows the
      drop zone again. */
  lemma RetryIsClose(st: DialogState)
    ensures Retry(st) == OpenChange(st, false)
    ensures Retry(st).scanId.None? && Status(None, Retry(st).upload) == Idle
    ensures Panels(Status(None, Retry(st).upload), Retry(st).upload, []) == {DropZone}
  {
  }

  // ---------------------------------------------------------------------
  // Totals and the hand-over to the split dialog

  /** `lineItemsTotal`. */
  function ItemsTotal(items: seq<ReceiptLineItem>): int
  {
    if items == [] then 0 else ItemsTotal(items[..|items| - 1]) + items[|items| - 1].amount
  }

  /** "Balanced" is shown when the items add up to the transaction's
      absolute amount within a cent (`Math.abs(difference) < 0.01`). */
  predicate ShowsBalanced(t: Transaction, items: seq<ReceiptLineItem>)
  {
    Abs(Abs(t.amount) - ItemsTotal(items)) < 1
  }

  /** `handleSplit`'s lines: one per item, in order, with the item's name,
      its amount as text and its category id ("" when none). */
  function SplitLinesOf(items: seq<ReceiptLineItem>): (lines: seq<SplitLine>)
    ensures |lines| == |items|
  {
    seq(|items|, i requires 0 <= i < |items| =>
      SplitLine(items[i].name, Render(items[i].amount), if items[i].category_id.Some? then items[i].category_id.value else ""))
  }

  /** Each handed-over line reads back as its item: same name, an amount
      that parses to the item's amount, and the item's category id. */
  lemma SplitLinesReadBack(items: seq<ReceiptLineItem>, i: nat)
    requires i < |items|
    ensures var l := SplitLinesOf(items)[i];
      && l.name == items[i].name
      && ParseNumber(l.amount) == Some(items[i].amount) && LineValue(l) == items[i].amount
      && (l.categoryId == [] <==> items[i].category_id.None? || items[i].category_id == Some([]))
  {
    ParseRender(items[i].amount);
  }

  /** The split dialog totals the handed-over lines to the receipt total. */
  lemma {:induction false} SplitTotalOfItems(items: seq<ReceiptLineItem>)
    ensures SplitTotal(SplitLinesOf(items)) == ItemsTotal(items)
  {
    if items != [] {
      var init := items[..|items| - 1];
      SplitTotalOfItems(init);
      assert SplitLinesOf(items)[..|items| - 1] == SplitLinesOf(init);
      SplitLinesReadBack(items, |items| - 1);
    }
  }

  /** Both dialogs use the same sum and tolerance: the lines handed over
      from a receipt shown as Balanced make the split dialog balanced, and
      the split dialog starts with exactly those lines when there are any. */
  lemma BalancedReceiptSplitsBalanced(t: Transaction, items: seq<ReceiptLineItem>)
    requires ShowsBalanced(t, items)
    ensures IsBalanced(t, SplitLinesOf(items))
    ensures |items| > 0 ==> InitialLines(t, SplitLinesOf(items)) == SplitLinesOf(items)
  {
    SplitTotalOfItems(items);
  }
}
