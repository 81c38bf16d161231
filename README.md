# homebase ledger core in Dafny

This project models the transaction ingestion and reconciliation core of
homebase, a household finance ledger. Money comes into the ledger from
several sources:

- the incremental Plaid sync;
- CSV files and OFX/QFX bank statements;
- a scanned receipt that is split into child transactions;
- the AI batch classifier, which labels uncategorised rows.

The model also covers what is read back out of the ledger:

- the transaction queries (filtered pages, recent rows, deletion, cash flow);
- the account balance summary;
- the budgets page;
- the category tree;
- the spending donut's parent/child grouping;
- the month-over-month cumulative spending chart.

Amounts are integer cents. A positive amount is money out and a negative
amount is money in. Database tables are maps: the ledger is keyed by
`import_hash`, `plaid_transaction_id` or row id, as each path needs.
Everything the code asks of the outside world is a parameter of the model
and is never computed: Plaid's pages, the classifier's and vision model's
answers, the candidate query, and which database writes fail (the Plaid
upserts, deletes and cursor updates, the classifier's updates, the
receipt scan's status updates, and the file imports' inserts).

The modules follow the source files:

| module | file |
|---|---|
| `Common`, `Numbers` | JavaScript string, date and number built-ins (`toLowerCase`, `trim`, `split`, `padStart`, `parseFloat`, `String(n)`) |
| `Ledger` | the transaction row, the insert keyed by `import_hash`, and the import loop shared by the two file imports |
| `OfxParser` | `src/lib/ofx-parser.ts` |
| `CsvImport` | `src/components/transactions/CSVImportDialog.tsx` |
| `QfxImport` | `src/components/transactions/QFXImportDialog.tsx` |
| `PlaidSync` | `supabase/functions/plaid-sync-transactions/index.ts` |
| `AiClassify` | `supabase/functions/ai-classify-transactions/index.ts` |
| `ProcessReceipt` | `supabase/functions/process-receipt/index.ts` |
| `SplitDialog` | `src/components/transactions/SplitTransactionDialog.tsx` |
| `ReceiptDialog` | `src/components/transactions/ReceiptScanDialog.tsx` |
| `TransactionQueries` | `src/services/transactions.ts` |
| `AccountSummary` | `src/services/accounts.ts` |
| `Budgets` | `src/components/budgets/BudgetsPage.tsx` |
| `CategoryTree` | `src/hooks/useCategories.ts` |
| `SpendingDonut` | `src/components/charts/SpendingDonut.tsx` |
| `SpendingComparison` | `src/components/charts/SpendingComparison.tsx` |

Each source loop (`for`, `for…of` or `while`) becomes a method with a
`while` loop. It is either proved equal to a recursive function with the
same shape as the loop, with lemmas about that function stating what the
loop achieves, or characterised directly by its invariants. Pure expressions in the source
are functions.

### Observations about the code

Each point below is a plain reading of the code, with the lemma that
states it:

- **Plaid upsert and categories.** The upserts at
  `supabase/functions/plaid-sync-transactions/index.ts:187-201` and
  `:215-229` write `category_id` and `classified_by` on every call. A row
  the user classified gets the mapped category back, or none
  (`PlaidSync.UpsertReplacesClassification`).
- **Plaid upsert and AI confidence.** The same upserts do not name
  `ai_category_confidence`. A confidence the classifier stored survives
  the upsert that replaces its category (`PlaidSync.UpsertKeepsOtherColumns`).
- **Classifier update.** The candidate query at
  `supabase/functions/ai-classify-transactions/index.ts:106-108` keeps
  rows with no category whose `classified_by` is not `"user"`
  (`AiClassify.WindowExcludesUnclassified`). The update at `:202-210`
  filters only by id and household. A result that names any other row of
  the household, a user-classified one included, relabels it
  (`AiClassify.AiOverwritesUserClassification`).
- **CSV key amount.** The key at
  `src/components/transactions/CSVImportDialog.tsx:125` interpolates the
  parsed number, so it holds the amount in JavaScript's shortest form
  (`42.1`, not `42.10`). `Numbers.Render` prints numbers the same way.
- **CSV key separator.** The same key joins date, name and amount with
  `:`, and a date without `/` is kept as it is (`:116-123`). Two rows whose
  dates carry a time can then share a key though they differ, and the
  second is skipped as a duplicate (`CsvImport.ImportKeyColonCollision`).
  Dates without `:` never collide (`CsvImport.ImportKeyInjective`).
- **Ignored write errors.** The Plaid sync never reads the error of its
  upserts, deletes and cursor updates, and the receipt function never reads
  the error of its status updates. A failed write leaves the row as it was,
  and the code goes on as if it had landed: the Plaid counters and cursor
  move on, and the receipt reply is unchanged
  (`PlaidSync.FailedUpsertIsLost`, `ProcessReceipt.ReplyIgnoresFailedUpdate`).
  The classifier does read its update's error and counts it
  (`ai-classify-transactions/index.ts:212`).
- **Spending donut order.** Without a selected parent, the grouping depends
  on input order (see Findings).

## Model

| member | source | states |
|---|---|---|
| OfxParser.ParseOFX | src/lib/ofx-parser.ts:26-63 | the `exec` loop yields exactly the records of the `<STMTTRN>` blocks, in document order, skipping blocks without a record |
| OfxParser.TakeRecord | src/lib/ofx-parser.ts:44-59 | one loop turn appends the block's record, or nothing when the block is skipped |
| OfxParser.NextBlockIsFirst | src/lib/ofx-parser.ts:30-33 | the block found starts at the first opening tag (case-insensitive) and ends at the first closing tag after it (the lazy match) |
| OfxParser.NoBlockNoPair | src/lib/ofx-parser.ts:30-33 | when no block is found, no opening tag is followed by a closing tag |
| OfxParser.MatchesAtIsLowerEqual | src/lib/ofx-parser.ts:30 | the block regex's `i` flag: a tag matches exactly when the text equals it ignoring letter case |
| OfxParser.RecordsAtMostBlocks | src/lib/ofx-parser.ts:33-60 | there are never more records than blocks |
| OfxParser.RecordsComeFromBlocks | src/lib/ofx-parser.ts:33-60 | every record is the record of one of the blocks |
| OfxParser.BlockRecordKept | src/lib/ofx-parser.ts:44-60 | a block that yields a record keeps it in the output whatever the other blocks hold |
| OfxParser.FindTagIsFirst | src/lib/ofx-parser.ts:11-14 | the tag regex is matched at its first position with at least one value character; no earlier position matches |
| OfxParser.ExtractTagShape | src/lib/ofx-parser.ts:11-15 | a tag value holds no '<', CR or LF and has no surrounding white space |
| OfxParser.ExtractTagMissing | src/lib/ofx-parser.ts:14 | a tag that never matches yields the empty value |
| OfxParser.ValueRunIsLongest | src/lib/ofx-parser.ts:12 | the captured value is the longest run without '<', CR or LF |
| OfxParser.OfxDate | src/lib/ofx-parser.ts:17-24 | with at least eight digits the date is ten characters with dashes at positions 4 and 7 |
| OfxParser.OfxDateIsIsoDate | src/lib/ofx-parser.ts:17-24 | with at least eight digits the date reads `yyyy-mm-dd`: its year, month and day are the first eight digits of the raw value, in order |
| OfxParser.OfxDateOfTimestamp | src/lib/ofx-parser.ts:17-24 | a date starting with eight digits gives `yyyy-mm-dd` from those digits, whatever time and zone follow |
| OfxParser.KeepDigitsAppend | src/lib/ofx-parser.ts:19 | deleting non-digits distributes over concatenation |
| OfxParser.ToRecordFields | src/lib/ofx-parser.ts:36-59 | a block has a record exactly when FITID, DTPOSTED and TRNAMT are non-empty and TRNAMT parses; the record negates the amount, falls back from NAME to MEMO, and copies the other tags |
| CsvImport.FindColumnAgreesWithSet | src/components/transactions/CSVImportDialog.tsx:65-81 | the `colSet` membership test and the `find` agree: a column is found exactly when its lower-cased name is in the set |
| CsvImport.FindColumnIsFirst | src/components/transactions/CSVImportDialog.tsx:73-81 | `find` returns the first header that equals the wanted name ignoring case |
| CsvImport.Resolve | src/components/transactions/CSVImportDialog.tsx:72-82 | the installed mapping names the file's own headers, each equal to the preset's column ignoring case |
| CsvImport.DetectPreset | src/components/transactions/CSVImportDialog.tsx:64-85 | the first preset (Chase, then BoA, then Amex) whose three columns all occur wins; with none, the mapping is unchanged |
| CsvImport.NormaliseSlashDate | src/components/transactions/CSVImportDialog.tsx:117-123 | `m/d/y` becomes `y-mm-dd` with month and day padded to two digits |
| CsvImport.NormaliseMonthDay | src/components/transactions/CSVImportDialog.tsx:118-120 | `m/d` without a year becomes `undefined-mm-dd` |
| CsvImport.NormaliseExample | src/components/transactions/CSVImportDialog.tsx:116-120 | a worked illustration, not a general property: `3/1/2024` becomes `2024-03-01` (the general rule is `CsvImport.NormaliseSlashDate`) |
| CsvImport.NormaliseKeepsIsoDate | src/components/transactions/CSVImportDialog.tsx:121-123 | a date without '/' is kept verbatim |
| CsvImport.PrepareRowShape | src/components/transactions/CSVImportDialog.tsx:101-135 | a row is skipped exactly when a cell is empty or missing or the amount does not parse; otherwise it is a csv row of the household with its key as `import_hash` |
| CsvImport.ImportKeyInjective | src/components/transactions/CSVImportDialog.tsx:125 | when neither normalised date contains ':', two rows get the same key only when they agree on date, name and amount |
| CsvImport.ImportKeyColonCollision | src/components/transactions/CSVImportDialog.tsx:116-125 | a date with a ':' that `NormaliseDate` keeps as it is can trade its tail with the name: `2024-03-01T10:00`/`X` and `2024-03-01T10`/`00:X` get the same key at the same amount |
| CsvImport.ImportRow | src/components/transactions/CSVImportDialog.tsx:101-139 | one loop turn skips or inserts exactly as the row's preparation says |
| CsvImport.ImportRows | src/components/transactions/CSVImportDialog.tsx:100-140 | the row loop is the import fold over the prepared rows |
| CsvImport.HandleImport | src/components/transactions/CSVImportDialog.tsx:92-150 | nothing happens without a complete mapping and a household; otherwise every row is counted once as imported or skipped, and classification follows only when a row was imported and the household asks for it |
| CsvImport.CsvImportAddsCsvRows | src/components/transactions/CSVImportDialog.tsx:100-140 | an import never changes an existing row, and every row it adds is a csv row of the household stored under its own key |
| QfxImport.OfxKeyInjective | src/components/transactions/QFXImportDialog.tsx:70 | distinct FITIDs give distinct keys |
| QfxImport.HandleImport | src/components/transactions/QFXImportDialog.tsx:55-86 | nothing happens without a household or transactions; otherwise every transaction is counted once, and classification follows as for CSV |
| QfxImport.QfxImportAddsOfxRows | src/components/transactions/QFXImportDialog.tsx:62-76 | an import never changes an existing row, and every added row is an ofx row of the household under `ofx:` plus the FITID of a parsed transaction with that transaction's name, amount and date |
| Ledger.NewTransaction | src/components/transactions/CSVImportDialog.tsx:127-135 | an inserted row carries the named columns, and every other column takes its default |
| Ledger.InsertByImportHash | src/components/transactions/CSVImportDialog.tsx:127-139 | an insert succeeds exactly when the call does not fail and the key is new; a failed insert changes nothing |
| Ledger.Attempt | src/components/transactions/QFXImportDialog.tsx:63-75 | each attempt adds one to exactly one counter, keeps every existing row, adds at most the offered row, and leaves the key stored unless the call failed |
| Ledger.ApplyCounts | src/components/transactions/CSVImportDialog.tsx:100-140 | imported plus skipped grows by the number of rows offered |
| Ledger.ApplyOnlyAdds | src/components/transactions/QFXImportDialog.tsx:62-76 | the import loop never changes or removes a row, and every row it adds is an offered row under its own key |
| Ledger.ApplyStoresKeys | src/components/transactions/CSVImportDialog.tsx:100-140 | after the loop, the key of every row whose call did not fail is stored |
| Ledger.ApplyOverStoredKeys | src/components/transactions/CSVImportDialog.tsx:100-140 | when every key is already stored, the loop imports nothing, skips every row, and leaves the ledger as it was |
| Ledger.ReapplyAddsNothing | src/components/transactions/QFXImportDialog.tsx:62-76 | re-importing the same rows after a clean pass adds nothing and counts every row as skipped (re-import idempotence) |
| Ledger.CategoryByLowerNameEntries | supabase/functions/ai-classify-transactions/index.ts:99 | a lower-cased name is in the lookup exactly when some category's name folds to it, and it maps to the id of the last such category, as `new Map` keeps the last entry for a key |
| PlaidSync.CategoryByNameKeys | supabase/functions/plaid-sync-transactions/index.ts:122-124 | the lookup has a key exactly for the names of the categories |
| PlaidSync.CategoryByNameFromCategories | supabase/functions/plaid-sync-transactions/index.ts:122-124 | every entry pairs a category's name with that category's id |
| PlaidSync.CategoryByNameLastWins | supabase/functions/plaid-sync-transactions/index.ts:122-124 | a repeated name maps to the last category carrying it |
| PlaidSync.AccountIdMapFromAccounts | supabase/functions/plaid-sync-transactions/index.ts:132-136 | every entry comes from an account with that non-empty Plaid account id |
| PlaidSync.CategoryForNamesCategory | supabase/functions/plaid-sync-transactions/index.ts:179-184 | a transaction gets a category exactly when its primary category maps to a name a household category carries, and then that category's id |
| PlaidSync.UpsertReplacesClassification | supabase/functions/plaid-sync-transactions/index.ts:187-201 | the upsert overwrites category and provenance, including a user's choice; provenance is "plaid" exactly when a category was set |
| PlaidSync.UpsertKeepsOtherColumns | supabase/functions/plaid-sync-transactions/index.ts:187-201 | columns the upsert does not name survive it: notes, AI confidence, split flags, import hash |
| PlaidSync.UpsertedAbsorbs | supabase/functions/plaid-sync-transactions/index.ts:215-229 | a second upsert of the same id gives what the second alone would give |
| PlaidSync.ApplyPageAt | supabase/functions/plaid-sync-transactions/index.ts:178-240 | after a page whose writes all land, an id is gone when removed, and otherwise holds its last added, then last modified, upsert over the old row |
| PlaidSync.ApplyPageIdempotent | supabase/functions/plaid-sync-transactions/index.ts:178-240 | applying the same page twice, every write landing, leaves the ledger of applying it once |
| PlaidSync.ProcessPage | supabase/functions/plaid-sync-transactions/index.ts:178-240 | the three loops of a page issue its added, modified and removed writes in order; a write that fails leaves the ledger as it was and the loop goes on |
| PlaidSync.UpsertItems | supabase/functions/plaid-sync-transactions/index.ts:178-231 | the added loop, and the modified loop, perform one upsert per item, numbered on from the writes before them, skipping those that fail |
| PlaidSync.DeleteItems | supabase/functions/plaid-sync-transactions/index.ts:234-240 | the removed loop performs the page's last writes, one delete per removed id, skipping those that fail |
| PlaidSync.PutsRow | supabase/functions/plaid-sync-transactions/index.ts:178-231 | when every upsert of a list lands, an id's row ends as the upsert of its last item over the row that was there, or is untouched when no item has that id |
| PlaidSync.DeletesRow | supabase/functions/plaid-sync-transactions/index.ts:234-240 | when every delete lands, a removed id has no row and every other row is as it was |
| PlaidSync.WritesAppend | supabase/functions/plaid-sync-transactions/index.ts:178-240 | the writes of the three loops, run one loop after another, are the page's writes in order, each loop numbering its writes on from the last |
| PlaidSync.ProcessAnswer | supabase/functions/plaid-sync-transactions/index.ts:177-240 | one successful answer takes the ledger of `k` answers to the ledger of `k + 1`, with that answer's failed writes left out |
| PlaidSync.RunPages | supabase/functions/plaid-sync-transactions/index.ts:138-250 | the page loop ends as the run function says whatever the writes do; the ledger holds exactly the writes that landed of the pages it applied; the stored cursor is the last one whose update landed, and the one in memory when none failed |
| PlaidSync.SyncTransactions | supabase/functions/plaid-sync-transactions/index.ts:122-250 | the sync from its lookups to its result, ledger and stored cursor, with `PLAID_CATEGORY_MAP` as the category map |
| PlaidSync.SyncStep | supabase/functions/plaid-sync-transactions/index.ts:144-250 | a failed page ends the run with the request recorded, a page with more continues, and the last page ends it |
| PlaidSync.LedgerAfterSplit | supabase/functions/plaid-sync-transactions/index.ts:144-250 | applying `k + m` answers is applying `k` and then the next `m` |
| PlaidSync.LedgerAfterPrefix | supabase/functions/plaid-sync-transactions/index.ts:144-250 | the ledger depends only on the answers actually applied |
| PlaidSync.RequestsCarryStoredCursor | supabase/functions/plaid-sync-transactions/index.ts:138-153 | the first request carries the stored cursor, omitted when null or empty |
| PlaidSync.SyncReadsPagesInOrder | supabase/functions/plaid-sync-transactions/index.ts:144-250 | one request per page read, in order, stopping at the first failed page or the first page without `has_more`; every page read is applied except a failed one |
| PlaidSync.SyncCounts | supabase/functions/plaid-sync-transactions/index.ts:202-239 | the counters grow by the item counts of the pages read, whether or not rows existed |
| PlaidSync.SyncSkipsPrefix | supabase/functions/plaid-sync-transactions/index.ts:144-250 | a run is its first `k` successful pages followed by the rest |
| PlaidSync.ResumeAfterFailure | supabase/functions/plaid-sync-transactions/index.ts:164-249 | after a failure at request `k`, a run resumed from the cursor the failed run held (the stored one when its cursor updates landed) ends like an uninterrupted run; the counts of the two runs add up, and the failed request is resent |
| PlaidSync.ResumedLedgerMatches | supabase/functions/plaid-sync-transactions/index.ts:164-249 | the resumed run over the ledger the failed run left gives the uninterrupted run's ledger, when each page meets the same write failures in both; with none failing, resuming loses nothing |
| PlaidSync.LedgerResumes | supabase/functions/plaid-sync-transactions/index.ts:144-250 | applying the first `k` answers of a cut-short run and then the pages from `k` on is applying the whole run |
| PlaidSync.FailedUpsertIsLost | supabase/functions/plaid-sync-transactions/index.ts:187-249 | an upsert that fails is still counted and its page's cursor still stored, and the ledger lacks the row it would hold had the write landed |
| AiClassify.FilterReadingsDiffer | supabase/functions/ai-classify-transactions/index.ts:108 | the SQL and the null-tolerant readings of `neq` differ exactly on unclassified rows |
| AiClassify.WindowExcludesUnclassified | supabase/functions/ai-classify-transactions/index.ts:103-110 | no row the user classified, and no unclassified row, is a candidate |
| AiClassify.BatchSlicesCover | supabase/functions/ai-classify-transactions/index.ts:134-135 | the batches are consecutive, hold 1 to 50 rows each, and together are the window in order |
| AiClassify.BatchLenIsSlice | supabase/functions/ai-classify-transactions/index.ts:134-135 | the batch the loop processes at offset `i + 50 b` is slice `b` of the window, of `BatchLen` ids |
| AiClassify.RoundHundredthsNear | supabase/functions/ai-classify-transactions/index.ts:207 | `Math.round(c * 100)` is within half a hundredth and maps [0, 1] into 0..100 |
| AiClassify.ClassifyTransactions | supabase/functions/ai-classify-transactions/index.ts:92-230 | no categories, or no candidates, returns zero counters without a call; a query error fails; otherwise the batches are folded in order |
| AiClassify.ResultsCountsGrow | supabase/functions/ai-classify-transactions/index.ts:195-222 | the counters only grow within a batch |
| AiClassify.BatchesCountsGrow | supabase/functions/ai-classify-transactions/index.ts:134-223 | the counters only grow across batches |
| AiClassify.ResultsTotal | supabase/functions/ai-classify-transactions/index.ts:195-222 | each result before a throw adds one to exactly one counter; a throw adds the batch size to the errors |
| AiClassify.UnknownCategorySkipped | supabase/functions/ai-classify-transactions/index.ts:196-200 | a result naming no household category, ignoring case, only counts as skipped |
| AiClassify.ResultsOnlyRelabel | supabase/functions/ai-classify-transactions/index.ts:202-217 | a batch changes rows only by setting a household category, "ai" and a confidence on household rows |
| AiClassify.BatchesOnlyRelabel | supabase/functions/ai-classify-transactions/index.ts:134-223 | the whole run adds and removes no row and changes rows only by relabelling |
| AiClassify.AiOverwritesUserClassification | supabase/functions/ai-classify-transactions/index.ts:202-210 | a result that names a user-classified row with a known category relabels it as "ai" |
| ProcessReceipt.MediaTypeOfExtension | supabase/functions/process-receipt/index.ts:137-148 | the media type follows the path's last extension in any letter case |
| ProcessReceipt.MapItems | supabase/functions/process-receipt/index.ts:251-265 | mapping succeeds exactly when every item has a category, and keeps the number of items |
| ProcessReceipt.MapItemsMatchCategories | supabase/functions/process-receipt/index.ts:251-265 | each stored item copies its raw item; its category id is a household category matching ignoring case, or none exactly when none matches |
| ProcessReceipt.HouseholdCategories | supabase/functions/process-receipt/index.ts:150-159 | exactly the household's categories are offered |
| ProcessReceipt.HouseholdCategoriesKeepOrder | supabase/functions/process-receipt/index.ts:150-156 | the offered categories, and so the names in the prompt, keep the table's row order |
| ProcessReceipt.HandleRequest | supabase/functions/process-receipt/index.ts:12-293 | each rejection (401, 500, 401, 400, 403, 404), in the order checked, writes nothing; an admitted request processes the scan along a path of the status machine |
| ProcessReceipt.ProcessScan | supabase/functions/process-receipt/index.ts:99-286 | the scan is sent "processing" and then at most one terminal status that the reply carries; the row holds the last status sent when both updates land, and an update that fails changes nothing; nothing else changes |
| ProcessReceipt.ReplyIgnoresFailedUpdate | supabase/functions/process-receipt/index.ts:269-286 | when the final update fails, the reply still reports "completed" or "failed" while the scan stays "processing" |
| ProcessReceipt.HandlerWritesPath | supabase/functions/process-receipt/index.ts:99-103 | "processing" followed by at most one of completed or failed is a legal status path from any stored status; it holds for every start because the handler never reads the stored status before writing "processing" |
| SplitDialog.InitialLinesBalanced | src/components/transactions/SplitTransactionDialog.tsx:45-66 | the default two lines are balanced: the first reads back as the parent's absolute amount |
| SplitDialog.EmptyAmountIsZero | src/components/transactions/SplitTransactionDialog.tsx:62 | an empty amount counts as zero |
| SplitDialog.SplitTotalAppend | src/components/transactions/SplitTransactionDialog.tsx:61-64 | the total of one more line is the old total plus its value |
| SplitDialog.AddLineKeepsTotal | src/components/transactions/SplitTransactionDialog.tsx:68-70 | adding a line keeps every line and the total |
| SplitDialog.RemoveLineDrops | src/components/transactions/SplitTransactionDialog.tsx:72-75 | removing drops exactly the indexed line, never below two lines |
| SplitDialog.UpdateLine | src/components/transactions/SplitTransactionDialog.tsx:77-81 | only the indexed line changes, by the named field |
| SplitDialog.SetFieldOnlyNamed | src/components/transactions/SplitTransactionDialog.tsx:79 | an update changes the named field only |
| SplitDialog.CreateChild | src/components/transactions/SplitTransactionDialog.tsx:96-110 | a line whose amount is NaN or zero creates nothing, and any other line inserts its child |
| SplitDialog.HandleSplit | src/components/transactions/SplitTransactionDialog.tsx:83-111 | nothing unless balanced with a household; otherwise the parent is marked split, then one child is created per non-zero line, in order |
| SplitDialog.ChildrenSum | src/components/transactions/SplitTransactionDialog.tsx:95-103 | the children's amounts add up to the lines' total with the parent's sign |
| SplitDialog.BalancedChildrenMatchParent | src/components/transactions/SplitTransactionDialog.tsx:95-103 | a balanced split's children add up to the parent's amount within a cent |
| SplitDialog.ChildrenOfParent | src/components/transactions/SplitTransactionDialog.tsx:100-110 | every child points at the parent, is not split, and copies the parent's date, account and source; its amount is a line's non-zero value with the parent's sign |
| SplitDialog.IdleLinesCreateNothing | src/components/transactions/SplitTransactionDialog.tsx:97-98 | lines with zero or non-numeric amounts create no child |
| ReceiptDialog.OnePanelAtATime | src/components/transactions/ReceiptScanDialog.tsx:100-264 | without an upload error exactly one panel is shown |
| ReceiptDialog.PanelsFollowScan | src/components/transactions/ReceiptScanDialog.tsx:100-264 | results only for a completed scan with items, the empty message only without items, the spinner only while pending or processing |
| ReceiptDialog.RetryIsClose | src/components/transactions/ReceiptScanDialog.tsx:61-89 | retry and close leave the same state, back at the drop zone |
| ReceiptDialog.SplitLinesOf | src/components/transactions/ReceiptScanDialog.tsx:66-74 | one split line per item |
| ReceiptDialog.SplitLinesReadBack | src/components/transactions/ReceiptScanDialog.tsx:66-74 | each handed-over line reads back as its item's name, amount and category |
| ReceiptDialog.SplitTotalOfItems | src/components/transactions/ReceiptScanDialog.tsx:76 | the split dialog totals the handed-over lines to the receipt total |
| ReceiptDialog.BalancedReceiptSplitsBalanced | src/components/transactions/ReceiptScanDialog.tsx:242-249 | a receipt shown as balanced gives a balanced split, which starts with exactly the handed-over lines |
| Numbers.ParseRender | src/components/transactions/ReceiptScanDialog.tsx:69 | `parseFloat(String(amount))` gives the amount back |
| Numbers.RenderInjective | src/components/transactions/CSVImportDialog.tsx:125 | distinct amounts print differently |
| Numbers.FractionText | src/components/transactions/SplitTransactionDialog.tsx:49 | the printed fraction has at most two digits, is empty for whole amounts, and reads back as the cents |
| Numbers.DigitRunIsLongest | src/components/transactions/CSVImportDialog.tsx:110 | `parseFloat` reads the longest run of digits |
| Numbers.NatToStringValue | src/components/transactions/CSVImportDialog.tsx:125 | the printed digits denote the number |
| TransactionQueries.BuildConditions | src/services/transactions.ts:16-39 | a row satisfies the accumulated conditions exactly when it matches the filters |
| TransactionQueries.BuildQuery | src/services/transactions.ts:15-45 | the built query matches exactly the filtered rows; a limit and offset are set only when given, with range offset..offset+(limit or 50)-1 |
| TransactionQueries.GetTransactions | src/services/transactions.ts:15-50 | the count is the number of matches, and the data is the page of the matches, newest first |
| TransactionQueries.NewestFirstSorts | src/services/transactions.ts:21 | ordering by date descending sorts and is a permutation |
| TransactionQueries.SelectMatching | src/services/transactions.ts:16-45 | running the built conditions selects exactly the matching rows, in order |
| TransactionQueries.PageOfMatches | src/services/transactions.ts:15-50 | a page holds only matching rows, newest first, and without limit or offset every match exactly once |
| TransactionQueries.PageSorted | src/services/transactions.ts:40-45 | cutting a page keeps the date order |
| TransactionQueries.PageSize | src/services/transactions.ts:40-45 | the page size is the limit (default 50) from the offset, clipped to the matches |
| TransactionQueries.RecentIsFirstPage | src/services/transactions.ts:52-66 | the recent list is the first page of an unfiltered query with the same limit; a limit of 0 gives nothing |
| TransactionQueries.DeleteTransactions | src/services/transactions.ts:94-100 | exactly the listed ids go; every other row stays unchanged |
| TransactionQueries.DeleteInSteps | src/services/transactions.ts:94-100 | deleting in two steps is deleting once, and repeated ids change nothing |
| TransactionQueries.SidesPartition | src/services/transactions.ts:131-136 | income plus expenses is the total magnitude, and income less expenses is minus the signed total |
| TransactionQueries.CashFlowMeaning | src/services/transactions.ts:116-139 | both totals are non-negative, and net is income less expenses, i.e. minus the signed total of the selected rows |
| TransactionQueries.CashFlowIgnoresOtherRows | src/services/transactions.ts:121-127 | a row of another household, a split parent or a row outside the period changes nothing |
| TransactionQueries.CashFlowAdds | src/services/transactions.ts:116-139 | the cash flow of two batches of rows is the sum of theirs |
| AccountSummary.GetAccountBalanceSummary | src/services/accounts.ts:44-86 | each bucket is the sum over the visible accounts of its types, and net worth is assets less credit |
| AccountSummary.Visible | src/services/accounts.ts:45-49 | exactly the household's accounts that are not hidden are read |
| AccountSummary.BucketsPartition | src/services/accounts.ts:62-80 | every account lands in exactly one bucket |
| AccountSummary.NetWorthMeaning | src/services/accounts.ts:82-83 | net worth is the total balance less twice the credit, and zero without accounts |
| AccountSummary.OnlyVisibleAccountsCount | src/services/accounts.ts:45-49 | a hidden account or another household's account changes no bucket |
| Budgets.Spent | src/components/budgets/BudgetsPage.tsx:50-52 | spent is the magnitude of the category's first spending row, or zero |
| Budgets.RowOf | src/components/budgets/BudgetsPage.tsx:49-57 | remaining plus spent is the budgeted amount |
| Budgets.BudgetRows | src/components/budgets/BudgetsPage.tsx:49-57 | one row per budget, in order |
| Budgets.ProgressInRange | src/components/budgets/BudgetsPage.tsx:53-166 | the share is never negative and the bar stays within 0..100 |
| Budgets.OverBudgetMeaning | src/components/budgets/BudgetsPage.tsx:130 | over budget exactly when nothing remains, and, with a positive budget, exactly when more than 100% is used |
| Budgets.PctAboveHundred | src/components/budgets/BudgetsPage.tsx:53 | over 100% exactly when more than the amount is spent |
| Budgets.BarThresholds | src/components/budgets/BudgetsPage.tsx:169-174 | the colour is expense past 100%, yellow above 75% up to 100%, and income otherwise |
| Budgets.BarWithoutAmount | src/components/budgets/BudgetsPage.tsx:53 | without a positive budget the share is 0, and the bar is expense exactly when spending exceeds the amount |
| Budgets.RemainingCardAddsUp | src/components/budgets/BudgetsPage.tsx:59-94 | budgeted less spent is the sum of what remains of each budget |
| Budgets.TotalSpentNonNegative | src/components/budgets/BudgetsPage.tsx:258-260 | total spent is non-negative, and without budgets everything is zero |
| Budgets.OverallOverBudget | src/components/budgets/BudgetsPage.tsx:249-255 | when the page is over budget, some budget is |
| CategoryTree.Roots | src/hooks/useCategories.ts:33 | the roots are exactly the categories without a parent |
| CategoryTree.ChildrenByParentMeaning | src/hooks/useCategories.ts:36-42 | each list holds exactly the parent's children, in order, and keys are exactly the parents named |
| CategoryTree.UseCategoryTree | src/hooks/useCategories.ts:27-49 | the loop builds the tree function's tree |
| CategoryTree.TreeShape | src/hooks/useCategories.ts:44-47 | one node per root, in order, each listing exactly the categories naming it as parent |
| CategoryTree.OrphansLeftOut | src/hooks/useCategories.ts:44-47 | a category whose parent is not a root appears in no node |
| CategoryTree.InExactlyOneList | src/hooks/useCategories.ts:36-42 | a child sits in exactly one list, its parent's |
| CategoryTree.ChildrenKeepOrder | src/hooks/useCategories.ts:38-40 | children lists keep the input order |
| SpendingDonut.GroupSpendingByParent | src/components/charts/SpendingDonut.tsx:46-94 | the function's three phases compute the grouping function |
| SpendingDonut.CollectEntries | src/components/charts/SpendingDonut.tsx:61-81 | the first loop fills the parent entries and child totals |
| SpendingDonut.MergeChildTotals | src/components/charts/SpendingDonut.tsx:84-89 | the merge loop adds each child total into its parent's entry |
| SpendingDonut.ChildrenOf | src/components/charts/SpendingDonut.tsx:52-53 | the drill-down holds exactly the selected parent's children |
| SpendingDonut.HasChildrenIffDrillDown | src/components/charts/SpendingDonut.tsx:97-99 | `hasChildren` holds exactly when drilling down shows something |
| SpendingDonut.ByMagnitudeSorts | src/components/charts/SpendingDonut.tsx:91-93 | sorting by magnitude orders largest first and is a permutation |
| SpendingDonut.GroupedOrder | src/components/charts/SpendingDonut.tsx:50-93 | both branches are largest first; the grouping drops zero totals, and the drill-down is a permutation of the children |
| SpendingDonut.GatherParents | src/components/charts/SpendingDonut.tsx:61-81 | a category gets an entry exactly when an item refers to it, built from the first reference |
| SpendingDonut.GatherChildTotals | src/components/charts/SpendingDonut.tsx:68-72 | the child total of a parent is the sum over its children |
| SpendingDonut.GroupedEntry | src/components/charts/SpendingDonut.tsx:61-93 | the entry of a category is its first reference's entry plus its children's totals |
| SpendingDonut.EntryShown | src/components/charts/SpendingDonut.tsx:91-93 | an entry with a non-zero total is shown |
| SpendingDonut.OrphanChildrenDropped | src/components/charts/SpendingDonut.tsx:74-89 | the children of a parent missing from the data add to no entry |
| SpendingDonut.ParentFirst | src/components/charts/SpendingDonut.tsx:61-89 | a parent listed before its child shows its own plus its child's spending |
| SpendingDonut.ChildFirst | src/components/charts/SpendingDonut.tsx:61-81 | a parent listed after its child loses its own spending |
| SpendingDonut.CorrectedEntry | src/components/charts/SpendingDonut.tsx:61-81 | corrected grouping: a category's entry is its first top-level item plus all its children, wherever they stand |
| SpendingComparison.BuildCumulativeSeries | src/components/charts/SpendingComparison.tsx:24-41 | the two loops compute the cumulative map of the per-day sums |
| SpendingComparison.ByDayMeaning | src/components/charts/SpendingComparison.tsx:28-32 | the per-day entry is the sum of that day's amounts |
| SpendingComparison.CumulativeKeys | src/components/charts/SpendingComparison.tsx:34-40 | the keys are exactly the days 1..daysInMonth |
| SpendingComparison.RunningMeaning | src/components/charts/SpendingComparison.tsx:34-40 | the running sum at `d` is spending on days 1..d |
| SpendingComparison.SeriesMeaning | src/components/charts/SpendingComparison.tsx:34-40 | the series at `d` is spending up to `d` inside the month, and 0 outside |
| SpendingComparison.LateAmountsIgnored | src/components/charts/SpendingComparison.tsx:36-38 | amounts on days past the month's length never contribute |
| SpendingComparison.RunningGrows | src/components/charts/SpendingComparison.tsx:34-40 | with non-negative amounts the series never decreases |
| SpendingComparison.ChartPoints | src/components/charts/SpendingComparison.tsx:60-73 | one point per day 1..maxDays |
| SpendingComparison.Chart | src/components/charts/SpendingComparison.tsx:56-73 | the chart has max(current, previous) days of points over the two series |
| SpendingComparison.PointMeaning | src/components/charts/SpendingComparison.tsx:63-71 | the previous value is spending up to the day; the current value is absent exactly after today |
| SpendingComparison.PreviousDropsToZero | src/components/charts/SpendingComparison.tsx:71 | a 30-day previous month drops from 100 to 0 on day 31 |
| SpendingComparison.HeldPreviousGrows | src/components/charts/SpendingComparison.tsx:71 | corrected: a month held at its total never decreases across the chart and ends on its total |

## Left out

- HTTP plumbing in the three edge functions is not modelled: CORS, the `OPTIONS` preflight and the response headers.
- The authentication, item lookup and membership steps before the sync loop (`plaid-sync-transactions/index.ts:40-114`) are not modelled. The same steps are modelled once, in `ProcessReceipt.HandleRequest`.
- The same steps before the classify body are also not modelled (`ai-classify-transactions/index.ts:1-91`).
- The account balance refresh after the Plaid sync (`plaid-sync-transactions/index.ts:252-275`) is not modelled. It only updates account balances, never transactions, and its failure is ignored.
- The classifier's and vision model's prompts and request bodies are not modelled. Their answers are parameters, as are Plaid's pages, the candidate query and which database writes fail.
- PlaidSync.ResumeAfterFailure: the resumed run starts from the cursor the failed run held in memory. That is the stored cursor only when the failed run's cursor updates landed (`PlaidSync.RunPages`). After a failed cursor update the stored cursor is older, and Plaid's answer to an older cursor is outside the model.
- PlaidSync.FailedUpsertIsLost: that a later run never sees the item again is a property of Plaid's cursor, which the model does not have. The lemma shows the missing row and the stored cursor that has moved past it.
- Base64 encoding of the downloaded receipt is not modelled.
- Amounts are integer cents, not floating point.
- Numbers.ParseNumber keeps two fraction digits and drops the rest, and it reads no exponent, `Infinity` or hexadecimal form. Sub-cent amounts, which the source's `parseFloat` keeps, are outside the model.
- Sums of amounts are exact in cents, where JavaScript adds binary floating-point values. The `< 0.01` tolerance of both dialogs is modelled as "less than one cent".
- Common.Lower folds ASCII letters only. JavaScript's `toLowerCase` also folds non-ASCII letters.
- Common.Trim drops ASCII white space and U+00A0 (the no-break space) only. JavaScript's `trim` also drops the other Unicode spaces and line terminators.
- TransactionQueries.Like reads the search text literally. The `%` and `_` wildcards of `ilike` inside the search text are not modelled.
- Rows with equal dates are ordered by insertion into the sorted list. Postgres's order for such ties is unspecified, and so is the tie order of the JavaScript sorts.
- Database errors thrown by the query services (`if (error) throw error`) are not modelled; the queries are total.
- The import paths treat any failed insert as skipped. The model assumes a unique constraint on `import_hash`, because the schema is not part of this model.
- The Plaid upserts use `onConflict: "plaid_transaction_id"` (`supabase/functions/plaid-sync-transactions/index.ts:187-201`, `:215-229`). The model keys the Plaid table by that column, which assumes a unique constraint on it, for the same reason.
- AiClassify reads `.neq("classified_by", "user")` with SQL semantics, where NULL does not pass. The other reading is stated by `AiClassify.FilterReadingsDiffer`.
- SpendingComparison.DayOf reads the day of a `yyyy-mm-dd` date. Other date formats, which `parseISO` would read differently or as an invalid date (a NaN key), are not modelled.
- The CSV file parser (Papa Parse) and reading the file text are not modelled. Rows are maps from header to cell, and the OFX parser receives the text.
- The toasts, the `saving` and `importing` flags, and the auto-classify result message are not modelled. Only the decision to classify is (`Ledger.ShouldClassify`).
- SplitDialog.HandleSplit takes every mutation to succeed. A failure part-way, which would leave the parent marked split with only some children, is not modelled.
- Rendering (`formatCurrency`, `formatPercent`, chart layout, colours read from the DOM) is not modelled. The budget bar's colour classes are.
- `getSpendingByCategory` calls a database function whose SQL is not part of this model. The budgets page and the donut receive its rows as input.
- `createTransaction` and `updateTransaction` are single-call wrappers. They appear only as the insert and update steps of the paths that use them.
- Transfer matching and linking are not modelled. The hooks are imported but not defined in the code, and the row type has no transfer columns.

## Findings

| source | as written | input that shows it | evidently intended | confidence | as-written member | corrected member |
|---|---|---|---|---|---|---|
| src/components/charts/SpendingDonut.tsx:61-81 | A child met before its parent creates a zero-total placeholder entry for the parent. When the parent's own item comes later, `parentMap.has` is already true, so the parent's own spending is never added. | `[groceries 500 (parent food), food 700]` shows food as 500; in the other order it shows 1200 | A parent's entry carries its own total plus its children's, whatever the input order (the comment calls the placeholder one "for parent categories with no direct spend") | medium; not executed | SpendingDonut.ChildFirst | SpendingDonut.CorrectedEntry |
| src/components/charts/SpendingComparison.tsx:71 | The previous month's cumulative map has keys only up to its own length, so `previousCum.get(day) ?? 0` draws 0 on the chart's later days. | previous month of 30 days with 100 spent on day 1, current month of 31 days: day 30 shows 100 and day 31 shows 0 | a cumulative line holds its month total past the month's last day | medium; not executed | SpendingComparison.PreviousDropsToZero | SpendingComparison.HeldPreviousGrows |
