/** The rows of the household ledger database that the ingestion and
    reconciliation code reads and writes (src/types/database.ts).
    A table is a map from its key to the row; the row itself does not repeat
    the key it is stored under. */
module Ledger {
  import opened Common

  /** `transactions.source`. */
  datatype Source = PlaidSource | Manual | Csv | Ofx | Email | ReceiptSource

  /** `transactions.classified_by` (NULL is `None` in an `Option<Classifier>`). */
  datatype Classifier = ByUser | ByAi | ByPlaid

  /** A `transactions` row. Amounts are cents, positive = money out,
      negative = money in; `ai_category_confidence` is in hundredths. */
  datatype Transaction = Transaction(
    household_id: string,
    account_id: Option<string>,
    category_id: Option<string>,
    plaid_transaction_id: Option<string>,
    amount: int,
    date: string,
    name: string,
    merchant_name: Option<string>,
    notes: Option<string>,
    source: Source,
    ai_category_confidence: Option<int>,
    classified_by: Option<Classifier>,
    is_split: bool,
    parent_transaction_id: Option<string>,
    import_hash: Option<string>)

  /** A `categories` row. */
  datatype Category = Category(id: string, household_id: string, name: string, parent_id: Option<string>)

  /** `receipt_scans.status`. */
  datatype ScanStatus = ScanPending | Processing | Completed | ScanFailed

  /** A receipt line item as stored in `receipt_scans.line_items` (amount in
      cents; `category` is the classifier's name, `category_id` the matched
      household category). */
  datatype ReceiptLineItem = ReceiptLineItem(name: string, amount: int, category: string, category_id: Option<string>, confidence: real)

  /** `receipt_scans.extracted_data`: the receipt's header fields, or the
      error that stopped processing. */
  datatype ExtractedData =
    | Extracted(merchant: Option<string>, date: Option<string>, subtotal: Option<int>, tax: Option<int>, total: Option<int>)
    | ExtractError(error: string)

  /** A `receipt_scans` row. */
  datatype ReceiptScan = ReceiptScan(
    household_id: string,
    storage_path: string,
    status: ScanStatus,
    extracted_data: ExtractedData,
    line_items: seq<ReceiptLineItem>)

  /** Categories by lower-cased name
      (`new Map(categories.map(c => [c.name.toLowerCase(), c.id]))`): a later
      category whose name folds to the same key replaces an earlier one. */
  function CategoryByLowerName(cats: seq<Category>): map<string, string>
  {
    if cats == [] then map[]
    else CategoryByLowerName(cats[..|cats| - 1])[Lower(cats[|cats| - 1].name) := cats[|cats| - 1].id]
  }

  /** A key is in the lookup exactly when some category's name folds to it,
      and it maps to the id of the last such category. */
  lemma {:induction false} CategoryByLowerNameEntries(cats: seq<Category>, key: string)
    ensures key in CategoryByLowerName(cats) <==> exists c :: c in cats && Lower(c.name) == key
    ensures key in CategoryByLowerName(cats) ==>
      exists c :: c in cats && Lower(c.name) == key && c.id == CategoryByLowerName(cats)[key]
    ensures key in CategoryByLowerName(cats) ==>
      exists i :: 0 <= i < |cats| && Lower(cats[i].name) == key && cats[i].id == CategoryByLowerName(cats)[key]
        && forall j :: i < j < |cats| ==> Lower(cats[j].name) != key
  {
    if cats != [] {
      var init := cats[..|cats| - 1];
      var last := cats[|cats| - 1];
      CategoryByLowerNameEntries(init, key);
      assert forall c :: c in cats <==> c in init || c == last;
      if key in CategoryByLowerName(cats) && Lower(last.name) != key {
        var c :| c in init && Lower(c.name) == key && c.id == CategoryByLowerName(init)[key];
        assert c in cats;
        var i :| 0 <= i < |init| && Lower(init[i].name) == key && init[i].id == CategoryByLowerName(init)[key]
          && forall j :: i < j < |init| ==> Lower(init[j].name) != key;
        assert cats[i] == init[i];
        forall j | i < j < |cats|
          ensures Lower(cats[j].name) != key
        {
          if j < |init| {
            assert cats[j] == init[j];
          }
        }
      }
    }
  }

  /** An `accounts` row (balances in cents). */
  datatype Account = Account(
    id: string,
    household_id: string,
    plaid_account_id: Option<string>,
    name: string,
    kind: string,
    balance_current: Option<int>,
    is_hidden: bool)

  /** A row as the database stores it when an insert names only these
      columns: every other column takes its default (NULL, or false for
      `is_split`). */
  function NewTransaction(household: string, name: string, amount: int, date: string, source: Source): (t: Transaction)
    ensures t.household_id == household && t.name == name && t.amount == amount && t.date == date && t.source == source
    ensures t.category_id == None && t.classified_by == None && t.ai_category_confidence == None
    ensures !t.is_split && t.parent_transaction_id == None && t.import_hash == None && t.plaid_transaction_id == None
  {
    Transaction(household, None, None, None, amount, date, name, None, None, source, None, None, false, None, None)
  }

  /** Inserting a row keyed by `import_hash`. The model ASSUMES a uniqueness
      constraint on `import_hash` (the schema is not part of this model): the
      insert fails when the key is already present, and also when the call
      itself fails (`callFails`). A failed insert leaves the table unchanged. */
  function InsertByImportHash(table: map<string, Transaction>, key: string, row: Transaction, callFails: bool)
    : (res: (map<string, Transaction>, bool))
    ensures res.1 <==> !callFails && key !in table
    ensures res.1 ==> res.0 == table[key := row]
    ensures !res.1 ==> res.0 == table
  {
    if callFails || key in table then (table, false) else (table[key := row], true)
  }

  // ---------------------------------------------------------------------
  // The shared shape of the CSV and QFX import loops

  /** What an import loop threads from row to row: the ledger keyed by
      `import_hash` and the `imported` / `skipped` counters. */
  datatype Tally = Tally(table: map<string, Transaction>, imported: nat, skipped: nat)

  /** What one input row turns into: skipped before any insert, or an insert
      of a row under an `import_hash` key. */
  datatype Prepared = Skip | Insert(key: string, row: Transaction)

  /** One insert attempt of an import loop: a successful insert counts as
      imported, a failed one (duplicate key or failing call) as skipped. */
  function Attempt(st: Tally, key: string, row: Transaction, callFails: bool): (r: Tally)
    ensures r.imported + r.skipped == st.imported + st.skipped + 1
    ensures r.imported == st.imported + 1 <==> !callFails && key !in st.table
    ensures forall k :: k in st.table ==> k in r.table && r.table[k] == st.table[k]
    ensures forall k :: k in r.table && k !in st.table ==> k == key && r.table[k] == row
    ensures !callFails ==> key in r.table
  {
    var (table, inserted) := InsertByImportHash(st.table, key, row, callFails);
    if inserted then Tally(table, st.imported + 1, st.skipped)
    else Tally(table, st.imported, st.skipped + 1)
  }

  /** One turn of an import loop. */
  function Offer(st: Tally, p: Prepared, callFails: bool): Tally
  {
    match p
    case Skip => st.(skipped := st.skipped + 1)
    case Insert(key, row) => Attempt(st, key, row, callFails)
  }

  /** The loop from row `i` on; `fails` holds the indices of the rows whose
      insert call fails for a reason other than a duplicate key. */
  function ApplyFrom(prepared: seq<Prepared>, fails: set<nat>, i: nat, st: Tally): Tally
    requires i <= |prepared|
    decreases |prepared| - i
  {
    if i == |prepared| then st
    else ApplyFrom(prepared, fails, i + 1, Offer(st, prepared[i], i in fails))
  }

  /** Every row increments exactly one of the two counters. */
  lemma {:induction false} ApplyCounts(prepared: seq<Prepared>, fails: set<nat>, i: nat, st: Tally)
    requires i <= |prepared|
    ensures var r := ApplyFrom(prepared, fails, i, st);
      r.imported + r.skipped == st.imported + st.skipped + (|prepared| - i)
    decreases |prepared| - i
  {
    if i < |prepared| {
      ApplyCounts(prepared, fails, i + 1, Offer(st, prepared[i], i in fails));
    }
  }

  /** The loop never changes or removes a row already in the ledger, and
      every row it adds is one of the offered rows, under its own key. */
  lemma {:induction false} ApplyOnlyAdds(prepared: seq<Prepared>, fails: set<nat>, i: nat, st: Tally)
    requires i <= |prepared|
    ensures var r := ApplyFrom(prepared, fails, i, st);
      && (forall k :: k in st.table ==> k in r.table && r.table[k] == st.table[k])
      && (forall k :: k in r.table && k !in st.table ==>
            exists j :: i <= j < |prepared| && prepared[j] == Insert(k, r.table[k]))
    decreases |prepared| - i
  {
    if i < |prepared| {
      ApplyOnlyAdds(prepared, fails, i + 1, Offer(st, prepared[i], i in fails));
    }
  }

  /** The key a prepared row would be inserted under is in the table. */
  predicate KeyStored(p: Prepared, table: map<string, Transaction>)
  {
    p.Insert? ==> p.key in table
  }

  /** After the loop, the key of every row whose insert call did not fail is
      in the ledger: inserted now, or already there. */
  lemma {:induction false} ApplyStoresKeys(prepared: seq<Prepared>, fails: set<nat>, i: nat, st: Tally)
    requires i <= |prepared|
    ensures var r := ApplyFrom(prepared, fails, i, st);
      forall j :: i <= j < |prepared| && j !in fails ==> KeyStored(prepared[j], r.table)
    decreases |prepared| - i
  {
    if i < |prepared| {
      var next := Offer(st, prepared[i], i in fails);
      ApplyStoresKeys(prepared, fails, i + 1, next);
      ApplyOnlyAdds(prepared, fails, i + 1, next);
    }
  }

  /** When every row's key is already stored, the loop imports nothing,
      skips every row and leaves the ledger as it was. */
  lemma {:induction false} ApplyOverStoredKeys(prepared: seq<Prepared>, fails: set<nat>, i: nat, st: Tally)
    requires i <= |prepared|
    requires forall j :: i <= j < |prepared| ==> KeyStored(prepared[j], st.table)
    ensures var r := ApplyFrom(prepared, fails, i, st);
      r.table == st.table && r.imported == st.imported && r.skipped == st.skipped + (|prepared| - i)
    decreases |prepared| - i
  {
    if i < |prepared| {
      ApplyOverStoredKeys(prepared, fails, i + 1, Offer(st, prepared[i], i in fails));
    }
  }

  /** Offering the same rows again after a pass in which no insert call
      failed adds nothing and counts every row as skipped, whatever fails the
      second time. */
  lemma ReapplyAddsNothing(prepared: seq<Prepared>, table: map<string, Transaction>, fails: set<nat>)
    ensures var first := ApplyFrom(prepared, {}, 0, Tally(table, 0, 0));
      var second := ApplyFrom(prepared, fails, 0, Tally(first.table, 0, 0));
      second.imported == 0 && second.skipped == |prepared| && second.table == first.table
  {
    var first := ApplyFrom(prepared, {}, 0, Tally(table, 0, 0));
    ApplyStoresKeys(prepared, {}, 0, Tally(table, 0, 0));
    ApplyOverStoredKeys(prepared, fails, 0, Tally(first.table, 0, 0));
  }

  /** Auto-classification follows only an import that added a row, and only
      when the household asks for it (`auto_classify_imports`). */
  predicate ShouldClassify(imported: nat, autoClassify: bool)
  {
    imported > 0 && autoClassify
  }

  /** The result of an import dialog's `handleImport`: nothing at all, or the
      new ledger, the counters and whether auto-classification is requested. */
  datatype ImportOutcome = NotStarted | Finished(tally: Tally, classify: bool)
}
