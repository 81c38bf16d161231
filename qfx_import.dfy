/** Importing an OFX/QFX statement (src/components/transactions/QFXImportDialog.tsx):
    every transaction the parser returns is inserted with `import_hash`
    "ofx:" + FITID, so a statement imported twice adds its rows once. */
module QfxImport {
  import opened Common
  import opened Ledger
  import opened OfxParser

  /** The dedup key of a parsed transaction. */
  function OfxKey(fitId: string): string
  {
    "ofx:" + fitId
  }

  /** Distinct FITIDs give distinct keys. */
  lemma OfxKeyInjective(a: string, b: string)
    requires OfxKey(a) == OfxKey(b)
    ensures a == b
  {
    assert a == OfxKey(a)[4..];
  }

  /** The insert of one parsed transaction: the parser's name, amount and
      date, source "ofx" and its key. */
  function PrepareTransaction(household: string, t: OfxTransaction): Prepared
  {
    Insert(OfxKey(t.fitId), NewTransaction(household, t.name, t.amount, t.date, Ofx).(import_hash := Some(OfxKey(t.fitId))))
  }

  function PrepareAll(household: string, txs: seq<OfxTransaction>): (p: seq<Prepared>)
    ensures |p| == |txs|
  {
    seq(|txs|, j requires 0 <= j < |txs| => PrepareTransaction(household, txs[j]))
  }

  /** The keys a statement presents depend on its FITIDs only: two parses
      with the same FITIDs, in any household, present the same keys. */
  lemma KeysDependOnFitIdsOnly(h1: string, txs1: seq<OfxTransaction>, h2: string, txs2: seq<OfxTransaction>)
    requires |txs1| == |txs2|
    requires forall j :: 0 <= j < |txs1| ==> txs1[j].fitId == txs2[j].fitId
    ensures forall j :: 0 <= j < |txs1| ==> PrepareAll(h1, txs1)[j].key == PrepareAll(h2, txs2)[j].key
  {
  }

  /** `handleImport`; `fails` holds the indices of the transactions whose
      insert call fails for a reason other than a duplicate key. */
  method HandleImport(household: Option<string>, autoClassify: bool, txs: seq<OfxTransaction>,
                      table: map<string, Transaction>, fails: set<nat>)
    returns (out: ImportOutcome)
    ensures out.NotStarted? <==> household.None? || txs == []
    ensures out.Finished? ==>
      out.tally == ApplyFrom(PrepareAll(household.value, txs), fails, 0, Tally(table, 0, 0))
    ensures out.Finished? ==> out.tally.imported + out.tally.skipped == |txs|
    ensures out.Finished? ==> out.classify == ShouldClassify(out.tally.imported, autoClassify)
  {
    if household.None? || |txs| == 0 {
      return NotStarted;
    }
    var hh := household.value;
    ghost var prepared := PrepareAll(hh, txs);
    var ledger := table;
    var imported: nat := 0;
    var skipped: nat := 0;
    var i := 0;
    while i < |txs|
      invariant i <= |txs|
      invariant ApplyFrom(prepared, fails, i, Tally(ledger, imported, skipped))
             == ApplyFrom(prepared, fails, 0, Tally(table, 0, 0))
    {
      var t := txs[i];
      var key := OfxKey(t.fitId);
      var txn := NewTransaction(hh, t.name, t.amount, t.date, Ofx).(import_hash := Some(key));
      ghost var before := Tally(ledger, imported, skipped);
      assert prepared[i] == Insert(key, txn);
      assert ApplyFrom(prepared, fails, i, before) == ApplyFrom(prepared, fails, i + 1, Attempt(before, key, txn, i in fails));
      var insert := InsertByImportHash(ledger, key, txn, i in fails);
      ledger := insert.0;
      if insert.1 {
        imported := imported + 1;
      } else {
        skipped := skipped + 1;
      }
      assert Tally(ledger, imported, skipped) == Attempt(before, key, txn, i in fails);
      i := i + 1;
    }
    ApplyCounts(prepared, fails, 0, Tally(table, 0, 0));
    out := Finished(Tally(ledger, imported, skipped), ShouldClassify(imported, autoClassify));
  }

  /** A QFX import never changes a row already in the ledger, and every row
      it adds is an ofx row of the household, stored under "ofx:" + the
      FITID of a parsed transaction with that row's name, amount and date. */
  lemma QfxImportAddsOfxRows(household: string, txs: seq<OfxTransaction>,
                             table: map<string, Transaction>, fails: set<nat>)
    ensures var r := ApplyFrom(PrepareAll(household, txs), fails, 0, Tally(table, 0, 0));
      && (forall k :: k in table ==> k in r.table && r.table[k] == table[k])
      && (forall k :: k in r.table && k !in table ==>
            && r.table[k].source == Ofx && r.table[k].import_hash == Some(k) && r.table[k].household_id == household
            && exists t :: t in txs && k == OfxKey(t.fitId)
                 && r.table[k].name == t.name && r.table[k].amount == t.amount && r.table[k].date == t.date)
  {
    var prepared := PrepareAll(household, txs);
    var r := ApplyFrom(prepared, fails, 0, Tally(table, 0, 0));
    ApplyOnlyAdds(prepared, fails, 0, Tally(table, 0, 0));
    forall k | k in r.table && k !in table
      ensures && r.table[k].source == Ofx && r.table[k].import_hash == Some(k) && r.table[k].household_id == household
              && exists t :: t in txs && k == OfxKey(t.fitId)
                   && r.table[k].name == t.name && r.table[k].amount == t.amount && r.table[k].date == t.date
    {
      var j :| 0 <= j < |prepared| && prepared[j] == Insert(k, r.table[k]);
      assert txs[j] in txs;
    }
  }
}
