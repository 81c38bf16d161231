/** The incremental Plaid transaction sync
    (supabase/functions/plaid-sync-transactions/index.ts): pages of added,
    modified and removed transactions are requested with a cursor, applied to
    the ledger keyed by `plaid_transaction_id`, and the page's next cursor is
    written back to the linked item after every page.

    Plaid's answers are an oracle: `pages[k]` is the answer to the k-th
    request of the run. */
module PlaidSync {
  import opened Common
  import opened Ledger

  /** A transaction as Plaid reports it (amounts in cents, positive = money out). */
  datatype PlaidTxn = PlaidTxn(
    transaction_id: string,
    account_id: string,
    primary: Option<string>,
    amount: int,
    date: string,
    name: string,
    merchant_name: Option<string>)

  /** The answer to one `/transactions/sync` request: a non-OK response, or a
      page (`has_more` absent is false). */
  datatype SyncPage =
    | PageFailed
    | SyncPage(added: seq<PlaidTxn>, modified: seq<PlaidTxn>, removed: seq<string>, next_cursor: string, has_more: bool)

  /** `PLAID_CATEGORY_MAP`: Plaid's `personal_finance_category.primary` to
      the app's category name. */
  const PlaidCategoryMap: map<string, string> := map[
    "INCOME" := "Income",
    "TRANSFER_IN" := "Income",
    "FOOD_AND_DRINK" := "Food & Dining",
    "TRANSPORTATION" := "Transportation",
    "TRAVEL" := "Transportation",
    "GENERAL_MERCHANDISE" := "Shopping",
    "ENTERTAINMENT" := "Entertainment",
    "RECREATION" := "Entertainment",
    "MEDICAL" := "Health",
    "RENT_AND_UTILITIES" := "Utilities",
    "UTILITIES" := "Utilities",
    "INSURANCE" := "Insurance",
    "EDUCATION" := "Education",
    "PERSONAL_CARE" := "Personal Care",
    "LOAN_PAYMENTS" := "Housing",
    "HOME_IMPROVEMENT" := "Housing",
    "MORTGAGE" := "Housing",
    "TRANSFER_OUT" := "Savings & Investments",
    "INVESTMENT" := "Savings & Investments",
    "SAVINGS" := "Savings & Investments"
  ]

  // ---------------------------------------------------------------------
  // Lookups built before the page loop

  /** `new Map(categories.map(c => [c.name, c.id]))`: a later category with
      the same name replaces an earlier one. */
  function CategoryByName(cats: seq<Category>): (m: map<string, string>)
  {
    if cats == [] then map[]
    else CategoryByName(cats[..|cats| - 1])[cats[|cats| - 1].name := cats[|cats| - 1].id]
  }

  /** The names with an entry are exactly the names of the categories. */
  lemma {:induction false} CategoryByNameKeys(cats: seq<Category>, n: string)
    ensures n in CategoryByName(cats) <==> exists c :: c in cats && c.name == n
  {
    if cats != [] {
      var init := cats[..|cats| - 1];
      CategoryByNameKeys(init, n);
      assert forall c :: c in cats <==> c in init || c == cats[|cats| - 1];
    }
  }

  /** Every entry comes from a category with that name and id. */
  lemma {:induction false} CategoryByNameFromCategories(cats: seq<Category>, n: string)
    requires n in CategoryByName(cats)
    ensures exists c :: c in cats && c.name == n && c.id == CategoryByName(cats)[n]
  {
    var init := cats[..|cats| - 1];
    var last := cats[|cats| - 1];
    if last.name == n {
      assert last in cats;
    } else {
      CategoryByNameFromCategories(init, n);
      var c :| c in init && c.name == n && c.id == CategoryByName(init)[n];
      assert c in cats;
    }
  }

  /** A name maps to the id of the last category carrying it. */
  lemma {:induction false} CategoryByNameLastWins(cats: seq<Category>, i: nat)
    requires i < |cats|
    requires forall j :: i < j < |cats| ==> cats[j].name != cats[i].name
    ensures cats[i].name in CategoryByName(cats) && CategoryByName(cats)[cats[i].name] == cats[i].id
  {
    if i < |cats| - 1 {
      CategoryByNameLastWins(cats[..|cats| - 1], i);
    }
  }

  /** `accountIdMap`: Plaid account id to ledger account id, for the accounts
      of the item that have a (non-empty) `plaid_account_id`; a later
      account replaces an earlier one. */
  function AccountIdMap(accts: seq<Account>): (m: map<string, string>)
  {
    if accts == [] then map[]
    else
      var a := accts[|accts| - 1];
      var rest := AccountIdMap(accts[..|accts| - 1]);
      if a.plaid_account_id.Some? && a.plaid_account_id.value != [] then rest[a.plaid_account_id.value := a.id] else rest
  }

  /** Every entry comes from an account that carries that Plaid account id. */
  lemma {:induction false} AccountIdMapFromAccounts(accts: seq<Account>, p: string)
    requires p in AccountIdMap(accts)
    ensures exists a :: a in accts && a.plaid_account_id == Some(p) && a.id == AccountIdMap(accts)[p] && p != []
  {
    var init := accts[..|accts| - 1];
    var a := accts[|accts| - 1];
    if a.plaid_account_id == Some(p) && p != [] {
      assert a in accts;
    } else {
      AccountIdMapFromAccounts(init, p);
      var b :| b in init && b.plaid_account_id == Some(p) && b.id == AccountIdMap(init)[p] && p != [];
      assert b in accts;
    }
  }

  /** What the page loop reads besides the pages: the item's household and
      the three lookup tables (the sync function always passes
      `PlaidCategoryMap` as `categoryMap`). */
  datatype SyncContext = SyncContext(
    household: string,
    categoryMap: map<string, string>,
    categoryByName: map<string, string>,
    accountIdMap: map<string, string>)

  // ---------------------------------------------------------------------
  // One upsert

  /** `categoryId`: the household category named by the map entry for the
      transaction's primary category, or none. */
  function CategoryFor(ctx: SyncContext, primary: Option<string>): (r: Option<string>)
  {
    var p := if primary.Some? then primary.value else "";
    if p in ctx.categoryMap && ctx.categoryMap[p] != [] && ctx.categoryMap[p] in ctx.categoryByName then
      Some(ctx.categoryByName[ctx.categoryMap[p]])
    else None
  }

  /** With the household's categories as the name lookup, a transaction
      gets a category exactly when its primary category is mapped to a
      non-empty name that one of the categories carries, and then the id of
      such a category. */
  lemma CategoryForNamesCategory(ctx: SyncContext, cats: seq<Category>, primary: Option<string>)
    requires ctx.categoryByName == CategoryByName(cats)
    ensures var p := if primary.Some? then primary.value else "";
      && (CategoryFor(ctx, primary).Some? <==>
            p in ctx.categoryMap && ctx.categoryMap[p] != [] && exists c :: c in cats && c.name == ctx.categoryMap[p])
      && (CategoryFor(ctx, primary).Some? ==>
            exists c :: c in cats && c.name == ctx.categoryMap[p] && c.id == CategoryFor(ctx, primary).value)
  {
    var p := if primary.Some? then primary.value else "";
    if p in ctx.categoryMap {
      CategoryByNameKeys(cats, ctx.categoryMap[p]);
      if ctx.categoryMap[p] in ctx.categoryByName {
        CategoryByNameFromCategories(cats, ctx.categoryMap[p]);
      }
    }
  }

  /** `categoryId ? "plaid" : null`. */
  function ClassifiedBy(categoryId: Option<string>): Option<Classifier>
  {
    if categoryId.Some? && categoryId.value != [] then Some(ByPlaid) else None
  }

  function Get(table: map<string, Transaction>, key: string): Option<Transaction>
  {
    if key in table then Some(table[key]) else None
  }

  /** The row an upsert leaves under the transaction's id: the columns the
      upsert names are written, every other column keeps the existing row's
      value, or its default when the row is new. */
  function Upserted(ctx: SyncContext, existing: Option<Transaction>, t: PlaidTxn): Transaction
  {
    var base := if existing.Some? then existing.value else NewTransaction(ctx.household, t.name, t.amount, t.date, PlaidSource);
    var categoryId := CategoryFor(ctx, t.primary);
    base.(household_id := ctx.household,
          account_id := if t.account_id in ctx.accountIdMap then Some(ctx.accountIdMap[t.account_id]) else None,
          category_id := categoryId,
          plaid_transaction_id := Some(t.transaction_id),
          amount := t.amount,
          date := t.date,
          name := t.name,
          merchant_name := t.merchant_name,
          source := PlaidSource,
          classified_by := ClassifiedBy(categoryId))
  }

  /** An upsert's result depends on the existing row only through the
      columns it does not name, and those it leaves as they were: so a
      second upsert of the same id undoes nothing of the first but replaces
      all of what the first wrote. */
  lemma UpsertedAbsorbs(ctx: SyncContext, existing: Option<Transaction>, t1: PlaidTxn, t2: PlaidTxn)
    requires t1.transaction_id == t2.transaction_id
    ensures Upserted(ctx, Some(Upserted(ctx, existing, t1)), t2) == Upserted(ctx, existing, t2)
  {
  }

  /** The upsert overwrites the category and `classified_by` whatever they
      were: a classification made by the user is replaced by the mapped
      category, or by none. */
  lemma UpsertReplacesClassification(ctx: SyncContext, existing: Transaction, t: PlaidTxn)
    ensures var r := Upserted(ctx, Some(existing), t);
      r.category_id == CategoryFor(ctx, t.primary)
      && r.classified_by != Some(ByUser)
      && (r.classified_by == Some(ByPlaid) <==> r.category_id.Some? && r.category_id.value != [])
  {
  }

  /** Columns the upsert does not name survive it: notes, the AI confidence
      (even though the category it belonged to was replaced), the split
      flags and the import hash. */
  lemma UpsertKeepsOtherColumns(ctx: SyncContext, existing: Transaction, t: PlaidTxn)
    ensures var r := Upserted(ctx, Some(existing), t);
      r.notes == existing.notes && r.ai_category_confidence == existing.ai_category_confidence
      && r.is_split == existing.is_split && r.parent_transaction_id == existing.parent_transaction_id
      && r.import_hash == existing.import_hash
  {
  }

  function Upsert(table: map<string, Transaction>, ctx: SyncContext, t: PlaidTxn): map<string, Transaction>
  {
    table[t.transaction_id := Upserted(ctx, Get(table, t.transaction_id), t)]
  }

  /** A write the handler issues: the upsert of an item, or the delete of
      the rows with a Plaid id. */
  datatype Write = Put(t: PlaidTxn) | Delete(id: string)

  /** A page's writes in the order the handler issues them: one upsert per
      added item, one per modified item, then one delete per removed id. */
  function PageWrites(page: SyncPage): (ws: seq<Write>)
    requires page.SyncPage?
    ensures |ws| == |page.added| + |page.modified| + |page.removed|
  {
    Puts(page.added) + Puts(page.modified) + Deletes(page.removed)
  }

  /** One upsert per item, in order. */
  function Puts(ts: seq<PlaidTxn>): (ws: seq<Write>)
    ensures |ws| == |ts|
    ensures forall i :: 0 <= i < |ts| ==> ws[i] == Put(ts[i])
  {
    if ts == [] then [] else [Put(ts[0])] + Puts(ts[1..])
  }

  /** One delete per id, in order. */
  function Deletes(ids: seq<string>): (ws: seq<Write>)
    ensures |ws| == |ids|
    ensures forall i :: 0 <= i < |ids| ==> ws[i] == Delete(ids[i])
  {
    if ids == [] then [] else [Delete(ids[0])] + Deletes(ids[1..])
  }

  function Perform(table: map<string, Transaction>, ctx: SyncContext, w: Write): map<string, Transaction>
  {
    match w
    case Put(t) => Upsert(table, ctx, t)
    case Delete(id) => table - {id}
  }

  /** The writes `ws` of answer `k` of the run, the first of them being
      write `j` of that answer; the write `(k, j)` fails when it is in
      `fails`. The handler never reads a write's error, so a failed write
      leaves the table as it was and the page goes on. */
  function Writes(table: map<string, Transaction>, ctx: SyncContext, ws: seq<Write>,
                  fails: set<(nat, nat)>, k: nat, j: nat): map<string, Transaction>
    decreases |ws|
  {
    if ws == [] then table
    else Writes(if (k, j) in fails then table else Perform(table, ctx, ws[0]), ctx, ws[1..], fails, k, j + 1)
  }

  /** Two runs of writes, one after the other, number the second run's
      writes on from where the first stopped. */
  lemma {:induction false} WritesAppend(table: map<string, Transaction>, ctx: SyncContext, ws1: seq<Write>, ws2: seq<Write>,
                                        fails: set<(nat, nat)>, k: nat, j: nat)
    ensures Writes(table, ctx, ws1 + ws2, fails, k, j) == Writes(Writes(table, ctx, ws1, fails, k, j), ctx, ws2, fails, k, j + |ws1|)
    decreases |ws1|
  {
    if ws1 == [] {
      assert ws1 + ws2 == ws2;
    } else {
      assert (ws1 + ws2)[0] == ws1[0];
      assert (ws1 + ws2)[1..] == ws1[1..] + ws2;
      WritesAppend(if (k, j) in fails then table else Perform(table, ctx, ws1[0]), ctx, ws1[1..], ws2, fails, k, j + 1);
    }
  }

  /** One page, answer `k` of the run, applied. */
  function ApplyPage(table: map<string, Transaction>, ctx: SyncContext, page: SyncPage,
                     fails: set<(nat, nat)>, k: nat): map<string, Transaction>
    requires page.SyncPage?
  {
    Writes(table, ctx, PageWrites(page), fails, k, 0)
  }

  /** The last transaction of the list with the given id. */
  function LastWith(ts: seq<PlaidTxn>, id: string): (r: Option<PlaidTxn>)
    ensures r.Some? ==> r.value in ts && r.value.transaction_id == id
  {
    if ts == [] then None
    else
      var later := LastWith(ts[1..], id);
      if later.Some? then later
      else if ts[0].transaction_id == id then Some(ts[0])
      else None
  }

  /** The row under `id` after an upsert by the given transaction, if any. */
  function UpsertedOpt(ctx: SyncContext, existing: Option<Transaction>, t: Option<PlaidTxn>): Option<Transaction>
  {
    if t.Some? then Some(Upserted(ctx, existing, t.value)) else existing
  }

  /** What a write that lands does to the row under `id`. */
  function Effect(ctx: SyncContext, o: Option<Transaction>, w: Write, id: string): Option<Transaction>
  {
    match w
    case Put(t) => if t.transaction_id == id then Some(Upserted(ctx, o, t)) else o
    case Delete(x) => if x == id then None else o
  }

  /** The row under `id` after the writes `ws`, all landing. */
  function Row(ctx: SyncContext, o: Option<Transaction>, ws: seq<Write>, id: string): Option<Transaction>
    decreases |ws|
  {
    if ws == [] then o else Row(ctx, Effect(ctx, o, ws[0], id), ws[1..], id)
  }

  /** When the writes all land, each row follows its own writes only. */
  lemma {:induction false} WritesAt(table: map<string, Transaction>, ctx: SyncContext, ws: seq<Write>, k: nat, j: nat, id: string)
    ensures Get(Writes(table, ctx, ws, {}, k, j), id) == Row(ctx, Get(table, id), ws, id)
    decreases |ws|
  {
    if ws != [] {
      WritesAt(Perform(table, ctx, ws[0]), ctx, ws[1..], k, j + 1, id);
    }
  }

  lemma {:induction false} RowAppend(ctx: SyncContext, o: Option<Transaction>, ws1: seq<Write>, ws2: seq<Write>, id: string)
    ensures Row(ctx, o, ws1 + ws2, id) == Row(ctx, Row(ctx, o, ws1, id), ws2, id)
    decreases |ws1|
  {
    if ws1 == [] {
      assert ws1 + ws2 == ws2;
    } else {
      assert (ws1 + ws2)[0] == ws1[0];
      assert (ws1 + ws2)[1..] == ws1[1..] + ws2;
      RowAppend(ctx, Effect(ctx, o, ws1[0], id), ws1[1..], ws2, id);
    }
  }

  /** Upserting `ts[0]` and then the rest of the list leaves under `id`
      what upserting the whole list over the original row leaves. */
  lemma UpsertFirst(ctx: SyncContext, o: Option<Transaction>, ts: seq<PlaidTxn>, id: string)
    requires ts != []
    ensures UpsertedOpt(ctx, Effect(ctx, o, Put(ts[0]), id), LastWith(ts[1..], id)) == UpsertedOpt(ctx, o, LastWith(ts, id))
  {
    var later := LastWith(ts[1..], id);
    if ts[0].transaction_id == id && later.Some? {
      UpsertedAbsorbs(ctx, o, ts[0], later.value);
    }
  }

  /** The upserts of a list of items leave under `id` the upsert of the
      id's last item over the row that was there. */
  lemma {:induction false} PutsRow(ctx: SyncContext, o: Option<Transaction>, ts: seq<PlaidTxn>, id: string)
    ensures Row(ctx, o, Puts(ts), id) == UpsertedOpt(ctx, o, LastWith(ts, id))
    decreases |ts|
  {
    if ts != [] {
      var ws := Puts(ts);
      assert ws[0] == Put(ts[0]) && ws[1..] == Puts(ts[1..]);
      PutsRow(ctx, Effect(ctx, o, Put(ts[0]), id), ts[1..], id);
      UpsertFirst(ctx, o, ts, id);
    }
  }

  /** The deletes of a list of ids leave nothing under a listed id and the
      row as it was under any other. */
  lemma {:induction false} DeletesRow(ctx: SyncContext, o: Option<Transaction>, ids: seq<string>, id: string)
    ensures Row(ctx, o, Deletes(ids), id) == if id in ids then None else o
    decreases |ids|
  {
    if ids != [] {
      var ws := Deletes(ids);
      assert ws[0] == Delete(ids[0]) && ws[1..] == Deletes(ids[1..]);
      DeletesRow(ctx, Effect(ctx, o, Delete(ids[0]), id), ids[1..], id);
      assert id in ids <==> id == ids[0] || id in ids[1..];
    }
  }

  /** The row under an id after a page's writes, all landing: gone when
      the page removes it, otherwise upserted by the id's last added item
      and then by its last modified item, over the row that was there. */
  lemma PageRow(ctx: SyncContext, o: Option<Transaction>, page: SyncPage, id: string)
    requires page.SyncPage?
    ensures Row(ctx, o, PageWrites(page), id) ==
      if id in page.removed then None
      else UpsertedOpt(ctx, UpsertedOpt(ctx, o, LastWith(page.added, id)), LastWith(page.modified, id))
  {
    var a := UpsertedOpt(ctx, o, LastWith(page.added, id));
    RowAppend(ctx, o, Puts(page.added) + Puts(page.modified), Deletes(page.removed), id);
    RowAppend(ctx, o, Puts(page.added), Puts(page.modified), id);
    PutsRow(ctx, o, page.added, id);
    PutsRow(ctx, a, page.modified, id);
    DeletesRow(ctx, UpsertedOpt(ctx, a, LastWith(page.modified, id)), page.removed, id);
  }

  /** The row under an id after a page whose writes all land. */
  lemma ApplyPageAt(table: map<string, Transaction>, ctx: SyncContext, page: SyncPage, k: nat, id: string)
    requires page.SyncPage?
    ensures Get(ApplyPage(table, ctx, page, {}, k), id) ==
      if id in page.removed then None
      else UpsertedOpt(ctx, UpsertedOpt(ctx, Get(table, id), LastWith(page.added, id)), LastWith(page.modified, id))
  {
    WritesAt(table, ctx, PageWrites(page), k, 0, id);
    PageRow(ctx, Get(table, id), page, id);
  }

  lemma TableExtensional(a: map<string, Transaction>, b: map<string, Transaction>)
    requires forall k :: Get(a, k) == Get(b, k)
    ensures a == b
  {
    assert forall k :: k in a <==> Get(a, k).Some?;
    assert forall k :: k in b <==> Get(b, k).Some?;
  }

  lemma UpsertedOptTwice(ctx: SyncContext, o: Option<Transaction>, la: Option<PlaidTxn>, lm: Option<PlaidTxn>, id: string)
    requires la.Some? ==> la.value.transaction_id == id
    requires lm.Some? ==> lm.value.transaction_id == id
    ensures UpsertedOpt(ctx, UpsertedOpt(ctx, UpsertedOpt(ctx, UpsertedOpt(ctx, o, la), lm), la), lm)
         == UpsertedOpt(ctx, UpsertedOpt(ctx, o, la), lm)
  {
    var once := UpsertedOpt(ctx, UpsertedOpt(ctx, o, la), lm);
    if lm.Some? {
      if la.Some? {
        UpsertedAbsorbs(ctx, once, la.value, lm.value);
      }
      UpsertedAbsorbs(ctx, UpsertedOpt(ctx, o, la), lm.value, lm.value);
    } else if la.Some? {
      UpsertedAbsorbs(ctx, o, la.value, la.value);
    }
  }

  /** Applying the same page twice, every write landing, leaves the same
      rows as applying it once. */
  lemma ApplyPageIdempotent(table: map<string, Transaction>, ctx: SyncContext, page: SyncPage, k1: nat, k2: nat)
    requires page.SyncPage?
    ensures ApplyPage(ApplyPage(table, ctx, page, {}, k1), ctx, page, {}, k2) == ApplyPage(table, ctx, page, {}, k1)
  {
    var once := ApplyPage(table, ctx, page, {}, k1);
    forall id
      ensures Get(ApplyPage(once, ctx, page, {}, k2), id) == Get(once, id)
    {
      ApplyPageAt(table, ctx, page, k1, id);
      ApplyPageAt(once, ctx, page, k2, id);
      if id !in page.removed {
        UpsertedOptTwice(ctx, Get(table, id), LastWith(page.added, id), LastWith(page.modified, id), id);
      }
    }
    TableExtensional(ApplyPage(once, ctx, page, {}, k2), once);
  }

  /** A failed answer writes nothing; a page is answer `k` of the run. */
  function ApplyAnswer(table: map<string, Transaction>, ctx: SyncContext, page: SyncPage,
                       fails: set<(nat, nat)>, k: nat): map<string, Transaction>
  {
    if page.SyncPage? then ApplyPage(table, ctx, page, fails, k) else table
  }

  /** The ledger once the answers to the first `n` requests (all of them,
      when there are fewer) are applied in order, the first of them being
      answer `base` of the run. */
  function LedgerAfter(table: map<string, Transaction>, ctx: SyncContext, pages: seq<SyncPage>,
                       fails: set<(nat, nat)>, base: nat, n: nat): map<string, Transaction>
    decreases n
  {
    if n == 0 || pages == [] then table
    else LedgerAfter(ApplyAnswer(table, ctx, pages[0], fails, base), ctx, pages[1..], fails, base + 1, n - 1)
  }

  /** Applying `k + m` answers is applying `k` of them and then the next `m`. */
  lemma {:induction false} LedgerAfterSplit(table: map<string, Transaction>, ctx: SyncContext, pages: seq<SyncPage>,
                                            fails: set<(nat, nat)>, base: nat, k: nat, m: nat)
    requires k <= |pages|
    ensures LedgerAfter(table, ctx, pages, fails, base, k + m)
         == LedgerAfter(LedgerAfter(table, ctx, pages, fails, base, k), ctx, pages[k..], fails, base + k, m)
    decreases k
  {
    if k > 0 {
      LedgerAfterSplit(ApplyAnswer(table, ctx, pages[0], fails, base), ctx, pages[1..], fails, base + 1, k - 1, m);
      assert pages[1..][k - 1..] == pages[k..];
    } else {
      assert pages[0..] == pages;
    }
  }

  /** One more answer applied. */
  lemma LedgerAfterStep(table: map<string, Transaction>, ctx: SyncContext, pages: seq<SyncPage>,
                        fails: set<(nat, nat)>, k: nat)
    requires k < |pages|
    ensures LedgerAfter(table, ctx, pages, fails, 0, k + 1)
         == ApplyAnswer(LedgerAfter(table, ctx, pages, fails, 0, k), ctx, pages[k], fails, k)
  {
    LedgerAfterSplit(table, ctx, pages, fails, 0, k, 1);
    var rest := pages[k..];
    var mid := LedgerAfter(table, ctx, pages, fails, 0, k);
    assert LedgerAfter(mid, ctx, rest, fails, k, 1)
        == LedgerAfter(ApplyAnswer(mid, ctx, rest[0], fails, k), ctx, rest[1..], fails, k + 1, 0);
  }

  /** Only the answers applied matter. */
  lemma {:induction false} LedgerAfterPrefix(table: map<string, Transaction>, ctx: SyncContext, p1: seq<SyncPage>, p2: seq<SyncPage>,
                                             fails: set<(nat, nat)>, base: nat, n: nat)
    requires n <= |p1| && n <= |p2|
    requires forall j :: 0 <= j < n ==> p1[j] == p2[j]
    ensures LedgerAfter(table, ctx, p1, fails, base, n) == LedgerAfter(table, ctx, p2, fails, base, n)
    decreases n
  {
    if n > 0 {
      LedgerAfterPrefix(ApplyAnswer(table, ctx, p1[0], fails, base), ctx, p1[1..], p2[1..], fails, base + 1, n - 1);
    }
  }

  // ---------------------------------------------------------------------
  // The page loop

  /** The cursor sent with a request: omitted (`None`) when the stored
      cursor is null or empty. */
  function Requested(cursor: Option<string>): Option<string>
  {
    if cursor.Some? && cursor.value != [] then cursor else None
  }

  /** What the loop threads besides the ledger: the cursor the next request
      sends (which each page's cursor update also writes to the item), the
      three counters, the cursors sent so far and the number of pages
      applied. */
  datatype SyncState = SyncState(
    cursor: Option<string>,
    added: nat,
    modified: nat,
    removed: nat,
    requests: seq<Option<string>>,
    applied: nat)

  /** How a run ends: a non-OK page (an error response; what earlier pages
      wrote stays), a page without `has_more` (the counts are returned), or
      the oracle has no further answer while `has_more` was still set. */
  datatype SyncResult = SyncError(state: SyncState) | SyncDone(state: SyncState) | Pending(state: SyncState)

  /** One successful page: applied, counted, and its cursor stored. */
  function Advance(st: SyncState, page: SyncPage): SyncState
    requires page.SyncPage?
  {
    SyncState(Some(page.next_cursor),
              st.added + |page.added|, st.modified + |page.modified|, st.removed + |page.removed|,
              st.requests + [Requested(st.cursor)], st.applied + 1)
  }

  /** The run from request `k` on. */
  function SyncFrom(pages: seq<SyncPage>, k: nat, st: SyncState): SyncResult
    requires k <= |pages|
    decreases |pages| - k
  {
    if k == |pages| then Pending(st)
    else match pages[k]
      case PageFailed => SyncError(st.(requests := st.requests + [Requested(st.cursor)]))
      case SyncPage(_, _, _, _, more) =>
        if more then SyncFrom(pages, k + 1, Advance(st, pages[k]))
        else SyncDone(Advance(st, pages[k]))
  }

  /** One request of a run: a failed page ends it with the request
      recorded, a page with more to come continues it, the last page ends
      it. */
  lemma SyncStep(pages: seq<SyncPage>, k: nat, st: SyncState)
    requires k < |pages|
    ensures pages[k].PageFailed? ==> SyncFrom(pages, k, st) == SyncError(st.(requests := st.requests + [Requested(st.cursor)]))
    ensures pages[k].SyncPage? && pages[k].has_more ==> SyncFrom(pages, k, st) == SyncFrom(pages, k + 1, Advance(st, pages[k]))
    ensures pages[k].SyncPage? && !pages[k].has_more ==> SyncFrom(pages, k, st) == SyncDone(Advance(st, pages[k]))
  {
  }

  function Start(cursor: Option<string>): SyncState
  {
    SyncState(cursor, 0, 0, 0, [], 0)
  }

  /** The item's stored cursor after the first `n` answers of a run: each
      page writes its next cursor to the item, and a cursor update that
      fails (page `k` with `k` in `cursorFails`) leaves the stored one as it
      was. */
  function StoredAfter(stored: Option<string>, pages: seq<SyncPage>, cursorFails: set<nat>, n: nat): Option<string>
    requires n <= |pages|
  {
    if n == 0 then stored
    else if pages[n - 1].SyncPage? && n - 1 !in cursorFails then Some(pages[n - 1].next_cursor)
    else StoredAfter(stored, pages, cursorFails, n - 1)
  }

  /** The sync function from the lookups to the returned counts: the run's
      result, the ledger it leaves, which holds the pages the run applied
      less the writes that failed, and the cursor stored on the item. */
  method SyncTransactions(household: string, categories: seq<Category>, accounts: seq<Account>,
                          storedCursor: Option<string>, ledger: map<string, Transaction>, pages: seq<SyncPage>,
                          fails: set<(nat, nat)>, cursorFails: set<nat>)
    returns (res: SyncResult, table: map<string, Transaction>, stored: Option<string>)
    ensures res == SyncFrom(pages, 0, Start(storedCursor))
    ensures res.state.applied <= |pages|
    ensures table == LedgerAfter(ledger, SyncContext(household, PlaidCategoryMap, CategoryByName(categories), AccountIdMap(accounts)),
                                 pages, fails, 0, res.state.applied)
    ensures stored == StoredAfter(storedCursor, pages, cursorFails, res.state.applied)
    ensures (forall k :: 0 <= k < res.state.applied ==> k !in cursorFails) ==> stored == res.state.cursor
  {
    var ctx := SyncContext(household, PlaidCategoryMap, CategoryByName(categories), AccountIdMap(accounts));
    res, table, stored := RunPages(ctx, storedCursor, ledger, pages, fails, cursorFails);
  }

  /** The page loop. The counters and the cursor in memory move on whether
      or not the page's writes and its cursor update succeed. */
  method RunPages(ctx: SyncContext, storedCursor: Option<string>, ledger: map<string, Transaction>, pages: seq<SyncPage>,
                  fails: set<(nat, nat)>, cursorFails: set<nat>)
    returns (res: SyncResult, table: map<string, Transaction>, stored: Option<string>)
    ensures res == SyncFrom(pages, 0, Start(storedCursor))
    ensures res.state.applied <= |pages|
    ensures table == LedgerAfter(ledger, ctx, pages, fails, 0, res.state.applied)
    ensures stored == StoredAfter(storedCursor, pages, cursorFails, res.state.applied)
    ensures (forall k :: 0 <= k < res.state.applied ==> k !in cursorFails) ==> stored == res.state.cursor
  {
    ghost var goal := SyncFrom(pages, 0, Start(storedCursor));
    table := ledger;
    stored := storedCursor;
    var cursor := storedCursor;
    var totalAdded: nat, totalModified: nat, totalRemoved: nat := 0, 0, 0;
    var requests: seq<Option<string>> := [];
    var hasMore, failed := true, false;
    var k := 0;
    while hasMore
      invariant k <= |pages|
      invariant table == LedgerAfter(ledger, ctx, pages, fails, 0, k)
      invariant stored == StoredAfter(storedCursor, pages, cursorFails, k)
      invariant (forall i :: 0 <= i < k ==> i !in cursorFails) ==> stored == cursor
      invariant hasMore ==> SyncFrom(pages, k, SyncState(cursor, totalAdded, totalModified, totalRemoved, requests, k)) == goal
      invariant !hasMore ==> goal == SyncDone(SyncState(cursor, totalAdded, totalModified, totalRemoved, requests, k))
      decreases |pages| - k
    {
      if k == |pages| {
        break;
      }
      ghost var before := SyncState(cursor, totalAdded, totalModified, totalRemoved, requests, k);
      SyncStep(pages, k, before);
      requests := requests + [Requested(cursor)];
      var page := pages[k];
      if page.PageFailed? {
        failed := true;
        break;
      }
      table := ProcessAnswer(ledger, ctx, pages, fails, k, table);
      totalAdded := totalAdded + |page.added|;
      totalModified := totalModified + |page.modified|;
      totalRemoved := totalRemoved + |page.removed|;
      cursor := Some(page.next_cursor);
      hasMore := page.has_more;
      if k !in cursorFails {
        stored := cursor;
      }
      assert SyncState(cursor, totalAdded, totalModified, totalRemoved, requests, k + 1) == Advance(before, page);
      k := k + 1;
    }
    var st := SyncState(cursor, totalAdded, totalModified, totalRemoved, requests, k);
    res := if failed then SyncError(st) else if hasMore then Pending(st) else SyncDone(st);
  }

  /** The answer to request `k`, a page, written into the ledger the
      earlier answers left. */
  method ProcessAnswer(ghost ledger: map<string, Transaction>, ctx: SyncContext, pages: seq<SyncPage>,
                       fails: set<(nat, nat)>, k: nat, table: map<string, Transaction>) returns (r: map<string, Transaction>)
    requires k < |pages| && pages[k].SyncPage?
    requires table == LedgerAfter(ledger, ctx, pages, fails, 0, k)
    ensures r == LedgerAfter(ledger, ctx, pages, fails, 0, k + 1)
  {
    LedgerAfterStep(ledger, ctx, pages, fails, k);
    r := ProcessPage(table, ctx, pages[k], fails, k);
  }

  /** The three loops of one page, answer `k` of the run: upserts of the
      added items, upserts of the modified items, deletes of the removed
      ids, numbered in that order. */
  method ProcessPage(table: map<string, Transaction>, ctx: SyncContext, page: SyncPage, fails: set<(nat, nat)>, k: nat)
    returns (r: map<string, Transaction>)
    requires page.SyncPage?
    ensures r == ApplyPage(table, ctx, page, fails, k)
  {
    r := UpsertItems(table, ctx, page.added, fails, k, 0);
    r := UpsertItems(r, ctx, page.modified, fails, k, |page.added|);
    r := DeleteItems(r, ctx, page.removed, fails, k, |page.added| + |page.modified|);
    WritesAppend(table, ctx, Puts(page.added), Puts(page.modified), fails, k, 0);
    WritesAppend(table, ctx, Puts(page.added) + Puts(page.modified), Deletes(page.removed), fails, k, 0);
  }

  /** The loop over the added items, or over the modified ones, their
      upserts being writes `j` on of answer `k`: each is skipped when it
      fails. */
  method UpsertItems(table: map<string, Transaction>, ctx: SyncContext, ts: seq<PlaidTxn>,
                     fails: set<(nat, nat)>, k: nat, j: nat)
    returns (r: map<string, Transaction>)
    ensures r == Writes(table, ctx, Puts(ts), fails, k, j)
  {
    ghost var ws := Puts(ts);
    r := table;
    for i := 0 to |ts|
      invariant Writes(r, ctx, ws[i..], fails, k, j + i) == Writes(table, ctx, ws, fails, k, j)
    {
      assert ws[i..][0] == Put(ts[i]) && ws[i..][1..] == ws[i + 1..];
      if (k, j + i) !in fails {
        r := Upsert(r, ctx, ts[i]);
      }
    }
    assert ws[|ts|..] == [];
  }

  /** The loop over the removed ids, their deletes being writes `j` on of
      answer `k`. */
  method DeleteItems(table: map<string, Transaction>, ctx: SyncContext, ids: seq<string>,
                     fails: set<(nat, nat)>, k: nat, j: nat)
    returns (r: map<string, Transaction>)
    ensures r == Writes(table, ctx, Deletes(ids), fails, k, j)
  {
    ghost var ws := Deletes(ids);
    r := table;
    for i := 0 to |ids|
      invariant Writes(r, ctx, ws[i..], fails, k, j + i) == Writes(table, ctx, ws, fails, k, j)
    {
      assert ws[i..][0] == Delete(ids[i]) && ws[i..][1..] == ws[i + 1..];
      if (k, j + i) !in fails {
        r := r - {ids[i]};
      }
    }
    assert ws[|ids|..] == [];
  }

  // ---------------------------------------------------------------------
  // Properties of a run

  /** The first request of a run carries the stored cursor, omitted when it
      is null or empty, and the requests already sent stay as they were. */
  lemma {:induction false} RequestsCarryStoredCursor(pages: seq<SyncPage>, k: nat, st: SyncState)
    requires k < |pages|
    ensures st.requests + [Requested(st.cursor)] <= SyncFrom(pages, k, st).state.requests
    decreases |pages| - k
  {
    if pages[k].SyncPage? && pages[k].has_more && k + 1 < |pages| {
      RequestsCarryStoredCursor(pages, k + 1, Advance(st, pages[k]));
    }
  }

  /** The counters summed over a list of pages. */
  function PageCounts(ps: seq<SyncPage>): (nat, nat, nat)
  {
    if ps == [] then (0, 0, 0)
    else
      var rest := PageCounts(ps[1..]);
      match ps[0]
      case PageFailed => rest
      case SyncPage(a, m, r, _, _) => (|a| + rest.0, |m| + rest.1, |r| + rest.2)
  }

  /** The number of requests a run from `k` sends. */
  function Sent(pages: seq<SyncPage>, k: nat, st: SyncState): int
    requires k <= |pages|
  {
    |SyncFrom(pages, k, st).state.requests| - |st.requests|
  }

  /** A run sends one request per page it reads, in order, stopping at the
      first failed page or the first page without `has_more`; it applies
      every page it reads except a failed one. */
  lemma {:induction false} SyncReadsPagesInOrder(pages: seq<SyncPage>, k: nat, st: SyncState)
    requires k <= |pages|
    ensures var res := SyncFrom(pages, k, st);
      var n := Sent(pages, k, st);
      && n >= 0 && k + n <= |pages|
      && (forall j :: k <= j < k + n - 1 ==> pages[j].SyncPage? && pages[j].has_more)
      && (res.SyncError? ==> n > 0 && pages[k + n - 1].PageFailed? && res.state.applied == st.applied + n - 1)
      && (res.SyncDone? ==> n > 0 && pages[k + n - 1].SyncPage? && !pages[k + n - 1].has_more && res.state.applied == st.applied + n)
      && (res.Pending? ==> k + n == |pages| && res.state.applied == st.applied + n
                           && forall j :: k <= j < |pages| ==> pages[j].SyncPage? && pages[j].has_more)
    decreases |pages| - k
  {
    if k < |pages| && pages[k].SyncPage? && pages[k].has_more {
      SyncReadsPagesInOrder(pages, k + 1, Advance(st, pages[k]));
    }
  }

  /** The counters grow by the numbers of items in the pages the run read,
      whether or not the rows existed. */
  lemma {:induction false} SyncCounts(pages: seq<SyncPage>, k: nat, st: SyncState)
    requires k <= |pages|
    ensures var res := SyncFrom(pages, k, st);
      var n := Sent(pages, k, st);
      && 0 <= n && k + n <= |pages|
      && res.state.added == st.added + PageCounts(pages[k..k + n]).0
      && res.state.modified == st.modified + PageCounts(pages[k..k + n]).1
      && res.state.removed == st.removed + PageCounts(pages[k..k + n]).2
    decreases |pages| - k
  {
    SyncReadsPagesInOrder(pages, k, st);
    if k < |pages| {
      assert pages[k..k + 1][1..] == [];
      if pages[k].SyncPage? && pages[k].has_more {
        SyncCounts(pages, k + 1, Advance(st, pages[k]));
        var n := Sent(pages, k, st);
        assert pages[k..k + n][1..] == pages[k + 1..k + n];
      }
    }
  }

  /** The state after the first `k` pages, when all of them succeed. */
  function After(pages: seq<SyncPage>, k: nat, st: SyncState): SyncState
    requires k <= |pages|
    requires forall j :: 0 <= j < k ==> pages[j].SyncPage?
  {
    if k == 0 then st else Advance(After(pages, k - 1, st), pages[k - 1])
  }

  lemma {:induction false} SyncSkipsPrefix(pages: seq<SyncPage>, k: nat, st: SyncState)
    requires k <= |pages|
    requires forall j :: 0 <= j < k ==> pages[j].SyncPage? && pages[j].has_more
    ensures SyncFrom(pages, 0, st) == SyncFrom(pages, k, After(pages, k, st))
  {
    if k > 0 {
      SyncSkipsPrefix(pages, k - 1, st);
    }
  }

  lemma {:induction false} AfterSamePrefix(p1: seq<SyncPage>, p2: seq<SyncPage>, k: nat, st: SyncState)
    requires k <= |p1| && k <= |p2|
    requires forall j :: 0 <= j < k ==> p1[j] == p2[j]
    requires forall j :: 0 <= j < k ==> p1[j].SyncPage?
    ensures After(p1, k, st) == After(p2, k, st)
  {
    if k > 0 {
      AfterSamePrefix(p1, p2, k - 1, st);
    }
  }

  /** `whole` is `part` continued after the state `base`: same cursor,
      counters, requests and applied pages offset by those of `base`. */
  predicate Continues(whole: SyncState, base: SyncState, part: SyncState)
  {
    whole.cursor == part.cursor
    && whole.added == base.added + part.added && whole.modified == base.modified + part.modified
    && whole.removed == base.removed + part.removed && whole.requests == base.requests + part.requests
    && whole.applied == base.applied + part.applied
  }

  predicate SameEnd(a: SyncResult, b: SyncResult)
  {
    (a.SyncError? <==> b.SyncError?) && (a.SyncDone? <==> b.SyncDone?) && (a.Pending? <==> b.Pending?)
  }

  lemma {:induction false} SyncShift(pages: seq<SyncPage>, k: nat, i: nat, whole: SyncState, base: SyncState, part: SyncState)
    requires k + i <= |pages|
    requires Continues(whole, base, part)
    ensures var a := SyncFrom(pages, k + i, whole);
      var b := SyncFrom(pages[k..], i, part);
      SameEnd(a, b) && Continues(a.state, base, b.state)
    decreases |pages| - (k + i)
  {
    if k + i < |pages| {
      assert pages[k..][i] == pages[k + i];
      AppendAssoc(base.requests, part.requests, [Requested(part.cursor)]);
      if pages[k + i].SyncPage? && pages[k + i].has_more {
        SyncShift(pages, k, i + 1, Advance(whole, pages[k + i]), base, Advance(part, pages[k + i]));
      }
    }
  }

  /** Resuming after a failure: when request `k` fails after `k` pages that
      all had more to come, a new run started from the cursor the failed run
      stored, and answered with the remaining pages, ends with the same
      cursor and kind of result as a run that never failed; the failed run
      applied its `k` pages, the two runs' counts add up to the
      uninterrupted run's, and the failed request is simply sent again. */
  lemma ResumeAfterFailure(pages: seq<SyncPage>, k: nat, cursor: Option<string>)
    requires k <= |pages|
    requires forall j :: 0 <= j < k ==> pages[j].SyncPage? && pages[j].has_more
    ensures var failed := SyncFrom(pages[..k] + [PageFailed], 0, Start(cursor));
      var resumed := SyncFrom(pages[k..], 0, Start(failed.state.cursor));
      var whole := SyncFrom(pages, 0, Start(cursor));
      && failed.SyncError? && failed.state.applied == k
      && SameEnd(whole, resumed)
      && whole.state.applied == k + resumed.state.applied
      && whole.state.cursor == resumed.state.cursor
      && whole.state.added == failed.state.added + resumed.state.added
      && whole.state.modified == failed.state.modified + resumed.state.modified
      && whole.state.removed == failed.state.removed + resumed.state.removed
      && (k < |pages| ==> |resumed.state.requests| > 0
                          && whole.state.requests == failed.state.requests + resumed.state.requests[1..])
  {
    var st := Start(cursor);
    var cut := pages[..k] + [PageFailed];
    assert forall j :: 0 <= j < k ==> pages[j] == cut[j];
    AfterSamePrefix(pages, cut, k, st);
    var a := After(pages, k, st);
    SyncSkipsPrefix(pages, k, st);
    SyncSkipsPrefix(cut, k, st);
    var failed := SyncFrom(cut, 0, st);
    assert failed == SyncError(a.(requests := a.requests + [Requested(a.cursor)]));
    AfterApplied(pages, k, st);
    var restart := Start(a.cursor);
    assert a.requests + restart.requests == a.requests;
    SyncShift(pages, k, 0, a, a, restart);
    var resumed := SyncFrom(pages[k..], 0, restart);
    if k < |pages| {
      RequestsCarryStoredCursor(pages[k..], 0, restart);
      assert resumed.state.requests == [Requested(a.cursor)] + resumed.state.requests[1..];
      AppendAssoc(a.requests, [Requested(a.cursor)], resumed.state.requests[1..]);
    } else {
      assert pages[k..] == [];
    }
  }

  /** The ledger side of resuming: the resumed run, applied to the ledger the
      failed run left, leaves the ledger of the run that never failed, as
      long as each page meets the same write failures in both (the resumed
      run's answer `i` is answer `k + i` of the uninterrupted one). With
      `fails` empty: when every write lands, resuming loses nothing. */
  lemma ResumedLedgerMatches(ctx: SyncContext, pages: seq<SyncPage>, k: nat, fails: set<(nat, nat)>,
                             ledger: map<string, Transaction>, cursor: Option<string>)
    requires k <= |pages|
    requires forall j :: 0 <= j < k ==> pages[j].SyncPage? && pages[j].has_more
    ensures var cut := pages[..k] + [PageFailed];
      var failed := SyncFrom(cut, 0, Start(cursor));
      var resumed := SyncFrom(pages[k..], 0, Start(failed.state.cursor));
      var whole := SyncFrom(pages, 0, Start(cursor));
      LedgerAfter(ledger, ctx, pages, fails, 0, whole.state.applied)
        == LedgerAfter(LedgerAfter(ledger, ctx, cut, fails, 0, failed.state.applied), ctx, pages[k..], fails, k, resumed.state.applied)
  {
    var cut := pages[..k] + [PageFailed];
    var m := ResumedApplied(pages, k, cursor);
    var failed := SyncFrom(cut, 0, Start(cursor));
    LedgerResumes(ledger, ctx, pages, cut, fails, k, m, failed.state.applied, SyncFrom(pages, 0, Start(cursor)).state.applied);
  }

  /** The page counts of resuming: the failed run applied its `k` pages and
      the uninterrupted run those and the resumed run's `m`. */
  lemma ResumedApplied(pages: seq<SyncPage>, k: nat, cursor: Option<string>) returns (m: nat)
    requires k <= |pages|
    requires forall j :: 0 <= j < k ==> pages[j].SyncPage? && pages[j].has_more
    ensures var failed := SyncFrom(pages[..k] + [PageFailed], 0, Start(cursor));
      && failed.state.applied == k
      && SyncFrom(pages[k..], 0, Start(failed.state.cursor)).state.applied == m
      && SyncFrom(pages, 0, Start(cursor)).state.applied == k + m
  {
    ResumeAfterFailure(pages, k, cursor);
    var failed := SyncFrom(pages[..k] + [PageFailed], 0, Start(cursor));
    m := SyncFrom(pages[k..], 0, Start(failed.state.cursor)).state.applied;
  }

  /** Applying `k` answers of a run cut short after them, and then the
      rest of the pages from answer `k` on, is applying the whole run. */
  lemma LedgerResumes(ledger: map<string, Transaction>, ctx: SyncContext, pages: seq<SyncPage>, cut: seq<SyncPage>,
                      fails: set<(nat, nat)>, k: nat, m: nat, cutApplied: nat, wholeApplied: nat)
    requires k <= |pages| && k <= |cut|
    requires forall j :: 0 <= j < k ==> pages[j] == cut[j]
    requires cutApplied == k && wholeApplied == k + m
    ensures LedgerAfter(ledger, ctx, pages, fails, 0, wholeApplied)
         == LedgerAfter(LedgerAfter(ledger, ctx, cut, fails, 0, cutApplied), ctx, pages[k..], fails, k, m)
  {
    LedgerAfterPrefix(ledger, ctx, pages, cut, fails, 0, k);
    LedgerAfterSplit(ledger, ctx, pages, fails, 0, k, m);
  }

  /** What resuming cannot repair: the upsert of a page's only item fails,
      the run still counts the item and stores the page's cursor, and the
      ledger lacks the row the same run would hold had the write landed.
      A later run asks for the changes after that cursor, which do not
      include the item again. */
  lemma FailedUpsertIsLost(ctx: SyncContext, ledger: map<string, Transaction>, t: PlaidTxn, next: string, cursor: Option<string>)
    requires t.transaction_id !in ledger
    ensures var pages := [SyncPage([t], [], [], next, false)];
      var res := SyncFrom(pages, 0, Start(cursor));
      && res.SyncDone? && res.state.added == 1 && res.state.applied == 1
      && StoredAfter(cursor, pages, {}, res.state.applied) == Some(next)
      && t.transaction_id !in LedgerAfter(ledger, ctx, pages, {(0, 0)}, 0, res.state.applied)
      && t.transaction_id in LedgerAfter(ledger, ctx, pages, {}, 0, res.state.applied)
  {
    var ws := PageWrites(SyncPage([t], [], [], next, false));
    assert ws == [Put(t)];
    assert Writes(ledger, ctx, ws, {(0, 0)}, 0, 0) == Writes(ledger, ctx, [], {(0, 0)}, 0, 1) == ledger;
    assert Writes(ledger, ctx, ws, {}, 0, 0) == Writes(Upsert(ledger, ctx, t), ctx, [], {}, 0, 1);
  }

  lemma {:induction false} AfterApplied(pages: seq<SyncPage>, k: nat, st: SyncState)
    requires k <= |pages|
    requires forall j :: 0 <= j < k ==> pages[j].SyncPage?
    ensures After(pages, k, st).applied == st.applied + k
  {
    if k > 0 {
      AfterApplied(pages, k - 1, st);
    }
  }
}
