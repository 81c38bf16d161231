/** The receipt processing function (supabase/functions/process-receipt/index.ts):
    it admits a request only after checking the caller and the scan, marks
    the scan "processing", asks the vision model for the receipt's contents
    and records either the extracted data ("completed") or an error
    ("failed"). The vision model and the storage download are oracles. */
module ProcessReceipt {
  import opened Common
  import opened Numbers
  import opened Ledger

  /** A request field is present when it is set and not empty (the
      handler's `!x` test). */
  predicate Present(o: Option<string>)
  {
    o.Some? && o.value != ""
  }

  // ---------------------------------------------------------------------
  // Media type

  /** The text after a path's last '.', or the whole path when it has none
      (`path.split(".").pop()`). */
  function Extension(path: string): string
  {
    var parts := Split(path, '.');
    parts[|parts| - 1]
  }

  /** The media type of a lower-cased extension. */
  function TypeOfExtension(ext: string): (media: string)
    ensures media in {"image/png", "image/gif", "image/webp", "application/pdf", "image/jpeg"}
  {
    if ext == "png" then "image/png"
    else if ext == "gif" then "image/gif"
    else if ext == "webp" then "image/webp"
    else if ext == "pdf" then "application/pdf"
    else "image/jpeg"
  }

  /** The media type sent with the image. */
  function MediaType(path: string): string
  {
    TypeOfExtension(Lower(Extension(path)))
  }

  /** A stored path `stem.ext` gets the type of its extension in any letter
      case, whatever dots the stem holds; a path without a dot is read as an
      extension of its own. */
  lemma MediaTypeOfExtension(stem: string, ext: string)
    requires '.' !in ext
    ensures MediaType(stem + "." + ext) == TypeOfExtension(Lower(ext))
    ensures MediaType(ext) == TypeOfExtension(Lower(ext))
  {
    SplitLast(stem, '.', ext);
    SplitNone(ext, '.', []);
    assert [] + ext == ext;
  }

  // ---------------------------------------------------------------------
  // Line items

  /** An item as the vision model returns it; a missing `category` is None. */
  datatype RawItem = RawItem(name: string, amount: int, category: Option<string>, confidence: real)

  /** The parsed JSON reply; `line_items` is None when absent. */
  datatype ParsedReceipt = ParsedReceipt(
    merchant: Option<string>,
    date: Option<string>,
    subtotal: Option<int>,
    tax: Option<int>,
    total: Option<int>,
    line_items: Option<seq<RawItem>>)

  /** The stored item for a raw one whose category is present. */
  function MapItem(index: map<string, string>, item: RawItem): ReceiptLineItem
    requires item.category.Some?
  {
    var key := Lower(item.category.value);
    ReceiptLineItem(item.name, item.amount, item.category.value,
      if key in index then Some(index[key]) else None, item.confidence)
  }

  /** The `lineItems` mapping; None when some item has no category, where
      the handler's `toLowerCase` call throws. */
  function MapItems(index: map<string, string>, items: seq<RawItem>): (r: Option<seq<ReceiptLineItem>>)
    ensures r.Some? <==> forall i :: 0 <= i < |items| ==> items[i].category.Some?
    ensures r.Some? ==> |r.value| == |items|
  {
    if forall i :: 0 <= i < |items| ==> items[i].category.Some? then
      Some(seq(|items|, i requires 0 <= i < |items| => MapItem(index, items[i])))
    else None
  }

  /** Each stored item copies its raw item, and its category id is the id
      of a household category whose lower-cased name is the item's
      lower-cased category, or None exactly when there is no such category. */
  lemma MapItemsMatchCategories(cats: seq<Category>, items: seq<RawItem>, i: nat)
    requires MapItems(CategoryByLowerName(cats), items).Some?
    requires i < |items|
    ensures var item := MapItems(CategoryByLowerName(cats), items).value[i];
      && items[i].category.Some?
      && item.name == items[i].name && item.amount == items[i].amount
      && item.category == items[i].category.value && item.confidence == items[i].confidence
      && (item.category_id.None? <==> forall c :: c in cats ==> Lower(c.name) != Lower(item.category))
      && (item.category_id.Some? ==>
            exists c :: c in cats && Lower(c.name) == Lower(item.category) && c.id == item.category_id.value)
  {
    CategoryByLowerNameEntries(cats, Lower(items[i].category.value));
  }

  // ---------------------------------------------------------------------
  // The handler

  /** The request body: unreadable JSON, or the two ids (None when absent). */
  datatype Body = Unreadable | Body(receipt_scan_id: Option<string>, household_id: Option<string>)

  /** The vision call's outcome: a non-OK HTTP status, a reply without
      content (or with empty content), or content that parses to a receipt
      (None when it is not valid JSON). */
  datatype VisionAnswer = NotOk(status: nat) | NoContent | Content(parsed: Option<ParsedReceipt>)

  /** What the handler cannot see: the API key, the user the auth header
      resolves to, the household memberships as (household, user) pairs,
      whether the download succeeds, the categories table, the vision
      model's answer, and which of the scan's status updates fail (0 the
      "processing" update, 1 the final one). */
  datatype Env = Env(
    apiKey: Option<string>,
    user: Option<string>,
    members: set<(string, string)>,
    downloadOk: bool,
    categories: seq<Category>,
    vision: VisionAnswer,
    statusFails: set<nat>)

  /** The HTTP reply: an error with its status code, an uncaught exception
      (500), or the scan's id and final status (200). */
  datatype Response = Rejected(code: int, error: string) | Crashed | Processed(scanId: string, status: ScanStatus)

  /** What the vision model is asked: the image's media type and the
      household's category names, in order. */
  datatype VisionRequest = VisionRequest(mediaType: string, categoryNames: seq<string>)

  /** The household's categories, in table order. */
  function HouseholdCategories(cats: seq<Category>, household: string): (r: seq<Category>)
    ensures forall c :: c in r <==> c in cats && c.household_id == household
  {
    if cats == [] then []
    else
      var last := cats[|cats| - 1];
      HouseholdCategories(cats[..|cats| - 1], household) + (if last.household_id == household then [last] else [])
  }

  /** The offered categories keep the table's order: selecting from two runs
      of rows gives the selection from the first, then from the second. */
  lemma {:induction false} HouseholdCategoriesKeepOrder(a: seq<Category>, b: seq<Category>, household: string)
    ensures HouseholdCategories(a + b, household) == HouseholdCategories(a, household) + HouseholdCategories(b, household)
    decreases |b|
  {
    if b == [] {
      assert a + b == a;
    } else {
      var init := b[..|b| - 1];
      assert (a + b)[..|a + b| - 1] == a + init;
      HouseholdCategoriesKeepOrder(a, init, household);
    }
  }

  function Names(cats: seq<Category>): (names: seq<string>)
    ensures |names| == |cats| && forall i :: 0 <= i < |cats| ==> names[i] == cats[i].name
  {
    seq(|cats|, i requires 0 <= i < |cats| => cats[i].name)
  }

  /** Every check before the scan is touched passes. */
  predicate Admitted(env: Env, authHeader: Option<string>, body: Body, scans: map<string, ReceiptScan>)
  {
    && Present(authHeader) && Present(env.apiKey) && env.user.Some?
    && body.Body? && Present(body.receipt_scan_id) && Present(body.household_id)
    && (body.household_id.value, env.user.value) in env.members
    && body.receipt_scan_id.value in scans
    && scans[body.receipt_scan_id.value].household_id == body.household_id.value
  }

  /** The scan once the "processing" update is issued: marked, unless the
      update fails (the handler does not read its error). */
  function Marked(env: Env, scan: ReceiptScan): ReceiptScan
  {
    if 0 in env.statusFails then scan else scan.(status := Processing)
  }

  /** The scan once the final update, which would leave `done`, is issued
      after the "processing" one: `done`, unless that update fails too. */
  function Finished(env: Env, scan: ReceiptScan, done: ReceiptScan): ReceiptScan
  {
    if 1 in env.statusFails then Marked(env, scan) else done
  }

  /** What the handler promises once a request is admitted for scan `id`
      of `household`: the scan is sent "processing" first and then at most
      one terminal status, which the reply carries; the stored status is
      the last one sent when both updates land, and otherwise one sent or
      the one it had; no other scan and no other field of this one changes
      except as listed. */
  predicate Processes(env: Env, household: string, id: string, scans: map<string, ReceiptScan>,
                      resp: Response, table: map<string, ReceiptScan>, writes: seq<ScanStatus>, sent: Option<VisionRequest>)
    requires id in scans
  {
    var cats := HouseholdCategories(env.categories, household);
    && writes != [] && writes[0] == Processing && |writes| <= 2
    && (resp.Processed? <==> |writes| == 2)
    && (resp.Processed? ==> resp.scanId == id && resp.status == writes[1] && resp.status in {Completed, ScanFailed})
    && !resp.Rejected?
    && table.Keys == scans.Keys
    && (forall k :: k in scans && k != id ==> table[k] == scans[k])
    && (0 !in env.statusFails && 1 !in env.statusFails ==> table[id].status == writes[|writes| - 1])
    && (table[id].status == scans[id].status || table[id].status in writes)
    && table[id].household_id == scans[id].household_id
    && table[id].storage_path == scans[id].storage_path
    && (sent.Some? <==> env.downloadOk)
    && (env.downloadOk ==> sent == Some(VisionRequest(MediaType(scans[id].storage_path), Names(cats))))
    // A failure records its error and keeps the scan's items.
    && (!env.downloadOk ==>
          resp == Processed(id, ScanFailed)
          && table[id] == Finished(env, scans[id],
                                   scans[id].(status := ScanFailed, extracted_data := ExtractError("Failed to download receipt image"))))
    && (env.downloadOk && env.vision.NotOk? ==>
          resp == Processed(id, ScanFailed)
          && table[id] == Finished(env, scans[id], scans[id].(status := ScanFailed,
                                   extracted_data := ExtractError("OpenAI API error: " + NatToString(env.vision.status)))))
    && (env.downloadOk && env.vision.NoContent? ==>
          resp == Processed(id, ScanFailed)
          && table[id] == Finished(env, scans[id],
                                   scans[id].(status := ScanFailed, extracted_data := ExtractError("No response from OpenAI"))))
    // An exception leaves the scan in "processing".
    && (resp.Crashed? ==> table[id] == Marked(env, scans[id]))
    && (env.downloadOk && env.vision == Content(None) ==> resp.Crashed?)
    // Success stores the header fields and the mapped items.
    && (env.downloadOk && env.vision.Content? && env.vision.parsed.Some? ==>
          var p := env.vision.parsed.value;
          var items := MapItems(CategoryByLowerName(cats), if p.line_items.Some? then p.line_items.value else []);
          && (items.None? ==> resp.Crashed?)
          && (items.Some? ==>
                resp == Processed(id, Completed)
                && table[id] == Finished(env, scans[id], scans[id].(status := Completed,
                                         extracted_data := Extracted(p.merchant, p.date, p.subtotal, p.tax, p.total),
                                         line_items := items.value))))
  }

  /** The reply never reads the updates' errors: when the final update
      fails and the first lands, the reply reports "completed" or "failed"
      while the scan stays "processing". */
  lemma ReplyIgnoresFailedUpdate(env: Env, household: string, id: string, scans: map<string, ReceiptScan>,
                                 resp: Response, table: map<string, ReceiptScan>, writes: seq<ScanStatus>, sent: Option<VisionRequest>)
    requires id in scans
    requires Processes(env, household, id, scans, resp, table, writes, sent)
    requires resp.Processed? && 0 !in env.statusFails && 1 in env.statusFails
    ensures resp.status in {Completed, ScanFailed} && table[id].status == Processing
  {
    assert table[id] == scans[id].(status := Processing) by {
      if env.downloadOk && env.vision.Content? && env.vision.parsed.Some? {
        var p := env.vision.parsed.value;
        var cats := HouseholdCategories(env.categories, household);
        var items := MapItems(CategoryByLowerName(cats), if p.line_items.Some? then p.line_items.value else []);
        assert items.Some?;
      }
    }
  }

  /** The handler. `writes` lists the statuses written to the scan, in
      order; `table` is `receipt_scans` afterwards; `sent` is the vision
      request, when one is made. */
  method HandleRequest(env: Env, authHeader: Option<string>, body: Body, scans: map<string, ReceiptScan>)
    returns (resp: Response, table: map<string, ReceiptScan>, writes: seq<ScanStatus>, sent: Option<VisionRequest>)
    // The rejections, in the order they are checked; none of them writes.
    ensures !Present(authHeader) ==> resp == Rejected(401, "Missing authorization")
    ensures Present(authHeader) && !Present(env.apiKey) ==> resp == Rejected(500, "OPENAI_API_KEY not configured")
    ensures Present(authHeader) && Present(env.apiKey) && env.user.None? ==> resp == Rejected(401, "Unauthorized")
    ensures Present(authHeader) && Present(env.apiKey) && env.user.Some? && body.Unreadable? ==> resp == Crashed
    ensures Present(authHeader) && Present(env.apiKey) && env.user.Some? && body.Body? ==>
      && (!Present(body.receipt_scan_id) || !Present(body.household_id) ==>
            resp == Rejected(400, "receipt_scan_id and household_id are required"))
      && (Present(body.receipt_scan_id) && Present(body.household_id) ==>
            && ((body.household_id.value, env.user.value) !in env.members ==> resp == Rejected(403, "Forbidden"))
            && ((body.household_id.value, env.user.value) in env.members && !Admitted(env, authHeader, body, scans) ==>
                  resp == Rejected(404, "Receipt scan not found")))
    ensures !Admitted(env, authHeader, body, scans) ==> writes == [] && table == scans && sent.None? && !resp.Processed?
    ensures Admitted(env, authHeader, body, scans) ==>
      && Processes(env, body.household_id.value, body.receipt_scan_id.value, scans, resp, table, writes, sent)
      && Path(scans[body.receipt_scan_id.value].status, writes)
  {
    if !Present(authHeader) {
      return Rejected(401, "Missing authorization"), scans, [], None;
    }
    if !Present(env.apiKey) {
      return Rejected(500, "OPENAI_API_KEY not configured"), scans, [], None;
    }
    if env.user.None? {
      return Rejected(401, "Unauthorized"), scans, [], None;
    }
    if body.Unreadable? {
      return Crashed, scans, [], None;
    }
    if !Present(body.receipt_scan_id) || !Present(body.household_id) {
      return Rejected(400, "receipt_scan_id and household_id are required"), scans, [], None;
    }
    var id := body.receipt_scan_id.value;
    var household := body.household_id.value;
    if (household, env.user.value) !in env.members {
      return Rejected(403, "Forbidden"), scans, [], None;
    }
    if id !in scans || scans[id].household_id != household {
      return Rejected(404, "Receipt scan not found"), scans, [], None;
    }
    resp, table, writes, sent := ProcessScan(env, household, id, scans);
    HandlerWritesPath(scans[id].status, writes);
  }

  /** The handler after admission: the status updates, the download, the
      vision call and the final update. An update that fails changes
      nothing and the handler goes on as if it had landed. */
  method ProcessScan(env: Env, household: string, id: string, scans: map<string, ReceiptScan>)
    returns (resp: Response, table: map<string, ReceiptScan>, writes: seq<ScanStatus>, sent: Option<VisionRequest>)
    requires id in scans
    ensures Processes(env, household, id, scans, resp, table, writes, sent)
  {
    table := scans;
    if 0 !in env.statusFails {
      table := table[id := table[id].(status := Processing)];
    }
    writes := [Processing];
    sent := None;

    // Each outcome ends with one update of the scan and a 200 reply.
    var status: ScanStatus;
    var done: ReceiptScan;
    if !env.downloadOk {
      status := ScanFailed;
      done := table[id].(status := status, extracted_data := ExtractError("Failed to download receipt image"));
    } else {
      var cats := HouseholdCategories(env.categories, household);
      var categoryByName := CategoryByLowerName(cats);
      sent := Some(VisionRequest(MediaType(scans[id].storage_path), Names(cats)));

      match env.vision
      case NotOk(code) =>
        status := ScanFailed;
        done := table[id].(status := status, extracted_data := ExtractError("OpenAI API error: " + NatToString(code)));
      case NoContent =>
        status := ScanFailed;
        done := table[id].(status := status, extracted_data := ExtractError("No response from OpenAI"));
      case Content(parsed) =>
        if parsed.None? {
          return Crashed, table, writes, sent;
        }
        var p := parsed.value;
        var raw := if p.line_items.Some? then p.line_items.value else [];
        var lineItems := MapItems(categoryByName, raw);
        if lineItems.None? {
          return Crashed, table, writes, sent;
        }
        status := Completed;
        done := table[id].(status := status,
                           extracted_data := Extracted(p.merchant, p.date, p.subtotal, p.tax, p.total),
                           line_items := lineItems.value);
    }
    if 1 !in env.statusFails {
      table := table[id := done];
    }
    writes := writes + [status];
    resp := Processed(id, status);
  }

  /** The statuses a scan moves through: any status may be sent back to
      "processing" (the handler does not look at the current one), and only
      "processing" moves on, to "completed" or "failed". */
  predicate Step(from: ScanStatus, to: ScanStatus)
  {
    to == Processing || (from == Processing && (to == Completed || to == ScanFailed))
  }

  /** A run of the handler writes a path of the status machine starting at
      the scan's stored status. */
  predicate Path(start: ScanStatus, writes: seq<ScanStatus>)
    decreases |writes|
  {
    writes == [] || (Step(start, writes[0]) && Path(writes[0], writes[1..]))
  }

  /** From any stored status, "processing" followed by at most one terminal
      status is a path of the status machine. It holds whatever `start` is
      because the handler never reads the scan's stored status before it
      writes "processing"; `HandleRequest` relies on it for its `Path`
      clause. */
  lemma HandlerWritesPath(start: ScanStatus, writes: seq<ScanStatus>)
    requires writes != [] && writes[0] == Processing && |writes| <= 2
    requires |writes| == 2 ==> writes[1] in {Completed, ScanFailed}
    ensures Path(start, writes)
  {
    if |writes| == 2 {
      assert writes[1..][1..] == [];
    } else {
      assert writes[1..] == [];
    }
  }
}
