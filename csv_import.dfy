/** Importing a bank CSV export (src/components/transactions/CSVImportDialog.tsx):
    recognising the bank's column layout from the header row, normalising
    each row to a date, a payee name and an amount, and inserting the rows
    with a content-derived `import_hash` so that a re-import adds nothing. */
module CsvImport {
  import opened Common
  import opened Numbers
  import opened Ledger

  /** Which CSV column holds the date, the payee name and the amount;
      "" means the field is not mapped. */
  datatype ColumnMapping = ColumnMapping(date: string, name: string, amount: string)

  const Unmapped: ColumnMapping := ColumnMapping("", "", "")
  const Chase: ColumnMapping := ColumnMapping("Posting Date", "Description", "Amount")
  const Boa: ColumnMapping := ColumnMapping("Date", "Payee", "Amount")
  const Amex: ColumnMapping := ColumnMapping("Date", "Description", "Amount")

  /** The presets in declaration order. */
  const Presets: seq<ColumnMapping> := [Chase, Boa, Amex]

  // ---------------------------------------------------------------------
  // Preset detection

  /** The lower-cased header names (`colSet`). */
  function ColumnSet(cols: seq<string>): set<string>
  {
    set c | c in cols :: Lower(c)
  }

  /** `cols.find(c => c.toLowerCase() === wanted.toLowerCase())`. */
  function FindColumn(cols: seq<string>, wanted: string): (r: Option<string>)
    ensures r.Some? ==> r.value in cols && Lower(r.value) == Lower(wanted)
  {
    if cols == [] then None
    else if Lower(cols[0]) == Lower(wanted) then Some(cols[0])
    else FindColumn(cols[1..], wanted)
  }

  /** The membership test on `colSet` and the `find` agree: a header is
      found exactly when its lower-cased name is in the set. */
  lemma {:induction false} FindColumnAgreesWithSet(cols: seq<string>, wanted: string)
    ensures FindColumn(cols, wanted).Some? <==> Lower(wanted) in ColumnSet(cols)
  {
    if cols != [] {
      FindColumnAgreesWithSet(cols[1..], wanted);
      assert ColumnSet(cols) == {Lower(cols[0])} + ColumnSet(cols[1..]);
    }
  }

  /** `find` returns the first header that matches ignoring case. */
  lemma {:induction false} FindColumnIsFirst(cols: seq<string>, wanted: string, i: nat)
    requires i < |cols| && Lower(cols[i]) == Lower(wanted)
    requires forall j :: 0 <= j < i ==> Lower(cols[j]) != Lower(wanted)
    ensures FindColumn(cols, wanted) == Some(cols[i])
  {
    if i > 0 {
      FindColumnIsFirst(cols[1..], wanted, i - 1);
    }
  }

  /** All three of the preset's columns occur among the headers, ignoring case. */
  predicate PresetMatches(cols: seq<string>, p: ColumnMapping)
  {
    Lower(p.date) in ColumnSet(cols) && Lower(p.name) in ColumnSet(cols) && Lower(p.amount) in ColumnSet(cols)
  }

  /** The mapping a matching preset installs: for each field, the file's own
      spelling of the preset's column. */
  function Resolve(cols: seq<string>, p: ColumnMapping): (m: ColumnMapping)
    requires PresetMatches(cols, p)
    ensures m.date in cols && Lower(m.date) == Lower(p.date)
    ensures m.name in cols && Lower(m.name) == Lower(p.name)
    ensures m.amount in cols && Lower(m.amount) == Lower(p.amount)
  {
    FindColumnAgreesWithSet(cols, p.date);
    FindColumnAgreesWithSet(cols, p.name);
    FindColumnAgreesWithSet(cols, p.amount);
    ColumnMapping(FindColumn(cols, p.date).value, FindColumn(cols, p.name).value, FindColumn(cols, p.amount).value)
  }

  /** The preset auto-detection of `handleFile`: the first preset in
      declaration order whose columns all occur wins; with none, the mapping
      is left as it was. */
  method DetectPreset(cols: seq<string>, current: ColumnMapping) returns (m: ColumnMapping)
    ensures PresetMatches(cols, Chase) ==> m == Resolve(cols, Chase)
    ensures !PresetMatches(cols, Chase) && PresetMatches(cols, Boa) ==> m == Resolve(cols, Boa)
    ensures !PresetMatches(cols, Chase) && !PresetMatches(cols, Boa) && PresetMatches(cols, Amex)
      ==> m == Resolve(cols, Amex)
    ensures !PresetMatches(cols, Chase) && !PresetMatches(cols, Boa) && !PresetMatches(cols, Amex)
      ==> m == current
  {
    m := current;
    var i := 0;
    while i < |Presets|
      invariant 0 <= i <= |Presets|
      invariant i >= 1 ==> !PresetMatches(cols, Chase)
      invariant i >= 2 ==> !PresetMatches(cols, Boa)
      invariant i >= 3 ==> !PresetMatches(cols, Amex)
      invariant m == current
    {
      var preset := Presets[i];
      if PresetMatches(cols, preset) {
        m := Resolve(cols, preset);
        break;
      }
      i := i + 1;
    }
  }

  // ---------------------------------------------------------------------
  // Row normalisation

  /** A parsed CSV row: header name to cell text. */
  type Row = map<string, string>

  /** `row[col]`; a missing cell is `undefined`, which the import treats
      like the empty cell. */
  function Cell(row: Row, col: string): string
  {
    if col in row then row[col] else ""
  }

  /** The date rewrite: a date with '/' is read as month/day/year and
      becomes year-month-day with month and day padded to two digits; the
      third piece is missing for "3/1", and JavaScript then writes
      "undefined". Any other date is kept verbatim. */
  function NormaliseDate(d: string): string
  {
    if '/' in d then
      var parts := Split(d, '/');
      (if |parts| > 2 then parts[2] else "undefined") + "-" + PadStart2(parts[0]) + "-" + PadStart2(parts[1])
    else d
  }

  /** "m/d/y" becomes "y-mm-dd". */
  lemma NormaliseSlashDate(m: string, d: string, y: string)
    requires '/' !in m && '/' !in d && '/' !in y
    ensures NormaliseDate(m + "/" + d + "/" + y) == y + "-" + PadStart2(m) + "-" + PadStart2(d)
  {
    var s := m + "/" + d + "/" + y;
    assert s == m + ['/'] + (d + ['/'] + y);
    SplitFirst(m, '/', d + ['/'] + y);
    SplitFirst(d, '/', y);
    SplitNone(y, '/', []);
    assert [] + y == y;
    assert Split(s, '/') == [m, d, y];
  }

  /** "m/d" has no year, which becomes the text "undefined". */
  lemma NormaliseMonthDay(m: string, d: string)
    requires '/' !in m && '/' !in d
    ensures NormaliseDate(m + "/" + d) == "undefined-" + PadStart2(m) + "-" + PadStart2(d)
  {
    var s := m + "/" + d;
    assert s == m + ['/'] + d;
    SplitFirst(m, '/', d);
    SplitNone(d, '/', []);
    assert [] + d == d;
    assert Split(s, '/') == [m, d];
  }

  /** A worked illustration on one input, not a general property: the
      general rules are `NormaliseSlashDate` and `NormaliseMonthDay`. */
  lemma NormaliseExample()
    ensures NormaliseDate("3/1/2024") == "2024-03-01"
  {
    var m, d, y := "3", "1", "2024";
    assert '/' !in m && '/' !in d && '/' !in y by {
      assert y == ['2', '0', '2', '4'];
    }
    assert m + "/" + d + "/" + y == "3/1/2024";
    NormaliseSlashDate(m, d, y);
    ExamplePadding();
  }

  /** The padding step of `NormaliseExample`, on the same input. */
  lemma ExamplePadding()
    ensures "2024" + "-" + PadStart2("3") + "-" + PadStart2("1") == "2024-03-01"
  {
    assert PadStart2("3") == "03" && PadStart2("1") == "01";
  }


  /** A date without '/' is kept as it is. */
  lemma NormaliseKeepsIsoDate(d: string)
    requires '/' !in d
    ensures NormaliseDate(d) == d
  {
  }

  /** The dedup key: "csv:" + normalised date + ":" + raw name + ":" + the
      parsed amount as JavaScript prints it. */
  function ImportKey(date: string, name: string, amount: int): string
  {
    "csv:" + date + ":" + name + ":" + Render(amount)
  }

  /** The amount cell with every '$' and ',' deleted, read by `parseFloat`. */
  function ParseAmount(cell: string): Option<int>
  {
    ParseNumber(RemoveChars(cell, {'$', ','}))
  }

  /** The per-row part of `handleImport` before the insert. */
  function PrepareRow(household: string, mapping: ColumnMapping, row: Row): Prepared
  {
    var dateStr := Cell(row, mapping.date);
    var name := Cell(row, mapping.name);
    var amountStr := Cell(row, mapping.amount);
    if dateStr == [] || name == [] || amountStr == [] then Skip
    else match ParseAmount(amountStr)
      case None => Skip
      case Some(amount) =>
        var date := NormaliseDate(dateStr);
        var key := ImportKey(date, name, amount);
        Insert(key, NewTransaction(household, name, amount, date, Csv).(import_hash := Some(key)))
  }

  /** A row is skipped exactly when one of its three cells is empty or
      missing or its amount does not parse; otherwise the inserted row is a
      csv row of the household carrying its key as `import_hash`. */
  lemma PrepareRowShape(household: string, mapping: ColumnMapping, row: Row)
    ensures PrepareRow(household, mapping, row).Skip? <==>
      Cell(row, mapping.date) == [] || Cell(row, mapping.name) == [] || Cell(row, mapping.amount) == []
      || ParseAmount(Cell(row, mapping.amount)).None?
    ensures PrepareRow(household, mapping, row).Insert? ==>
      var p := PrepareRow(household, mapping, row);
      var amount := ParseAmount(Cell(row, mapping.amount)).value;
      var date := NormaliseDate(Cell(row, mapping.date));
      && p.key == ImportKey(date, Cell(row, mapping.name), amount)
      && p.row.household_id == household && p.row.name == Cell(row, mapping.name)
      && p.row.amount == amount && p.row.date == date
      && p.row.source == Csv && p.row.import_hash == Some(p.key)
  {
  }

  /** The text after the last ':' (all of it when there is none). */
  function AfterLastColon(s: string): string
  {
    if s == [] || s[|s| - 1] == ':' then [] else AfterLastColon(s[..|s| - 1]) + [s[|s| - 1]]
  }

  lemma {:induction false} AfterLastColonOf(u: string, r: string)
    requires ':' !in r
    ensures AfterLastColon(u + ":" + r) == r
  {
    if r != [] {
      var s := u + ":" + r;
      assert s[..|s| - 1] == u + ":" + r[..|r| - 1];
      AfterLastColonOf(u, r[..|r| - 1]);
    }
  }

  /** The text before the first ':' (all of it when there is none). */
  function UpToColon(s: string): string
  {
    if s == [] || s[0] == ':' then [] else [s[0]] + UpToColon(s[1..])
  }

  lemma {:induction false} UpToColonOf(d: string, n: string)
    requires ':' !in d
    ensures UpToColon(d + ":" + n) == d
  {
    if d != [] {
      assert (d + ":" + n)[1..] == d[1..] + ":" + n;
      UpToColonOf(d[1..], n);
    }
  }

  lemma SplitAtColon(u1: string, r1: string, u2: string, r2: string)
    requires ':' !in r1 && ':' !in r2
    requires u1 + ":" + r1 == u2 + ":" + r2
    ensures u1 == u2 && r1 == r2
  {
    var s := u1 + ":" + r1;
    AfterLastColonOf(u1, r1);
    AfterLastColonOf(u2, r2);
    assert u1 == s[..|u1|] == u2;
  }

  lemma ColonAfterPrefix(d1: string, n1: string, d2: string, n2: string)
    requires ':' !in d1 && ':' !in d2
    requires d1 + ":" + n1 == d2 + ":" + n2
    ensures d1 == d2 && n1 == n2
  {
    var s := d1 + ":" + n1;
    UpToColonOf(d1, n1);
    UpToColonOf(d2, n2);
    assert n1 == s[|d1| + 1..] == n2;
  }

  lemma DropPrefix(p: string, a: string, b: string)
    requires p + a == p + b
    ensures a == b
  {
    assert a == (p + a)[|p|..];
  }

  lemma {:induction false} RenderHasNoColon(a: int)
    ensures ':' !in Render(a)
  {
    NatToStringNoColon(if a < 0 then (-a) / 100 else a / 100);
  }

  lemma {:induction false} NatToStringNoColon(n: nat)
    ensures ':' !in NatToString(n)
  {
    if n >= 10 {
      NatToStringNoColon(n / 10);
    }
  }

  /** Keys tell rows apart: two rows whose normalised dates hold no ':' get
      the same key only when they agree on date, name and amount. */
  lemma ImportKeyInjective(d1: string, n1: string, a1: int, d2: string, n2: string, a2: int)
    requires ':' !in d1 && ':' !in d2
    requires ImportKey(d1, n1, a1) == ImportKey(d2, n2, a2)
    ensures d1 == d2 && n1 == n2 && a1 == a2
  {
    KeyHeads(d1, n1, a1, d2, n2, a2);
    ColonAfterPrefix(d1, n1, d2, n2);
    RenderInjective(a1, a2);
  }

  /** Without the condition on ':' keys collide: a date that keeps a time
      (no '/', so `NormaliseDate` leaves it as it is) can trade its tail with
      the name, and the second row is then skipped as a duplicate. */
  lemma ImportKeyColonCollision(amount: int)
    ensures NormaliseDate("2024-03-01T10:00") == "2024-03-01T10:00"
    ensures NormaliseDate("2024-03-01T10") == "2024-03-01T10"
    ensures ImportKey("2024-03-01T10:00", "X", amount) == ImportKey("2024-03-01T10", "00:X", amount)
  {
    NormaliseKeepsIsoDate("2024-03-01T10:00");
    NormaliseKeepsIsoDate("2024-03-01T10");
  }

  lemma KeyTails(d1: string, n1: string, a1: int, d2: string, n2: string, a2: int)
    requires ImportKey(d1, n1, a1) == ImportKey(d2, n2, a2)
    ensures "csv:" + d1 + ":" + n1 == "csv:" + d2 + ":" + n2 && Render(a1) == Render(a2)
  {
    RenderHasNoColon(a1);
    RenderHasNoColon(a2);
    SplitAtColon("csv:" + d1 + ":" + n1, Render(a1), "csv:" + d2 + ":" + n2, Render(a2));
  }

  /** Equal keys have equal amounts rendered and equal text before them. */
  lemma KeyHeads(d1: string, n1: string, a1: int, d2: string, n2: string, a2: int)
    requires ImportKey(d1, n1, a1) == ImportKey(d2, n2, a2)
    ensures d1 + ":" + n1 == d2 + ":" + n2 && Render(a1) == Render(a2)
  {
    KeyTails(d1, n1, a1, d2, n2, a2);
    assert "csv:" + d1 + ":" + n1 == "csv:" + (d1 + ":" + n1);
    assert "csv:" + d2 + ":" + n2 == "csv:" + (d2 + ":" + n2);
    DropPrefix("csv:", d1 + ":" + n1, d2 + ":" + n2);
  }

  // ---------------------------------------------------------------------
  // The import loop

  /** Every row of the file, prepared. */
  function PrepareRows(household: string, mapping: ColumnMapping, rows: seq<Row>): (p: seq<Prepared>)
    ensures |p| == |rows|
  {
    seq(|rows|, j requires 0 <= j < |rows| => PrepareRow(household, mapping, rows[j]))
  }

  predicate MappingComplete(m: ColumnMapping)
  {
    m.date != [] && m.name != [] && m.amount != []
  }

  /** `handleImport`; `fails` holds the indices of the rows whose insert
      call fails for a reason other than a duplicate key. */
  method HandleImport(mapping: ColumnMapping, household: Option<string>, autoClassify: bool,
                      rows: seq<Row>, table: map<string, Transaction>, fails: set<nat>)
    returns (out: ImportOutcome)
    ensures out.NotStarted? <==> !MappingComplete(mapping) || household.None?
    ensures out.Finished? ==>
      out.tally == ApplyFrom(PrepareRows(household.value, mapping, rows), fails, 0, Tally(table, 0, 0))
    ensures out.Finished? ==> out.tally.imported + out.tally.skipped == |rows|
    ensures out.Finished? ==> out.classify == ShouldClassify(out.tally.imported, autoClassify)
  {
    if mapping.date == [] || mapping.name == [] || mapping.amount == [] || household.None? {
      return NotStarted;
    }
    var tally := ImportRows(household.value, mapping, rows, table, fails);
    ApplyCounts(PrepareRows(household.value, mapping, rows), fails, 0, Tally(table, 0, 0));
    out := Finished(tally, ShouldClassify(tally.imported, autoClassify));
  }

  /** The row loop of `handleImport`. */
  method ImportRows(hh: string, mapping: ColumnMapping, rows: seq<Row>, table: map<string, Transaction>, fails: set<nat>)
    returns (tally: Tally)
    ensures tally == ApplyFrom(PrepareRows(hh, mapping, rows), fails, 0, Tally(table, 0, 0))
  {
    ghost var prepared := PrepareRows(hh, mapping, rows);
    tally := Tally(table, 0, 0);
    var i := 0;
    while i < |rows|
      invariant i <= |rows|
      invariant ApplyFrom(prepared, fails, i, tally) == ApplyFrom(prepared, fails, 0, Tally(table, 0, 0))
    {
      assert prepared[i] == PrepareRow(hh, mapping, rows[i]);
      assert ApplyFrom(prepared, fails, i, tally) == ApplyFrom(prepared, fails, i + 1, Offer(tally, prepared[i], i in fails));
      tally := ImportRow(hh, mapping, rows[i], tally, i in fails);
      i := i + 1;
    }
  }

  /** One turn of the row loop: skip a row with an empty cell or an amount
      that does not parse, otherwise insert it under its key. */
  method ImportRow(hh: string, mapping: ColumnMapping, row: Row, before: Tally, callFails: bool)
    returns (after: Tally)
    ensures after == Offer(before, PrepareRow(hh, mapping, row), callFails)
  {
    var dateStr := Cell(row, mapping.date);
    var name := Cell(row, mapping.name);
    var amountStr := Cell(row, mapping.amount);
    if dateStr == [] || name == [] || amountStr == [] {
      return before.(skipped := before.skipped + 1);
    }
    var amount := ParseAmount(amountStr);
    if amount.None? {
      return before.(skipped := before.skipped + 1);
    }
    var date := NormaliseDate(dateStr);
    var key := ImportKey(date, name, amount.value);
    var txn := NewTransaction(hh, name, amount.value, date, Csv).(import_hash := Some(key));
    var insert := InsertByImportHash(before.table, key, txn, callFails);
    if insert.1 {
      after := Tally(insert.0, before.imported + 1, before.skipped);
    } else {
      after := Tally(insert.0, before.imported, before.skipped + 1);
    }
  }

  /** A CSV import never changes a row already in the ledger, and every row
      it adds is a csv row of the household, stored under its own key. */
  lemma CsvImportAddsCsvRows(household: string, mapping: ColumnMapping, rows: seq<Row>,
                             table: map<string, Transaction>, fails: set<nat>)
    ensures var r := ApplyFrom(PrepareRows(household, mapping, rows), fails, 0, Tally(table, 0, 0));
      && (forall k :: k in table ==> k in r.table && r.table[k] == table[k])
      && (forall k :: k in r.table && k !in table ==>
            r.table[k].source == Csv && r.table[k].import_hash == Some(k) && r.table[k].household_id == household)
  {
    var prepared := PrepareRows(household, mapping, rows);
    var r := ApplyFrom(prepared, fails, 0, Tally(table, 0, 0));
    ApplyOnlyAdds(prepared, fails, 0, Tally(table, 0, 0));
    forall k | k in r.table && k !in table
      ensures r.table[k].source == Csv && r.table[k].import_hash == Some(k) && r.table[k].household_id == household
    {
      var j :| 0 <= j < |prepared| && prepared[j] == Insert(k, r.table[k]);
      PrepareRowShape(household, mapping, rows[j]);
    }
  }
}
