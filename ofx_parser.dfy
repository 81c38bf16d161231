/** The OFX/QFX statement parser (src/lib/ofx-parser.ts): transaction
    blocks `<STMTTRN>...</STMTTRN>` are found in document order, tag values
    are read from each block, and a block becomes a record when it has an
    id, a posted date and a numeric amount. */
module OfxParser {
  import opened Common
  import opened Numbers

  /** `OFXTransaction`; `amount` is in cents, already in the ledger's sign
      convention (positive = money out). */
  datatype OfxTransaction = OfxTransaction(
    fitId: string, date: string, amount: int, name: string, memo: string, kind: string, checkNum: string)

  const Open: string := "<STMTTRN>"
  const Close: string := "</STMTTRN>"

  // ---------------------------------------------------------------------
  // Block search: /<STMTTRN>([\s\S]*?)<\/STMTTRN>/gi

  /** `pat` occurs at `i`, letters compared without regard to case (the
      `i` flag); `MatchesAtIsLowerEqual` gives the closed form. */
  predicate MatchesAt(text: string, i: nat, pat: string)
  {
    i + |pat| <= |text| && SameFrom(text, i, pat, 0)
  }

  /** Characters `k..` of `pat` agree, ignoring case, with `text` from `i + k`. */
  predicate SameFrom(text: string, i: nat, pat: string, k: nat)
    requires i + |pat| <= |text|
    decreases |pat| - k
  {
    k >= |pat| || (LowerChar(text[i + k]) == LowerChar(pat[k]) && SameFrom(text, i, pat, k + 1))
  }

  lemma {:induction false} SameFromAll(text: string, i: nat, pat: string, k: nat)
    requires i + |pat| <= |text|
    ensures SameFrom(text, i, pat, k) <==>
      forall m :: k <= m < |pat| ==> LowerChar(text[i + m]) == LowerChar(pat[m])
    decreases |pat| - k
  {
    if k < |pat| {
      SameFromAll(text, i, pat, k + 1);
    }
  }

  lemma MatchesAtIsLowerEqual(text: string, i: nat, pat: string)
    requires i + |pat| <= |text|
    ensures MatchesAt(text, i, pat) <==> Lower(text[i..i + |pat|]) == Lower(pat)
  {
    SameFromAll(text, i, pat, 0);
    if Lower(text[i..i + |pat|]) == Lower(pat) {
      forall m | 0 <= m < |pat|
        ensures LowerChar(text[i + m]) == LowerChar(pat[m])
      {
        assert Lower(text[i..i + |pat|])[m] == Lower(pat)[m];
      }
    }
  }

  /** First index at or after `from` where `pat` occurs (ignoring case);
      see `FindFromIsFirst`. */
  function FindFrom(text: string, from: nat, pat: string): (r: Option<nat>)
    ensures r.Some? ==> from <= r.value && r.value + |pat| <= |text|
    decreases |text| - from
  {
    if from + |pat| > |text| then None
    else if MatchesAt(text, from, pat) then Some(from)
    else FindFrom(text, from + 1, pat)
  }

  lemma {:induction false} FindFromIsFirst(text: string, from: nat, pat: string)
    ensures var r := FindFrom(text, from, pat);
      && (r.Some? ==> MatchesAt(text, r.value, pat))
      && (r.Some? ==> forall j :: from <= j < r.value ==> !MatchesAt(text, j, pat))
      && (r.None? ==> forall j :: from <= j ==> !MatchesAt(text, j, pat))
    decreases |text| - from
  {
    if from + |pat| <= |text| && !MatchesAt(text, from, pat) {
      FindFromIsFirst(text, from + 1, pat);
    }
  }

  /** One step of `blockRe.exec(text)` with `lastIndex == from`: the bounds
      of the captured content of the next block (see `NextBlockIsFirst`). */
  function NextBlock(text: string, from: nat): (r: Option<(nat, nat)>)
    ensures r.Some? ==> from + |Open| <= r.value.0 <= r.value.1 && r.value.1 + |Close| <= |text|
    decreases |text| - from
  {
    if from + |Open| > |text| then None
    else if MatchesAt(text, from, Open) then
      match FindFrom(text, from + |Open|, Close)
      case None => None
      case Some(j) => Some((from + |Open|, j))
    else NextBlock(text, from + 1)
  }

  /** The block `NextBlock` finds is delimited by an opening and a closing
      tag, the opening tag is the first one at or after `from`, and the
      content stops at the FIRST closing tag after it (the lazy `*?`). */
  lemma {:induction false} NextBlockIsFirst(text: string, from: nat)
    requires NextBlock(text, from).Some?
    ensures var r := NextBlock(text, from).value;
      && MatchesAt(text, r.0 - |Open|, Open) && MatchesAt(text, r.1, Close)
      && (forall j :: from <= j < r.0 - |Open| ==> !MatchesAt(text, j, Open))
      && (forall j :: r.0 <= j < r.1 ==> !MatchesAt(text, j, Close))
    decreases |text| - from
  {
    if MatchesAt(text, from, Open) {
      FindFromIsFirst(text, from + |Open|, Close);
    } else {
      NextBlockIsFirst(text, from + 1);
    }
  }

  /** When there is no block, no opening tag is followed by a closing tag. */
  lemma {:induction false} NoBlockNoPair(text: string, from: nat)
    requires NextBlock(text, from).None?
    ensures forall i, j :: from <= i && i + |Open| <= j ==> !(MatchesAt(text, i, Open) && MatchesAt(text, j, Close))
    decreases |text| - from
  {
    if from + |Open| > |text| {
    } else if MatchesAt(text, from, Open) {
      FindFromIsFirst(text, from + |Open|, Close);
    } else {
      NoBlockNoPair(text, from + 1);
    }
  }

  /** The contents of all blocks from `from` on, in document order: what the
      `exec` loop visits. */
  function Blocks(text: string, from: nat): seq<string>
    decreases |text| - from
  {
    var r := NextBlock(text, from);
    if r.None? then [] else [text[r.value.0..r.value.1]] + Blocks(text, r.value.1 + |Close|)
  }

  lemma BlocksStep(text: string, from: nat, s: nat, e: nat)
    requires NextBlock(text, from) == Some((s, e))
    ensures s <= e <= |text|
    ensures Blocks(text, from) == [text[s..e]] + Blocks(text, e + |Close|)
  {
  }

  // ---------------------------------------------------------------------
  // Tags: new RegExp(`<${tag}>([^<\r\n]+)`), case-sensitive

  predicate IsStop(c: char)
  {
    c == '<' || c == '\r' || c == '\n'
  }

  predicate NoStop(s: string)
  {
    forall i :: 0 <= i < |s| ==> !IsStop(s[i])
  }

  /** Length of the longest prefix of `s` without '<', CR or LF. */
  function ValueRun(s: string): (k: nat)
    ensures k <= |s|
  {
    if s != [] && !IsStop(s[0]) then 1 + ValueRun(s[1..]) else 0
  }

  lemma {:induction false} ValueRunIsLongest(s: string)
    ensures NoStop(s[..ValueRun(s)])
    ensures ValueRun(s) < |s| ==> IsStop(s[ValueRun(s)])
  {
    if s != [] && !IsStop(s[0]) {
      ValueRunIsLongest(s[1..]);
      assert s[..ValueRun(s)] == [s[0]] + s[1..][..ValueRun(s[1..])];
    }
  }

  /** The tag regex matches at `i`: the opening tag, then at least one
      value character. */
  predicate TagMatchAt(block: string, open: string, i: nat)
  {
    i + |open| < |block| && ExactFrom(block, i, open, 0) && !IsStop(block[i + |open|])
  }

  /** Characters `k..` of `pat` equal those of `text` from `i + k`. */
  predicate ExactFrom(text: string, i: nat, pat: string, k: nat)
    requires i + |pat| <= |text|
    decreases |pat| - k
  {
    k >= |pat| || (text[i + k] == pat[k] && ExactFrom(text, i, pat, k + 1))
  }

  lemma {:induction false} ExactFromIsSlice(text: string, i: nat, pat: string, k: nat)
    requires i + |pat| <= |text| && k <= |pat|
    ensures ExactFrom(text, i, pat, k) <==> text[i + k..i + |pat|] == pat[k..]
    decreases |pat| - k
  {
    if k < |pat| {
      ExactFromIsSlice(text, i, pat, k + 1);
      assert text[i + k..i + |pat|] == [text[i + k]] + text[i + k + 1..i + |pat|];
      assert pat[k..] == [pat[k]] + pat[k + 1..];
    }
  }

  function FindTag(block: string, open: string, from: nat): (r: Option<nat>)
    ensures r.Some? ==> from <= r.value && r.value + |open| < |block|
    decreases |block| - from
  {
    if from + |open| >= |block| then None
    else if TagMatchAt(block, open, from) then Some(from)
    else FindTag(block, open, from + 1)
  }

  /** `FindTag` finds the first position where the tag regex matches. */
  lemma {:induction false} FindTagIsFirst(block: string, open: string, from: nat)
    ensures var r := FindTag(block, open, from);
      && (r.Some? ==> TagMatchAt(block, open, r.value))
      && (r.Some? ==> forall j :: from <= j < r.value ==> !TagMatchAt(block, open, j))
      && (r.None? ==> forall j :: from <= j ==> !TagMatchAt(block, open, j))
    decreases |block| - from
  {
    if from + |open| < |block| && !TagMatchAt(block, open, from) {
      FindTagIsFirst(block, open, from + 1);
    }
  }

  /** `extractTag(block, tag)`: the trimmed value after the first position
      where the tag regex matches (`FindTagIsFirst`), or "" when it matches
      nowhere. */
  function ExtractTag(block: string, tag: string): string
  {
    var open := "<" + tag + ">";
    match FindTag(block, open, 0)
    case None => []
    case Some(i) => TagValue(block[i + |open|..])
  }

  /** The captured value characters, trimmed. */
  function TagValue(rest: string): string
  {
    Trim(rest[..ValueRun(rest)])
  }

  /** A tag value holds no '<', CR or LF and has no surrounding whitespace. */
  lemma ExtractTagShape(block: string, tag: string)
    ensures var r := ExtractTag(block, tag);
      NoStop(r) && (r == [] || (!IsWhitespace(r[0]) && !IsWhitespace(r[|r| - 1])))
  {
    var open := "<" + tag + ">";
    match FindTag(block, open, 0)
    case None =>
    case Some(i) =>
      var rest := block[i + |open|..];
      ValueRunIsLongest(rest);
      TrimNoStop(rest[..ValueRun(rest)]);
  }

  /** A block in which the tag never matches yields "". */
  lemma ExtractTagMissing(block: string, tag: string)
    requires forall j :: 0 <= j ==> !TagMatchAt(block, "<" + tag + ">", j)
    ensures ExtractTag(block, tag) == []
  {
    FindTagIsFirst(block, "<" + tag + ">", 0);
  }

  lemma TrimNoStop(v: string)
    requires NoStop(v)
    ensures NoStop(Trim(v))
  {
    var t := TrimStart(v);
    TrimStartIsSuffix(v);
    var u := TrimEnd(t);
    TrimEndIsPrefix(t);
    assert forall i :: 0 <= i < |u| ==> u[i] == v[|v| - |t| + i];
  }

  // ---------------------------------------------------------------------
  // Dates: parseOFXDate

  function KeepDigits(s: string): (r: string)
    ensures |r| <= |s|
  {
    if s == [] then []
    else (if IsDigit(s[0]) then [s[0]] else []) + KeepDigits(s[1..])
  }

  /** `parseOFXDate`: drop every non-digit, then join digits 1-4, 5-6 and
      7-8 with '-' (a part is shorter, or empty, when digits run out). */
  function OfxDate(raw: string): (r: string)
    ensures |KeepDigits(raw)| >= 8 ==> |r| == 10 && r[4] == '-' && r[7] == '-'
  {
    var d := KeepDigits(raw);
    Slice(d, 0, 4) + "-" + Slice(d, 4, 6) + "-" + Slice(d, 6, 8)
  }

  /** With at least eight digits in the raw value the date reads
      yyyy-mm-dd: the year, month and day are digits, and they are the
      first eight digits of the raw value in order (the time and zone that
      follow are dropped). */
  lemma OfxDateIsIsoDate(raw: string)
    requires |KeepDigits(raw)| >= 8
    ensures var r := OfxDate(raw);
      && |r| == 10 && r[4] == '-' && r[7] == '-'
      && AllDigits(r[..4]) && AllDigits(r[5..7]) && AllDigits(r[8..])
      && r[..4] + r[5..7] + r[8..] == KeepDigits(raw)[..8]
  {
    var d := KeepDigits(raw);
    var r := OfxDate(raw);
    KeepsOnlyDigits(raw);
    assert r[..4] == d[..4] && r[5..7] == d[4..6] && r[8..] == d[6..8];
    assert d[..8] == d[..4] + d[4..6] + d[6..8];
  }

  lemma {:induction false} KeepsOnlyDigits(s: string)
    ensures AllDigits(KeepDigits(s))
  {
    if s != [] {
      KeepsOnlyDigits(s[1..]);
    }
  }

  lemma {:induction false} KeepDigitsAppend(a: string, b: string)
    ensures KeepDigits(a + b) == KeepDigits(a) + KeepDigits(b)
  {
    if a != [] {
      var h := if IsDigit(a[0]) then [a[0]] else [];
      assert (a + b)[0] == a[0];
      assert (a + b)[1..] == a[1..] + b;
      calc {
        KeepDigits(a + b);
        h + KeepDigits(a[1..] + b);
        { KeepDigitsAppend(a[1..], b); }
        h + (KeepDigits(a[1..]) + KeepDigits(b));
        (h + KeepDigits(a[1..])) + KeepDigits(b);
        KeepDigits(a) + KeepDigits(b);
      }
    } else {
      assert a + b == b;
    }
  }

  lemma {:induction false} KeepDigitsOfDigits(a: string)
    requires AllDigits(a)
    ensures KeepDigits(a) == a
  {
    if a != [] {
      KeepDigitsOfDigits(a[1..]);
    }
  }

  /** A posted date that starts with eight digits (bare `YYYYMMDD` or any
      timestamped variant) gives `YYYY-MM-DD`. */
  lemma OfxDateOfTimestamp(ymd: string, rest: string)
    requires |ymd| == 8 && AllDigits(ymd)
    ensures OfxDate(ymd + rest) == ymd[..4] + "-" + ymd[4..6] + "-" + ymd[6..8]
  {
    KeepDigitsAppend(ymd, rest);
    KeepDigitsOfDigits(ymd);
    var d := KeepDigits(ymd + rest);
    assert d[..8] == ymd;
    assert d[0..4] == ymd[..4] && d[4..6] == ymd[4..6] && d[6..8] == ymd[6..8];
  }

  // ---------------------------------------------------------------------
  // Records

  /** The record one block yields: `None` when FITID, DTPOSTED or TRNAMT is
      empty or missing, or TRNAMT is not a number (the `continue`s). */
  function ToRecord(block: string): (r: Option<OfxTransaction>)
  {
    ReadRecord(block, [])
  }

  function ReadRecord(block: string, values: seq<string>): (r: Option<OfxTransaction>)
    requires |values| <= |RecordTags|
    decreases |RecordTags| - |values|
  {
    if |values| < |RecordTags| then ReadRecord(block, values + [ExtractTag(block, RecordTags[|values|])])
    else FromTags(values)
  }

  /** The tags a block is read for, in the order `FromTags` expects them. */
  const RecordTags: seq<string> := ["FITID", "DTPOSTED", "TRNAMT", "NAME", "MEMO", "TRNTYPE", "CHECKNUM"]

  /** `extractTag(block, t)` for every `t` of `RecordTags`, in order. */
  function TagValues(block: string): (values: seq<string>)
    ensures |values| == |RecordTags|
    ensures forall k :: 0 <= k < |RecordTags| ==> values[k] == ExtractTag(block, RecordTags[k])
  {
    seq(|RecordTags|, k requires 0 <= k < |RecordTags| => ExtractTag(block, RecordTags[k]))
  }

  /** Reading the tags one at a time reads all of them. */
  lemma {:induction false} ReadRecordReadsAll(block: string, values: seq<string>)
    requires |values| <= |RecordTags|
    requires forall k :: 0 <= k < |values| ==> values[k] == ExtractTag(block, RecordTags[k])
    ensures ReadRecord(block, values) == FromTags(TagValues(block))
    decreases |RecordTags| - |values|
  {
    if |values| < |RecordTags| {
      ReadRecordReadsAll(block, values + [ExtractTag(block, RecordTags[|values|])]);
    } else {
      assert values == TagValues(block);
    }
  }

  /** The record built from the values of `RecordTags`: none when FITID,
      DTPOSTED or TRNAMT is empty or TRNAMT is not a number; the name falls
      back to the memo. */
  function FromTags(values: seq<string>): (r: Option<OfxTransaction>)
    requires |values| == |RecordTags|
  {
    var fitId, dtPosted, trnAmt, name, memo := values[0], values[1], values[2], values[3], values[4];
    if fitId == [] || dtPosted == [] || trnAmt == [] then None
    else
      match ParseNumber(trnAmt)
      case None => None
      case Some(raw) =>
        Some(OfxTransaction(fitId, OfxDate(dtPosted), -raw, if name != [] then name else memo, memo,
                            values[5], values[6]))
  }

  /** A block yields a record exactly when FITID, DTPOSTED and TRNAMT are
      present and TRNAMT reads as a number; the record carries the id, the
      normalised date, the NEGATED amount (an OFX debit is negative, a
      ledger outflow positive), the name with the memo as fallback, and the
      type and check number. */
  lemma ToRecordFields(block: string)
    ensures var fitId, dtPosted, trnAmt := ExtractTag(block, "FITID"), ExtractTag(block, "DTPOSTED"), ExtractTag(block, "TRNAMT");
      ToRecord(block).Some? <==> fitId != [] && dtPosted != [] && trnAmt != [] && ParseNumber(trnAmt).Some?
    ensures ToRecord(block).Some? ==>
      var t := ToRecord(block).value;
      var name, memo := ExtractTag(block, "NAME"), ExtractTag(block, "MEMO");
      && t.fitId == ExtractTag(block, "FITID")
      && t.date == OfxDate(ExtractTag(block, "DTPOSTED"))
      && t.amount == -ParseNumber(ExtractTag(block, "TRNAMT")).value
      && t.name == (if name != [] then name else memo)
      && t.memo == memo
      && t.kind == ExtractTag(block, "TRNTYPE")
      && t.checkNum == ExtractTag(block, "CHECKNUM")
  {
    ReadRecordReadsAll(block, []);
  }


  /** The records one block contributes: its record, if it has one. */
  function RecordOf(block: string): (r: seq<OfxTransaction>)
    ensures |r| <= 1
    ensures ToRecord(block).Some? ==> r == [ToRecord(block).value]
    ensures ToRecord(block).None? ==> r == []
  {
    if ToRecord(block).Some? then [ToRecord(block).value] else []
  }

  /** The records of a run of blocks, in order; a block without a record
      contributes nothing (the `continue`s). */
  function RecordsOf(blocks: seq<string>): seq<OfxTransaction>
  {
    if blocks == [] then [] else RecordOf(blocks[0]) + RecordsOf(blocks[1..])
  }

  /** `parseOFX(text)`: the records of the blocks the `exec` loop visits. */
  function Records(text: string): seq<OfxTransaction>
  {
    RecordsOf(Blocks(text, 0))
  }

  lemma RecordsOfCons(b: string, bs: seq<string>)
    ensures RecordsOf([b] + bs) == RecordOf(b) + RecordsOf(bs)
  {
    assert ([b] + bs)[0] == b;
    assert ([b] + bs)[1..] == bs;
  }

  /** There are never more transactions than `<STMTTRN>` blocks. */
  lemma {:induction false} RecordsAtMostBlocks(blocks: seq<string>)
    ensures |RecordsOf(blocks)| <= |blocks|
  {
    if blocks != [] {
      RecordsAtMostBlocks(blocks[1..]);
    }
  }

  /** Every transaction is the record of one of the blocks. */
  lemma {:induction false} RecordsComeFromBlocks(blocks: seq<string>, t: OfxTransaction)
    requires t in RecordsOf(blocks)
    ensures exists b :: b in blocks && ToRecord(b) == Some(t)
  {
    var b := blocks[0];
    if t in RecordOf(b) {
      assert b in blocks && ToRecord(b) == Some(t);
    } else {
      RecordsComeFromBlocks(blocks[1..], t);
      var c :| c in blocks[1..] && ToRecord(c) == Some(t);
      assert c in blocks;
    }
  }

  /** A block with a record contributes it, in its place. */
  lemma {:induction false} BlockRecordKept(blocks: seq<string>, k: nat)
    requires k < |blocks| && ToRecord(blocks[k]).Some?
    ensures ToRecord(blocks[k]).value in RecordsOf(blocks)
  {
    if k > 0 {
      BlockRecordKept(blocks[1..], k - 1);
    }
  }

  /** The body of the `exec` loop for one block: its record is read and
      pushed, or the block is skipped (the `continue`s). */
  method TakeRecord(block: string, txs: seq<OfxTransaction>) returns (after: seq<OfxTransaction>)
    ensures after == txs + RecordOf(block)
  {
    var record := ToRecord(block);
    if record.None? {
      return txs;
    }
    after := txs + [record.value];
  }

  /** The loop's view of the blocks still to visit from `pos`: reading
      them on top of `done` gives `all`. */
  predicate Pending(text: string, pos: nat, done: seq<OfxTransaction>, all: seq<OfxTransaction>)
    decreases |text| - pos
  {
    match NextBlock(text, pos)
    case None => done == all
    case Some((s, e)) => Pending(text, e + |Close|, done + RecordOf(text[s..e]), all)
  }

  lemma {:induction false} PendingStart(text: string, pos: nat, done: seq<OfxTransaction>)
    ensures Pending(text, pos, done, done + RecordsOf(Blocks(text, pos)))
    decreases |text| - pos
  {
    match NextBlock(text, pos)
    case None =>
      assert done + [] == done;
    case Some((s, e)) =>
      var rest := Blocks(text, e + |Close|);
      BlocksStep(text, pos, s, e);
      RecordsOfCons(text[s..e], rest);
      AppendAssoc(done, RecordOf(text[s..e]), RecordsOf(rest));
      PendingStart(text, e + |Close|, done + RecordOf(text[s..e]));
  }

  /** `parseOFX(text)`: the `exec` loop over the blocks, skipping the blocks
      without a record. */
  method ParseOFX(text: string) returns (txs: seq<OfxTransaction>)
    ensures txs == Records(text)
  {
    txs := [];
    var pos: nat := 0;
    var m := NextBlock(text, pos);
    PendingStart(text, 0, []);
    assert [] + Records(text) == Records(text);
    while m.Some?
      invariant m == NextBlock(text, pos)
      invariant Pending(text, pos, txs, Records(text))
      decreases |text| - pos
    {
      var start, stop := m.value.0, m.value.1;
      var block := text[start..stop];
      txs := TakeRecord(block, txs);
      pos := stop + |Close|;
      m := NextBlock(text, pos);
    }
  }
}
