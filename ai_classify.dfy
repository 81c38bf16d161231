/** AI batch classification (supabase/functions/ai-classify-transactions/index.ts):
    a window of uncategorised transactions is sent to the classifier in
    batches of 50, and every result naming a household category relabels the
    row it names.

    The candidate query and the classifier are oracles: the query's answer is
    a list of row ids (or an error), `answers[b]` is the classifier's answer
    to batch `b` (a batch with no entry in `answers` is a failed request),
    and `updateFails` holds the (batch, result) positions whose update call
    fails. */
module AiClassify {
  import opened Common
  import opened Ledger

  /** `BATCH_SIZE`. */
  const BatchSize: nat := 50

  /** The `.limit(500)` of the candidate query. */
  const CandidateLimit: nat := 500

  // ---------------------------------------------------------------------
  // The candidate query

  /** `.neq("classified_by", "user")` as the database evaluates it: SQL `<>`
      is not true for NULL, so an unclassified row does not pass either. */
  predicate NotUserSql(c: Option<Classifier>)
  {
    c.Some? && c.value != ByUser
  }

  /** The reading of the same filter that lets NULL through. */
  predicate NotUserLoose(c: Option<Classifier>)
  {
    c != Some(ByUser)
  }

  /** The two readings differ exactly on rows nobody has classified. */
  lemma FilterReadingsDiffer(c: Option<Classifier>)
    ensures NotUserLoose(c) && !NotUserSql(c) <==> c.None?
    ensures NotUserSql(c) ==> NotUserLoose(c)
  {
  }

  /** A row the candidate query selects (the model uses the SQL reading). */
  predicate IsCandidate(t: Transaction, household: string)
  {
    t.household_id == household && t.category_id.None? && NotUserSql(t.classified_by)
  }

  /** What the query answers: distinct candidate rows, newest date first, at
      most 500 of them, and all candidates when fewer than 500 come back. */
  predicate CandidateWindow(table: map<string, Transaction>, household: string, ids: seq<string>)
  {
    && |ids| <= CandidateLimit
    && (forall i :: 0 <= i < |ids| ==> ids[i] in table && IsCandidate(table[ids[i]], household))
    && (forall i, j :: 0 <= i < j < |ids| ==> ids[i] != ids[j])
    && (forall i, j :: 0 <= i < j < |ids| && ids[i] in table && ids[j] in table ==>
          DateNotAfter(table[ids[j]].date, table[ids[i]].date))
    && (|ids| < CandidateLimit ==> forall k :: k in table && IsCandidate(table[k], household) ==> k in ids)
  }

  /** Under the SQL reading, no row in the window is unclassified or
      classified by the user. */
  lemma WindowExcludesUnclassified(table: map<string, Transaction>, household: string, ids: seq<string>, k: string)
    requires CandidateWindow(table, household, ids)
    requires k in table && (table[k].classified_by.None? || table[k].classified_by == Some(ByUser))
    ensures k !in ids
  {
    forall i | 0 <= i < |ids|
      ensures ids[i] != k
    {
      assert IsCandidate(table[ids[i]], household);
    }
  }

  datatype CandidateQuery = QueryError | Rows(ids: seq<string>)

  // ---------------------------------------------------------------------
  // Batches

  /** `transactions.slice(i, i + BATCH_SIZE)` for i = 0, 50, 100, ... */
  function BatchSlices(ids: seq<string>, i: nat): seq<seq<string>>
    decreases |ids| - i
  {
    if i >= |ids| then [] else [ids[i..Min(|ids|, i + BatchSize)]] + BatchSlices(ids, i + BatchSize)
  }

  function Flatten(bs: seq<seq<string>>): seq<string>
  {
    if bs == [] then [] else bs[0] + Flatten(bs[1..])
  }

  /** The slices are consecutive: each holds between 1 and 50 ids, and
      together, in order, they are the window from `i` on, so every
      candidate is in exactly one batch. */
  lemma {:induction false} BatchSlicesCover(ids: seq<string>, i: nat)
    requires i <= |ids|
    ensures Flatten(BatchSlices(ids, i)) == ids[i..]
    ensures forall b :: 0 <= b < |BatchSlices(ids, i)| ==> 0 < |BatchSlices(ids, i)[b]| <= BatchSize
    decreases |ids| - i
  {
    if i < |ids| {
      var j := Min(|ids|, i + BatchSize);
      BatchSlicesCover(ids, j);
      assert BatchSlices(ids, i + BatchSize) == BatchSlices(ids, j);
      assert ids[i..j] + ids[j..] == ids[i..];
    }
  }

  /** The number of rows in the batch at offset `i`. */
  function BatchLen(n: nat, i: nat): nat
  {
    if i < n then Min(n, i + BatchSize) - i else 0
  }

  /** The loop's batch at offset `o = i + 50 * b` is slice `b` of the
      window: the `BatchLen(|ids|, o)` ids from `o` on. */
  lemma {:induction false} BatchLenIsSlice(ids: seq<string>, i: nat, b: nat)
    requires i <= |ids| && b < |BatchSlices(ids, i)|
    ensures var o := i + b * BatchSize;
      o < |ids| && o + BatchLen(|ids|, o) <= |ids|
      && BatchSlices(ids, i)[b] == ids[o..o + BatchLen(|ids|, o)]
    decreases b
  {
    if b > 0 {
      BatchSlicesTail(ids, i, b);
      BatchLenIsSlice(ids, i + BatchSize, b - 1);
      assert i + BatchSize + (b - 1) * BatchSize == i + b * BatchSize;
    }
  }

  lemma BatchSlicesTail(ids: seq<string>, i: nat, b: nat)
    requires i <= |ids| && 0 < b < |BatchSlices(ids, i)|
    ensures i + BatchSize < |ids| && b - 1 < |BatchSlices(ids, i + BatchSize)|
    ensures BatchSlices(ids, i)[b] == BatchSlices(ids, i + BatchSize)[b - 1]
  {
  }

  /** One result of the classifier: the row it names (`transaction_id ?? id`,
      `None` when it names none), the category name (`None` when absent, and
      then `.toLowerCase()` throws), and the confidence. */
  datatype ClassifyResult = ClassifyResult(target: Option<string>, category: Option<string>, confidence: real)

  /** The classifier's answer to one batch: failed (a non-OK response, no
      message content, or content that is not JSON), or the parsed results
      (`results ?? []`). */
  datatype BatchAnswer = BatchFailed | Results(results: seq<ClassifyResult>)

  function AnswerFor(answers: seq<BatchAnswer>, b: nat): BatchAnswer
  {
    if b < |answers| then answers[b] else BatchFailed
  }

  // ---------------------------------------------------------------------
  // Results

  /** `Math.round(confidence * 100)`: the confidence in hundredths, halves
      rounded up. */
  function RoundHundredths(c: real): int
  {
    (c * 100.0 + 0.5).Floor
  }

  /** The rounding moves the scaled confidence by at most half a hundredth,
      and keeps a confidence between 0 and 1 between 0 and 100. */
  lemma RoundHundredthsNear(c: real)
    ensures -0.5 < RoundHundredths(c) as real - c * 100.0 <= 0.5
    ensures 0.0 <= c <= 1.0 ==> 0 <= RoundHundredths(c) <= 100
  {
  }

  /** The counters the function returns. */
  datatype Counters = Counters(classified: nat, skipped: nat, errors: nat)

  /** What the batch loop threads: the ledger keyed by row id and the counters. */
  datatype Progress = Progress(table: map<string, Transaction>, counts: Counters)

  /** The update of an accepted result: the household's row with the named
      id gets the category, "ai" and the rounded confidence; an id naming no
      row of the household updates nothing, without an error. */
  function Label(table: map<string, Transaction>, household: string, target: Option<string>, categoryId: string, confidence: int)
    : map<string, Transaction>
  {
    if target.Some? && target.value in table && table[target.value].household_id == household then
      table[target.value := table[target.value].(category_id := Some(categoryId), classified_by := Some(ByAi),
                                                 ai_category_confidence := Some(confidence))]
    else table
  }

  /** The category id a result's category name selects, when it has one. */
  predicate Known(index: map<string, string>, name: string)
  {
    Lower(name) in index && index[Lower(name)] != []
  }

  /** The results of batch `b` (of `len` rows) from result `j` on. A result
      without a category throws: the whole batch is counted as errors, the
      results after it are dropped, and what the earlier results did stays. */
  function ResultsFrom(p: Progress, household: string, index: map<string, string>, rs: seq<ClassifyResult>,
                       j: nat, b: nat, len: nat, updateFails: set<(nat, nat)>): Progress
    requires j <= |rs|
    decreases |rs| - j
  {
    if j == |rs| then p
    else
      var r := rs[j];
      var c := p.counts;
      if r.category.None? then p.(counts := c.(errors := c.errors + len))
      else if !Known(index, r.category.value) then
        ResultsFrom(p.(counts := c.(skipped := c.skipped + 1)), household, index, rs, j + 1, b, len, updateFails)
      else if (b, j) in updateFails then
        ResultsFrom(p.(counts := c.(errors := c.errors + 1)), household, index, rs, j + 1, b, len, updateFails)
      else
        var t := Label(p.table, household, r.target, index[Lower(r.category.value)], RoundHundredths(r.confidence));
        ResultsFrom(Progress(t, c.(classified := c.classified + 1)), household, index, rs, j + 1, b, len, updateFails)
  }

  /** One batch: a failed answer counts the batch as errors. */
  function Batch(p: Progress, household: string, index: map<string, string>, answer: BatchAnswer,
                 b: nat, len: nat, updateFails: set<(nat, nat)>): Progress
  {
    match answer
    case BatchFailed => p.(counts := p.counts.(errors := p.counts.errors + len))
    case Results(rs) => ResultsFrom(p, household, index, rs, 0, b, len, updateFails)
  }

  /** The batch loop from offset `i` on, over a window of `n` rows. */
  function BatchesFrom(p: Progress, household: string, index: map<string, string>, n: nat,
                       answers: seq<BatchAnswer>, updateFails: set<(nat, nat)>, i: nat): Progress
    decreases n - i
  {
    if i >= n then p
    else
      var q := Batch(p, household, index, AnswerFor(answers, i / BatchSize), i / BatchSize, BatchLen(n, i), updateFails);
      BatchesFrom(q, household, index, n, answers, updateFails, i + BatchSize)
  }

  // ---------------------------------------------------------------------
  // The function

  /** The response: an error from the candidate query, or the counters. */
  datatype ClassifyOutcome = QueryFailed | Counted(counts: Counters)

  /** The body of the classify function after the membership test: no
      categories or no candidates return zero counters without a batch, and
      otherwise the batches are processed in order. */
  method ClassifyTransactions(household: string, categories: seq<Category>, table: map<string, Transaction>,
                              query: CandidateQuery, answers: seq<BatchAnswer>, updateFails: set<(nat, nat)>)
    returns (out: ClassifyOutcome, ledger: map<string, Transaction>)
    ensures categories == [] ==> out == Counted(Counters(0, 0, 0)) && ledger == table
    ensures categories != [] && query.QueryError? ==> out == QueryFailed && ledger == table
    ensures categories != [] && query == Rows([]) ==> out == Counted(Counters(0, 0, 0)) && ledger == table
    ensures categories != [] && query.Rows? ==>
      && out.Counted?
      && Progress(ledger, out.counts)
         == BatchesFrom(Progress(table, Counters(0, 0, 0)), household, CategoryByLowerName(categories),
                        |query.ids|, answers, updateFails, 0)
  {
    if |categories| == 0 {
      return Counted(Counters(0, 0, 0)), table;
    }
    var index := CategoryByLowerName(categories);
    if query.QueryError? {
      return QueryFailed, table;
    }
    var n := |query.ids|;
    if n == 0 {
      return Counted(Counters(0, 0, 0)), table;
    }
    ghost var goal := BatchesFrom(Progress(table, Counters(0, 0, 0)), household, index, n, answers, updateFails, 0);
    ledger := table;
    var classified: nat, skipped: nat, errors: nat := 0, 0, 0;
    var i := 0;
    while i < n
      invariant BatchesFrom(Progress(ledger, Counters(classified, skipped, errors)), household, index, n, answers, updateFails, i) == goal
      decreases n - i
    {
      var len := Min(n, i + BatchSize) - i;
      var b := i / BatchSize;
      var answer := AnswerFor(answers, b);
      ghost var start := Progress(ledger, Counters(classified, skipped, errors));
      if answer.BatchFailed? {
        errors := errors + len;
      } else {
        var rs := answer.results;
        var j := 0;
        var thrown := false;
        while j < |rs| && !thrown
          invariant j <= |rs|
          invariant !thrown ==>
            ResultsFrom(Progress(ledger, Counters(classified, skipped, errors)), household, index, rs, j, b, len, updateFails)
            == ResultsFrom(start, household, index, rs, 0, b, len, updateFails)
          invariant thrown ==>
            Progress(ledger, Counters(classified, skipped, errors)) == ResultsFrom(start, household, index, rs, 0, b, len, updateFails)
          decreases |rs| - j, if thrown then 0 else 1
        {
          var r := rs[j];
          if r.category.None? {
            errors := errors + len;
            thrown := true;
          } else {
            var key := Lower(r.category.value);
            if key !in index || index[key] == [] {
              skipped := skipped + 1;
            } else if (b, j) in updateFails {
              errors := errors + 1;
            } else {
              ledger := Label(ledger, household, r.target, index[key], RoundHundredths(r.confidence));
              classified := classified + 1;
            }
            j := j + 1;
          }
        }
      }
      i := i + BatchSize;
    }
    out := Counted(Counters(classified, skipped, errors));
  }

  // ---------------------------------------------------------------------
  // Properties

  /** The counters only grow. */
  predicate CountsGrow(a: Counters, b: Counters)
  {
    a.classified <= b.classified && a.skipped <= b.skipped && a.errors <= b.errors
  }

  lemma {:induction false} ResultsCountsGrow(p: Progress, household: string, index: map<string, string>, rs: seq<ClassifyResult>,
                                             j: nat, b: nat, len: nat, updateFails: set<(nat, nat)>)
    requires j <= |rs|
    ensures CountsGrow(p.counts, ResultsFrom(p, household, index, rs, j, b, len, updateFails).counts)
    decreases |rs| - j
  {
    if j < |rs| && rs[j].category.Some? {
      var c := p.counts;
      var r := rs[j];
      if !Known(index, r.category.value) {
        ResultsCountsGrow(p.(counts := c.(skipped := c.skipped + 1)), household, index, rs, j + 1, b, len, updateFails);
      } else if (b, j) in updateFails {
        ResultsCountsGrow(p.(counts := c.(errors := c.errors + 1)), household, index, rs, j + 1, b, len, updateFails);
      } else {
        var t := Label(p.table, household, r.target, index[Lower(r.category.value)], RoundHundredths(r.confidence));
        ResultsCountsGrow(Progress(t, c.(classified := c.classified + 1)), household, index, rs, j + 1, b, len, updateFails);
      }
    }
  }

  lemma {:induction false} BatchesCountsGrow(p: Progress, household: string, index: map<string, string>, n: nat,
                                             answers: seq<BatchAnswer>, updateFails: set<(nat, nat)>, i: nat)
    ensures CountsGrow(p.counts, BatchesFrom(p, household, index, n, answers, updateFails, i).counts)
    decreases n - i
  {
    if i < n {
      var b := i / BatchSize;
      var answer := AnswerFor(answers, b);
      var q := Batch(p, household, index, answer, b, BatchLen(n, i), updateFails);
      if answer.Results? {
        ResultsCountsGrow(p, household, index, answer.results, 0, b, BatchLen(n, i), updateFails);
      }
      BatchesCountsGrow(q, household, index, n, answers, updateFails, i + BatchSize);
    }
  }

  /** The index of the first result from `j` on without a category, or
      `|rs|` when there is none. */
  function FirstThrow(rs: seq<ClassifyResult>, j: nat): (k: nat)
    requires j <= |rs|
    ensures j <= k <= |rs|
    decreases |rs| - j
  {
    if j == |rs| || rs[j].category.None? then j else FirstThrow(rs, j + 1)
  }

  function Total(c: Counters): nat
  {
    c.classified + c.skipped + c.errors
  }

  /** Every result handled before a throw adds one to exactly one counter;
      a throw adds the batch's size to the errors. */
  lemma {:induction false} ResultsTotal(p: Progress, household: string, index: map<string, string>, rs: seq<ClassifyResult>,
                                        j: nat, b: nat, len: nat, updateFails: set<(nat, nat)>)
    requires j <= |rs|
    ensures var k := FirstThrow(rs, j);
      Total(ResultsFrom(p, household, index, rs, j, b, len, updateFails).counts)
        == Total(p.counts) + (k - j) + (if k < |rs| then len else 0)
    decreases |rs| - j
  {
    if j < |rs| && rs[j].category.Some? {
      var c := p.counts;
      var r := rs[j];
      if !Known(index, r.category.value) {
        ResultsTotal(p.(counts := c.(skipped := c.skipped + 1)), household, index, rs, j + 1, b, len, updateFails);
      } else if (b, j) in updateFails {
        ResultsTotal(p.(counts := c.(errors := c.errors + 1)), household, index, rs, j + 1, b, len, updateFails);
      } else {
        var t := Label(p.table, household, r.target, index[Lower(r.category.value)], RoundHundredths(r.confidence));
        ResultsTotal(Progress(t, c.(classified := c.classified + 1)), household, index, rs, j + 1, b, len, updateFails);
      }
    }
  }

  /** A result whose category is not a household category, ignoring case,
      only adds one to `skipped`. */
  lemma UnknownCategorySkipped(p: Progress, household: string, index: map<string, string>, rs: seq<ClassifyResult>,
                               j: nat, b: nat, len: nat, updateFails: set<(nat, nat)>)
    requires j < |rs| && rs[j].category.Some? && !Known(index, rs[j].category.value)
    ensures ResultsFrom(p, household, index, rs, j, b, len, updateFails)
         == ResultsFrom(p.(counts := p.counts.(skipped := p.counts.skipped + 1)), household, index, rs, j + 1, b, len, updateFails)
  {
  }

  /** How a row may change: not at all, or, for a row of the household, only
      its category (to the id of a household category), `classified_by`
      ("ai") and confidence. */
  predicate Relabelled(before: Transaction, after: Transaction, household: string, index: map<string, string>)
  {
    after == before
    || (&& before.household_id == household
        && after.category_id.Some? && after.category_id.value in index.Values
        && after.classified_by == Some(ByAi) && after.ai_category_confidence.Some?
        && after == before.(category_id := after.category_id, classified_by := after.classified_by,
                            ai_category_confidence := after.ai_category_confidence))
  }

  predicate TableRelabelled(before: map<string, Transaction>, after: map<string, Transaction>, household: string, index: map<string, string>)
  {
    before.Keys == after.Keys && forall k :: k in before ==> Relabelled(before[k], after[k], household, index)
  }

  lemma {:induction false} ResultsOnlyRelabel(p: Progress, household: string, index: map<string, string>, rs: seq<ClassifyResult>,
                                              j: nat, b: nat, len: nat, updateFails: set<(nat, nat)>)
    requires j <= |rs|
    ensures TableRelabelled(p.table, ResultsFrom(p, household, index, rs, j, b, len, updateFails).table, household, index)
    decreases |rs| - j
  {
    if j < |rs| && rs[j].category.Some? {
      var c := p.counts;
      var r := rs[j];
      if !Known(index, r.category.value) {
        ResultsOnlyRelabel(p.(counts := c.(skipped := c.skipped + 1)), household, index, rs, j + 1, b, len, updateFails);
      } else if (b, j) in updateFails {
        ResultsOnlyRelabel(p.(counts := c.(errors := c.errors + 1)), household, index, rs, j + 1, b, len, updateFails);
      } else {
        var t := Label(p.table, household, r.target, index[Lower(r.category.value)], RoundHundredths(r.confidence));
        ResultsOnlyRelabel(Progress(t, c.(classified := c.classified + 1)), household, index, rs, j + 1, b, len, updateFails);
        assert index[Lower(r.category.value)] in index.Values;
      }
    }
  }

  /** The classify function never adds or removes a row, and changes a row
      only by relabelling it: a row outside the household stays as it was. */
  lemma {:induction false} BatchesOnlyRelabel(p: Progress, household: string, index: map<string, string>, n: nat,
                                              answers: seq<BatchAnswer>, updateFails: set<(nat, nat)>, i: nat)
    ensures TableRelabelled(p.table, BatchesFrom(p, household, index, n, answers, updateFails, i).table, household, index)
    decreases n - i
  {
    if i < n {
      var b := i / BatchSize;
      var answer := AnswerFor(answers, b);
      var q := Batch(p, household, index, answer, b, BatchLen(n, i), updateFails);
      if answer.Results? {
        ResultsOnlyRelabel(p, household, index, answer.results, 0, b, BatchLen(n, i), updateFails);
      }
      BatchesOnlyRelabel(q, household, index, n, answers, updateFails, i + BatchSize);
    }
  }

  /** The update is restricted to the household only: a result that names a
      row the user classified, with a known category, relabels that row as
      classified by "ai", although the candidate query never selected it. */
  lemma AiOverwritesUserClassification(table: map<string, Transaction>, household: string, index: map<string, string>,
                                       n: nat, answers: seq<BatchAnswer>, updateFails: set<(nat, nat)>, k: string, name: string, conf: real)
    requires k in table && table[k].household_id == household && table[k].classified_by == Some(ByUser)
    requires n > 0 && |answers| > 0 && answers[0] == Results([ClassifyResult(Some(k), Some(name), conf)])
    requires Known(index, name) && (0, 0) !in updateFails
    ensures var r := BatchesFrom(Progress(table, Counters(0, 0, 0)), household, index, n, answers, updateFails, 0);
      k in r.table && r.table[k].classified_by == Some(ByAi)
  {
    var p := Progress(table, Counters(0, 0, 0));
    var rs := [ClassifyResult(Some(k), Some(name), conf)];
    var t := Label(table, household, Some(k), index[Lower(name)], RoundHundredths(conf));
    var done := Progress(t, Counters(1, 0, 0));
    assert ResultsFrom(p, household, index, rs, 0, 0, BatchLen(n, 0), updateFails)
        == ResultsFrom(done, household, index, rs, 1, 0, BatchLen(n, 0), updateFails);
    var q := Batch(p, household, index, answers[0], 0, BatchLen(n, 0), updateFails);
    assert q == done;
    assert BatchesFrom(p, household, index, n, answers, updateFails, 0)
        == BatchesFrom(q, household, index, n, answers, updateFails, BatchSize);
    BatchesOnlyRelabel(q, household, index, n, answers, updateFails, BatchSize);
  }
}
