/** The transaction queries (src/services/transactions.ts): the filtered,
    newest-first listing with its window, the recent-transactions list,
    deleting by id and the cash-flow totals. The database is the sequence of
    its rows in the order it reads them; a query's conditions, ordering and
    window are evaluated as PostgREST evaluates them. */
module TransactionQueries {
  import opened Common
  import opened Ledger

  // ---------------------------------------------------------------------
  // Conditions and filtering

  /** One condition a query carries. */
  datatype Condition =
    | HouseholdIs(household: string)
    | NotSplit
    | NameOrMerchantLike(text: string)
    | AccountIs(account: string)
    | CategoryIs(category: string)
    | DateFrom(start: string)
    | DateTo(end: string)

  /** `ilike '%text%'`: a case-insensitive substring test. */
  predicate Like(s: string, text: string)
  {
    Contains(Lower(s), Lower(text))
  }

  predicate Holds(c: Condition, t: Transaction)
  {
    match c
    case HouseholdIs(h) => t.household_id == h
    case NotSplit => !t.is_split
    case NameOrMerchantLike(text) => Like(t.name, text) || (t.merchant_name.Some? && Like(t.merchant_name.value, text))
    case AccountIs(a) => t.account_id == Some(a)
    case CategoryIs(cat) => t.category_id == Some(cat)
    case DateFrom(d) => DateNotAfter(d, t.date)
    case DateTo(d) => DateNotAfter(t.date, d)
  }

  predicate AllHold(conds: seq<Condition>, t: Transaction)
  {
    forall i :: 0 <= i < |conds| ==> Holds(conds[i], t)
  }

  /** The rows meeting every condition, in read order. */
  function Select(rows: seq<Transaction>, conds: seq<Condition>): (r: seq<Transaction>)
    ensures forall t :: t in r <==> t in rows && AllHold(conds, t)
  {
    if rows == [] then []
    else
      var last := rows[|rows| - 1];
      Select(rows[..|rows| - 1], conds) + (if AllHold(conds, last) then [last] else [])
  }

  // ---------------------------------------------------------------------
  // Newest first

  /** Dates never increase along the sequence. */
  predicate NewestFirstOrder(s: seq<Transaction>)
  {
    forall i, j :: 0 <= i < j < |s| ==> DateNotAfter(s[j].date, s[i].date)
  }

  /** Puts `x` after every row whose date is not before its own. */
  function InsertByDate(x: Transaction, s: seq<Transaction>): seq<Transaction>
  {
    if s == [] then [x]
    else if DateNotAfter(s[0].date, x.date) && s[0].date != x.date then [x] + s
    else [s[0]] + InsertByDate(x, s[1..])
  }

  /** `.order("date", { ascending: false })`; rows of the same date keep
      their read order. */
  function NewestFirst(rows: seq<Transaction>): seq<Transaction>
  {
    if rows == [] then [] else InsertByDate(rows[|rows| - 1], NewestFirst(rows[..|rows| - 1]))
  }

  /** Every row of a newest-first sequence is dated no later than its head. */
  lemma HeadIsNewest(s: seq<Transaction>, k: nat)
    requires NewestFirstOrder(s) && 0 < k < |s|
    ensures DateNotAfter(s[k].date, s[0].date)
  {
  }

  lemma {:induction false} InsertByDateKeepsOrder(x: Transaction, s: seq<Transaction>)
    requires NewestFirstOrder(s)
    ensures NewestFirstOrder(InsertByDate(x, s))
    ensures multiset(InsertByDate(x, s)) == multiset(s) + multiset{x}
  {
    if s == [] {
    } else if DateNotAfter(s[0].date, x.date) && s[0].date != x.date {
      InsertBeforeOlder(x, s);
    } else {
      InsertByDateKeepsOrder(x, s[1..]);
      DateNotAfterTotal(s[0].date, x.date);
      InsertAfterHead(x, s, InsertByDate(x, s[1..]));
    }
  }

  /** `x` ahead of a sequence whose head is strictly older stays newest first. */
  lemma InsertBeforeOlder(x: Transaction, s: seq<Transaction>)
    requires NewestFirstOrder(s) && s != [] && DateNotAfter(s[0].date, x.date)
    ensures NewestFirstOrder([x] + s)
  {
    var r := [x] + s;
    forall i, j | 0 <= i < j < |r|
      ensures DateNotAfter(r[j].date, r[i].date)
    {
      if i == 0 && j > 1 {
        HeadIsNewest(s, j - 1);
        DateNotAfterTrans(r[j].date, s[0].date, x.date);
      }
    }
  }

  /** A head no older than anything in the newest-first tail keeps the
      whole sequence newest first. */
  lemma InsertAfterHead(x: Transaction, s: seq<Transaction>, rest: seq<Transaction>)
    requires s != [] && NewestFirstOrder(s) && NewestFirstOrder(rest)
    requires DateNotAfter(x.date, s[0].date)
    requires multiset(rest) == multiset(s[1..]) + multiset{x}
    ensures NewestFirstOrder([s[0]] + rest)
    ensures multiset([s[0]] + rest) == multiset(s) + multiset{x}
  {
    assert s == [s[0]] + s[1..];
    var r := [s[0]] + rest;
    forall i, j | 0 <= i < j < |r|
      ensures DateNotAfter(r[j].date, r[i].date)
    {
      if i == 0 {
        var t := rest[j - 1];
        assert t in multiset(rest);
        if t != x {
          assert t in multiset(s[1..]);
          var k :| 0 <= k < |s[1..]| && s[1..][k] == t;
          HeadIsNewest(s, k + 1);
        }
      }
    }
  }

  /** The ordering sorts the rows by date, newest first, and loses or adds
      none of them. */
  lemma {:induction false} NewestFirstSorts(rows: seq<Transaction>)
    ensures NewestFirstOrder(NewestFirst(rows))
    ensures multiset(NewestFirst(rows)) == multiset(rows)
  {
    if rows != [] {
      var init, last := rows[..|rows| - 1], rows[|rows| - 1];
      NewestFirstSorts(init);
      InsertByDateKeepsOrder(last, NewestFirst(init));
      assert NewestFirst(rows) == InsertByDate(last, NewestFirst(init));
      assert multiset(rows) == multiset(init) + multiset{last} by {
        assert rows == init + [last];
      }
    }
  }

  // ---------------------------------------------------------------------
  // getTransactions

  /** `TransactionFilters`; a string filter is set when it is present and
      not empty, a number when it is present and not zero. */
  datatype Filters = Filters(
    householdId: string,
    search: Option<string>,
    accountId: Option<string>,
    categoryId: Option<string>,
    startDate: Option<string>,
    endDate: Option<string>,
    limit: Option<nat>,
    offset: Option<nat>)

  predicate IsSet(o: Option<string>)
  {
    o.Some? && o.value != []
  }

  predicate IsSetNat(o: Option<nat>)
  {
    o.Some? && o.value != 0
  }

  /** The rows the filters admit, stated on the filters directly. */
  predicate Matches(f: Filters, t: Transaction)
  {
    && t.household_id == f.householdId && !t.is_split
    && (IsSet(f.search) ==> Like(t.name, f.search.value) || (t.merchant_name.Some? && Like(t.merchant_name.value, f.search.value)))
    && (IsSet(f.accountId) ==> t.account_id == f.accountId)
    && (IsSet(f.categoryId) ==> t.category_id == f.categoryId)
    && (IsSet(f.startDate) ==> DateNotAfter(f.startDate.value, t.date))
    && (IsSet(f.endDate) ==> DateNotAfter(t.date, f.endDate.value))
  }

  /** A query: its conditions, a `.limit(n)` and a `.range(from, to)`,
      which replaces the limit when both are given. */
  datatype Query = Query(conds: seq<Condition>, limit: Option<nat>, range: Option<(nat, int)>)

  /** The rows a window keeps of the ordered result. */
  function Window(s: seq<Transaction>, q: Query): (r: seq<Transaction>)
    ensures |r| <= |s|
  {
    if q.range.Some? then
      var from := Min(q.range.value.0, |s|);
      var to := Max(from, Min(q.range.value.1 + 1, |s|));
      s[from..to]
    else if q.limit.Some? then s[..Min(q.limit.value, |s|)]
    else s
  }

  /** What the database answers: the windowed rows and the exact count of
      rows meeting the conditions. */
  function Run(q: Query, rows: seq<Transaction>): (seq<Transaction>, nat)
  {
    var selected := Select(rows, q.conds);
    (Window(NewestFirst(selected), q), |selected|)
  }

  /** The page the filters ask for: rows offset .. offset + (limit or 50) - 1
      with an offset, the first `limit` rows with only a limit, else all. */
  function Page(s: seq<Transaction>, f: Filters): seq<Transaction>
  {
    if IsSetNat(f.offset) then
      var size := if f.limit.Some? then f.limit.value else 50;
      s[Min(f.offset.value, |s|)..Min(f.offset.value + size, |s|)]
    else if IsSetNat(f.limit) then s[..Min(f.limit.value, |s|)]
    else s
  }

  /** The rows the filters admit, in read order. */
  function Matching(f: Filters, rows: seq<Transaction>): (r: seq<Transaction>)
    ensures forall t :: t in r <==> t in rows && Matches(f, t)
  {
    if rows == [] then []
    else
      var last := rows[|rows| - 1];
      Matching(f, rows[..|rows| - 1]) + (if Matches(f, last) then [last] else [])
  }

  /** Conditions that hold exactly of the rows the filters admit select
      those rows. */
  lemma {:induction false} SelectMatching(rows: seq<Transaction>, conds: seq<Condition>, f: Filters)
    requires forall t :: AllHold(conds, t) <==> Matches(f, t)
    ensures Select(rows, conds) == Matching(f, rows)
  {
    if rows != [] {
      SelectMatching(rows[..|rows| - 1], conds, f);
    }
  }

  /** The filter clauses up to stage `k` of `getTransactions` (0: household
      and not split, then search, account, category, start and end). */
  predicate MatchesUpTo(f: Filters, k: nat, t: Transaction)
  {
    && t.household_id == f.householdId && !t.is_split
    && (k >= 1 && IsSet(f.search) ==> Like(t.name, f.search.value) || (t.merchant_name.Some? && Like(t.merchant_name.value, f.search.value)))
    && (k >= 2 && IsSet(f.accountId) ==> t.account_id == f.accountId)
    && (k >= 3 && IsSet(f.categoryId) ==> t.category_id == f.categoryId)
    && (k >= 4 && IsSet(f.startDate) ==> DateNotAfter(f.startDate.value, t.date))
    && (k >= 5 && IsSet(f.endDate) ==> DateNotAfter(t.date, f.endDate.value))
  }

  lemma AllHoldAppend(conds: seq<Condition>, c: Condition, t: Transaction)
    ensures AllHold(conds + [c], t) <==> AllHold(conds, t) && Holds(c, t)
  {
    if AllHold(conds, t) && Holds(c, t) {
      forall i | 0 <= i < |conds + [c]|
        ensures Holds((conds + [c])[i], t)
      {
        if i < |conds| {
          assert (conds + [c])[i] == conds[i];
        }
      }
    }
    if AllHold(conds + [c], t) {
      forall i | 0 <= i < |conds|
        ensures Holds(conds[i], t)
      {
        assert (conds + [c])[i] == conds[i];
      }
      assert (conds + [c])[|conds|] == c;
    }
  }

  /** The query starts with the household and not-split conditions. */
  lemma FirstStage(f: Filters)
    ensures forall t :: AllHold([HouseholdIs(f.householdId), NotSplit], t) <==> MatchesUpTo(f, 0, t)
  {
    forall t
      ensures AllHold([HouseholdIs(f.householdId), NotSplit], t) <==> MatchesUpTo(f, 0, t)
    {
      var conds := [HouseholdIs(f.householdId), NotSplit];
      assert AllHold(conds, t) ==> Holds(conds[0], t) && Holds(conds[1], t);
    }
  }

  /** After the last stage every filter has been applied. */
  lemma AllStages(f: Filters)
    ensures forall t :: MatchesUpTo(f, 5, t) <==> Matches(f, t)
  {
  }

  /** The condition stage `k` (1 to 5) appends, when its filter is set. */
  function StageCondition(f: Filters, k: nat): Option<Condition>
  {
    if k == 1 && IsSet(f.search) then Some(NameOrMerchantLike(f.search.value))
    else if k == 2 && IsSet(f.accountId) then Some(AccountIs(f.accountId.value))
    else if k == 3 && IsSet(f.categoryId) then Some(CategoryIs(f.categoryId.value))
    else if k == 4 && IsSet(f.startDate) then Some(DateFrom(f.startDate.value))
    else if k == 5 && IsSet(f.endDate) then Some(DateTo(f.endDate.value))
    else None
  }

  /** One `if (filters.x) query = query.<filter>(...)` step: the query then
      selects the rows of the next stage. */
  lemma Narrowed(f: Filters, k: nat, conds: seq<Condition>, next: seq<Condition>)
    requires 1 <= k <= 5
    requires forall t :: AllHold(conds, t) <==> MatchesUpTo(f, k - 1, t)
    requires next == if StageCondition(f, k).Some? then conds + [StageCondition(f, k).value] else conds
    ensures forall t :: AllHold(next, t) <==> MatchesUpTo(f, k, t)
  {
    forall t
      ensures AllHold(next, t) <==> MatchesUpTo(f, k, t)
    {
      if StageCondition(f, k).Some? {
        AllHoldAppend(conds, StageCondition(f, k).value, t);
      }
    }
  }

  /** The query `getTransactions` builds: the filters' conditions, then
      the limit and the offset range. */
  method BuildQuery(f: Filters) returns (q: Query)
    ensures forall t :: AllHold(q.conds, t) <==> Matches(f, t)
    ensures q.range.Some? <==> IsSetNat(f.offset)
    ensures q.range.Some? ==> q.range.value == (f.offset.value, f.offset.value + (if f.limit.Some? then f.limit.value else 50) - 1)
    ensures q.limit.Some? <==> IsSetNat(f.limit)
    ensures q.limit.Some? ==> q.limit == f.limit
  {
    var conds := BuildConditions(f);
    q := Query(conds, None, None);
    if IsSetNat(f.limit) {
      q := q.(limit := f.limit);
    }
    if IsSetNat(f.offset) {
      q := q.(range := Some((f.offset.value, f.offset.value + (if f.limit.Some? then f.limit.value else 50) - 1)));
    }
  }

  /** The conditions of that query, one filter at a time. */
  method BuildConditions(f: Filters) returns (conds: seq<Condition>)
    ensures forall t :: AllHold(conds, t) <==> Matches(f, t)
  {
    conds := [HouseholdIs(f.householdId), NotSplit];
    FirstStage(f);
    ghost var prev := conds;
    if IsSet(f.search) {
      conds := conds + [NameOrMerchantLike(f.search.value)];
    }
    Narrowed(f, 1, prev, conds);
    prev := conds;
    if IsSet(f.accountId) {
      conds := conds + [AccountIs(f.accountId.value)];
    }
    Narrowed(f, 2, prev, conds);
    prev := conds;
    if IsSet(f.categoryId) {
      conds := conds + [CategoryIs(f.categoryId.value)];
    }
    Narrowed(f, 3, prev, conds);
    prev := conds;
    if IsSet(f.startDate) {
      conds := conds + [DateFrom(f.startDate.value)];
    }
    Narrowed(f, 4, prev, conds);
    prev := conds;
    if IsSet(f.endDate) {
      conds := conds + [DateTo(f.endDate.value)];
    }
    Narrowed(f, 5, prev, conds);
    AllStages(f);
  }

  /** `getTransactions`: the page of the household's matching rows, newest
      first, and how many rows match in all. */
  method GetTransactions(f: Filters, rows: seq<Transaction>) returns (data: seq<Transaction>, count: nat)
    ensures count == |Matching(f, rows)|
    ensures data == Page(NewestFirst(Matching(f, rows)), f)
  {
    var q := BuildQuery(f);
    SelectMatching(rows, q.conds, f);
    var answer := Run(q, rows);
    data, count := answer.0, answer.1;
  }

  /** A slice of a newest-first sequence is newest first. */
  lemma SliceKeepsOrder(s: seq<Transaction>, lo: nat, hi: nat)
    requires NewestFirstOrder(s) && lo <= hi <= |s|
    ensures NewestFirstOrder(s[lo..hi])
  {
    forall i, j | 0 <= i < j < hi - lo
      ensures DateNotAfter(s[lo..hi][j].date, s[lo..hi][i].date)
    {
      assert s[lo..hi][j] == s[lo + j] && s[lo..hi][i] == s[lo + i];
    }
  }

  /** What a page holds: only matching rows of the table, newest first, and
      with neither limit nor offset every matching row exactly once. */
  lemma PageOfMatches(f: Filters, rows: seq<Transaction>)
    ensures var page := Page(NewestFirst(Matching(f, rows)), f);
      && (forall t :: t in page ==> t in rows && Matches(f, t))
      && NewestFirstOrder(page)
      && (!IsSetNat(f.limit) && !IsSetNat(f.offset) ==> multiset(page) == multiset(Matching(f, rows)))
  {
    var m := Matching(f, rows);
    var s := NewestFirst(m);
    NewestFirstSorts(m);
    PageWithin(s, f);
    PageSorted(s, f);
    forall t | t in s
      ensures t in rows && Matches(f, t)
    {
      assert t in multiset(s);
    }
  }

  /** A page holds rows of the list it was cut from. */
  lemma PageWithin(s: seq<Transaction>, f: Filters)
    ensures forall t :: t in Page(s, f) ==> t in s
  {
  }

  /** Cutting a page keeps the order of a newest-first list. */
  lemma PageSorted(s: seq<Transaction>, f: Filters)
    requires NewestFirstOrder(s)
    ensures NewestFirstOrder(Page(s, f))
  {
    if IsSetNat(f.offset) {
      var size := if f.limit.Some? then f.limit.value else 50;
      SliceKeepsOrder(s, Min(f.offset.value, |s|), Min(f.offset.value + size, |s|));
    } else if IsSetNat(f.limit) {
      SliceKeepsOrder(s, 0, Min(f.limit.value, |s|));
    }
  }

  /** An offset page holds the `limit` (or 50) rows from the offset on, as
      far as there are any; a limited page the first `limit` rows. */
  lemma PageSize(f: Filters, rows: seq<Transaction>)
    ensures var page := Page(NewestFirst(Matching(f, rows)), f);
      var n := |Matching(f, rows)|;
      && (IsSetNat(f.offset) ==>
            |page| == Max(0, Min(f.offset.value + (if f.limit.Some? then f.limit.value else 50), n) - f.offset.value))
      && (!IsSetNat(f.offset) && IsSetNat(f.limit) ==> |page| == Min(f.limit.value, n))
      && (!IsSetNat(f.offset) && !IsSetNat(f.limit) ==> |page| == n)
  {
    var m := Matching(f, rows);
    NewestFirstSorts(m);
    assert |NewestFirst(m)| == |m| by {
      assert |multiset(NewestFirst(m))| == |multiset(m)|;
    }
  }

  // ---------------------------------------------------------------------
  // getRecentTransactions

  /** `getRecentTransactions` (default limit 10). */
  function RecentTransactions(household: string, limit: nat, rows: seq<Transaction>): seq<Transaction>
  {
    Run(Query([HouseholdIs(household), NotSplit], Some(limit), None), rows).0
  }

  /** The recent list is the first page of an unfiltered `getTransactions`
      with the same limit (a limit of 0 gives no rows, where
      `getTransactions` would read 0 as no limit). */
  lemma RecentIsFirstPage(household: string, limit: nat, rows: seq<Transaction>)
    ensures var f := Filters(household, None, None, None, None, None, Some(limit), None);
      limit > 0 ==> RecentTransactions(household, limit, rows) == Page(NewestFirst(Matching(f, rows)), f)
    ensures limit == 0 ==> RecentTransactions(household, limit, rows) == []
  {
    var f := Filters(household, None, None, None, None, None, Some(limit), None);
    var conds := [HouseholdIs(household), NotSplit];
    forall t
      ensures AllHold(conds, t) <==> Matches(f, t)
    {
      assert AllHold(conds, t) ==> Holds(conds[0], t) && Holds(conds[1], t);
    }
    SelectMatching(rows, conds, f);
  }

  // ---------------------------------------------------------------------
  // deleteTransactions

  /** `deleteTransactions(ids)` on the table keyed by id: the rows whose id
      is listed go, every other row stays as it was. */
  function DeleteTransactions(table: map<string, Transaction>, ids: seq<string>): (r: map<string, Transaction>)
    ensures forall k :: k in r <==> k in table && k !in ids
    ensures forall k :: k in r ==> r[k] == table[k]
  {
    map k | k in table && k !in ids :: table[k]
  }

  /** Deleting in two calls is deleting the two lists at once, and listing
      an id twice or an id that is not stored changes nothing more. */
  lemma DeleteInSteps(table: map<string, Transaction>, a: seq<string>, b: seq<string>)
    ensures DeleteTransactions(DeleteTransactions(table, a), b) == DeleteTransactions(table, a + b)
    ensures DeleteTransactions(table, a + a) == DeleteTransactions(table, a)
  {
    var r := DeleteTransactions(table, a + b);
    assert forall k :: k in a + b <==> k in a || k in b;
    assert DeleteTransactions(DeleteTransactions(table, a), b).Keys == r.Keys;
    assert forall k :: k in a + a <==> k in a;
    assert DeleteTransactions(table, a + a).Keys == DeleteTransactions(table, a).Keys;
  }

  // ---------------------------------------------------------------------
  // getCashFlow

  /** The rows `getCashFlow` reads: the household's, not split, dated within
      [start, end]. */
  function CashFlowConditions(household: string, start: string, end: string): seq<Condition>
  {
    [HouseholdIs(household), NotSplit, DateFrom(start), DateTo(end)]
  }

  /** Money in: the sum of |amount| over negative amounts. */
  function Income(rows: seq<Transaction>): (r: nat)
  {
    if rows == [] then 0
    else Income(rows[..|rows| - 1]) + (if rows[|rows| - 1].amount < 0 then -rows[|rows| - 1].amount else 0)
  }

  /** Money out: the sum of positive amounts. */
  function Expenses(rows: seq<Transaction>): (r: nat)
  {
    if rows == [] then 0
    else Expenses(rows[..|rows| - 1]) + (if rows[|rows| - 1].amount > 0 then rows[|rows| - 1].amount else 0)
  }

  datatype CashFlowSummary = CashFlowSummary(income: int, expenses: int, net: int)

  /** `getCashFlow(householdId, start, end)`. */
  function GetCashFlow(rows: seq<Transaction>, household: string, start: string, end: string): CashFlowSummary
  {
    var data := Select(rows, CashFlowConditions(household, start, end));
    CashFlowSummary(Income(data), Expenses(data), Income(data) - Expenses(data))
  }

  /** Signed total and absolute total of a list of amounts. */
  function Total(rows: seq<Transaction>): int
  {
    if rows == [] then 0 else Total(rows[..|rows| - 1]) + rows[|rows| - 1].amount
  }

  function AbsTotal(rows: seq<Transaction>): nat
  {
    if rows == [] then 0 else AbsTotal(rows[..|rows| - 1]) + Abs(rows[|rows| - 1].amount)
  }

  /** Every row lands on exactly one side (a zero amount on neither): the
      two sides add up to the absolute total, and income less expenses is
      the money that came in net, minus the signed total. */
  lemma {:induction false} SidesPartition(rows: seq<Transaction>)
    ensures Income(rows) + Expenses(rows) == AbsTotal(rows)
    ensures Income(rows) - Expenses(rows) == -Total(rows)
  {
    if rows != [] {
      SidesPartition(rows[..|rows| - 1]);
    }
  }

  /** The cash flow of the period: both totals non-negative, net is income
      less expenses and equals minus the signed total of the rows read. */
  lemma CashFlowMeaning(rows: seq<Transaction>, household: string, start: string, end: string)
    ensures var c := GetCashFlow(rows, household, start, end);
      var data := Select(rows, CashFlowConditions(household, start, end));
      && c.income >= 0 && c.expenses >= 0
      && c.income + c.expenses == AbsTotal(data)
      && c.net == c.income - c.expenses == -Total(data)
  {
    SidesPartition(Select(rows, CashFlowConditions(household, start, end)));
  }

  lemma {:induction false} SelectAppend(a: seq<Transaction>, b: seq<Transaction>, conds: seq<Condition>)
    ensures Select(a + b, conds) == Select(a, conds) + Select(b, conds)
    decreases |b|
  {
    if b == [] {
      assert a + b == a;
    } else {
      var init, last := b[..|b| - 1], b[|b| - 1];
      var kept := if AllHold(conds, last) then [last] else [];
      SelectAppend(a, init, conds);
      var ab := a + b;
      assert ab[..|ab| - 1] == a + init;
      assert ab[|ab| - 1] == last;
      assert Select(ab, conds) == Select(a + init, conds) + kept;
      assert Select(b, conds) == Select(init, conds) + kept;
      AppendAssoc(Select(a, conds), Select(init, conds), kept);
    }
  }

  lemma {:induction false} SidesAppend(a: seq<Transaction>, b: seq<Transaction>)
    ensures Income(a + b) == Income(a) + Income(b)
    ensures Expenses(a + b) == Expenses(a) + Expenses(b)
    decreases |b|
  {
    if b == [] {
      assert a + b == a;
    } else {
      SidesAppend(a, b[..|b| - 1]);
      assert (a + b)[..|a + b| - 1] == a + b[..|b| - 1];
    }
  }

  /** Only the household's unsplit rows of the period count: adding any
      other row leaves the cash flow as it was, and the cash flow of two
      batches of rows is the sum of theirs. */
  lemma CashFlowIgnoresOtherRows(rows: seq<Transaction>, t: Transaction, household: string, start: string, end: string)
    requires t.household_id != household || t.is_split || !DateNotAfter(start, t.date) || !DateNotAfter(t.date, end)
    ensures GetCashFlow(rows + [t], household, start, end) == GetCashFlow(rows, household, start, end)
  {
    var conds := CashFlowConditions(household, start, end);
    assert !Holds(conds[0], t) || !Holds(conds[1], t) || !Holds(conds[2], t) || !Holds(conds[3], t);
    assert !AllHold(conds, t);
    assert (rows + [t])[..|rows|] == rows;
    assert Select(rows + [t], conds) == Select(rows, conds);
  }

  lemma CashFlowAdds(a: seq<Transaction>, b: seq<Transaction>, household: string, start: string, end: string)
    ensures var x := GetCashFlow(a, household, start, end);
      var y := GetCashFlow(b, household, start, end);
      GetCashFlow(a + b, household, start, end) == CashFlowSummary(x.income + y.income, x.expenses + y.expenses, x.net + y.net)
  {
    var conds := CashFlowConditions(household, start, end);
    SelectAppend(a, b, conds);
    SidesAppend(Select(a, conds), Select(b, conds));
  }
}
