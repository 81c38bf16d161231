/** The budget page (src/components/budgets/BudgetsPage.tsx): each budget
    is set against this month's spending in its category, giving the amount
    spent, the share used, what remains, whether it is over budget and the
    colour of its progress bar; the page adds the budgets and the spending
    up into totals. Amounts are integer cents. */
module Budgets {
  import opened Common
  import opened SpendingDonut

  /** A budget row as the page reads it (the joined category only gives a
      display name). */
  datatype Budget = Budget(id: string, category_id: string, amount: int, category_name: Option<string>)

  /** A budget with the figures the page derives for it. */
  datatype BudgetRow = BudgetRow(budget: Budget, spent: nat, pct: real, remaining: int)

  /** `Math.abs(spending?.find(s => s.category_id === id)?.total ?? 0)`:
      the magnitude of the first spending row of the category; nothing
      spent when the spending is not loaded or has no such row. */
  function Spent(spending: Option<seq<SpendingItem>>, categoryId: string): (r: nat)
    ensures spending.None? ==> r == 0
    ensures spending.Some? && (forall s :: s in spending.value ==> s.category_id != categoryId) ==> r == 0
    ensures spending.Some? && Find(spending.value, categoryId).Some? ==>
      r == Abs(Find(spending.value, categoryId).value.total)
  {
    if spending.None? then 0
    else
      match Find(spending.value, categoryId)
      case None => 0
      case Some(s) => Abs(s.total)
  }

  /** `spent / amount * 100` when something is budgeted, else 0. */
  function Pct(spent: nat, amount: int): real
  {
    if amount > 0 then (spent as real / amount as real) * 100.0 else 0.0
  }

  /** One entry of `budgetRows`. */
  function RowOf(budget: Budget, spending: Option<seq<SpendingItem>>): (r: BudgetRow)
    ensures r.budget == budget
    ensures r.spent == Spent(spending, budget.category_id)
    ensures r.pct == Pct(r.spent, budget.amount)
    ensures r.remaining + r.spent == budget.amount
  {
    var spent := Spent(spending, budget.category_id);
    BudgetRow(budget, spent, Pct(spent, budget.amount), budget.amount - spent)
  }

  /** `budgetRows`: one row per budget, in order; none while the budgets
      are not loaded. */
  function BudgetRows(budgets: Option<seq<Budget>>, spending: Option<seq<SpendingItem>>): (rows: seq<BudgetRow>)
    ensures budgets.None? ==> rows == []
    ensures budgets.Some? ==> |rows| == |budgets.value|
    ensures budgets.Some? ==> forall k :: 0 <= k < |rows| ==> rows[k] == RowOf(budgets.value[k], spending)
  {
    if budgets.None? then [] else seq(|budgets.value|, k requires 0 <= k < |budgets.value| => RowOf(budgets.value[k], spending))
  }

  /** `overBudget`. */
  predicate OverBudget(row: BudgetRow)
  {
    row.spent > row.budget.amount
  }

  /** The value of the progress bar, `Math.min(pct, 100)`. */
  function Progress(row: BudgetRow): real
  {
    if row.pct < 100.0 then row.pct else 100.0
  }

  datatype BarColour = ExpenseColour | Yellow | IncomeColour

  /** The progress bar's colour: expense when over budget, yellow past 75%,
      income otherwise. */
  function Bar(row: BudgetRow): BarColour
  {
    if OverBudget(row) then ExpenseColour else if row.pct > 75.0 then Yellow else IncomeColour
  }

  /** The share used is never negative, so the bar runs from 0 to 100. */
  lemma ProgressInRange(budget: Budget, spending: Option<seq<SpendingItem>>)
    ensures 0.0 <= RowOf(budget, spending).pct
    ensures 0.0 <= Progress(RowOf(budget, spending)) <= 100.0
  {
    var row := RowOf(budget, spending);
    if budget.amount > 0 {
      assert row.spent as real / budget.amount as real >= 0.0;
    }
  }

  /** A row is over budget exactly when nothing remains of it, and, when
      something is budgeted, exactly when more than 100% is used. */
  lemma OverBudgetMeaning(budget: Budget, spending: Option<seq<SpendingItem>>)
    ensures OverBudget(RowOf(budget, spending)) <==> RowOf(budget, spending).remaining < 0
    ensures budget.amount > 0 ==> (OverBudget(RowOf(budget, spending)) <==> RowOf(budget, spending).pct > 100.0)
  {
    var row := RowOf(budget, spending);
    if budget.amount > 0 {
      PctAboveHundred(row.spent, budget.amount);
    }
  }

  /** With something budgeted, more than 100% is used exactly when more
      than the amount is spent. */
  lemma PctAboveHundred(spent: nat, amount: int)
    requires amount > 0
    ensures Pct(spent, amount) > 100.0 <==> spent > amount
  {
    var a := amount as real;
    var q := spent as real / a;
    assert q * a == spent as real;
    if spent > amount {
      assert q * a > 1.0 * a;
      assert q > 1.0;
    } else {
      assert q * a <= 1.0 * a;
      assert q <= 1.0;
    }
  }

  /** With something budgeted, the bar's colour is read from the share
      used: expense past 100%, yellow past 75% up to 100%, income up to
      75%. */
  lemma BarThresholds(budget: Budget, spending: Option<seq<SpendingItem>>)
    requires budget.amount > 0
    ensures var row := RowOf(budget, spending);
      && (Bar(row) == ExpenseColour <==> row.pct > 100.0)
      && (Bar(row) == Yellow <==> 75.0 < row.pct <= 100.0)
      && (Bar(row) == IncomeColour <==> row.pct <= 75.0)
  {
    OverBudgetMeaning(budget, spending);
  }

  /** Without a budgeted amount the share is 0 and the bar is expense only
      when something was spent against a negative or zero budget. */
  lemma BarWithoutAmount(budget: Budget, spending: Option<seq<SpendingItem>>)
    requires budget.amount <= 0
    ensures RowOf(budget, spending).pct == 0.0
    ensures Bar(RowOf(budget, spending)) == IncomeColour <==> RowOf(budget, spending).spent <= budget.amount
  {
  }

  /** `totalBudgeted`. */
  function TotalBudgeted(rows: seq<BudgetRow>): int
  {
    if rows == [] then 0 else TotalBudgeted(rows[..|rows| - 1]) + rows[|rows| - 1].budget.amount
  }

  /** `totalSpent`. */
  function TotalSpent(rows: seq<BudgetRow>): int
  {
    if rows == [] then 0 else TotalSpent(rows[..|rows| - 1]) + rows[|rows| - 1].spent
  }

  /** What remains of every row, added up. */
  function TotalRemaining(rows: seq<BudgetRow>): int
  {
    if rows == [] then 0 else TotalRemaining(rows[..|rows| - 1]) + rows[|rows| - 1].remaining
  }

  /** The share shown on the total line: `totalSpent / totalBudgeted * 100`,
      or 0% when nothing is budgeted. */
  function TotalPct(rows: seq<BudgetRow>): real
  {
    if TotalBudgeted(rows) > 0 then (TotalSpent(rows) as real / TotalBudgeted(rows) as real) * 100.0 else 0.0
  }

  /** The "Remaining" card, budgeted less spent, is what remains of every
      budget added up. */
  lemma {:induction false} RemainingCardAddsUp(budgets: seq<Budget>, spending: Option<seq<SpendingItem>>)
    ensures var rows := BudgetRows(Some(budgets), spending);
      TotalBudgeted(rows) - TotalSpent(rows) == TotalRemaining(rows)
  {
    var rows := BudgetRows(Some(budgets), spending);
    if budgets != [] {
      RemainingCardAddsUp(budgets[..|budgets| - 1], spending);
      assert BudgetRows(Some(budgets[..|budgets| - 1]), spending) == rows[..|rows| - 1];
    }
  }

  /** The total spent is never negative, and it is zero without budgets. */
  lemma {:induction false} TotalSpentNonNegative(rows: seq<BudgetRow>)
    ensures TotalSpent(rows) >= 0
    ensures rows == [] ==> TotalSpent(rows) == 0 && TotalBudgeted(rows) == 0 && TotalPct(rows) == 0.0
  {
    if rows != [] {
      TotalSpentNonNegative(rows[..|rows| - 1]);
    }
  }

  /** When the page as a whole is over budget, at least one budget is. */
  lemma {:induction false} OverallOverBudget(budgets: seq<Budget>, spending: Option<seq<SpendingItem>>)
    requires var rows := BudgetRows(Some(budgets), spending); TotalSpent(rows) > TotalBudgeted(rows)
    ensures exists k :: 0 <= k < |budgets| && OverBudget(RowOf(budgets[k], spending))
  {
    var rows := BudgetRows(Some(budgets), spending);
    var init := budgets[..|budgets| - 1];
    assert BudgetRows(Some(init), spending) == rows[..|rows| - 1];
    var last := RowOf(budgets[|budgets| - 1], spending);
    if OverBudget(last) {
      assert OverBudget(RowOf(budgets[|budgets| - 1], spending));
    } else {
      OverallOverBudget(init, spending);
      var k :| 0 <= k < |init| && OverBudget(RowOf(init[k], spending));
      assert budgets[k] == init[k];
    }
  }
}
