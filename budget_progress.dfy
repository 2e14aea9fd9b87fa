/**
 * src/components/dashboard/BudgetProgress.tsx: the dashboard card that shows
 * the first five budgets with a progress bar, a colour band and what is left
 * (or by how much the budget is exceeded).
 */
module BudgetProgressCard {
  import opened Types
  import Helpers

  /** The text under a bar: "Remaining x" or "Over by x", with x never negative. */
  datatype RemainingLabel = Remaining(shown: real) | OverBy(shown: real)

  /** One row of the card. */
  datatype ProgressRow = ProgressRow(category: Category, percentage: int, barClass: string, caption: RemainingLabel)

  /** The card's own if-chain choosing the bar colour class. */
  function ProgressColor(percentage: int): string {
    if percentage >= 90 then "bg-budget-low"
    else if percentage >= 75 then "bg-budget-medium"
    else "bg-budget-high"
  }

  /** The card's bar colour is the band `getBudgetStatusColor` gives the same budget. */
  lemma ProgressColorMatchesStatusColor(b: Budget)
    ensures ProgressColor(Helpers.BudgetProgress(b.spent, b.amount)) == "bg-" + Helpers.BandClass(Helpers.BudgetStatusColor(b))
  {
  }

  /** `remaining < 0 ? "Over by " : "Remaining "` followed by `Math.abs(remaining)`. */
  function RemainingText(remaining: real): (r: RemainingLabel)
    ensures r.shown >= 0.0
    ensures r.OverBy? <==> remaining < 0.0
    ensures remaining == (if r.OverBy? then -r.shown else r.shown)
  {
    if remaining < 0.0 then OverBy(-remaining) else Remaining(remaining)
  }

  /** The row drawn for one budget. */
  function Row(b: Budget): (r: ProgressRow)
    ensures r.category == b.category
    ensures r.percentage == Helpers.BudgetProgress(b.spent, b.amount)
    ensures r.barClass == "bg-" + Helpers.BandClass(Helpers.BudgetStatusColor(b))
    ensures r.caption.OverBy? <==> b.spent > b.amount
    ensures b.amount - b.spent == (if r.caption.OverBy? then -r.caption.shown else r.caption.shown)
  {
    var percentage := Helpers.BudgetProgress(b.spent, b.amount);
    var remaining := b.amount - b.spent;
    ProgressColorMatchesStatusColor(b);
    ProgressRow(b.category, percentage, ProgressColor(percentage), RemainingText(remaining))
  }

  /** `mockBudgets.slice(0, 5).map(...)`: the first five budgets at most, in their order. */
  function Rows(budgets: seq<Budget>): (r: seq<ProgressRow>)
    ensures |r| == if |budgets| < 5 then |budgets| else 5
    ensures forall i :: 0 <= i < |r| ==> r[i] == Row(budgets[i])
  {
    var shown := if |budgets| < 5 then budgets else budgets[..5];
    seq(|shown|, i requires 0 <= i < |shown| => Row(shown[i]))
  }

  /** An overspent budget shows a full (capped) bar, the "low" colour and "Over by". */
  lemma OverspentRow(b: Budget)
    requires 0.0 < b.amount < b.spent
    ensures Row(b).percentage == 100 && Row(b).barClass == "bg-budget-low" && Row(b).caption.OverBy?
    ensures Row(b).caption.shown == b.spent - b.amount
  {
    Helpers.OverspentShowsFull(b.spent, b.amount);
  }
}
