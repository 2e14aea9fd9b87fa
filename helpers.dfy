/**
 * The arithmetic helpers of src/lib/helpers.ts. Numbers are exact reals;
 * `Math.round` rounds half up (towards +infinity on a tie), `Math.min` is
 * the smaller of two. The current date is an input.
 */
module Helpers {
  import opened Types
  import MockData

  /** `Math.round`: the nearest integer, a tie going up. */
  function Round(x: real): (r: int)
    ensures r as real - 0.5 <= x < r as real + 0.5
  {
    (x + 0.5).Floor
  }

  /** Rounding never goes down when its argument goes up. */
  lemma RoundMonotone(x: real, y: real)
    requires x <= y
    ensures Round(x) <= Round(y)
  {
    assert Round(x) as real - 0.5 <= x <= y < Round(y) as real + 0.5;
  }

  /** `calculateBudgetProgress`: percentage of `total` spent, rounded, never above 100; 0 for a zero total. */
  function BudgetProgress(spent: real, total: real): (r: int)
    ensures r <= 100
    ensures total == 0.0 ==> r == 0
    ensures total != 0.0 && r < 100 ==> r as real - 0.5 <= spent / total * 100.0 < r as real + 0.5
    ensures total != 0.0 && r == 100 ==> spent / total * 100.0 >= 99.5
  {
    if total == 0.0 then 0
    else var p := Round(spent / total * 100.0); if p < 100 then p else 100
  }

  /** For a fixed positive total, spending more never shows less progress. */
  lemma BudgetProgressMonotone(s1: real, s2: real, total: real)
    requires total > 0.0 && s1 <= s2
    ensures BudgetProgress(s1, total) <= BudgetProgress(s2, total)
  {
    assert s1 / total <= s2 / total;
    RoundMonotone(s1 / total * 100.0, s2 / total * 100.0);
  }

  /** With nothing negative and a positive total, progress is a percentage in 0..100. */
  lemma BudgetProgressRange(spent: real, total: real)
    requires spent >= 0.0 && total > 0.0
    ensures 0 <= BudgetProgress(spent, total) <= 100
  {
    BudgetProgressMonotone(0.0, spent, total);
  }

  /** Spending more than a positive budget shows a full bar. */
  lemma OverspentShowsFull(spent: real, total: real)
    requires 0.0 < total < spent
    ensures BudgetProgress(spent, total) == 100
  {
    assert spent / total > 1.0;
  }

  /** The three colour bands of a budget. */
  datatype BudgetBand = BudgetLow | BudgetMedium | BudgetHigh

  function BandClass(b: BudgetBand): string {
    match b
    case BudgetLow => "budget-low"
    case BudgetMedium => "budget-medium"
    case BudgetHigh => "budget-high"
  }

  /** `getBudgetStatusColor`: low from 90%, medium from 75%, high below. */
  function BudgetStatusColor(budget: Budget): (r: BudgetBand)
    ensures var p := BudgetProgress(budget.spent, budget.amount);
      (r == BudgetLow <==> p >= 90) && (r == BudgetMedium <==> 75 <= p < 90) && (r == BudgetHigh <==> p < 75)
  {
    var percentage := BudgetProgress(budget.spent, budget.amount);
    if percentage >= 90 then BudgetLow
    else if percentage >= 75 then BudgetMedium
    else BudgetHigh
  }

  /** The band only moves towards "low" as more of the same budget is spent. */
  lemma {:induction false} BudgetStatusColorMonotone(b1: Budget, b2: Budget)
    requires b1.amount == b2.amount > 0.0 && b1.spent <= b2.spent
    ensures BudgetStatusColor(b1) == BudgetLow ==> BudgetStatusColor(b2) == BudgetLow
    ensures BudgetStatusColor(b2) == BudgetHigh ==> BudgetStatusColor(b1) == BudgetHigh
  {
    BudgetProgressMonotone(b1.spent, b2.spent, b1.amount);
  }

  const FallbackColor: string := "#607D8B"

  /** `getCategoryColor`: the table colour of a category name; any other string gets the fallback. */
  function CategoryColor(category: string): (r: string)
    ensures ParseCategory(category).Some? ==> r == MockData.CategoryColors[category]
    ensures ParseCategory(category).None? ==> r == FallbackColor
  {
    MockData.CategoryColorsKeys(category);
    if category in MockData.CategoryColors && MockData.CategoryColors[category] != "" then
      MockData.CategoryColors[category]
    else FallbackColor
  }

  /** The Gregorian leap-year rule that `Date` follows. */
  predicate IsLeapYear(year: int) {
    (year % 4 == 0 && year % 100 != 0) || year % 400 == 0
  }

  /**
   * `new Date(year, month + 1, 0).getDate()`: day 0 of the next month is the
   * last day of this one. `month` is zero-based, as `getMonth()` returns it.
   */
  function LastDayOfMonth(year: int, month: int): (r: int)
    requires 0 <= month < 12
    ensures 28 <= r <= 31
    ensures month == 1 ==> (r == 29 <==> IsLeapYear(year))
  {
    if month == 1 then (if IsLeapYear(year) then 29 else 28)
    else if month in {3, 5, 8, 10} then 30
    else 31
  }

  /** `daysLeftInMonth`: days remaining after today in today's month; today is given. */
  function DaysLeftInMonth(year: int, month: int, day: int): (r: int)
    requires 0 <= month < 12 && 1 <= day <= LastDayOfMonth(year, month)
    ensures 0 <= r <= 30
    ensures r == 0 <==> day == LastDayOfMonth(year, month)
    ensures day + r == LastDayOfMonth(year, month)
  {
    LastDayOfMonth(year, month) - day
  }

  /** `calculatePercentageChange`: rounded percentage change; 100 when there was nothing before. */
  function PercentageChange(current: real, previous: real): (r: int)
    ensures previous == 0.0 ==> r == 100
    ensures previous != 0.0 ==> r as real - 0.5 <= (current - previous) / previous * 100.0 < r as real + 0.5
  {
    if previous == 0.0 then 100
    else Round((current - previous) / previous * 100.0)
  }

  /** No change is 0%, for any non-zero amount. */
  lemma PercentageChangeUnchanged(p: real)
    requires p != 0.0
    ensures PercentageChange(p, p) == 0
  {
  }

  /** Doubling a positive amount is +100%, halving it is -50%. */
  lemma PercentageChangeExamples(p: real)
    requires p > 0.0
    ensures PercentageChange(2.0 * p, p) == 100
    ensures PercentageChange(p / 2.0, p) == -50
  {
    assert (2.0 * p - p) / p == 1.0;
    assert (p / 2.0 - p) / p == -0.5;
  }
}
