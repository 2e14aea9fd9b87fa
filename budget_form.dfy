/**
 * The budget form (src/components/forms/BudgetForm.tsx): its validator, its
 * starting values and the budget it creates.
 */
module BudgetForm {
  import opened Wrappers
  import opened Types
  import Helpers

  /** The categories the select list offers, in order. */
  const BudgetCategories: seq<string> :=
    ["housing", "food", "transportation", "utilities", "healthcare",
     "entertainment", "shopping", "personal", "education", "other"]

  /** The select list offers exactly the names the schema accepts. */
  lemma OfferedCategoriesAccepted(s: string)
    ensures s in BudgetCategories <==> ParseCategory(s).Some?
  {
  }

  datatype BudgetField = AmountField | CategoryField | PeriodField

  /** What the form holds; `amount` already coerced to a number. */
  datatype BudgetValues = BudgetValues(amount: real, category: string, period: string)

  /** `formSchema`: a positive amount, one of the ten categories and one of the three periods. */
  function BudgetErrors(v: BudgetValues): (r: set<BudgetField>)
    ensures AmountField in r <==> v.amount <= 0.0
    ensures CategoryField in r <==> ParseCategory(v.category).None?
    ensures PeriodField in r <==> ParsePeriod(v.period).None?
  {
    (if v.amount > 0.0 then {} else {AmountField}) +
    (if ParseCategory(v.category).Some? then {} else {CategoryField}) +
    (if ParsePeriod(v.period).Some? then {} else {PeriodField})
  }

  /** The starting values: amount 0, category `food`, period `monthly`. */
  const DefaultBudget: BudgetValues := BudgetValues(0.0, "food", "monthly")

  /** An untouched form is rejected for its amount alone. */
  lemma DefaultBudgetRejected()
    ensures BudgetErrors(DefaultBudget) == {AmountField}
  {
    var r := BudgetErrors(DefaultBudget);
    assert AmountField in r && CategoryField !in r && PeriodField !in r;
  }

  /** The record `budgetsService.create` receives. */
  datatype NewBudget = NewBudget(amount: real, category: Category, period: Period, currentAmount: real)

  /** `onSubmit` after validation: the values as they are, with nothing spent yet. */
  function CreateBudget(v: BudgetValues): (r: Option<NewBudget>)
    ensures r.Some? <==> BudgetErrors(v) == {}
    ensures r.Some? ==>
      r.value.currentAmount == 0.0 && r.value.amount == v.amount &&
      CategoryName(r.value.category) == v.category && PeriodName(r.value.period) == v.period
  {
    if BudgetErrors(v) != {} then None
    else
      assert CategoryField !in BudgetErrors(v) && PeriodField !in BudgetErrors(v);
      Some(NewBudget(v.amount, ParseCategory(v.category).value, ParsePeriod(v.period).value, 0.0))
  }

  /** A budget just created shows no progress and sits in the healthy band. */
  lemma NewBudgetUntouched(v: BudgetValues)
    requires CreateBudget(v).Some?
    ensures var b := CreateBudget(v).value;
      Helpers.BudgetProgress(b.currentAmount, b.amount) == 0 &&
      Helpers.BudgetStatusColor(Budget("", b.category, b.amount, b.currentAmount, b.period)) == Helpers.BudgetHigh
  {
    var b := CreateBudget(v).value;
    assert b.amount > 0.0;
    assert Helpers.Round(0.0) == 0;
  }
}
