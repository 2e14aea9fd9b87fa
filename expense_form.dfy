/**
 * The expense form (src/components/forms/ExpenseForm.tsx): its validator,
 * its starting values, which calendar days it lets the user pick, and the
 * record it submits. Dates are millisecond timestamps, as `Date` holds them.
 */
module ExpenseForm {
  import opened Wrappers
  import opened Types

  /** The categories the select list offers, in order. */
  const ExpenseCategories: seq<string> :=
    ["housing", "food", "transportation", "utilities", "healthcare",
     "entertainment", "shopping", "personal", "education", "other"]

  /** The select list offers exactly the names the schema accepts. */
  lemma OfferedCategoriesAccepted(s: string)
    ensures s in ExpenseCategories <==> ParseCategory(s).Some?
  {
  }

  datatype ExpenseField = AmountField | CategoryField | DescriptionField | DateField

  /** What the form holds; `amount` already coerced to a number, `date` absent until one is picked. */
  datatype ExpenseValues = ExpenseValues(amount: real, category: string, description: string, date: Option<int>)

  /**
   * `formSchema`: a positive amount, one of the ten categories, a
   * description of at least three characters and a date. Each field is
   * checked on its own, so every failing field is reported.
   */
  function ExpenseErrors(v: ExpenseValues): (r: set<ExpenseField>)
    ensures AmountField in r <==> v.amount <= 0.0
    ensures CategoryField in r <==> ParseCategory(v.category).None?
    ensures DescriptionField in r <==> |v.description| < 3
    ensures DateField in r <==> v.date.None?
  {
    (if v.amount > 0.0 then {} else {AmountField}) +
    (if ParseCategory(v.category).Some? then {} else {CategoryField}) +
    (if |v.description| >= 3 then {} else {DescriptionField}) +
    (if v.date.Some? then {} else {DateField})
  }

  /** The starting values: amount 0, category `food`, no description, today. */
  function DefaultExpense(now: int): ExpenseValues {
    ExpenseValues(0.0, "food", "", Some(now))
  }

  /** An untouched form cannot be submitted: the amount and the description are wrong, and nothing else. */
  lemma DefaultExpenseRejected(now: int)
    ensures ExpenseErrors(DefaultExpense(now)) == {AmountField, DescriptionField}
  {
    var r := ExpenseErrors(DefaultExpense(now));
    assert AmountField in r && DescriptionField in r;
    assert CategoryField !in r && DateField !in r;
  }

  /** The record `expensesService.create` receives. */
  datatype NewExpense = NewExpense(amount: real, category: Category, description: string, date: int)

  /** `onSubmit` after validation: nothing unless every field is valid, then the values as they are. */
  function SubmitExpense(v: ExpenseValues): (r: Option<NewExpense>)
    ensures r.Some? <==> ExpenseErrors(v) == {}
    ensures r.Some? ==>
      r.value.amount == v.amount > 0.0 && CategoryName(r.value.category) == v.category &&
      r.value.description == v.description && Some(r.value.date) == v.date
  {
    if ExpenseErrors(v) == {} then
      assert AmountField !in ExpenseErrors(v) && CategoryField !in ExpenseErrors(v) && DateField !in ExpenseErrors(v);
      Some(NewExpense(v.amount, ParseCategory(v.category).value, v.description, v.date.value))
    else None
  }

  // ---------------------------------------------------------------------------
  // The date picker

  /** `new Date("1900-01-01")`: midnight UTC on 1 January 1900, in milliseconds since 1970. */
  const Jan1900: int := -2208988800000

  /** The calendar's `disabled` rule: days after now or before 1900. */
  predicate DateDisabled(date: int, now: int) {
    date > now || date < Jan1900
  }

  /** A day that can be picked now can still be picked at any later time: the window only grows. */
  lemma SelectableLater(date: int, now: int, later: int)
    requires !DateDisabled(date, now) && now <= later
    ensures !DateDisabled(date, later)
  {
  }

  /**
   * The range lives in the calendar only: the schema accepts any date, so a
   * future or pre-1900 date that reaches the values (typed, or kept from
   * a clock that moved back) raises no date error, and the submitted record
   * carries it.
   */
  lemma DisabledDateNotValidated(v: ExpenseValues, now: int)
    requires v.date.Some? && DateDisabled(v.date.value, now)
    ensures DateField !in ExpenseErrors(v)
    ensures ExpenseErrors(v) == {} ==> SubmitExpense(v).value.date == v.date.value
  {
  }

  /** The default date, now, can always be picked again (for any clock after 1900). */
  lemma DefaultDateSelectable(now: int)
    requires now >= Jan1900
    ensures !DateDisabled(DefaultExpense(now).date.value, now)
  {
  }
}
