/**
 * The income form (src/components/forms/IncomeForm.tsx): its validator, the
 * values it starts from when adding or editing an income, and whether a
 * submission updates the edited income or creates a new one.
 */
module IncomeForm {
  import opened Wrappers
  import opened Types

  datatype IncomeField = AmountField | PeriodField

  /** What the form holds; `amount` already coerced to a number. */
  datatype IncomeValues = IncomeValues(amount: real, source: string, period: string)

  /** `formSchema`: a positive amount and one of the three periods; the source is free text and may be empty. */
  function IncomeErrors(v: IncomeValues): (r: set<IncomeField>)
    ensures AmountField in r <==> v.amount <= 0.0
    ensures PeriodField in r <==> ParsePeriod(v.period).None?
  {
    (if v.amount > 0.0 then {} else {AmountField}) +
    (if ParsePeriod(v.period).Some? then {} else {PeriodField})
  }

  /** The income handed to the form for editing (`Partial<DbIncome>`); `""` stands for a missing string. */
  datatype IncomeRecord = IncomeRecord(id: string, amount: Option<real>, source: string, period: string)

  /** `isEditing = !!income?.id`. */
  predicate IsEditing(income: Option<IncomeRecord>) {
    income.Some? && income.value.id != ""
  }

  /**
   * The starting values: the income's amount if it has a non-zero one, else
   * 0; its source or `""`; its period or `monthly`. The period is taken as
   * it comes, without checking it is one of the three.
   */
  function IncomeDefaults(income: Option<IncomeRecord>): (v: IncomeValues)
    ensures income.None? ==> v == IncomeValues(0.0, "", "monthly")
    ensures income.Some? ==> v.amount == income.value.amount.GetOr(0.0) && v.source == income.value.source
    ensures income.Some? && income.value.period != "" ==> v.period == income.value.period
    ensures income.Some? && income.value.period == "" ==> v.period == "monthly"
  {
    if income.None? then IncomeValues(0.0, "", "monthly")
    else
      var inc := income.value;
      IncomeValues(
        if inc.amount.Some? && inc.amount.value != 0.0 then inc.amount.value else 0.0,
        inc.source,
        if inc.period != "" then inc.period else "monthly")
  }

  /** The fields sent to the store. */
  datatype IncomeFields = IncomeFields(amount: real, source: string, period: Period)

  datatype IncomeAction =
    | UpdateIncome(id: string, fields: IncomeFields)
    | CreateIncome(fields: IncomeFields)

  /** `onSubmit` after validation: update the edited income by its id, otherwise create one. */
  function SubmitIncome(income: Option<IncomeRecord>, v: IncomeValues): (r: Option<IncomeAction>)
    ensures r.Some? <==> IncomeErrors(v) == {}
    ensures r.Some? ==> (r.value.UpdateIncome? <==> IsEditing(income))
    ensures r.Some? && r.value.UpdateIncome? ==> r.value.id == income.value.id
    ensures r.Some? ==>
      r.value.fields.amount == v.amount && r.value.fields.source == v.source &&
      PeriodName(r.value.fields.period) == v.period
  {
    if IncomeErrors(v) != {} then None
    else
      assert PeriodField !in IncomeErrors(v);
      var fields := IncomeFields(v.amount, v.source, ParsePeriod(v.period).value);
      if IsEditing(income) then Some(UpdateIncome(income.value.id, fields)) else Some(CreateIncome(fields))
  }

  /** An empty new-income form is rejected for its amount alone. */
  lemma NewIncomeDefaultsRejected()
    ensures IncomeErrors(IncomeDefaults(None)) == {AmountField}
  {
    var r := IncomeErrors(IncomeDefaults(None));
    assert AmountField in r && PeriodField !in r;
  }

  /**
   * Saving a valid stored income without touching the form writes it back
   * unchanged: an update of the same id with the same amount, source and
   * period.
   */
  lemma UntouchedEditWritesBack(inc: IncomeRecord, p: Period)
    requires inc.id != "" && inc.amount.Some? && inc.amount.value > 0.0 && inc.period == PeriodName(p)
    ensures SubmitIncome(Some(inc), IncomeDefaults(Some(inc))) ==
      Some(UpdateIncome(inc.id, IncomeFields(inc.amount.value, inc.source, p)))
  {
    var v := IncomeDefaults(Some(inc));
    assert v.period == PeriodName(p);
    assert IncomeErrors(v) == {};
  }
}
