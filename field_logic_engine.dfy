/**
 * The rule engine behind conditional fields: a field is shown when its
 * visibility rules all hold, enabled when its enablement rules all hold,
 * and may carry a value derived from the form data by one of three
 * registered formulas.
 */
module FieldLogicEngine {

  import opened Wrappers
  import opened Js
  import MultiStageForm

  type FormData = MultiStageForm.FormData

  datatype Operator = Equals | NotEquals | GreaterThan | LessThan | Contains | Exists | UnknownOperator(name: string)

  /** A rule on one field; an omitted comparison value is `Undefined`. */
  datatype Condition = Condition(field: string, op: Operator, value: Value)

  datatype DerivedValue = DerivedValue(formula: string, dependencies: seq<string>)

  datatype FieldConfig = FieldConfig(
    name: string,
    visibilityRules: Option<seq<Condition>>,
    enablementRules: Option<seq<Condition>>,
    derivedValue: Option<DerivedValue>)

  /** What the hook exposes for one field. */
  datatype FieldState = FieldState(visible: bool, disabled: bool, derivedValue: Value)

  const InitialFieldState: FieldState := FieldState(true, false, Null)

  /** One rule against the current value of its field. */
  predicate EvalCondition(c: Condition, data: FormData) {
    var fieldValue := Get(data, c.field);
    match c.op
    case Equals => StrictEquals(fieldValue, c.value)
    case NotEquals => !StrictEquals(fieldValue, c.value)
    case GreaterThan => NumLess(ToNumber(c.value), ToNumber(fieldValue))
    case LessThan => NumLess(ToNumber(fieldValue), ToNumber(c.value))
    case Contains => fieldValue.Str? && Includes(ToLower(fieldValue.s), ToLower(ToString(c.value)))
    case Exists => !StrictEquals(fieldValue, Undefined) && !StrictEquals(fieldValue, Null) && !StrictEquals(fieldValue, Str(""))
    case UnknownOperator(_) => true
  }

  /** `conditions.every(...)`, checked from the first rule on. */
  predicate EvaluateConditions(conditions: seq<Condition>, data: FormData)
    decreases |conditions|
  {
    conditions == [] || (EvalCondition(conditions[0], data) && EvaluateConditions(conditions[1..], data))
  }

  /** The rule list holds exactly when every rule in it holds; the empty list holds. */
  lemma {:induction false} EvaluateConditionsIsConjunction(conditions: seq<Condition>, data: FormData)
    ensures EvaluateConditions(conditions, data) <==> forall k :: 0 <= k < |conditions| ==> EvalCondition(conditions[k], data)
    decreases |conditions|
  {
    if conditions != [] {
      EvaluateConditionsIsConjunction(conditions[1..], data);
      assert forall k :: 1 <= k < |conditions| ==> conditions[k] == conditions[1..][k - 1];
    }
  }

  /** Rule lists compose by conjunction. */
  lemma EvaluateConcat(xs: seq<Condition>, ys: seq<Condition>, data: FormData)
    ensures EvaluateConditions(xs + ys, data) <==> EvaluateConditions(xs, data) && EvaluateConditions(ys, data)
  {
    EvaluateConditionsIsConjunction(xs + ys, data);
    EvaluateConditionsIsConjunction(xs, data);
    EvaluateConditionsIsConjunction(ys, data);
    assert forall k :: 0 <= k < |xs| ==> (xs + ys)[k] == xs[k];
    assert forall k :: 0 <= k < |ys| ==> (xs + ys)[|xs| + k] == ys[k];
  }

  /** `notEquals` is always the negation of `equals` on the same field and value. */
  lemma NotEqualsNegatesEquals(field: string, value: Value, data: FormData)
    ensures EvalCondition(Condition(field, NotEquals, value), data) == !EvalCondition(Condition(field, Equals, value), data)
  {
  }

  /** `greaterThan` and `lessThan` are both false when either side is not a number, or when both sides are equal. */
  lemma ComparisonsFailOnNaNAndEquality(field: string, value: Value, data: FormData)
    ensures var lhs := ToNumber(Get(data, field)); var rhs := ToNumber(value);
      (lhs.NaN? || rhs.NaN? || NumEquals(lhs, rhs)) ==>
        !EvalCondition(Condition(field, GreaterThan, value), data)
        && !EvalCondition(Condition(field, LessThan, value), data)
    ensures !(EvalCondition(Condition(field, GreaterThan, value), data) && EvalCondition(Condition(field, LessThan, value), data))
  {
    var lhs := ToNumber(Get(data, field));
    var rhs := ToNumber(value);
    NumLessIsStrict(lhs, rhs);
    NumLessIsStrict(rhs, lhs);
  }

  /** `contains` is false for anything but a string, and otherwise a case-insensitive substring test. */
  lemma ContainsIsCaseInsensitiveSubstring(field: string, value: Value, data: FormData)
    ensures !Get(data, field).Str? ==> !EvalCondition(Condition(field, Contains, value), data)
    ensures Get(data, field).Str? ==>
      (EvalCondition(Condition(field, Contains, value), data)
       <==> exists i :: OccursAt(ToLower(Get(data, field).s), ToLower(ToString(value)), i))
  {
    var fieldValue := Get(data, field);
    if fieldValue.Str? {
      assert EvalCondition(Condition(field, Contains, value), data)
        == Includes(ToLower(fieldValue.s), ToLower(ToString(value)));
      IncludesIffOccurs(ToLower(fieldValue.s), ToLower(ToString(value)));
    }
  }

  /** `exists` holds exactly for values other than undefined, null and the empty string. */
  lemma ExistsIff(field: string, value: Value, data: FormData)
    ensures EvalCondition(Condition(field, Exists, value), data)
      <==> Get(data, field) != Undefined && Get(data, field) != Null && Get(data, field) != Str("")
  {
  }

  /** An operator the engine does not know lets the rule pass. */
  lemma UnknownOperatorPasses(field: string, name: string, value: Value, data: FormData)
    ensures EvalCondition(Condition(field, UnknownOperator(name), value), data)
  {
  }

  /** The visibility effect. */
  predicate Visible(config: FieldConfig, data: FormData) {
    match config.visibilityRules
    case None => true
    case Some(rules) => if |rules| > 0 then EvaluateConditions(rules, data) else true
  }

  /** The enablement effect. */
  predicate Disabled(config: FieldConfig, data: FormData) {
    match config.enablementRules
    case None => false
    case Some(rules) => if |rules| > 0 then !EvaluateConditions(rules, data) else false
  }

  /** Without visibility rules a field is shown; with them, it is shown iff every rule holds. */
  lemma VisibleIff(config: FieldConfig, data: FormData)
    ensures Visible(config, data) <==>
      (config.visibilityRules.None? || config.visibilityRules.value == []
       || forall k :: 0 <= k < |config.visibilityRules.value| ==> EvalCondition(config.visibilityRules.value[k], data))
  {
    if config.visibilityRules.Some? {
      EvaluateConditionsIsConjunction(config.visibilityRules.value, data);
    }
  }

  /** Without enablement rules a field is enabled; with them, it is disabled iff some rule fails. */
  lemma DisabledIff(config: FieldConfig, data: FormData)
    ensures Disabled(config, data) <==>
      (config.enablementRules.Some? && config.enablementRules.value != []
       && exists k :: 0 <= k < |config.enablementRules.value| && !EvalCondition(config.enablementRules.value[k], data))
  {
    if config.enablementRules.Some? {
      EvaluateConditionsIsConjunction(config.enablementRules.value, data);
    }
  }

  /** The registered formulas, each named by the exact string a configuration must use. */
  datatype Formula = IncomeHalf | FullName | LoanMargin

  function FormulaText(f: Formula): string {
    match f
    case IncomeHalf => "income * 0.5"
    case FullName => "firstName + \" \" + lastName"
    case LoanMargin => "loanAmount * 1.1"
  }

  /** The registry lookup: the formula whose text is exactly `text`, if any. */
  function LookupFormula(text: string): (r: Option<Formula>)
    ensures r.Some? ==> FormulaText(r.value) == text
    ensures r.None? ==> forall f: Formula :: FormulaText(f) != text
  {
    if text == FormulaText(IncomeHalf) then Some(IncomeHalf)
    else if text == FormulaText(FullName) then Some(FullName)
    else if text == FormulaText(LoanMargin) then Some(LoanMargin)
    else None
  }

  /** `Number(formData[f] || 0)` */
  function NumberOrZero(data: FormData, f: string): Number {
    ToNumber(Or(Get(data, f), Num(Zero)))
  }

  /** `formData[f] || ''` as it appears inside a template string. */
  function TextOrEmpty(data: FormData, f: string): string {
    ToString(Or(Get(data, f), Str("")))
  }

  function EvaluateFormula(f: Formula, data: FormData): Value {
    match f
    case IncomeHalf => Num(Mul(NumberOrZero(data, "income"), Finite(5, 1)))
    case FullName => Str(TextOrEmpty(data, "firstName") + " " + TextOrEmpty(data, "lastName"))
    case LoanMargin => Num(Mul(NumberOrZero(data, "loanAmount"), Finite(11, 1)))
  }

  /** The value a derived-value configuration computes, if its formula is registered. */
  function ComputeDerived(formula: string, data: FormData): Option<Value> {
    match LookupFormula(formula)
    case None => None
    case Some(f) => Some(EvaluateFormula(f, data))
  }

  /** The three effects after a render: visibility and enablement from the rules, the derived value from the registry or kept. */
  function Resolve(config: FieldConfig, data: FormData, previous: FieldState): (r: FieldState)
    ensures r.visible == Visible(config, data) && r.disabled == Disabled(config, data)
    ensures config.derivedValue.None? ==> r.derivedValue == previous.derivedValue
    ensures config.derivedValue.Some? && LookupFormula(config.derivedValue.value.formula).Some? ==>
      r.derivedValue == EvaluateFormula(LookupFormula(config.derivedValue.value.formula).value, data)
    ensures config.derivedValue.Some? && LookupFormula(config.derivedValue.value.formula).None? ==>
      r.derivedValue == previous.derivedValue
  {
    var derived :=
      if config.derivedValue.None? then previous.derivedValue
      else match ComputeDerived(config.derivedValue.value.formula, data)
        case None => previous.derivedValue
        case Some(v) => v;
    FieldState(Visible(config, data), Disabled(config, data), derived)
  }

  /** Only the three registered formulas produce a value; any other keeps the previous one (null at first). */
  lemma UnregisteredFormulaKeepsValue(config: FieldConfig, data: FormData, previous: FieldState)
    requires config.derivedValue.Some?
    requires forall f: Formula :: FormulaText(f) != config.derivedValue.value.formula
    ensures Resolve(config, data, previous).derivedValue == previous.derivedValue
    ensures Resolve(config, data, InitialFieldState).derivedValue == Null
  {
    var text := config.derivedValue.value.formula;
    assert text != FormulaText(IncomeHalf) && text != FormulaText(FullName) && text != FormulaText(LoanMargin);
  }

  /** The derived value depends only on configuration and data: re-running the effects changes nothing. */
  lemma ResolveIsIdempotent(config: FieldConfig, data: FormData, previous: FieldState)
    ensures Resolve(config, data, Resolve(config, data, previous)) == Resolve(config, data, previous)
  {
  }

  /** The maximum-loan formula halves the income exactly. */
  lemma IncomeHalfValue(data: FormData, m: int, e: nat)
    requires NumberOrZero(data, "income") == Finite(m, e)
    ensures EvaluateFormula(IncomeHalf, data) == Num(Finite(5 * m, e + 1))
  {
  }

  /** A missing or falsy income reads as 0, so the maximum loan is 0. */
  lemma IncomeHalfOfMissingIncome(data: FormData)
    requires !Truthy(Get(data, "income"))
    ensures EvaluateFormula(IncomeHalf, data) == Num(Finite(0, 1))
  {
    assert Or(Get(data, "income"), Num(Zero)) == Num(Zero);
  }

  /** The loan-margin formula scales the amount by exactly 1.1. */
  lemma LoanMarginValue(data: FormData, m: int, e: nat)
    requires NumberOrZero(data, "loanAmount") == Finite(m, e)
    ensures EvaluateFormula(LoanMargin, data) == Num(Finite(11 * m, e + 1))
  {
  }

  /** A missing or falsy loan amount reads as 0, so the margin is 0. */
  lemma LoanMarginOfMissingAmount(data: FormData)
    requires !Truthy(Get(data, "loanAmount"))
    ensures EvaluateFormula(LoanMargin, data) == Num(Finite(0, 1))
  {
    assert Or(Get(data, "loanAmount"), Num(Zero)) == Num(Zero);
  }

  /** The full-name formula joins the two names with one space, an absent name reading as "". */
  lemma FullNameValue(data: FormData)
    ensures var first := Get(data, "firstName"); var last := Get(data, "lastName");
      (first.Str? && last.Str? ==> EvaluateFormula(FullName, data) == Str(first.s + " " + last.s))
      && (first.Str? && last == Undefined ==> EvaluateFormula(FullName, data) == Str(first.s + " "))
      && (first == Undefined && last.Str? ==> EvaluateFormula(FullName, data) == Str(" " + last.s))
      && (first == Undefined && last == Undefined ==> EvaluateFormula(FullName, data) == Str(" "))
  {
  }

  /** Every registered formula is found again from its own text. */
  lemma LookupFindsRegisteredFormula(f: Formula)
    ensures LookupFormula(FormulaText(f)) == Some(f)
  {
  }
}
