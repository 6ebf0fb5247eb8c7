/**
 * The application stage: primary applicant, optional co-applicant and the
 * credit-bureau consent. Three field configurations drive the conditional
 * fields, each Continue button has its own gate over the form data, and the
 * co-applicant step skips itself when no co-applicant was declared.
 */
module ApplicationStage {

  import opened Wrappers
  import opened Js
  import opened GlobalContext
  import opened MultiStageForm
  import FL = FieldLogicEngine

  /** The co-applicant checkbox: shown only for a home loan. */
  const CoApplicantConfig: FL.FieldConfig :=
    FL.FieldConfig("hasCoApplicant", Some([FL.Condition("loanType", FL.Equals, Str("Home"))]), None, None)

  /** The income-proof select: shown once an employment type is chosen, enabled once income is positive. */
  const IncomeProofConfig: FL.FieldConfig :=
    FL.FieldConfig("incomeProofType",
                   Some([FL.Condition("employmentType", FL.Exists, Undefined)]),
                   Some([FL.Condition("income", FL.GreaterThan, Num(Zero))]),
                   None)

  /** The maximum-loan hint: half the income. */
  const LoanAmountConfig: FL.FieldConfig :=
    FL.FieldConfig("maxLoanAmount", None, None, Some(FL.DerivedValue("income * 0.5", ["income"])))

  /** The co-applicant checkbox is shown exactly for `loanType === 'Home'` and is never disabled. */
  lemma CoApplicantVisibleIffHomeLoan(data: FormData, previous: FL.FieldState)
    ensures FL.Resolve(CoApplicantConfig, data, previous).visible <==> Get(data, "loanType") == Str("Home")
    ensures !FL.Resolve(CoApplicantConfig, data, previous).disabled
  {
    StrictEqualsString(Get(data, "loanType"), "Home");
    FL.VisibleIff(CoApplicantConfig, data);
  }

  /** The income-proof select is shown iff an employment type exists, and disabled unless income reads as a positive number. */
  lemma IncomeProofRules(data: FormData, previous: FL.FieldState)
    ensures var e := Get(data, "employmentType");
      FL.Resolve(IncomeProofConfig, data, previous).visible <==> e != Undefined && e != Null && e != Str("")
    ensures var n := ToNumber(Get(data, "income"));
      FL.Resolve(IncomeProofConfig, data, previous).disabled <==> !(n.PosInfinity? || (n.Finite? && n.mantissa > 0))
  {
    FL.VisibleIff(IncomeProofConfig, data);
    FL.DisabledIff(IncomeProofConfig, data);
    FL.ExistsIff("employmentType", Undefined, data);
    assert ToNumber(Num(Zero)) == Zero;
  }

  /** The hint shows half the income, and is shown exactly when that is a non-zero number; a missing or zero income hides it. */
  lemma MaxLoanHintShownIffIncomeNonZero(data: FormData, previous: FL.FieldState)
    ensures FL.Resolve(LoanAmountConfig, data, previous).derivedValue == FL.EvaluateFormula(FL.IncomeHalf, data)
    ensures var n := FL.NumberOrZero(data, "income");
      Truthy(FL.Resolve(LoanAmountConfig, data, previous).derivedValue) <==> !n.NaN? && !IsZero(n)
    ensures !Truthy(Get(data, "income")) ==> !Truthy(FL.Resolve(LoanAmountConfig, data, previous).derivedValue)
  {
    assert FL.LookupFormula("income * 0.5") == Some(FL.IncomeHalf);
    var n := FL.NumberOrZero(data, "income");
    if n.Finite? {
      assert Mul(n, Finite(5, 1)) == Finite(n.mantissa * 5, n.exponent + 1);
    }
    if !Truthy(Get(data, "income")) {
      FL.IncomeHalfOfMissingIncome(data);
    }
  }

  // ------------------------------------------------------------- gates

  /** The primary-applicant Continue button. */
  predicate PrimaryContinueEnabled(data: FormData) {
    Truthy(Get(data, "firstName")) && Truthy(Get(data, "lastName"))
    && Truthy(Get(data, "income")) && Truthy(Get(data, "employmentType"))
  }

  /** The button is stricter than the hook's own validation of the sub-stage, which ignores the names. */
  lemma PrimaryGateIsStricterThanValidation(data: FormData)
    ensures PrimaryContinueEnabled(data) ==> IsSubStageValid("primary-applicant", data)
    ensures var nameless := map["income" := Num(One), "employmentType" := Str("Salaried")];
      IsSubStageValid("primary-applicant", nameless) && !PrimaryContinueEnabled(nameless)
  {
    var nameless := map["income" := Num(One), "employmentType" := Str("Salaried")];
    assert Get(nameless, "firstName") == Undefined;
  }

  /** The co-applicant Continue button; the hook itself accepts the sub-stage unconditionally. */
  predicate CoApplicantContinueEnabled(data: FormData) {
    Truthy(Get(data, "coFirstName")) && Truthy(Get(data, "coLastName"))
  }

  /** The hook accepts the co-applicant step with any data, so the button's test of both names is the only guard. */
  lemma CoApplicantGateIsTheOnlyCheck(data: FormData)
    ensures IsSubStageValid("co-applicant", data)
    ensures !CoApplicantContinueEnabled(map["coFirstName" := Str("Ann")])
  {
  }

  /** Both the credit-check task card and the Continue button wait for the bureau consent. */
  predicate CreditCheckShown(data: FormData) {
    Truthy(Get(data, "consentBureau"))
  }

  predicate BureauContinueEnabled(data: FormData) {
    Truthy(Get(data, "consentBureau"))
  }

  /** The card and the button agree, and the hook does not check the consent itself. */
  lemma BureauConsentGatesBoth(data: FormData)
    ensures CreditCheckShown(data) <==> BureauContinueEnabled(data)
    ensures IsSubStageValid("bureau-check", data)
  {
  }

  // ------------------------------------------------------ self-skip

  /** The co-applicant form is rendered only when a co-applicant was declared. */
  predicate CoApplicantRenders(data: FormData) {
    Truthy(Get(data, "hasCoApplicant"))
  }

  /** The self-skip from the co-applicant step lands on the bureau check whatever the role and data. */
  lemma CoApplicantSkipLandsOnBureauCheck(s: GlobalState, data: FormData, now: Time)
    requires s.workflow == Workflow("application", "co-applicant")
    ensures Advance(s, data, now) == s.(workflow := Workflow("application", "bureau-check"))
  {
    var i := 3;
    assert Order[i] == Workflow("application", "co-applicant");
    assert Order[i + 1] == Workflow("application", "bureau-check");
    assert IsSubStageValid("co-applicant", data);
    assert KnownSubStage("bureau-check") by {
      assert Order[i + 1].currentSubStageId == "bureau-check";
    }
    CanAccessIff(RoleOf(s), "bureau-check");
    NextFollowsOrder(s, data, now, i);
  }

  /** A text input's change handler: the named field takes the typed string. */
  method HandleChange(form: FormSession, name: string, value: string)
    requires form.Valid()
    modifies form
    ensures form.Valid() && form.State() == FieldUpdated(old(form.State()), name, Str(value))
  {
    form.UpdateField(name, Str(value));
  }

  /**
   * Rendering the co-applicant sub-stage: without a declared co-applicant the
   * component asks for the next sub-stage itself and renders nothing.
   */
  method RenderCoApplicant(form: FormSession, now: Time) returns (rendersForm: bool)
    modifies form.global
    ensures rendersForm <==> CoApplicantRenders(form.formData)
    ensures rendersForm ==> form.global.state == old(form.global.state)
    ensures !rendersForm ==> form.global.state == Advance(old(form.global.state), form.formData, now)
  {
    rendersForm := Truthy(Get(form.formData, "hasCoApplicant"));
    if !rendersForm {
      form.NextSubStage(now);
    }
  }

  /**
   * Mounting the component straight onto the co-applicant step: its first
   * render sees the hook's empty data, so it skips to the bureau check
   * whatever the saved draft says, and the hook's first commit then loads
   * the draft.
   */
  method MountOnCoApplicant(applicationId: string, global: GlobalStore, storage: LocalStorage, now: Time)
    returns (form: FormSession, rendersForm: bool)
    modifies global, storage
    ensures fresh(form) && form.global == global && form.storage == storage && form.Valid()
    ensures !rendersForm
    ensures global.state == Advance(old(global.state), map[], now)
    ensures old(global.state).workflow == Workflow("application", "co-applicant") ==>
      global.state.workflow == Workflow("application", "bureau-check")
    ensures form.State() == MountEffects(FirstRender(old(storage.items)), applicationId, global.state.networkStatus.isOnline)
  {
    form := new FormSession(applicationId, global, storage);
    rendersForm := RenderCoApplicant(form, now);
    if old(global.state).workflow == Workflow("application", "co-applicant") {
      CoApplicantSkipLandsOnBureauCheck(old(global.state), map[], now);
    }
    form.FirstCommitEffects();
  }
}
