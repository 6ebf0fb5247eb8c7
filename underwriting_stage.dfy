/**
 * The underwriting stage: a fixed risk assessment on the risk-score step,
 * and manual overrides reserved (by this component) for Managers and
 * Admins.
 */
module UnderwritingStage {

  import opened Wrappers
  import opened Js
  import opened GlobalContext
  import opened MultiStageForm

  /** The mock assessment: an overall score and four rule outcomes. */
  const RiskScore: int := 75

  datatype RiskRule = RiskRule(name: string, result: string, description: string)

  const RiskRules: seq<RiskRule> := [
    RiskRule("income_to_loan_ratio", "Pass", "Income is sufficient for requested loan amount"),
    RiskRule("credit_score_check", "Pass", "Credit score above minimum threshold"),
    RiskRule("employment_stability", "Warning", "Less than 2 years in current employment"),
    RiskRule("existing_debt_ratio", "Warning", "Existing debt is higher than recommended")
  ]

  function RuleValue(r: RiskRule): Value {
    Obj(map["name" := Str(r.name), "result" := Str(r.result), "description" := Str(r.description)])
  }

  /** The assessment as the form field stores it. */
  function RiskData(): (v: Value)
    ensures Truthy(v)
  {
    Obj(map["score" := Num(Finite(RiskScore, 0)),
            "rules" := Arr(seq(|RiskRules|, i requires 0 <= i < |RiskRules| => RuleValue(RiskRules[i])))])
  }

  /** The component's own access test, which admits Admins as well as Managers. */
  predicate IsAccessRestricted(subStage: string, role: Option<UserRole>) {
    subStage == "overrides" && role != Some(Manager) && role != Some(Admin)
  }

  /**
   * On the overrides step the view is restricted exactly for the roles
   * navigation refuses, except Admin: navigation refuses an Admin the step
   * while the component would show it to one.
   */
  lemma RestrictionVersusNavigationAccess(role: Option<UserRole>)
    ensures IsAccessRestricted("overrides", role) <==> !CanAccessSubStage(Catalogue, role, "overrides") && role != Some(Admin)
    ensures !IsAccessRestricted("overrides", Some(Admin)) && !CanAccessSubStage(Catalogue, Some(Admin), "overrides")
  {
    assert KnownSubStage("overrides") by {
      assert Order[9].currentSubStageId == "overrides";
    }
    CanAccessIff(role, "overrides");
    CanAccessIff(Some(Admin), "overrides");
  }

  /** Only the overrides step can be restricted. */
  lemma OnlyOverridesIsRestricted(subStage: string, role: Option<UserRole>)
    requires subStage != "overrides"
    ensures !IsAccessRestricted(subStage, role)
  {
  }

  datatype Control = BackButton | NextButton | RiskScoreOverrideInput | OverrideReasonInput | OverrideApprovalCheckbox

  /** The interactive controls the component renders for a sub-stage and role. */
  function Controls(subStage: string, role: Option<UserRole>): set<Control> {
    if IsAccessRestricted(subStage, role) then {BackButton, NextButton}
    else if subStage == "risk-score" then {BackButton, NextButton}
    else if subStage == "overrides" then {BackButton, NextButton, RiskScoreOverrideInput, OverrideReasonInput, OverrideApprovalCheckbox}
    else {}
  }

  /** A restricted view offers only Back and Next; the override fields appear only to Managers and Admins. */
  lemma RestrictedViewHasNoOverrideFields(role: Option<UserRole>)
    ensures IsAccessRestricted("overrides", role) ==> Controls("overrides", role) == {BackButton, NextButton}
    ensures OverrideReasonInput in Controls("overrides", role) <==> role == Some(Manager) || role == Some(Admin)
  {
  }

  /** The restricted view's Next button skips to the approval stage, whatever the role and data. */
  lemma RestrictedSkipReachesApproval(s: GlobalState, data: FormData, now: Time)
    requires s.workflow == Workflow("underwriting", "overrides")
    ensures Advance(s, data, now) == s.(workflow := Workflow("approval", "sanction"))
  {
    var i := 9;
    assert Order[i] == Workflow("underwriting", "overrides");
    assert Order[i + 1] == Workflow("approval", "sanction");
    assert IsSubStageValid("overrides", data);
    assert KnownSubStage("sanction") by {
      assert Order[i + 1].currentSubStageId == "sanction";
    }
    CanAccessIff(RoleOf(s), "sanction");
    NextFollowsOrder(s, data, now, i);
  }

  /** The mount-time initialiser writes the assessment on the risk-score step when the data it sees has none. */
  predicate RiskAssessmentNeeded(subStage: string, data: FormData) {
    subStage == "risk-score" && !Truthy(Get(data, "riskAssessment"))
  }

  /**
   * The initialiser runs on the first render, when the hook's data is still
   * empty, so it asks for the assessment exactly on the risk-score step; once
   * written, the assessment is never asked for again.
   */
  lemma RiskAssessmentWrittenOnce(subStage: string, storage: map<string, FormData>, st: StoreState)
    ensures RiskAssessmentNeeded(subStage, FirstRender(storage).formData) <==> subStage == "risk-score"
    ensures !RiskAssessmentNeeded(subStage, FieldUpdated(st, "riskAssessment", RiskData()).formData)
    ensures subStage != "risk-score" ==> !RiskAssessmentNeeded(subStage, st.formData)
  {
  }

  /** The writes the component's first render makes on a step. */
  function FirstRenderWrites(subStage: string): seq<(string, Value)> {
    if RiskAssessmentNeeded(subStage, map[]) then [("riskAssessment", RiskData())] else []
  }

  /** The hook's state once a freshly mounted underwriting component has settled on a step. */
  function MountedStore(subStage: string, storage: map<string, FormData>, applicationId: string, online: bool): StoreState {
    MountWithWrites(storage, applicationId, online, FirstRenderWrites(subStage))
  }

  /**
   * Mounting on the risk-score step: a saved draft replaces the written
   * assessment, so the data and the stored snapshot end as the draft (with
   * no assessment if the draft has none); without a draft the assessment
   * stays and is stored.
   */
  lemma RiskScoreMountKeepsDraft(storage: map<string, FormData>, applicationId: string, online: bool)
    requires HasId(applicationId)
    ensures var r := MountedStore("risk-score", storage, applicationId, online);
      var key := StorageKey(applicationId);
      key in r.storage
      && (key in storage ==> r.formData == storage[key] && r.storage[key] == storage[key])
      && (key in storage && !Truthy(Get(storage[key], "riskAssessment")) ==> !Truthy(Get(r.formData, "riskAssessment")))
      && (key !in storage ==> Get(r.formData, "riskAssessment") == RiskData() && r.storage[key] == r.formData)
  {
    var updates := FirstRenderWrites("risk-score");
    assert updates == [("riskAssessment", RiskData())];
    if StorageKey(applicationId) in storage {
      DraftDiscardsFirstRenderWrites(storage, applicationId, online, updates);
    } else {
      FirstRenderWritesKeptWithoutDraft(storage, applicationId, online, updates, "riskAssessment");
      assert updates[..0] == [];
    }
  }

  /** On any other step the component writes nothing, and mounting is the plain load. */
  lemma OtherStepMountIsPlainLoad(subStage: string, storage: map<string, FormData>, applicationId: string, online: bool)
    requires subStage != "risk-score"
    ensures MountedStore(subStage, storage, applicationId, online) == Mount(storage, applicationId)
  {
    MountWithoutWritesIsMount(storage, applicationId, online);
  }

  /** The overrides Continue button is disabled while a score override lacks a reason. */
  predicate OverridesContinueDisabled(data: FormData) {
    Truthy(Get(data, "riskScoreOverride")) && !Truthy(Get(data, "overrideReason"))
  }

  /** Without an override the button is enabled whatever the reason; the hook's validation never blocks this step. */
  lemma OverridesGate(data: FormData)
    ensures !Truthy(Get(data, "riskScoreOverride")) ==> !OverridesContinueDisabled(data)
    ensures Truthy(Get(data, "overrideReason")) ==> !OverridesContinueDisabled(data)
    ensures IsSubStageValid("overrides", data)
  {
  }

  function RiskLabel(score: int): string {
    if score >= 70 then "Acceptable Risk" else "Moderate Risk"
  }

  /** The label reads "Acceptable Risk" exactly from a score of 70 up; the mock score earns it. */
  lemma RiskLabelThreshold(score: int)
    ensures RiskLabel(score) == "Acceptable Risk" <==> score >= 70
    ensures RiskLabel(RiskScore) == "Acceptable Risk"
  {
  }

  /** One mounted underwriting component beside one instance of the form hook. */
  class UnderwritingPanel {
    const form: FormSession
    const subStage: string

    /** Mounting runs the one-shot initialiser against the data the hook holds at that point. */
    constructor (form: FormSession, subStage: string)
      requires form.Valid()
      modifies form
      ensures this.form == form && this.subStage == subStage && form.Valid()
      ensures RiskAssessmentNeeded(subStage, old(form.formData)) ==>
        form.State() == FieldUpdated(old(form.State()), "riskAssessment", RiskData())
      ensures !RiskAssessmentNeeded(subStage, old(form.formData)) ==> form.State() == old(form.State())
    {
      this.form := form;
      this.subStage := subStage;
      new;
      if subStage == "risk-score" && !Truthy(Get(form.formData, "riskAssessment")) {
        form.UpdateField("riskAssessment", RiskData());
      }
    }

    /**
     * Mounting the component beside a fresh hook: the hook's first render,
     * this initialiser, the first commit's effects, and the change effect a
     * loaded draft triggers.
     */
    static method Mount(applicationId: string, global: GlobalStore, storage: LocalStorage, subStage: string)
      returns (panel: UnderwritingPanel)
      modifies storage
      ensures fresh(panel) && fresh(panel.form) && panel.subStage == subStage
      ensures panel.form.storage == storage && panel.form.global == global && panel.form.Valid()
      ensures panel.form.State() == MountedStore(subStage, old(storage.items), applicationId, global.state.networkStatus.isOnline)
    {
      var draft := SavedDraft(storage.items, applicationId);
      var form := new FormSession(applicationId, global, storage);
      panel := new UnderwritingPanel(form, subStage);
      if RiskAssessmentNeeded(subStage, map[]) {
        assert [("riskAssessment", RiskData())][1..] == [];
      }
      form.FirstCommitEffects();
      if draft.Some? {
        form.ChangeEffect();
      }
    }

    predicate Restricted()
      reads form, form.global
    {
      IsAccessRestricted(subStage, RoleOf(form.global.state))
    }

    /** A text field of the overrides step: the named field takes the typed string. */
    method HandleChange(name: string, value: string)
      requires form.Valid()
      modifies form
      ensures form.Valid() && form.State() == FieldUpdated(old(form.State()), name, Str(value))
    {
      form.UpdateField(name, Str(value));
    }
  }
}
