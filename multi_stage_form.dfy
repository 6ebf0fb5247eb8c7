/**
 * The multi-stage form hook: field updates, local persistence, the
 * online/offline synchronisation status, per-sub-stage validation,
 * role-based access to sub-stages, and navigation through the workflow.
 *
 * Navigation is expressed as the list of store actions a call dispatches;
 * dispatching them through `GlobalContext.Reduce` gives the new position.
 * The reference definition of the workflow order is `Order`, the
 * catalogue's sub-stages in sequence.
 */
module MultiStageForm {

  import opened Wrappers
  import opened Js
  import opened GlobalContext

  type FormData = map<string, Value>

  /** The role of the signed-in user (`state.user?.role`). */
  function RoleOf(s: GlobalState): Option<UserRole> {
    if s.user.Some? then Some(s.user.value.role) else None
  }

  // ------------------------------------------------------------ lookups

  /** `subStages.findIndex(ss => ss.id === id)`: the first position, or -1. */
  function FindSubStageIndex(subs: seq<SubStage>, id: string): (r: int)
    ensures -1 <= r < |subs|
    ensures 0 <= r ==> subs[r].id == id && forall k :: 0 <= k < r ==> subs[k].id != id
    ensures r == -1 <==> forall k :: 0 <= k < |subs| ==> subs[k].id != id
  {
    if subs == [] then -1
    else if subs[0].id == id then 0
    else
      var k := FindSubStageIndex(subs[1..], id);
      if k == -1 then -1 else k + 1
  }

  /** `stages.findIndex(s => s.id === id)`: the first position, or -1. */
  function FindStageIndex(stages: seq<StageConfig>, id: string): (r: int)
    ensures -1 <= r < |stages|
    ensures 0 <= r ==> stages[r].id == id && forall k :: 0 <= k < r ==> stages[k].id != id
    ensures r == -1 <==> forall k :: 0 <= k < |stages| ==> stages[k].id != id
  {
    if stages == [] then -1
    else if stages[0].id == id then 0
    else
      var k := FindStageIndex(stages[1..], id);
      if k == -1 then -1 else k + 1
  }

  /** `subStages.find(ss => ss.id === id)` */
  function FindSubStage(subs: seq<SubStage>, id: string): (r: Option<SubStage>)
    ensures r.Some? ==> r.value in subs && r.value.id == id
    ensures r.None? <==> forall k :: 0 <= k < |subs| ==> subs[k].id != id
  {
    if subs == [] then None
    else if subs[0].id == id then Some(subs[0])
    else FindSubStage(subs[1..], id)
  }

  predicate HasSubStage(stage: StageConfig, id: string) {
    exists k :: 0 <= k < |stage.subStages| && stage.subStages[k].id == id
  }

  /** `stages.find(s => s.subStages.some(ss => ss.id === id))` */
  function FindStageContaining(stages: seq<StageConfig>, id: string): (r: Option<StageConfig>)
    ensures r.Some? ==> r.value in stages && HasSubStage(r.value, id)
    ensures r.None? <==> forall k :: 0 <= k < |stages| ==> !HasSubStage(stages[k], id)
  {
    if stages == [] then None
    else if FindSubStageIndex(stages[0].subStages, id) != -1 then Some(stages[0])
    else FindStageContaining(stages[1..], id)
  }

  /** The position of the current sub-stage inside the current stage of `stages` (`findIndex(...) || 0`). */
  function CurrentSubStageIndex(stages: seq<StageConfig>, wf: Workflow): (r: int)
    ensures FindStage(stages, wf.currentStage).Some? ==>
      -1 <= r < |FindStage(stages, wf.currentStage).value.subStages|
  {
    match FindStage(stages, wf.currentStage)
    case None => 0
    case Some(sc) =>
      var k := FindSubStageIndex(sc.subStages, wf.currentSubStageId);
      if k != 0 then k else 0
  }

  // --------------------------------------------------------- validation

  /** The sub-stage a validation call checks: the argument, or the current sub-stage when it is absent or empty. */
  function ValidationTarget(subStageId: Option<string>, wf: Workflow): (t: string)
    ensures subStageId.Some? && subStageId.value != "" ==> t == subStageId.value
    ensures subStageId.None? || subStageId.value == "" ==> t == wf.currentSubStageId
  {
    if subStageId.Some? && subStageId.value != "" then subStageId.value else wf.currentSubStageId
  }

  /** The per-sub-stage completeness rules. */
  predicate IsSubStageValid(target: string, data: FormData) {
    match target
    case "basic-details" =>
      Truthy(Get(data, "fullName")) && Truthy(Get(data, "email")) && Truthy(Get(data, "phone"))
    case "otp-verification" => Truthy(Get(data, "otpVerified"))
    case "primary-applicant" => Truthy(Get(data, "income")) && Truthy(Get(data, "employmentType"))
    case _ => true
  }

  /** The fields each sub-stage requires to be truthy, as a table. */
  function RequiredFields(target: string): seq<string> {
    if target == "basic-details" then ["fullName", "email", "phone"]
    else if target == "otp-verification" then ["otpVerified"]
    else if target == "primary-applicant" then ["income", "employmentType"]
    else []
  }

  /** A sub-stage is valid exactly when every field in its row of the table is truthy. */
  lemma ValidIffRequiredFieldsTruthy(target: string, data: FormData)
    ensures IsSubStageValid(target, data)
      <==> forall k :: 0 <= k < |RequiredFields(target)| ==> Truthy(Get(data, RequiredFields(target)[k]))
  {
    var req := RequiredFields(target);
    if target == "basic-details" {
      assert req[0] == "fullName" && req[1] == "email" && req[2] == "phone";
    } else if target == "otp-verification" {
      assert req == ["otpVerified"];
      assert IsSubStageValid(target, data) <==> Truthy(Get(data, req[0]));
    } else if target == "primary-applicant" {
      assert req == ["income", "employmentType"];
      assert IsSubStageValid(target, data) <==> Truthy(Get(data, req[0])) && Truthy(Get(data, req[1]));
    }
  }

  /** Validity depends only on the required fields: data agreeing on them validates alike. */
  lemma ValidityDependsOnlyOnRequiredFields(target: string, d1: FormData, d2: FormData)
    requires forall k :: 0 <= k < |RequiredFields(target)| ==>
      Get(d1, RequiredFields(target)[k]) == Get(d2, RequiredFields(target)[k])
    ensures IsSubStageValid(target, d1) <==> IsSubStageValid(target, d2)
  {
    ValidIffRequiredFieldsTruthy(target, d1);
    ValidIffRequiredFieldsTruthy(target, d2);
  }

  // ------------------------------------------------------------- access

  /** A sub-stage is reachable when the catalogue has it and the user holds the role it requires, if any. */
  predicate CanAccessSubStage(stages: seq<StageConfig>, role: Option<UserRole>, id: string) {
    match FindStageContaining(stages, id)
    case None => false
    case Some(stage) =>
      match FindSubStage(stage.subStages, id)
      case None => false
      case Some(ss) => !(ss.requiresRole.Some? && role != ss.requiresRole)
  }

  /** The workflow order: every (stage, sub-stage) pair of the catalogue in sequence. */
  const Order: seq<Workflow> := [
    Workflow("lead-capture", "basic-details"),
    Workflow("lead-capture", "otp-verification"),
    Workflow("application", "primary-applicant"),
    Workflow("application", "co-applicant"),
    Workflow("application", "bureau-check"),
    Workflow("document-upload", "upload"),
    Workflow("document-upload", "verification"),
    Workflow("document-upload", "auto-offer"),
    Workflow("underwriting", "risk-score"),
    Workflow("underwriting", "overrides"),
    Workflow("approval", "sanction"),
    Workflow("approval", "disbursement")
  ]

  function Positions(stage: StageConfig): seq<Workflow> {
    seq(|stage.subStages|, j requires 0 <= j < |stage.subStages| => Workflow(stage.id, stage.subStages[j].id))
  }

  function Flatten(stages: seq<StageConfig>): seq<Workflow> {
    if stages == [] then [] else Positions(stages[0]) + Flatten(stages[1..])
  }

  /** `Order` is the catalogue read stage by stage, sub-stage by sub-stage. */
  lemma OrderIsCatalogueFlattened()
    ensures Flatten(Catalogue) == Order
  {
    assert Flatten(Catalogue[5..]) == [];
    assert Flatten(Catalogue[4..]) == Order[10..];
    assert Flatten(Catalogue[3..]) == Order[8..];
    assert Flatten(Catalogue[2..]) == Order[5..];
    assert Flatten(Catalogue[1..]) == Order[2..];
  }

  /** A sub-stage id is known when some position of the workflow order carries it. */
  predicate KnownSubStage(id: string) {
    exists k :: 0 <= k < |Order| && Order[k].currentSubStageId == id
  }

  /** Access is granted exactly for known sub-stages, with "overrides" reserved for Managers. */
  lemma CanAccessIff(role: Option<UserRole>, id: string)
    ensures CanAccessSubStage(Catalogue, role, id) <==> KnownSubStage(id) && (id == "overrides" ==> role == Some(Manager))
  {
    match FindStageContaining(Catalogue, id)
    case None =>
      if KnownSubStage(id) {
        var k :| 0 <= k < |Order| && Order[k].currentSubStageId == id;
        StageOfPosition(k);
        assert false;
      }
    case Some(stage) =>
      var j :| 0 <= j < |stage.subStages| && stage.subStages[j].id == id;
      var ss := FindSubStage(stage.subStages, id).value;
      CataloguePositionIsKnown(stage, ss);
      if ss.id == "overrides" {
        assert ss.requiresRole == Some(Manager);
      } else {
        assert ss.requiresRole.None?;
      }
  }

  /** The stage a position of `Order` belongs to really holds that sub-stage. */
  lemma StageOfPosition(k: nat)
    requires k < |Order|
    ensures exists s :: 0 <= s < |Catalogue| && HasSubStage(Catalogue[s], Order[k].currentSubStageId)
  {
    var s := if k < 2 then 0 else if k < 5 then 1 else if k < 8 then 2 else if k < 10 then 3 else 4;
    var j := if k < 2 then k else if k < 5 then k - 2 else if k < 8 then k - 5 else if k < 10 then k - 8 else k - 10;
    assert Catalogue[s].subStages[j].id == Order[k].currentSubStageId;
  }

  /** Every sub-stage of the catalogue is a known position, and only "overrides" requires a role (Manager). */
  lemma CataloguePositionIsKnown(stage: StageConfig, ss: SubStage)
    requires stage in Catalogue && ss in stage.subStages
    ensures KnownSubStage(ss.id)
    ensures ss.requiresRole.Some? <==> ss.id == "overrides"
    ensures ss.requiresRole.Some? ==> ss.requiresRole == Some(Manager)
  {
    var s :| 0 <= s < |Catalogue| && Catalogue[s] == stage;
    var j :| 0 <= j < |stage.subStages| && stage.subStages[j] == ss;
    CatalogueEntry(s, j);
  }

  /** Sub-stage `j` of stage `s` sits at position `StageStart(s) + j` of the order; only "overrides" names a role. */
  lemma CatalogueEntry(s: nat, j: nat)
    requires s < |Catalogue| && j < |Catalogue[s].subStages|
    ensures var ss := Catalogue[s].subStages[j];
      StageStart(s) + j < |Order| && Order[StageStart(s) + j].currentSubStageId == ss.id
      && (ss.requiresRole.Some? <==> ss.id == "overrides")
      && (ss.requiresRole.Some? ==> ss.requiresRole == Some(Manager))
  {
    if s == 0 {
    } else if s == 1 {
    } else if s == 2 {
    } else if s == 3 {
      if j == 1 {
        assert Catalogue[s].subStages[j].id == "overrides";
      }
    } else {
    }
  }

  // --------------------------------------------------------- navigation

  /** The actions `nextSubStage` dispatches from position `wf` with the rendered data and role. */
  function NextSubStageActions(stages: seq<StageConfig>, wf: Workflow, data: FormData, role: Option<UserRole>): (r: seq<GlobalAction>)
    ensures |r| <= 1 && forall k :: 0 <= k < |r| ==> IsNavigation(r[k])
  {
    match FindStage(stages, wf.currentStage)
    case None => []
    case Some(sc) =>
      if !IsSubStageValid(wf.currentSubStageId, data) then []
      else
        var i := CurrentSubStageIndex(stages, wf);
        if i < |sc.subStages| - 1 then
          var next := sc.subStages[i + 1];
          if CanAccessSubStage(stages, role, next.id) then [SetCurrentSubStage(next.id)] else []
        else
          var si := FindStageIndex(stages, wf.currentStage);
          if si < |stages| - 1 && stages[si + 1].subStages != [] then
            var nextStage := stages[si + 1];
            if CanAccessSubStage(stages, role, nextStage.subStages[0].id) then [SetCurrentStage(nextStage.id)] else []
          else []
  }

  /** The actions `prevSubStage` dispatches from position `wf`. */
  function PrevSubStageActions(stages: seq<StageConfig>, wf: Workflow): (r: seq<GlobalAction>)
    ensures |r| <= 2 && forall k :: 0 <= k < |r| ==> IsNavigation(r[k])
  {
    match FindStage(stages, wf.currentStage)
    case None => []
    case Some(sc) =>
      var i := CurrentSubStageIndex(stages, wf);
      if i > 0 then [SetCurrentSubStage(sc.subStages[i - 1].id)]
      else
        var si := FindStageIndex(stages, wf.currentStage);
        if si > 0 && stages[si - 1].subStages != [] then
          var prevStage := stages[si - 1];
          [SetCurrentStage(prevStage.id), SetCurrentSubStage(prevStage.subStages[|prevStage.subStages| - 1].id)]
        else []
  }

  /** The actions `goToSubStage` dispatches: only the sub-stage is checked, not that it belongs to `stageId`. */
  function GoToSubStageActions(role: Option<UserRole>, stageId: string, subStageId: string): (r: seq<GlobalAction>)
    ensures CanAccessSubStage(Catalogue, role, subStageId) ==> r == [SetCurrentStage(stageId), SetCurrentSubStage(subStageId)]
    ensures !CanAccessSubStage(Catalogue, role, subStageId) ==> r == []
  {
    if CanAccessSubStage(Catalogue, role, subStageId) then [SetCurrentStage(stageId), SetCurrentSubStage(subStageId)] else []
  }

  function Advance(s: GlobalState, data: FormData, now: Time): (r: GlobalState)
    ensures r == s.(workflow := r.workflow)
    ensures !IsSubStageValid(s.workflow.currentSubStageId, data) ==> r == s
  {
    NavigationMovesOnlyPosition(s, NextSubStageActions(Catalogue, s.workflow, data, RoleOf(s)), now);
    Apply(s, NextSubStageActions(Catalogue, s.workflow, data, RoleOf(s)), now)
  }

  function Retreat(s: GlobalState, now: Time): (r: GlobalState)
    ensures r == s.(workflow := r.workflow)
  {
    NavigationMovesOnlyPosition(s, PrevSubStageActions(Catalogue, s.workflow), now);
    Apply(s, PrevSubStageActions(Catalogue, s.workflow), now)
  }

  function Jump(s: GlobalState, stageId: string, subStageId: string, now: Time): (r: GlobalState)
    ensures r == s.(workflow := r.workflow)
    ensures CanAccessSubStage(Catalogue, RoleOf(s), subStageId) ==> r.workflow == Workflow(stageId, subStageId)
    ensures !CanAccessSubStage(Catalogue, RoleOf(s), subStageId) ==> r == s
  {
    var acts := GoToSubStageActions(RoleOf(s), stageId, subStageId);
    NavigationMovesOnlyPosition(s, acts, now);
    if acts == [] then s
    else
      ApplyPair(s, acts[0], acts[1], now);
      StageThenSubStage(s, stageId, subStageId, now);
      Apply(s, acts, now)
  }

  /** Setting the stage and then the sub-stage lands exactly on that pair. */
  lemma StageThenSubStage(s: GlobalState, stageId: string, subStageId: string, now: Time)
    ensures Reduce(Reduce(s, SetCurrentStage(stageId), now), SetCurrentSubStage(subStageId), now)
      == s.(workflow := Workflow(stageId, subStageId))
  {
  }

  lemma ApplyPair(s: GlobalState, a: GlobalAction, b: GlobalAction, now: Time)
    ensures Apply(s, [a, b], now) == Reduce(Reduce(s, a, now), b, now)
  {
    var s1 := Reduce(s, a, now);
    assert [a, b][1..] == [b];
    assert [b][1..] == [];
    assert Apply(s, [a, b], now) == Apply(s1, [b], now);
    assert Apply(s1, [b], now) == Apply(Reduce(s1, b, now), [], now);
  }

  predicate IsNavigation(a: GlobalAction) {
    a.SetCurrentStage? || a.SetCurrentSubStage?
  }

  lemma {:induction false} NavigationMovesOnlyPosition(s: GlobalState, acts: seq<GlobalAction>, now: Time)
    requires forall k :: 0 <= k < |acts| ==> IsNavigation(acts[k])
    ensures Apply(s, acts, now) == s.(workflow := Apply(s, acts, now).workflow)
    decreases |acts|
  {
    if acts != [] {
      NavigationMovesOnlyPosition(Reduce(s, acts[0], now), acts[1..], now);
    }
  }

  // ------------------------------------------- navigation against Order

  /** The single action that moves from `Order[i]` to `Order[i + 1]`. */
  function StepAction(i: nat): GlobalAction
    requires i + 1 < |Order|
  {
    if Order[i].currentStage == Order[i + 1].currentStage then SetCurrentSubStage(Order[i + 1].currentSubStageId)
    else SetCurrentStage(Order[i + 1].currentStage)
  }

  predicate UniqueSubStageIds(subs: seq<SubStage>) {
    forall a, b :: 0 <= a < b < |subs| ==> subs[a].id != subs[b].id
  }

  lemma {:induction false} FindSubStageIndexOfMember(subs: seq<SubStage>, j: nat)
    requires UniqueSubStageIds(subs) && j < |subs|
    ensures FindSubStageIndex(subs, subs[j].id) == j
    decreases j
  {
    if j > 0 {
      assert subs[0].id != subs[j].id;
      assert subs[1..][j - 1] == subs[j];
      FindSubStageIndexOfMember(subs[1..], j - 1);
    }
  }

  lemma {:induction false} FindStageIndexOfMember(stages: seq<StageConfig>, k: nat)
    requires UniqueStageIds(stages) && k < |stages|
    ensures FindStageIndex(stages, stages[k].id) == k
    decreases k
  {
    if k > 0 {
      assert stages[0].id != stages[k].id;
      assert stages[1..][k - 1] == stages[k];
      FindStageIndexOfMember(stages[1..], k - 1);
    }
  }

  /** The stage a position of `Order` lies in, and where that stage starts in `Order`. */
  function StageOf(i: nat): (k: nat)
    ensures k < |Catalogue|
  {
    if i < 2 then 0 else if i < 5 then 1 else if i < 8 then 2 else if i < 10 then 3 else 4
  }

  function StageStart(k: nat): nat
    requires k < |Catalogue|
  {
    [0, 2, 5, 8, 10][k]
  }

  /** Position `i` of `Order` is sub-stage `i - StageStart(StageOf(i))` of stage `StageOf(i)`. */
  lemma OrderLayout(i: nat)
    requires i < |Order|
    ensures var k := StageOf(i); var j := i - StageStart(k);
      StageStart(k) <= i && j < |Catalogue[k].subStages|
      && Order[i] == Workflow(Catalogue[k].id, Catalogue[k].subStages[j].id)
      && (j + 1 < |Catalogue[k].subStages| ==> StageOf(i + 1) == k)
      && (j + 1 == |Catalogue[k].subStages| && i + 1 < |Order| ==> StageOf(i + 1) == k + 1 && StageStart(k + 1) == i + 1)
      && (j == 0 && i > 0 ==> StageOf(i - 1) == k - 1 && i - StageStart(k - 1) == |Catalogue[k - 1].subStages|)
      && (j > 0 ==> StageOf(i - 1) == k)
  {
  }

  /** The first half of `OrderLayout`: where position `i` lies in the catalogue. */
  lemma OrderAt(i: nat)
    requires i < |Order|
    ensures var k := StageOf(i); var j := i - StageStart(k);
      StageStart(k) <= i && j < |Catalogue[k].subStages|
      && Order[i] == Workflow(Catalogue[k].id, Catalogue[k].subStages[j].id)
  {
    OrderLayout(i);
  }

  /** Every catalogue stage has at least one sub-stage. */
  lemma StagesHaveSubStages()
    ensures forall k :: 0 <= k < |Catalogue| ==> Catalogue[k].subStages != []
  {
  }

  /** Every stage of the catalogue lists its sub-stages without repeating an id. */
  lemma CatalogueSubStagesAreUnique(k: nat)
    requires k < |Catalogue|
    ensures UniqueSubStageIds(Catalogue[k].subStages)
  {
  }

  /** At position `Order[i]` the hook sees the stage `StageOf(i)` and the sub-stage index within it. */
  lemma PositionLookups(i: nat)
    requires i < |Order|
    ensures var k := StageOf(i);
      FindStage(Catalogue, Order[i].currentStage) == Some(Catalogue[k])
      && FindStageIndex(Catalogue, Order[i].currentStage) == k
      && CurrentSubStageIndex(Catalogue, Order[i]) == i - StageStart(k)
  {
    PositionStage(i);
    PositionStageIndex(i);
    PositionSubStageIndex(i);
  }

  lemma PositionStage(i: nat)
    requires i < |Order|
    ensures FindStage(Catalogue, Order[i].currentStage) == Some(Catalogue[StageOf(i)])
  {
    OrderAt(i);
    CatalogueIsWellFormed();
    FindStageOfMember(Catalogue, StageOf(i));
  }

  lemma PositionStageIndex(i: nat)
    requires i < |Order|
    ensures FindStageIndex(Catalogue, Order[i].currentStage) == StageOf(i)
  {
    OrderAt(i);
    CatalogueIsWellFormed();
    FindStageIndexOfMember(Catalogue, StageOf(i));
  }

  lemma PositionSubStageIndex(i: nat)
    requires i < |Order|
    ensures CurrentSubStageIndex(Catalogue, Order[i]) == i - StageStart(StageOf(i))
  {
    var k := StageOf(i);
    OrderAt(i);
    PositionStage(i);
    CatalogueSubStagesAreUnique(k);
    FindSubStageIndexOfMember(Catalogue[k].subStages, i - StageStart(k));
  }

  /** What the hook sees at sub-stage index `j` of stage `k`. */
  predicate SeenAt(stages: seq<StageConfig>, wf: Workflow, k: nat, j: int)
    requires k < |stages|
  {
    && -1 <= j < |stages[k].subStages|
    && FindStage(stages, wf.currentStage) == Some(stages[k])
    && FindStageIndex(stages, wf.currentStage) == k
    && CurrentSubStageIndex(stages, wf) == j
  }

  /** `nextSubStage` before the last sub-stage of a stage: the following sub-stage, if accessible. */
  lemma NextActionsWithin(stages: seq<StageConfig>, wf: Workflow, k: nat, j: int, data: FormData, role: Option<UserRole>)
    requires k < |stages| && SeenAt(stages, wf, k, j) && j + 1 < |stages[k].subStages|
    ensures var next := stages[k].subStages[j + 1].id;
      NextSubStageActions(stages, wf, data, role) ==
        if IsSubStageValid(wf.currentSubStageId, data) && CanAccessSubStage(stages, role, next) then [SetCurrentSubStage(next)] else []
  {
  }

  /** `nextSubStage` on the last sub-stage of a stage that has a successor: that stage, if its first sub-stage is accessible. */
  lemma NextActionsCross(stages: seq<StageConfig>, wf: Workflow, k: nat, j: int, data: FormData, role: Option<UserRole>)
    requires k + 1 < |stages| && SeenAt(stages, wf, k, j) && j + 1 == |stages[k].subStages|
    requires stages[k + 1].subStages != []
    ensures var next := stages[k + 1];
      NextSubStageActions(stages, wf, data, role) ==
        if IsSubStageValid(wf.currentSubStageId, data) && CanAccessSubStage(stages, role, next.subStages[0].id)
        then [SetCurrentStage(next.id)] else []
  {
  }

  /** `nextSubStage` on the last sub-stage of the last stage does nothing. */
  lemma NextActionsAtEnd(stages: seq<StageConfig>, wf: Workflow, j: int, data: FormData, role: Option<UserRole>)
    requires |stages| > 0 && SeenAt(stages, wf, |stages| - 1, j) && j + 1 == |stages[|stages| - 1].subStages|
    ensures NextSubStageActions(stages, wf, data, role) == []
  {
  }

  lemma NextActionsAlongOrder(i: nat, data: FormData, role: Option<UserRole>)
    requires i + 1 < |Order|
    ensures NextSubStageActions(Catalogue, Order[i], data, role)
      == if IsSubStageValid(Order[i].currentSubStageId, data) && CanAccessSubStage(Catalogue, role, Order[i + 1].currentSubStageId)
         then [StepAction(i)] else []
  {
    if Order[i].currentStage == Order[i + 1].currentStage {
      NextAlongSameStage(i, data, role);
    } else {
      NextAlongNewStage(i, data, role);
    }
  }

  lemma NextAlongSameStage(i: nat, data: FormData, role: Option<UserRole>)
    requires i + 1 < |Order| && Order[i].currentStage == Order[i + 1].currentStage
    ensures NextSubStageActions(Catalogue, Order[i], data, role)
      == if IsSubStageValid(Order[i].currentSubStageId, data) && CanAccessSubStage(Catalogue, role, Order[i + 1].currentSubStageId)
         then [SetCurrentSubStage(Order[i + 1].currentSubStageId)] else []
  {
    var k := StageOf(i);
    var j := i - StageStart(k);
    SeenAtPosition(i);
    NextLayout(i);
    NextActionsWithin(Catalogue, Order[i], k, j, data, role);
  }

  lemma NextAlongNewStage(i: nat, data: FormData, role: Option<UserRole>)
    requires i + 1 < |Order| && Order[i].currentStage != Order[i + 1].currentStage
    ensures NextSubStageActions(Catalogue, Order[i], data, role)
      == if IsSubStageValid(Order[i].currentSubStageId, data) && CanAccessSubStage(Catalogue, role, Order[i + 1].currentSubStageId)
         then [SetCurrentStage(Order[i + 1].currentStage)] else []
  {
    var k := StageOf(i);
    var j := i - StageStart(k);
    SeenAtPosition(i);
    NextLayout(i);
    StageHasSubStages(k + 1);
    NextActionsCross(Catalogue, Order[i], k, j, data, role);
  }

  /** At `Order[i]` the hook sees stage `StageOf(i)` and the sub-stage index within it. */
  lemma SeenAtPosition(i: nat)
    requires i < |Order|
    ensures SeenAt(Catalogue, Order[i], StageOf(i), i - StageStart(StageOf(i)))
  {
    PositionLookups(i);
    OrderAt(i);
  }

  /** The id of a stage's last sub-stage, or "" for a stage without one. */
  function LastSubStageId(sc: StageConfig): string {
    if sc.subStages == [] then "" else sc.subStages[|sc.subStages| - 1].id
  }

  /** Each catalogue stage has at least two sub-stages. */
  lemma StageHasSubStages(k: nat)
    requires k < |Catalogue|
    ensures |Catalogue[k].subStages| >= 2
  {
  }

  /** How `Order[i + 1]` sits relative to `Order[i]` in the catalogue. */
  lemma NextLayout(i: nat)
    requires i + 1 < |Order|
    ensures var k := StageOf(i); var j := i - StageStart(k); var subs := Catalogue[k].subStages;
      0 <= j < |subs|
      && (j + 1 < |subs| ==>
            Order[i + 1].currentStage == Order[i].currentStage && subs[j + 1].id == Order[i + 1].currentSubStageId)
      && (j + 1 >= |subs| ==>
            k + 1 < |Catalogue| && Order[i + 1].currentStage != Order[i].currentStage
            && Catalogue[k + 1].id == Order[i + 1].currentStage
            && Catalogue[k + 1].subStages[0].id == Order[i + 1].currentSubStageId)
  {
    OrderLayout(i);
    OrderLayout(i + 1);
  }

  /** How `Order[i - 1]` sits relative to `Order[i]` in the catalogue. */
  lemma PrevLayout(i: nat)
    requires 0 < i < |Order|
    ensures var k := StageOf(i); var j := i - StageStart(k);
      0 <= j < |Catalogue[k].subStages|
      && (j > 0 ==>
            Order[i - 1].currentStage == Order[i].currentStage
            && Catalogue[k].subStages[j - 1].id == Order[i - 1].currentSubStageId)
      && (j == 0 ==>
            k > 0 && Order[i - 1].currentStage != Order[i].currentStage
            && Catalogue[k - 1].id == Order[i - 1].currentStage
            && Catalogue[k - 1].subStages[|Catalogue[k - 1].subStages| - 1].id == Order[i - 1].currentSubStageId)
  {
    OrderLayout(i);
    OrderLayout(i - 1);
  }

  /** The step action from `Order[i]` lands on `Order[i + 1]`. */
  lemma StepActionReaches(s: GlobalState, i: nat, now: Time)
    requires i + 1 < |Order| && s.workflow == Order[i]
    ensures Reduce(s, StepAction(i), now) == s.(workflow := Order[i + 1])
  {
    OrderLayout(i + 1);
    if Order[i].currentStage != Order[i + 1].currentStage {
      OrderLayout(i);
      SetCurrentStageEntersFirstSubStage(s, StageOf(i + 1), now);
    }
  }

  /** `prevSubStage` after the first sub-stage of a stage: the preceding sub-stage. */
  lemma PrevActionsWithin(stages: seq<StageConfig>, wf: Workflow, k: nat, j: int)
    requires k < |stages| && SeenAt(stages, wf, k, j) && j > 0
    ensures PrevSubStageActions(stages, wf) == [SetCurrentSubStage(stages[k].subStages[j - 1].id)]
  {
  }

  /** `prevSubStage` at or before the first sub-stage of a later stage: the previous stage's last sub-stage. */
  lemma PrevActionsCross(stages: seq<StageConfig>, wf: Workflow, k: nat, j: int)
    requires 0 < k < |stages| && SeenAt(stages, wf, k, j) && j <= 0
    requires stages[k - 1].subStages != []
    ensures var prev := stages[k - 1];
      PrevSubStageActions(stages, wf) == [SetCurrentStage(prev.id), SetCurrentSubStage(prev.subStages[|prev.subStages| - 1].id)]
  {
  }

  /** `prevSubStage` at or before the first sub-stage of the first stage does nothing. */
  lemma PrevActionsAtStart(stages: seq<StageConfig>, wf: Workflow, j: int)
    requires |stages| > 0 && SeenAt(stages, wf, 0, j) && j <= 0
    ensures PrevSubStageActions(stages, wf) == []
  {
  }

  /** The actions that move from `Order[i]` back to `Order[i - 1]`. */
  function BackStep(i: nat): seq<GlobalAction>
    requires 0 < i < |Order|
  {
    if Order[i].currentStage == Order[i - 1].currentStage then [SetCurrentSubStage(Order[i - 1].currentSubStageId)]
    else [SetCurrentStage(Order[i - 1].currentStage), SetCurrentSubStage(Order[i - 1].currentSubStageId)]
  }

  lemma PrevActionsAlongOrder(i: nat)
    requires i < |Order|
    ensures PrevSubStageActions(Catalogue, Order[i]) == if i == 0 then [] else BackStep(i)
  {
    var k := StageOf(i);
    var j := i - StageStart(k);
    SeenAtPosition(i);
    if i == 0 {
      PrevActionsAtStart(Catalogue, Order[i], j);
    } else {
      PrevLayout(i);
      if j > 0 {
        PrevActionsWithin(Catalogue, Order[i], k, j);
        assert BackStep(i) == [SetCurrentSubStage(Order[i - 1].currentSubStageId)];
      } else {
        StageHasSubStages(k - 1);
        PrevActionsCross(Catalogue, Order[i], k, j);
        assert BackStep(i) == [SetCurrentStage(Order[i - 1].currentStage), SetCurrentSubStage(Order[i - 1].currentSubStageId)];
      }
    }
  }

  lemma ApplyOne(s: GlobalState, a: GlobalAction, now: Time)
    ensures Apply(s, [a], now) == Reduce(s, a, now)
  {
    assert [a][1..] == [];
  }

  /**
   * From any position of the workflow order, `nextSubStage` moves to the next
   * position exactly when the current sub-stage is valid and the next one is
   * accessible; otherwise nothing changes. Only the position ever changes.
   */
  lemma NextFollowsOrder(s: GlobalState, data: FormData, now: Time, i: nat)
    requires i + 1 < |Order| && s.workflow == Order[i]
    ensures Advance(s, data, now) ==
      if IsSubStageValid(Order[i].currentSubStageId, data) && CanAccessSubStage(Catalogue, RoleOf(s), Order[i + 1].currentSubStageId)
      then s.(workflow := Order[i + 1]) else s
  {
    NextActionsAlongOrder(i, data, RoleOf(s));
    if IsSubStageValid(Order[i].currentSubStageId, data) && CanAccessSubStage(Catalogue, RoleOf(s), Order[i + 1].currentSubStageId) {
      ApplyOne(s, StepAction(i), now);
      StepActionReaches(s, i, now);
    }
  }

  /** `nextSubStage` on the last sub-stage of the last stage does nothing. */
  lemma NextAtLastPositionStays(s: GlobalState, data: FormData, now: Time)
    requires s.workflow == Order[|Order| - 1]
    ensures Advance(s, data, now) == s
  {
    var acts := NextSubStageActions(Catalogue, s.workflow, data, RoleOf(s));
    LastPositionActions(data, RoleOf(s));
    assert acts == [];
    assert Advance(s, data, now) == Apply(s, acts, now);
  }

  lemma LastPositionActions(data: FormData, role: Option<UserRole>)
    ensures NextSubStageActions(Catalogue, Order[|Order| - 1], data, role) == []
  {
    var i := |Order| - 1;
    var k := StageOf(i);
    var j := i - StageStart(k);
    PositionLookups(i);
    OrderAt(i);
    assert SeenAt(Catalogue, Order[i], k, j);
    NextActionsAtEnd(Catalogue, Order[i], j, data, role);
  }

  /** `prevSubStage` moves one position back along the order, and does nothing at the first position. */
  lemma PrevFollowsOrder(s: GlobalState, now: Time, i: nat)
    requires i < |Order| && s.workflow == Order[i]
    ensures Retreat(s, now) == if i == 0 then s else s.(workflow := Order[i - 1])
  {
    PrevActionsAlongOrder(i);
    if i > 0 {
      if Order[i].currentStage == Order[i - 1].currentStage {
        ApplyOne(s, BackStep(i)[0], now);
      } else {
        ApplyPair(s, BackStep(i)[0], BackStep(i)[1], now);
      }
    }
  }

  /** Going back after a successful step forward restores the state exactly. */
  lemma PrevUndoesNext(s: GlobalState, data: FormData, now: Time, i: nat)
    requires i + 1 < |Order| && s.workflow == Order[i]
    requires IsSubStageValid(Order[i].currentSubStageId, data)
    requires CanAccessSubStage(Catalogue, RoleOf(s), Order[i + 1].currentSubStageId)
    ensures Retreat(Advance(s, data, now), now) == s
  {
    var n := Advance(s, data, now);
    NextFollowsOrder(s, data, now, i);
    assert n == s.(workflow := Order[i + 1]);
    PrevFollowsOrder(n, now, i + 1);
    assert n.(workflow := Order[i]) == s;
  }

  /** Leaving "risk-score" forward reaches "overrides" exactly for a Manager; everyone else stays. */
  lemma RiskScoreNextNeedsManager(s: GlobalState, data: FormData, now: Time)
    requires s.workflow == Workflow("underwriting", "risk-score")
    ensures Advance(s, data, now).workflow == Workflow("underwriting", "overrides") <==> RoleOf(s) == Some(Manager)
    ensures RoleOf(s) != Some(Manager) ==> Advance(s, data, now) == s
  {
    var i := 8;
    assert Order[i] == Workflow("underwriting", "risk-score");
    assert Order[i + 1] == Workflow("underwriting", "overrides");
    assert IsSubStageValid("risk-score", data);
    assert KnownSubStage("overrides") by {
      assert Order[i + 1].currentSubStageId == "overrides";
    }
    CanAccessIff(RoleOf(s), "overrides");
    NextFollowsOrder(s, data, now, i);
  }

  /** At a stage whose list lacks the current sub-stage id, the hook computes index -1 (`|| 0` keeps -1). */
  lemma UnlistedSubStageHasIndexMinusOne(wf: Workflow, k: nat)
    requires k < |Catalogue| && wf.currentStage == Catalogue[k].id
    requires !HasSubStage(Catalogue[k], wf.currentSubStageId)
    ensures FindStage(Catalogue, wf.currentStage) == Some(Catalogue[k])
    ensures FindStageIndex(Catalogue, wf.currentStage) == k
    ensures CurrentSubStageIndex(Catalogue, wf) == -1
  {
    CatalogueIsWellFormed();
    FindStageOfMember(Catalogue, k);
    FindStageIndexOfMember(Catalogue, k);
  }

  /** With index -1, `nextSubStage` moves to the first sub-stage of the current stage. */
  lemma UnlistedSubStageNextRestartsStage(s: GlobalState, data: FormData, now: Time, k: nat)
    requires k < |Catalogue| && s.workflow.currentStage == Catalogue[k].id
    requires !HasSubStage(Catalogue[k], s.workflow.currentSubStageId)
    requires IsSubStageValid(s.workflow.currentSubStageId, data)
    requires CanAccessSubStage(Catalogue, RoleOf(s), Catalogue[k].subStages[0].id)
    ensures Advance(s, data, now).workflow == Workflow(Catalogue[k].id, Catalogue[k].subStages[0].id)
  {
    var acts := NextSubStageActions(Catalogue, s.workflow, data, RoleOf(s));
    UnlistedNextActions(s.workflow, data, RoleOf(s), k);
    assert Advance(s, data, now) == Apply(s, acts, now);
    ApplyOne(s, acts[0], now);
    assert acts == [acts[0]];
  }

  lemma UnlistedNextActions(wf: Workflow, data: FormData, role: Option<UserRole>, k: nat)
    requires k < |Catalogue| && wf.currentStage == Catalogue[k].id
    requires !HasSubStage(Catalogue[k], wf.currentSubStageId)
    requires IsSubStageValid(wf.currentSubStageId, data)
    requires CanAccessSubStage(Catalogue, role, Catalogue[k].subStages[0].id)
    ensures NextSubStageActions(Catalogue, wf, data, role) == [SetCurrentSubStage(Catalogue[k].subStages[0].id)]
  {
    UnlistedSubStageHasIndexMinusOne(wf, k);
    StagesHaveSubStages();
    assert FindStage(Catalogue, wf.currentStage) == Some(Catalogue[k]);
  }

  /** With index -1, `prevSubStage` behaves as on the first sub-stage: back to the previous stage's last sub-stage. */
  lemma UnlistedSubStagePrevLeavesStage(s: GlobalState, now: Time, k: nat)
    requires k < |Catalogue| && s.workflow.currentStage == Catalogue[k].id
    requires !HasSubStage(Catalogue[k], s.workflow.currentSubStageId)
    ensures k == 0 ==> Retreat(s, now) == s
    ensures k > 0 ==> Retreat(s, now).workflow == Workflow(Catalogue[k - 1].id, LastSubStageId(Catalogue[k - 1]))
  {
    var acts := PrevSubStageActions(Catalogue, s.workflow);
    UnlistedSubStageHasIndexMinusOne(s.workflow, k);
    assert SeenAt(Catalogue, s.workflow, k, -1);
    if k > 0 {
      StageHasSubStages(k - 1);
    }
    PrevActionsBeforeFirst(Catalogue, s.workflow, k);
    assert Retreat(s, now) == Apply(s, acts, now);
    if k > 0 {
      ApplyPair(s, acts[0], acts[1], now);
      StageThenSubStage(s, Catalogue[k - 1].id, LastSubStageId(Catalogue[k - 1]), now);
    }
  }

  /** `prevSubStage` at or before a stage's first sub-stage: nothing in the first stage, else the previous stage's last sub-stage. */
  lemma PrevActionsBeforeFirst(stages: seq<StageConfig>, wf: Workflow, k: nat)
    requires k < |stages| && SeenAt(stages, wf, k, -1)
    requires k > 0 ==> stages[k - 1].subStages != []
    ensures k == 0 ==> PrevSubStageActions(stages, wf) == []
    ensures k > 0 ==>
      PrevSubStageActions(stages, wf) == [SetCurrentStage(stages[k - 1].id), SetCurrentSubStage(LastSubStageId(stages[k - 1]))]
  {
    if k == 0 {
      PrevActionsAtStart(stages, wf, -1);
    } else {
      PrevActionsCross(stages, wf, k, -1);
    }
  }

  /**
   * `goToSubStage` checks only the sub-stage: a Manager can jump to
   * "overrides" under any stage id, even one that does not contain it;
   * anyone else is refused and nothing changes.
   */
  lemma GoToOverridesNeedsManager(s: GlobalState, stageId: string, now: Time)
    ensures Jump(s, stageId, "overrides", now) ==
      if RoleOf(s) == Some(Manager) then s.(workflow := Workflow(stageId, "overrides")) else s
  {
    assert KnownSubStage("overrides") by {
      assert Order[9].currentSubStageId == "overrides";
    }
    CanAccessIff(RoleOf(s), "overrides");
  }

  /** A sub-stage id outside the catalogue can never be reached with `goToSubStage`. */
  lemma GoToUnknownSubStageRefused(s: GlobalState, stageId: string, subStageId: string, now: Time)
    requires !KnownSubStage(subStageId)
    ensures Jump(s, stageId, subStageId, now) == s
  {
    CanAccessIff(RoleOf(s), subStageId);
  }

  // ------------------------------------------- persistence and sync status

  datatype SyncStatus = Synced | Local | Syncing

  /**
   * The hook's own state together with the browser's local storage.
   * `pendingSyncs` counts simulated server saves that have started and not
   * yet resolved; each resolution marks the form synced and unchanged.
   */
  datatype StoreState = StoreState(
    formData: FormData,
    isFormChanged: bool,
    syncStatus: SyncStatus,
    pendingSyncs: nat,
    storage: map<string, FormData>)

  /** The storage key of an application's draft. */
  function StorageKey(applicationId: string): string {
    "formData_" + applicationId
  }

  /** The hook is bound to an application; "" stands for an absent id. */
  predicate HasId(applicationId: string) {
    applicationId != ""
  }

  /** Different applications never share a storage key. */
  lemma StorageKeyInjective(a: string, b: string)
    ensures StorageKey(a) == StorageKey(b) ==> a == b
  {
    if StorageKey(a) == StorageKey(b) {
      assert a == StorageKey(a)[9..] && b == StorageKey(b)[9..];
    }
  }

  /** What the hook keeps consistent: a save is in flight while it shows "syncing", and none ever starts without an id. */
  predicate SyncInvariant(st: StoreState, applicationId: string) {
    && (st.syncStatus == Syncing ==> st.pendingSyncs > 0)
    && (!HasId(applicationId) ==> st.pendingSyncs == 0 && st.syncStatus != Syncing)
  }

  /** The hook's first render: empty data, unchanged and "synced"; the saved draft is not loaded yet. */
  function FirstRender(storage: map<string, FormData>): (st: StoreState)
    ensures st.formData == map[] && !st.isFormChanged && st.syncStatus == Synced && st.pendingSyncs == 0
    ensures st.storage == storage
    ensures forall applicationId :: SyncInvariant(st, applicationId)
  {
    StoreState(map[], false, Synced, 0, storage)
  }

  /** What the load effect reads: the stored draft of a bound application, if there is one. */
  function SavedDraft(storage: map<string, FormData>, applicationId: string): (r: Option<FormData>)
    ensures r.Some? <==> HasId(applicationId) && StorageKey(applicationId) in storage
    ensures r.Some? ==> r.value == storage[StorageKey(applicationId)]
  {
    if HasId(applicationId) && StorageKey(applicationId) in storage then Some(storage[StorageKey(applicationId)]) else None
  }

  /** The load effect's `setFormData`: a draft replaces the data wholesale, and nothing else changes. */
  function Loaded(st: StoreState, draft: Option<FormData>): (r: StoreState)
    ensures draft.None? ==> r == st
    ensures draft.Some? ==> r.formData == draft.value
    ensures r == st.(formData := r.formData)
  {
    if draft.Some? then st.(formData := draft.value) else st
  }

  /** Mounting with no write during the first render: empty data, "synced", then the saved draft (if any) is loaded. */
  function Mount(storage: map<string, FormData>, applicationId: string): (st: StoreState)
    ensures SyncInvariant(st, applicationId)
    ensures st.storage == storage && !st.isFormChanged && st.syncStatus == Synced && st.pendingSyncs == 0
    ensures HasId(applicationId) && StorageKey(applicationId) in storage ==> st.formData == storage[StorageKey(applicationId)]
    ensures !(HasId(applicationId) && StorageKey(applicationId) in storage) ==> st.formData == map[]
  {
    Loaded(FirstRender(storage), SavedDraft(storage, applicationId))
  }

  /** `updateField`: one field is written, every other field kept, and the form is marked changed. */
  function FieldUpdated(st: StoreState, name: string, value: Value): (r: StoreState)
    ensures r.formData.Keys == st.formData.Keys + {name}
    ensures Get(r.formData, name) == value
    ensures forall f :: f != name ==> Get(r.formData, f) == Get(st.formData, f)
    ensures r.isFormChanged
    ensures r.syncStatus == st.syncStatus && r.pendingSyncs == st.pendingSyncs && r.storage == st.storage
  {
    st.(formData := st.formData[name := value], isFormChanged := true)
  }

  /** `syncFormData` up to its first await: without an id nothing happens, otherwise a save starts. */
  function StartSync(st: StoreState, applicationId: string): (r: StoreState)
    ensures !HasId(applicationId) ==> r == st
    ensures HasId(applicationId) ==> r == st.(syncStatus := Syncing, pendingSyncs := st.pendingSyncs + 1)
  {
    if !HasId(applicationId) then st else st.(syncStatus := Syncing, pendingSyncs := st.pendingSyncs + 1)
  }

  /** One simulated save resolves: "synced" and unchanged, whatever happened meanwhile. */
  function ResolveSync(st: StoreState): (r: StoreState)
    requires st.pendingSyncs > 0
    ensures r.syncStatus == Synced && !r.isFormChanged && r.pendingSyncs == st.pendingSyncs - 1
    ensures r.formData == st.formData && r.storage == st.storage
  {
    st.(syncStatus := Synced, isFormChanged := false, pendingSyncs := st.pendingSyncs - 1)
  }

  /** The change effect: a changed form is written to storage (with an id) and then synced or marked local. */
  function AfterChangeEffect(st: StoreState, applicationId: string, online: bool): (r: StoreState)
    ensures !st.isFormChanged ==> r == st
    ensures r.formData == st.formData && r.isFormChanged == st.isFormChanged
    ensures st.isFormChanged && HasId(applicationId) ==> r.storage == st.storage[StorageKey(applicationId) := st.formData]
    ensures !HasId(applicationId) ==> r.storage == st.storage
    ensures st.isFormChanged && !online ==> r.syncStatus == Local && r.pendingSyncs == st.pendingSyncs
    ensures st.isFormChanged && online && HasId(applicationId) ==>
      r.syncStatus == Syncing && r.pendingSyncs == st.pendingSyncs + 1
  {
    if !st.isFormChanged then st
    else
      var saved := if HasId(applicationId) then st.(storage := st.storage[StorageKey(applicationId) := st.formData]) else st;
      if online then StartSync(saved, applicationId) else saved.(syncStatus := Local)
  }

  /** The reconnection effect, which reads the sync status of the render before the change. */
  function ReconnectEffect(st: StoreState, applicationId: string, online: bool, renderedStatus: SyncStatus): StoreState {
    if online && renderedStatus == Local then StartSync(st, applicationId) else st
  }

  /** After the store's `isOnline` flips: the change effect, then the reconnection effect, on the same render. */
  function AfterNetworkChange(st: StoreState, applicationId: string, online: bool): StoreState {
    ReconnectEffect(AfterChangeEffect(st, applicationId, online), applicationId, online, st.syncStatus)
  }

  /**
   * The effects of the hook's first commit, in their declaration order: the
   * load effect reads the draft, the change effect acts on the first render's
   * data (which a write during that render may have changed), and the
   * reconnection effect compares with the first render's status. The draft
   * replaces the data only for the next render.
   */
  function MountEffects(st: StoreState, applicationId: string, online: bool): (r: StoreState)
    ensures !st.isFormChanged && st.syncStatus == Synced ==> r == Loaded(st, SavedDraft(st.storage, applicationId))
    ensures SavedDraft(st.storage, applicationId).Some? ==> r.formData == SavedDraft(st.storage, applicationId).value
    ensures SavedDraft(st.storage, applicationId).None? ==> r.formData == st.formData
    ensures r.isFormChanged == st.isFormChanged
    ensures st.isFormChanged && HasId(applicationId) ==> r.storage == st.storage[StorageKey(applicationId) := st.formData]
  {
    Loaded(AfterNetworkChange(st, applicationId, online), SavedDraft(st.storage, applicationId))
  }

  /**
   * Mounting a component whose first render makes `updates`: the writes land
   * on the empty first-render data, the first commit's effects run, and a
   * loaded draft (new data) makes the change effect run once more.
   */
  function MountWithWrites(storage: map<string, FormData>, applicationId: string, online: bool,
                           updates: seq<(string, Value)>): StoreState
  {
    var committed := MountEffects(UpdateAll(FirstRender(storage), updates), applicationId, online);
    if SavedDraft(storage, applicationId).Some? then AfterChangeEffect(committed, applicationId, online) else committed
  }

  /** Without first-render writes, mounting is the plain load of the saved draft. */
  lemma MountWithoutWritesIsMount(storage: map<string, FormData>, applicationId: string, online: bool)
    ensures MountWithWrites(storage, applicationId, online, []) == Mount(storage, applicationId)
  {
  }

  /**
   * A saved draft wins over the first render's writes: the data, and the
   * stored snapshot, end as the draft, although the writes reached storage
   * in between; the form is left marked changed.
   */
  lemma DraftDiscardsFirstRenderWrites(storage: map<string, FormData>, applicationId: string, online: bool,
                                       updates: seq<(string, Value)>)
    requires HasId(applicationId) && StorageKey(applicationId) in storage && updates != []
    ensures var first := UpdateAll(FirstRender(storage), updates);
      var committed := MountEffects(first, applicationId, online);
      var r := MountWithWrites(storage, applicationId, online, updates);
      StorageKey(applicationId) in committed.storage && committed.storage[StorageKey(applicationId)] == first.formData
      && StorageKey(applicationId) in r.storage
      && r.formData == storage[StorageKey(applicationId)]
      && r.storage[StorageKey(applicationId)] == storage[StorageKey(applicationId)]
      && r.isFormChanged
  {
    UpdateAllKeepsSyncFields(FirstRender(storage), updates);
  }

  /** Without a saved draft, the first render's writes stay and are stored. */
  lemma FirstRenderWritesKeptWithoutDraft(storage: map<string, FormData>, applicationId: string, online: bool,
                                          updates: seq<(string, Value)>, f: string)
    requires !(HasId(applicationId) && StorageKey(applicationId) in storage) && updates != []
    ensures var r := MountWithWrites(storage, applicationId, online, updates);
      Get(r.formData, f) == LastWrite(map[], updates, f)
      && (HasId(applicationId) ==> StorageKey(applicationId) in r.storage && r.storage[StorageKey(applicationId)] == r.formData)
      && r.isFormChanged
  {
    UpdateAllKeepsSyncFields(FirstRender(storage), updates);
    UpdateAllIsLastWrite(FirstRender(storage), updates, f);
  }

  /**
   * A handler's field updates followed by the one change-effect run they
   * cause. With no update the data and flag keep their identity and React
   * does not re-run the effect; callers pass a non-empty run.
   */
  function Edit(st: StoreState, applicationId: string, online: bool, updates: seq<(string, Value)>): StoreState {
    AfterChangeEffect(UpdateAll(st, updates), applicationId, online)
  }

  function UpdateAll(st: StoreState, updates: seq<(string, Value)>): StoreState
    decreases |updates|
  {
    if updates == [] then st
    else UpdateAll(FieldUpdated(st, updates[0].0, updates[0].1), updates[1..])
  }

  lemma SyncInvariantPreserved(st: StoreState, applicationId: string, online: bool, name: string, value: Value)
    requires SyncInvariant(st, applicationId)
    ensures SyncInvariant(FieldUpdated(st, name, value), applicationId)
    ensures SyncInvariant(StartSync(st, applicationId), applicationId)
    ensures st.pendingSyncs > 0 ==> SyncInvariant(ResolveSync(st), applicationId)
    ensures SyncInvariant(AfterChangeEffect(st, applicationId, online), applicationId)
    ensures SyncInvariant(AfterNetworkChange(st, applicationId, online), applicationId)
  {
  }

  /** Without an application id nothing is ever stored or sent. */
  lemma NoIdNoStorageNoSync(st: StoreState, online: bool, updates: seq<(string, Value)>)
    requires SyncInvariant(st, "")
    ensures Edit(st, "", online, updates).storage == st.storage
    ensures Edit(st, "", online, updates).pendingSyncs == 0
    ensures AfterNetworkChange(st, "", online).storage == st.storage
    ensures AfterNetworkChange(st, "", online).pendingSyncs == 0
  {
    UpdateAllKeepsSyncFields(st, updates);
  }

  lemma {:induction false} UpdateAllKeepsSyncFields(st: StoreState, updates: seq<(string, Value)>)
    ensures var r := UpdateAll(st, updates);
      r.storage == st.storage && r.pendingSyncs == st.pendingSyncs && r.syncStatus == st.syncStatus
      && (updates != [] ==> r.isFormChanged) && (updates == [] ==> r == st)
    decreases |updates|
  {
    if updates != [] {
      UpdateAllKeepsSyncFields(FieldUpdated(st, updates[0].0, updates[0].1), updates[1..]);
    }
  }

  /** The data after a run of updates: the latest value written to each field, the old value otherwise. */
  function LastWrite(data: FormData, updates: seq<(string, Value)>, f: string): Value
    decreases |updates|
  {
    if updates == [] then Get(data, f)
    else if updates[|updates| - 1].0 == f then updates[|updates| - 1].1
    else LastWrite(data, updates[..|updates| - 1], f)
  }

  lemma {:induction false} UpdateAllIsLastWrite(st: StoreState, updates: seq<(string, Value)>, f: string)
    ensures Get(UpdateAll(st, updates).formData, f) == LastWrite(st.formData, updates, f)
    decreases |updates|
  {
    if updates != [] {
      var n := |updates| - 1;
      UpdateAllSnoc(st, updates[..n], updates[n]);
      assert updates[..n] + [updates[n]] == updates;
      UpdateAllIsLastWrite(st, updates[..n], f);
    }
  }

  lemma {:induction false} UpdateAllSnoc(st: StoreState, updates: seq<(string, Value)>, u: (string, Value))
    ensures UpdateAll(st, updates + [u]) == FieldUpdated(UpdateAll(st, updates), u.0, u.1)
    decreases |updates|
  {
    if updates == [] {
      assert [u][1..] == [];
    } else {
      assert (updates + [u])[0] == updates[0];
      assert (updates + [u])[1..] == updates[1..] + [u];
      UpdateAllSnoc(FieldUpdated(st, updates[0].0, updates[0].1), updates[1..], u);
    }
  }

  /**
   * Working offline: after any non-empty run of edits, local storage holds
   * exactly the latest form data, every field carries its last written
   * value, and the status is "local".
   */
  lemma {:induction false} OfflineEditsSavedLocally(
    st: StoreState, applicationId: string, edits: seq<seq<(string, Value)>>)
    requires HasId(applicationId)
    requires edits != [] && edits[|edits| - 1] != []
    ensures var r := OfflineSession(st, applicationId, edits);
      StorageKey(applicationId) in r.storage && r.storage[StorageKey(applicationId)] == r.formData
      && r.syncStatus == Local && r.isFormChanged && r.pendingSyncs == st.pendingSyncs
    decreases |edits|
  {
    var n := |edits| - 1;
    var before := OfflineSession(st, applicationId, edits[..n]);
    UpdateAllKeepsSyncFields(before, edits[n]);
    if n > 0 && edits[n - 1] != [] {
      OfflineEditsSavedLocally(st, applicationId, edits[..n]);
    } else {
      OfflineSessionKeepsPending(st, applicationId, edits[..n]);
    }
  }

  /** A sequence of offline edit handlers, each followed by its change-effect run. */
  function OfflineSession(st: StoreState, applicationId: string, edits: seq<seq<(string, Value)>>): StoreState
    decreases |edits|
  {
    if edits == [] then st
    else Edit(OfflineSession(st, applicationId, edits[..|edits| - 1]), applicationId, false, edits[|edits| - 1])
  }

  lemma {:induction false} OfflineSessionKeepsPending(st: StoreState, applicationId: string, edits: seq<seq<(string, Value)>>)
    ensures OfflineSession(st, applicationId, edits).pendingSyncs == st.pendingSyncs
    decreases |edits|
  {
    if edits != [] {
      var before := OfflineSession(st, applicationId, edits[..|edits| - 1]);
      OfflineSessionKeepsPending(st, applicationId, edits[..|edits| - 1]);
      UpdateAllKeepsSyncFields(before, edits[|edits| - 1]);
    }
  }

  /** Coming back online while the status is "local" starts a save. */
  lemma ReconnectStartsSync(st: StoreState, applicationId: string)
    requires HasId(applicationId) && st.syncStatus == Local
    ensures var r := AfterNetworkChange(st, applicationId, true);
      r.syncStatus == Syncing && r.pendingSyncs > st.pendingSyncs && r.formData == st.formData
  {
  }

  /**
   * With unsaved edits, reconnecting runs both effects on the same render:
   * the change effect and the reconnection effect each start a save.
   */
  lemma ReconnectWithUnsavedEditsStartsTwoSaves(st: StoreState, applicationId: string)
    requires HasId(applicationId) && st.isFormChanged && st.syncStatus == Local
    ensures AfterNetworkChange(st, applicationId, true).pendingSyncs == st.pendingSyncs + 2
  {
  }

  /**
   * A save started online and resolving after an offline edit marks the form
   * "synced" and unchanged: the offline edit is in local storage, but coming
   * back online starts no save for it.
   */
  lemma StaleSaveHidesOfflineEdit(st: StoreState, applicationId: string, f1: string, v1: Value, f2: string, v2: Value)
    requires HasId(applicationId) && SyncInvariant(st, applicationId) && st.pendingSyncs == 0
    ensures var s1 := AfterChangeEffect(FieldUpdated(st, f1, v1), applicationId, true);
      var s2 := AfterChangeEffect(FieldUpdated(s1, f2, v2), applicationId, false);
      s2.pendingSyncs == 1
      && var s3 := ResolveSync(s2);
      var s4 := AfterNetworkChange(s3, applicationId, true);
      s2.storage[StorageKey(applicationId)] == s2.formData
      && Get(s4.formData, f2) == v2
      && s4.syncStatus == Synced && !s4.isFormChanged && s4.pendingSyncs == 0
  {
  }

  /** An online edit with an id is stored, and once its save resolves the form is synced and unchanged. */
  lemma OnlineEditSyncs(st: StoreState, applicationId: string, name: string, value: Value)
    requires HasId(applicationId)
    ensures var s1 := Edit(st, applicationId, true, [(name, value)]);
      s1.syncStatus == Syncing
      && StorageKey(applicationId) in s1.storage && s1.storage[StorageKey(applicationId)] == s1.formData
      && s1.pendingSyncs == st.pendingSyncs + 1
      && var s2 := ResolveSync(s1);
      s2.syncStatus == Synced && !s2.isFormChanged && Get(s2.formData, name) == value
  {
    assert [(name, value)][1..] == [];
    assert UpdateAll(st, [(name, value)]) == FieldUpdated(st, name, value);
  }

  // ----------------------------------------------------------- the hook

  /** The browser's `localStorage`, holding one draft per storage key. */
  class LocalStorage {
    var items: map<string, FormData>

    constructor ()
      ensures items == map[]
    {
      items := map[];
    }
  }

  /** One instance of the hook, bound to an application id, the shared store and local storage. */
  class FormSession {
    const applicationId: string
    const global: GlobalStore
    const storage: LocalStorage
    var formData: FormData
    var isFormChanged: bool
    var syncStatus: SyncStatus
    var pendingSyncs: nat

    function State(): StoreState
      reads this, storage
    {
      StoreState(formData, isFormChanged, syncStatus, pendingSyncs, storage.items)
    }

    ghost predicate Valid()
      reads this, storage
    {
      SyncInvariant(State(), applicationId)
    }

    /** The hook's first render: the saved draft is not loaded until `FirstCommitEffects`. */
    constructor (applicationId: string, global: GlobalStore, storage: LocalStorage)
      ensures this.applicationId == applicationId && this.global == global && this.storage == storage
      ensures State() == FirstRender(storage.items)
      ensures Valid()
    {
      this.applicationId := applicationId;
      this.global := global;
      this.storage := storage;
      formData := map[];
      isFormChanged := false;
      syncStatus := Synced;
      pendingSyncs := 0;
    }

    /** The effects after the first render: load, change and reconnection, then the draft becomes the data. */
    method FirstCommitEffects()
      requires Valid()
      modifies this, storage
      ensures Valid()
      ensures State() == MountEffects(old(State()), applicationId, global.state.networkStatus.isOnline)
    {
      var draft: Option<FormData> := None;
      if HasId(applicationId) && StorageKey(applicationId) in storage.items {
        draft := Some(storage.items[StorageKey(applicationId)]);
      }
      NetworkChanged();
      if draft.Some? {
        formData := draft.value;
      }
    }

    method UpdateField(name: string, value: Value)
      requires Valid()
      modifies this
      ensures Valid() && State() == FieldUpdated(old(State()), name, value)
    {
      formData := formData[name := value];
      isFormChanged := true;
    }

    method SyncFormData()
      requires Valid()
      modifies this
      ensures Valid() && State() == StartSync(old(State()), applicationId)
    {
      if !HasId(applicationId) {
        return;
      }
      syncStatus := Syncing;
      pendingSyncs := pendingSyncs + 1;
    }

    /** The simulated one-second save of an earlier `SyncFormData` resolves. */
    method SyncResolved()
      requires Valid() && pendingSyncs > 0
      modifies this
      ensures Valid() && State() == ResolveSync(old(State()))
    {
      syncStatus := Synced;
      isFormChanged := false;
      pendingSyncs := pendingSyncs - 1;
    }

    /** The change effect, run after a render whose form data or change flag differs. */
    method ChangeEffect()
      requires Valid()
      modifies this, storage
      ensures Valid()
      ensures State() == AfterChangeEffect(old(State()), applicationId, global.state.networkStatus.isOnline)
    {
      if isFormChanged {
        if HasId(applicationId) {
          storage.items := storage.items[StorageKey(applicationId) := formData];
        }
        if global.state.networkStatus.isOnline {
          SyncFormData();
        } else {
          syncStatus := Local;
        }
      }
    }

    /** Both effects that depend on `isOnline`, after the store's flag has flipped. */
    method NetworkChanged()
      requires Valid()
      modifies this, storage
      ensures Valid()
      ensures State() == AfterNetworkChange(old(State()), applicationId, global.state.networkStatus.isOnline)
    {
      var rendered := syncStatus;
      ChangeEffect();
      if global.state.networkStatus.isOnline && rendered == Local {
        SyncFormData();
      }
    }

    method NextSubStage(now: Time)
      modifies global
      ensures global.state == Advance(old(global.state), formData, now)
    {
      var actions := NextSubStageActions(Catalogue, global.state.workflow, formData, RoleOf(global.state));
      DispatchEach(actions, now);
    }

    method PrevSubStage(now: Time)
      modifies global
      ensures global.state == Retreat(old(global.state), now)
    {
      var actions := PrevSubStageActions(Catalogue, global.state.workflow);
      DispatchEach(actions, now);
    }

    method GoToSubStage(stageId: string, subStageId: string, now: Time)
      modifies global
      ensures global.state == Jump(old(global.state), stageId, subStageId, now)
    {
      var actions := GoToSubStageActions(RoleOf(global.state), stageId, subStageId);
      if actions != [] {
        ApplyPair(global.state, actions[0], actions[1], now);
        global.Dispatch(actions[0], now);
        global.Dispatch(actions[1], now);
      }
    }

    /** Dispatches the zero, one or two actions a navigation call produces. */
    method DispatchEach(actions: seq<GlobalAction>, now: Time)
      requires |actions| <= 2
      modifies global
      ensures global.state == Apply(old(global.state), actions, now)
    {
      if |actions| == 1 {
        assert actions == [actions[0]];
        ApplyOne(global.state, actions[0], now);
        global.Dispatch(actions[0], now);
      } else if |actions| == 2 {
        assert actions == [actions[0], actions[1]];
        ApplyPair(global.state, actions[0], actions[1], now);
        global.Dispatch(actions[0], now);
        global.Dispatch(actions[1], now);
      }
    }
  }
}
