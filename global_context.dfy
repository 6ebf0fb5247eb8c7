/**
 * The application-wide store: users, applications, the workflow position
 * (current stage and sub-stage), UI flags, the network status and the
 * background-task registry, changed only through `Reduce`.
 */
module GlobalContext {

  import opened Wrappers

  /** A point in time (the source's `Date`), as an abstract instant supplied by the caller. */
  type Time = nat

  datatype UserRole = Agent | Manager | Underwriter | Admin

  datatype User = User(id: string, name: string, role: UserRole)

  datatype LoanType = Personal | Home | Auto | Education

  datatype ApplicationStatus = Draft | InProgress | UnderReview | Approved | Rejected

  datatype Application = Application(id: string, loanType: LoanType, status: ApplicationStatus, amount: int)

  datatype SubStage = SubStage(id: string, title: string, requiresRole: Option<UserRole>)

  datatype StageConfig = StageConfig(id: string, title: string, subStages: seq<SubStage>)

  datatype TaskStatus = Idle | Pending | Success | Error

  /** The payloads the simulated background tasks attach to a successful run. */
  datatype TaskResult =
    | CreditReport(score: int, decision: string, factors: seq<string>)
    | DocumentCheck(verified: bool, documents: seq<string>)
    | LoanOffer(approved: bool, amount: int, rate: string, term: string)

  datatype BackgroundTask = BackgroundTask(
    name: string,
    status: TaskStatus,
    message: Option<string>,
    result: Option<TaskResult>,
    createdAt: Time,
    completedAt: Option<Time>)

  /** The workflow position; the stage list itself never changes and is `Catalogue`. */
  datatype Workflow = Workflow(currentStage: string, currentSubStageId: string)

  datatype Ui = Ui(modals: map<string, bool>, sidebarOpen: bool)

  datatype NetworkStatus = NetworkStatus(isOnline: bool, lastOnlineAt: Option<Time>)

  datatype GlobalState = GlobalState(
    user: Option<User>,
    applications: seq<Application>,
    selectedApplicationId: Option<string>,
    workflow: Workflow,
    ui: Ui,
    networkStatus: NetworkStatus,
    backgroundTasks: map<string, BackgroundTask>)

  datatype GlobalAction =
    | SetUser(user: Option<User>)
    | SetApplications(applications: seq<Application>)
    | SetSelectedApplication(applicationId: Option<string>)
    | SetCurrentStage(stage: string)
    | SetCurrentSubStage(subStageId: string)
    | ToggleModal(modalId: string, isOpen: bool)
    | SetSidebarOpen(open: bool)
    | SetNetworkStatus(online: bool)
    | SetTask(taskName: string, task: BackgroundTask)
    | Unrecognised(actionType: string)

  /** The five stages of a loan application and their sub-stages, in workflow order. */
  const Catalogue: seq<StageConfig> := [
    StageConfig("lead-capture", "Lead Capture", [
      SubStage("basic-details", "Basic Details", None),
      SubStage("otp-verification", "OTP Verification", None)]),
    StageConfig("application", "Application", [
      SubStage("primary-applicant", "Primary Applicant", None),
      SubStage("co-applicant", "Co-Applicant", None),
      SubStage("bureau-check", "Credit Bureau Check", None)]),
    StageConfig("document-upload", "Document Upload", [
      SubStage("upload", "Upload Documents", None),
      SubStage("verification", "Document Verification", None),
      SubStage("auto-offer", "Auto Loan Offer", None)]),
    StageConfig("underwriting", "Underwriting", [
      SubStage("risk-score", "Risk Score & Rules", None),
      SubStage("overrides", "Underwriter Overrides", Some(Manager))]),
    StageConfig("approval", "Approval", [
      SubStage("sanction", "Sanction & Agreement", None),
      SubStage("disbursement", "Final Checklist & Disbursement", None)])
  ]

  /** The first stage whose id is `id` (`stages.find(s => s.id === id)`). */
  function FindStage(stages: seq<StageConfig>, id: string): (r: Option<StageConfig>)
    ensures r.Some? ==> r.value in stages && r.value.id == id
    ensures r.None? <==> forall k :: 0 <= k < |stages| ==> stages[k].id != id
  {
    if stages == [] then None
    else if stages[0].id == id then Some(stages[0])
    else FindStage(stages[1..], id)
  }

  /** `stage.subStages[0].id`, or "" when the stage has no sub-stage. */
  function FirstSubStageId(stage: StageConfig): string {
    if stage.subStages == [] then "" else stage.subStages[0].id
  }

  /** The state the store starts in, given whether the browser reports being online and the current time. */
  function InitialState(online: bool, now: Time): (s: GlobalState)
    ensures s.workflow == Workflow(Catalogue[0].id, FirstSubStageId(Catalogue[0]))
    ensures s.user.None? && s.applications == [] && s.selectedApplicationId.None?
    ensures s.ui.modals == map[] && s.ui.sidebarOpen
    ensures s.networkStatus.isOnline == online
    ensures s.networkStatus.lastOnlineAt.Some? <==> online
    ensures s.backgroundTasks == map[]
  {
    GlobalState(
      None, [], None,
      Workflow("lead-capture", "basic-details"),
      Ui(map[], true),
      NetworkStatus(online, if online then Some(now) else None),
      map[])
  }

  /** The sub-stage a stage change lands on: the target stage's first sub-stage, or the current one when there is none. */
  function StageEntry(current: Workflow, stage: string): string {
    match FindStage(Catalogue, stage)
    case None => current.currentSubStageId
    case Some(sc) => if FirstSubStageId(sc) != "" then FirstSubStageId(sc) else current.currentSubStageId
  }

  /** The reducer: every action changes exactly the part of the state it names. */
  function Reduce(s: GlobalState, a: GlobalAction, now: Time): (r: GlobalState)
    ensures a.Unrecognised? ==> r == s
    ensures r.user == (if a.SetUser? then a.user else s.user)
    ensures r.applications == (if a.SetApplications? then a.applications else s.applications)
    ensures r.selectedApplicationId == (if a.SetSelectedApplication? then a.applicationId else s.selectedApplicationId)
    ensures r.workflow.currentStage == (if a.SetCurrentStage? then a.stage else s.workflow.currentStage)
    ensures a.SetCurrentSubStage? ==> r.workflow.currentSubStageId == a.subStageId
    ensures a.SetCurrentStage? ==>
      (FindStage(Catalogue, a.stage).None? ==> r.workflow.currentSubStageId == s.workflow.currentSubStageId)
    ensures !a.SetCurrentStage? && !a.SetCurrentSubStage? ==> r.workflow == s.workflow
    ensures r.ui.modals == (if a.ToggleModal? then s.ui.modals[a.modalId := a.isOpen] else s.ui.modals)
    ensures r.ui.sidebarOpen == (if a.SetSidebarOpen? then a.open else s.ui.sidebarOpen)
    ensures r.networkStatus.isOnline == (if a.SetNetworkStatus? then a.online else s.networkStatus.isOnline)
    ensures r.networkStatus.lastOnlineAt ==
      (if a.SetNetworkStatus? && a.online then Some(now) else s.networkStatus.lastOnlineAt)
    ensures r.backgroundTasks == (if a.SetTask? then s.backgroundTasks[a.taskName := a.task] else s.backgroundTasks)
  {
    match a
    case SetUser(u) => s.(user := u)
    case SetApplications(apps) => s.(applications := apps)
    case SetSelectedApplication(id) => s.(selectedApplicationId := id)
    case SetCurrentStage(stage) =>
      s.(workflow := Workflow(stage, StageEntry(s.workflow, stage)))
    case SetCurrentSubStage(id) => s.(workflow := s.workflow.(currentSubStageId := id))
    case ToggleModal(id, open) => s.(ui := s.ui.(modals := s.ui.modals[id := open]))
    case SetSidebarOpen(open) => s.(ui := s.ui.(sidebarOpen := open))
    case SetNetworkStatus(online) =>
      s.(networkStatus := NetworkStatus(online, if online then Some(now) else s.networkStatus.lastOnlineAt))
    case SetTask(name, task) => s.(backgroundTasks := s.backgroundTasks[name := task])
    case Unrecognised(_) => s
  }

  /** Dispatching a sequence of actions in order. */
  function Apply(s: GlobalState, actions: seq<GlobalAction>, now: Time): GlobalState
    decreases |actions|
  {
    if actions == [] then s else Apply(Reduce(s, actions[0], now), actions[1..], now)
  }

  lemma {:induction false} ApplyConcat(s: GlobalState, xs: seq<GlobalAction>, ys: seq<GlobalAction>, now: Time)
    ensures Apply(s, xs + ys, now) == Apply(Apply(s, xs, now), ys, now)
    decreases |xs|
  {
    if xs != [] {
      assert (xs + ys)[0] == xs[0];
      assert (xs + ys)[1..] == xs[1..] + ys;
      ApplyConcat(Reduce(s, xs[0], now), xs[1..], ys, now);
    } else {
      assert xs + ys == ys;
    }
  }

  predicate UniqueStageIds(stages: seq<StageConfig>) {
    forall i, j :: 0 <= i < j < |stages| ==> stages[i].id != stages[j].id
  }

  /** With unique stage ids, looking up a stage's own id finds that stage. */
  lemma {:induction false} FindStageOfMember(stages: seq<StageConfig>, k: nat)
    requires UniqueStageIds(stages)
    requires k < |stages|
    ensures FindStage(stages, stages[k].id) == Some(stages[k])
    decreases k
  {
    if k > 0 {
      assert stages[0].id != stages[k].id;
      assert stages[1..][k - 1] == stages[k];
      FindStageOfMember(stages[1..], k - 1);
    }
  }

  /** Every catalogue stage has an id of its own and at least one sub-stage. */
  lemma CatalogueIsWellFormed()
    ensures UniqueStageIds(Catalogue)
    ensures forall k :: 0 <= k < |Catalogue| ==> Catalogue[k].subStages != [] && Catalogue[k].subStages[0].id != ""
  {
  }

  /** Moving to a catalogue stage always lands on its first sub-stage. */
  lemma SetCurrentStageEntersFirstSubStage(s: GlobalState, k: nat, now: Time)
    requires k < |Catalogue|
    ensures Reduce(s, SetCurrentStage(Catalogue[k].id), now).workflow
      == Workflow(Catalogue[k].id, Catalogue[k].subStages[0].id)
  {
    CatalogueIsWellFormed();
    FindStageOfMember(Catalogue, k);
  }

  /** A stage id outside the catalogue changes the stage but keeps the sub-stage. */
  lemma SetUnknownStageKeepsSubStage(s: GlobalState, stage: string, now: Time)
    requires forall k :: 0 <= k < |Catalogue| ==> Catalogue[k].id != stage
    ensures Reduce(s, SetCurrentStage(stage), now).workflow == Workflow(stage, s.workflow.currentSubStageId)
  {
  }

  /** Going online stamps `lastOnlineAt`; going offline keeps the last stamp. */
  lemma NetworkStatusStampsOnlyWhenOnline(s: GlobalState, online: bool, now: Time)
    ensures var r := Reduce(s, SetNetworkStatus(online), now);
      r.networkStatus.isOnline == online
      && (online ==> r.networkStatus.lastOnlineAt == Some(now))
      && (!online ==> r.networkStatus.lastOnlineAt == s.networkStatus.lastOnlineAt)
      && r.workflow == s.workflow && r.backgroundTasks == s.backgroundTasks
  {
  }

  /** Recording a task replaces that task's entry and leaves all others as they were. */
  lemma SetTaskTouchesOneEntry(s: GlobalState, name: string, task: BackgroundTask, other: string, now: Time)
    requires other != name
    ensures var r := Reduce(s, SetTask(name, task), now);
      r.backgroundTasks[name] == task
      && (other in s.backgroundTasks <==> other in r.backgroundTasks)
      && (other in s.backgroundTasks ==> r.backgroundTasks[other] == s.backgroundTasks[other])
  {
  }

  /** The demo session the provider sets up on mount: an Agent, two applications, the first selected. */
  const DemoUser: User := User("user-1", "John Doe", Agent)

  const DemoSetup: seq<GlobalAction> := [
    SetUser(Some(DemoUser)),
    SetApplications([
      Application("app-1", Personal, InProgress, 25000),
      Application("app-2", Auto, Draft, 35000)]),
    SetSelectedApplication(Some("app-1"))
  ]

  /** After the demo set-up the signed-in user is an Agent and "app-1" is selected; nothing else moved. */
  lemma DemoSetupSignsInAnAgent(s: GlobalState, now: Time)
    ensures var r := Apply(s, DemoSetup, now);
      r.user == Some(DemoUser) && r.user.value.role == Agent
      && r.selectedApplicationId == Some("app-1") && |r.applications| == 2
      && r.workflow == s.workflow && r.networkStatus == s.networkStatus
      && r.backgroundTasks == s.backgroundTasks
  {
    var s1 := Reduce(s, DemoSetup[0], now);
    var s2 := Reduce(s1, DemoSetup[1], now);
    var s3 := Reduce(s2, DemoSetup[2], now);
    assert Apply(s3, DemoSetup[3..], now) == s3;
    assert Apply(s, DemoSetup, now) == Apply(s1, DemoSetup[1..], now) == Apply(s2, DemoSetup[2..], now);
  }

  /** The store object the provider shares with every component. */
  class GlobalStore {
    var state: GlobalState

    constructor (online: bool, now: Time)
      ensures state == InitialState(online, now)
    {
      state := InitialState(online, now);
    }

    method Dispatch(a: GlobalAction, now: Time)
      modifies this
      ensures state == Reduce(old(state), a, now)
    {
      state := Reduce(state, a, now);
    }

  }
}
