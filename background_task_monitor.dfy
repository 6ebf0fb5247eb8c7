/**
 * The background-task monitor: one hook instance per task name drives
 * that task's entry in the store through pending, success and error,
 * with a single polling timer, restart on demand, interruption when the
 * browser goes offline and automatic restart after an error once online.
 *
 * The hook's state and the set of live interval timers it owns form the
 * `MonitorLocal` record; together with the store it is a `World`. Each
 * event is a function from world to world, and class `TaskMonitor`
 * performs the same steps on fields.
 *
 * The outcome of a polling tick (a random draw in the source) is an input.
 */
module BackgroundTaskMonitor {

  import opened Wrappers
  import opened GlobalContext

  /** A handle returned by `setInterval`; handles are positive and never reused. */
  type TimerId = nat

  datatype MonitorLocal = MonitorLocal(
    pollingInterval: Option<TimerId>,
    activeTimers: set<TimerId>,
    nextTimerId: TimerId,
    retryCount: nat,
    hasError: bool,
    pollCreatedAt: Option<Time>,
    cleanupHandle: Option<TimerId>)

  datatype World = World(local: MonitorLocal, global: GlobalState)

  /** What the random draw in a polling tick decides. */
  datatype TickOutcome = Continue | Succeed | Fail

  const CreditBureauCheck: string := "creditBureauCheck"
  const DocumentVerification: string := "documentVerification"
  const AutoOffer: string := "autoOffer"

  /** The simulated result of a successful run, by task name; other names have none. */
  function ResultFor(name: string): Option<TaskResult> {
    if name == CreditBureauCheck then Some(CreditReport(720, "APPROVED", ["Payment History", "Credit Utilization"]))
    else if name == DocumentVerification then Some(DocumentCheck(true, ["id_proof", "address_proof", "income_proof"]))
    else if name == AutoOffer then Some(LoanOffer(true, 35000, "7.5%", "60 months"))
    else None
  }

  function Entry(g: GlobalState, name: string): Option<BackgroundTask> {
    if name in g.backgroundTasks then Some(g.backgroundTasks[name]) else None
  }

  function CreatedAt(entry: Option<BackgroundTask>): Option<Time> {
    if entry.Some? then Some(entry.value.createdAt) else None
  }

  function TimerSet(t: Option<TimerId>): set<TimerId> {
    if t.Some? then {t.value} else {}
  }

  function InitialLocal(): MonitorLocal {
    MonitorLocal(None, {}, 1, 0, false, None, None)
  }

  predicate IsTerminal(status: TaskStatus) {
    status == Success || status == Error
  }

  /**
   * `updateTaskStatus`: writes the task's entry (keeping the creation time the
   * calling closure saw, or stamping `now`), and latches `hasError` on error.
   */
  function UpdateTaskStatus(w: World, name: string, status: TaskStatus, message: string,
                            result: Option<TaskResult>, seenCreatedAt: Option<Time>, now: Time): (r: World)
    ensures name in r.global.backgroundTasks
    ensures var t := r.global.backgroundTasks[name];
      t.name == name && t.status == status && t.message == Some(message) && t.result == result
      && t.createdAt == seenCreatedAt.GetOr(now)
      && (t.completedAt.Some? <==> IsTerminal(status))
      && (t.completedAt.Some? ==> t.completedAt.value == now)
    ensures forall n :: n != name ==> Entry(r.global, n) == Entry(w.global, n)
    ensures r.global == w.global.(backgroundTasks := r.global.backgroundTasks)
    ensures r.local == w.local.(hasError := w.local.hasError || status == Error)
  {
    var task := BackgroundTask(name, status, Some(message), result, seenCreatedAt.GetOr(now),
                               if IsTerminal(status) then Some(now) else None);
    World(w.local.(hasError := w.local.hasError || status == Error), Reduce(w.global, SetTask(name, task), now))
  }

  /** `startTaskPolling`, with the render's own entry and timer handle. */
  function StartTaskPolling(w: World, name: string, applicationId: string, now: Time): (r: World)
    ensures !w.global.networkStatus.isOnline ==>
      r == UpdateTaskStatus(w, name, Error, "Cannot start task while offline", None, CreatedAt(Entry(w.global, name)), now)
    ensures w.global.networkStatus.isOnline && applicationId == "" ==> r == w
    ensures w.global.networkStatus.isOnline && applicationId != "" ==>
      && Entry(r.global, name).Some?
      && var t := Entry(r.global, name).value;
      && t.status == Pending && t.result.None? && t.completedAt.None?
      && t.message == Some(if Entry(w.global, name).None? then "Task started" else "Task restarted")
      && t.createdAt == CreatedAt(Entry(w.global, name)).GetOr(now)
      && (forall n :: n != name ==> Entry(r.global, n) == Entry(w.global, n))
      && r.global == w.global.(backgroundTasks := r.global.backgroundTasks)
      && !r.local.hasError
      && r.local.pollingInterval == Some(w.local.nextTimerId)
      && r.local.activeTimers == w.local.activeTimers - TimerSet(w.local.pollingInterval) + {w.local.nextTimerId}
      && r.local.nextTimerId == w.local.nextTimerId + 1
      && r.local.pollCreatedAt == CreatedAt(Entry(w.global, name))
      && r.local.retryCount == w.local.retryCount && r.local.cleanupHandle == w.local.cleanupHandle
  {
    var entry := Entry(w.global, name);
    if !w.global.networkStatus.isOnline then
      UpdateTaskStatus(w, name, Error, "Cannot start task while offline", None, CreatedAt(entry), now)
    else if applicationId == "" then w
    else
      var remaining := w.local.activeTimers - TimerSet(w.local.pollingInterval);
      var w1 := UpdateTaskStatus(w, name, Pending, if entry.None? then "Task started" else "Task restarted",
                                 None, CreatedAt(entry), now);
      var id := w.local.nextTimerId;
      World(w1.local.(hasError := false, activeTimers := remaining + {id}, pollingInterval := Some(id),
                      nextTimerId := id + 1, pollCreatedAt := CreatedAt(entry)),
            w1.global)
  }

  /** `startTask`: one more attempt is counted, then polling starts. */
  function StartTask(w: World, name: string, applicationId: string, now: Time): (r: World)
    ensures r.local.retryCount == w.local.retryCount + 1
  {
    StartTaskPolling(World(w.local.(retryCount := w.local.retryCount + 1), w.global), name, applicationId, now)
  }

  /** One firing of the polling interval, which reports through the closure of the render that started it. */
  function Tick(w: World, name: string, outcome: TickOutcome, now: Time): (r: World)
    requires w.local.pollingInterval.Some?
  {
    var h := w.local.pollingInterval.value;
    var stopped := World(w.local.(activeTimers := w.local.activeTimers - {h}, pollingInterval := None), w.global);
    match outcome
    case Continue => UpdateTaskStatus(w, name, Pending, "Processing " + name + "...", None, w.local.pollCreatedAt, now)
    case Succeed => UpdateTaskStatus(stopped, name, Success, name + " completed successfully", ResultFor(name), w.local.pollCreatedAt, now)
    case Fail => UpdateTaskStatus(stopped, name, Error, "Error processing " + name, None, w.local.pollCreatedAt, now)
  }

  /** The network-status effect: interrupt when offline with a timer, restart when online after an error. */
  function NetworkEffect(w: World, name: string, applicationId: string, now: Time): World {
    var online := w.global.networkStatus.isOnline;
    if !online && w.local.pollingInterval.Some? then
      var h := w.local.pollingInterval.value;
      var stopped := World(w.local.(activeTimers := w.local.activeTimers - {h}, pollingInterval := None), w.global);
      UpdateTaskStatus(stopped, name, Error, "Task interrupted - you are offline", None, CreatedAt(Entry(w.global, name)), now)
    else if online && w.local.hasError && w.local.pollingInterval.None? then
      StartTaskPolling(w, name, applicationId, now)
    else w
  }

  /**
   * The initial-start effect, run at mount and whenever `isOnline` changes: the
   * previous run's cleanup clears the handle that run captured, this run
   * captures the current handle, and a task with no entry is started.
   */
  function InitialEffect(w: World, name: string, applicationId: string, now: Time): World {
    var cleaned := w.local.activeTimers - TimerSet(w.local.cleanupHandle);
    var w1 := World(w.local.(activeTimers := cleaned, cleanupHandle := w.local.pollingInterval), w.global);
    if Entry(w.global, name).None? && applicationId != "" && w.global.networkStatus.isOnline then
      StartTask(w1, name, applicationId, now)
    else w1
  }

  // ------------------------------------------------------------ events

  /** Mounting the hook: fresh local state, then the effects of the first render. */
  function Mount(g: GlobalState, name: string, applicationId: string, now: Time): World {
    NetworkEffect(InitialEffect(World(InitialLocal(), g), name, applicationId, now), name, applicationId, now)
  }

  /** The user presses start or retry. */
  function UserStartTask(w: World, name: string, applicationId: string, now: Time): World {
    NetworkEffect(StartTask(w, name, applicationId, now), name, applicationId, now)
  }

  /** The live interval fires with the given outcome. */
  function TimerFires(w: World, name: string, applicationId: string, outcome: TickOutcome, now: Time): World
    requires w.local.pollingInterval.Some?
  {
    NetworkEffect(Tick(w, name, outcome, now), name, applicationId, now)
  }

  /** The browser reports connectivity: the store records it, and a real change re-runs both effects. */
  function ConnectivityChange(w: World, name: string, applicationId: string, online: bool, now: Time): World {
    var w1 := World(w.local, Reduce(w.global, SetNetworkStatus(online), now));
    if online == w.global.networkStatus.isOnline then w1
    else NetworkEffect(InitialEffect(w1, name, applicationId, now), name, applicationId, now)
  }

  /** Unmounting as written: only the initial effect's cleanup runs, clearing the handle it captured. */
  function TearDownAsWritten(w: World): World {
    World(w.local.(activeTimers := w.local.activeTimers - TimerSet(w.local.cleanupHandle), cleanupHandle := None), w.global)
  }

  /** Unmounting as intended: the live polling timer is cleared too. */
  function TearDown(w: World): (r: World)
    ensures r.local.activeTimers == w.local.activeTimers - TimerSet(w.local.cleanupHandle) - TimerSet(w.local.pollingInterval)
    ensures r.local.pollingInterval.None? && r.global == w.global
  {
    World(w.local.(activeTimers := w.local.activeTimers - TimerSet(w.local.cleanupHandle) - TimerSet(w.local.pollingInterval),
                   pollingInterval := None, cleanupHandle := None),
          w.global)
  }

  // ---------------------------------------------------------- invariant

  /**
   * The monitor at rest: its only live timer is the polling handle; a timer
   * runs only online, with an id, for a pending entry and no error; an error
   * flag means an error entry, and while online it persists only without an id;
   * the cleanup handle is never live.
   */
  predicate Settled(w: World, name: string, applicationId: string) {
    var l := w.local;
    var g := w.global;
    && l.activeTimers == TimerSet(l.pollingInterval)
    && (l.pollingInterval.Some? ==> l.pollingInterval.value < l.nextTimerId)
    && (l.cleanupHandle.Some? ==> l.cleanupHandle.value < l.nextTimerId && l.cleanupHandle.value !in l.activeTimers)
    && (l.pollingInterval.Some? ==>
          g.networkStatus.isOnline && !l.hasError && applicationId != ""
          && name in g.backgroundTasks && g.backgroundTasks[name].status == Pending)
    && (l.hasError ==> name in g.backgroundTasks && g.backgroundTasks[name].status == Error)
    && (l.hasError && g.networkStatus.isOnline ==> applicationId == "")
  }

  /** At most one timer is ever live, and none once the task has finished. */
  lemma SettledHasAtMostOneTimer(w: World, name: string, applicationId: string)
    requires Settled(w, name, applicationId)
    ensures |w.local.activeTimers| <= 1
    ensures name in w.global.backgroundTasks && IsTerminal(w.global.backgroundTasks[name].status) ==> w.local.activeTimers == {}
  {
  }

  /** A settled monitor is a fixed point of the network effect, so one run of it per event suffices. */
  lemma SettledIsAtRest(w: World, name: string, applicationId: string, now: Time)
    requires Settled(w, name, applicationId)
    ensures NetworkEffect(w, name, applicationId, now) == w
  {
  }

  lemma MountSettles(g: GlobalState, name: string, applicationId: string, now: Time)
    ensures Settled(Mount(g, name, applicationId, now), name, applicationId)
  {
  }

  lemma UserStartTaskSettles(w: World, name: string, applicationId: string, now: Time)
    requires Settled(w, name, applicationId)
    ensures Settled(UserStartTask(w, name, applicationId, now), name, applicationId)
  {
  }

  lemma TimerFiresSettles(w: World, name: string, applicationId: string, outcome: TickOutcome, now: Time)
    requires Settled(w, name, applicationId) && w.local.pollingInterval.Some?
    ensures Settled(TimerFires(w, name, applicationId, outcome, now), name, applicationId)
  {
  }

  lemma ConnectivityChangeSettles(w: World, name: string, applicationId: string, online: bool, now: Time)
    requires Settled(w, name, applicationId)
    ensures Settled(ConnectivityChange(w, name, applicationId, online, now), name, applicationId)
  {
  }

  /** The corrected tear-down leaves no live timer behind. */
  lemma TearDownStopsAllTimers(w: World, name: string, applicationId: string)
    requires Settled(w, name, applicationId)
    ensures TearDown(w).local.activeTimers == {}
  {
  }

  // --------------------------------------------------------- behaviours

  /** Starting while offline records the error and leaves the timers alone. */
  lemma OfflineStartFails(w: World, name: string, applicationId: string, now: Time)
    requires !w.global.networkStatus.isOnline
    ensures var r := StartTask(w, name, applicationId, now);
      Entry(r.global, name).Some?
      && Entry(r.global, name).value.status == Error
      && Entry(r.global, name).value.message == Some("Cannot start task while offline")
      && r.local.activeTimers == w.local.activeTimers && r.local.pollingInterval == w.local.pollingInterval
      && r.local.hasError
  {
  }

  /** Starting online without an application id changes nothing but the attempt count. */
  lemma StartWithoutIdDoesNothing(w: World, name: string, now: Time)
    requires w.global.networkStatus.isOnline
    ensures StartTask(w, name, "", now) == World(w.local.(retryCount := w.local.retryCount + 1), w.global)
  {
  }

  /** Restarting a finished task discards its result and completion time and keeps its creation time. */
  lemma RestartDiscardsResult(w: World, name: string, applicationId: string, now: Time)
    requires w.global.networkStatus.isOnline && applicationId != ""
    requires name in w.global.backgroundTasks
    ensures var r := StartTask(w, name, applicationId, now);
      var t := r.global.backgroundTasks[name];
      t.status == Pending && t.result.None? && t.completedAt.None?
      && t.message == Some("Task restarted")
      && t.createdAt == w.global.backgroundTasks[name].createdAt
  {
  }

  /** Each polling tick does exactly one of: stay pending with the timer, succeed with the result, fail. */
  lemma TickOutcomes(w: World, name: string, outcome: TickOutcome, now: Time)
    requires w.local.pollingInterval.Some?
    ensures var r := Tick(w, name, outcome, now);
      var t := r.global.backgroundTasks[name];
      && (outcome == Continue ==> t.status == Pending && r.local.activeTimers == w.local.activeTimers)
      && (outcome == Succeed ==>
            t.status == Success && t.result == ResultFor(name) && r.local.pollingInterval.None?
            && r.local.activeTimers == w.local.activeTimers - {w.local.pollingInterval.value})
      && (outcome == Fail ==>
            t.status == Error && r.local.hasError && r.local.pollingInterval.None?
            && r.local.activeTimers == w.local.activeTimers - {w.local.pollingInterval.value})
  {
  }

  /** A failed tick while online is restarted at once by the network effect, as a new attempt at polling. */
  lemma FailureOnlineRestartsImmediately(w: World, name: string, applicationId: string, now: Time)
    requires Settled(w, name, applicationId) && w.local.pollingInterval.Some?
    ensures var r := TimerFires(w, name, applicationId, Fail, now);
      r.global.backgroundTasks[name].status == Pending
      && r.global.backgroundTasks[name].message == Some("Task restarted")
      && !r.local.hasError && r.local.pollingInterval.Some?
      && r.local.retryCount == w.local.retryCount
  {
  }

  /** Going offline while polling interrupts the task and clears the timer. */
  lemma GoingOfflineInterrupts(w: World, name: string, applicationId: string, now: Time)
    requires Settled(w, name, applicationId) && w.local.pollingInterval.Some?
    ensures var r := ConnectivityChange(w, name, applicationId, false, now);
      r.global.backgroundTasks[name].status == Error
      && r.global.backgroundTasks[name].message == Some("Task interrupted - you are offline")
      && r.local.activeTimers == {} && r.local.hasError
  {
  }

  /** Coming back online after an error restarts polling, given an application id. */
  lemma ReconnectAfterErrorRestarts(w: World, name: string, applicationId: string, now: Time)
    requires Settled(w, name, applicationId) && w.local.hasError && applicationId != ""
    requires !w.global.networkStatus.isOnline
    ensures var r := ConnectivityChange(w, name, applicationId, true, now);
      r.global.backgroundTasks[name].status == Pending && !r.local.hasError && r.local.pollingInterval.Some?
  {
  }

  /**
   * Ticks of a first run report through the closure of the render that had
   * no entry yet, so each tick stamps its own `createdAt`.
   */
  lemma FirstRunTicksRestamp(g: GlobalState, name: string, applicationId: string, t0: Time, t1: Time)
    requires g.networkStatus.isOnline && applicationId != "" && name !in g.backgroundTasks
    ensures var w := Mount(g, name, applicationId, t0);
      w.local.pollingInterval.Some?
      && w.global.backgroundTasks[name].createdAt == t0
      && TimerFires(w, name, applicationId, Continue, t1).global.backgroundTasks[name].createdAt == t1
  {
  }

  // ---------------------------------------------------------- exposed view

  datatype Exposed = Exposed(
    status: TaskStatus,
    message: Option<string>,
    result: Option<TaskResult>,
    retryCount: nat,
    isRunning: bool,
    hasError: bool,
    isComplete: bool)

  /** What the hook returns to the component. */
  function Expose(w: World, name: string): (e: Exposed)
    ensures Entry(w.global, name).None? ==> e.status == Idle && !e.isRunning && !e.hasError && !e.isComplete
    ensures e.isRunning <==> e.status == Pending
    ensures e.hasError <==> e.status == Error
    ensures e.isComplete <==> e.status == Success
    ensures !(e.isRunning && e.hasError) && !(e.isRunning && e.isComplete) && !(e.hasError && e.isComplete)
    ensures e.retryCount == w.local.retryCount
  {
    var entry := Entry(w.global, name);
    var status := if entry.Some? then entry.value.status else Idle;
    Exposed(status,
            if entry.Some? then entry.value.message else None,
            if entry.Some? then entry.value.result else None,
            w.local.retryCount,
            entry.Some? && entry.value.status == Pending,
            entry.Some? && entry.value.status == Error,
            entry.Some? && entry.value.status == Success)
  }

  // ------------------------------------------------------------ finding

  /** Mounting online for a fresh task starts polling, with no handle captured for the cleanup. */
  lemma MountStartsPollingWithoutCleanupHandle(g: GlobalState, name: string, applicationId: string, now: Time)
    requires g.networkStatus.isOnline && applicationId != "" && name !in g.backgroundTasks
    ensures var w := Mount(g, name, applicationId, now);
      w.local.pollingInterval.Some? && w.local.cleanupHandle.None? && w.local.activeTimers != {}
  {
  }

  /** As written, unmounting a settled monitor that is polling leaves its timer running. */
  lemma TearDownAsWrittenLeaksTimer(w: World, name: string, applicationId: string)
    requires Settled(w, name, applicationId) && w.local.pollingInterval.Some?
    ensures TearDownAsWritten(w).local.activeTimers == {w.local.pollingInterval.value}
  {
  }

  // -------------------------------------------------------------- class

  /**
   * One mounted instance of the hook: its state variables and the timers it
   * has started, beside the store it dispatches to.
   */
  class TaskMonitor {
    const taskName: string
    const applicationId: string
    const global: GlobalStore
    var pollingInterval: Option<TimerId>
    var activeTimers: set<TimerId>
    var nextTimerId: TimerId
    var retryCount: nat
    var hasError: bool
    var pollCreatedAt: Option<Time>
    var cleanupHandle: Option<TimerId>

    function View(): World
      reads this, global
    {
      World(MonitorLocal(pollingInterval, activeTimers, nextTimerId, retryCount, hasError, pollCreatedAt, cleanupHandle),
            global.state)
    }

    ghost predicate Valid()
      reads this, global
    {
      Settled(View(), taskName, applicationId)
    }

    /** Mounting: fresh hook state, then both effects of the first render. */
    constructor(taskName: string, applicationId: string, global: GlobalStore, now: Time)
      modifies global
      ensures this.taskName == taskName && this.applicationId == applicationId && this.global == global
      ensures View() == Mount(old(global.state), taskName, applicationId, now)
      ensures Valid()
    {
      this.taskName := taskName;
      this.applicationId := applicationId;
      this.global := global;
      pollingInterval := None;
      activeTimers := {};
      nextTimerId := 1;
      retryCount := 0;
      hasError := false;
      pollCreatedAt := None;
      cleanupHandle := None;
      new;
      RunInitialEffect(now);
      RunNetworkEffect(now);
      MountSettles(old(global.state), taskName, applicationId, now);
    }

    method WriteStatus(status: TaskStatus, message: string, result: Option<TaskResult>, seenCreatedAt: Option<Time>, now: Time)
      modifies this, global
      ensures View() == UpdateTaskStatus(old(View()), taskName, status, message, result, seenCreatedAt, now)
    {
      var task := BackgroundTask(taskName, status, Some(message), result, seenCreatedAt.GetOr(now),
                                 if IsTerminal(status) then Some(now) else None);
      global.Dispatch(SetTask(taskName, task), now);
      if status == Error {
        hasError := true;
      }
    }

    method BeginPolling(now: Time)
      modifies this, global
      ensures View() == StartTaskPolling(old(View()), taskName, applicationId, now)
    {
      var entry := Entry(global.state, taskName);
      if !global.state.networkStatus.isOnline {
        WriteStatus(Error, "Cannot start task while offline", None, CreatedAt(entry), now);
        return;
      }
      if applicationId == "" {
        return;
      }
      activeTimers := activeTimers - TimerSet(pollingInterval);
      WriteStatus(Pending, if entry.None? then "Task started" else "Task restarted", None, CreatedAt(entry), now);
      hasError := false;
      var id := nextTimerId;
      nextTimerId := nextTimerId + 1;
      activeTimers := activeTimers + {id};
      pollCreatedAt := CreatedAt(entry);
      pollingInterval := Some(id);
    }

    method BeginTask(now: Time)
      modifies this, global
      ensures View() == StartTask(old(View()), taskName, applicationId, now)
    {
      retryCount := retryCount + 1;
      BeginPolling(now);
    }

    method RunNetworkEffect(now: Time)
      modifies this, global
      ensures View() == NetworkEffect(old(View()), taskName, applicationId, now)
    {
      var online := global.state.networkStatus.isOnline;
      if !online && pollingInterval.Some? {
        var entry := Entry(global.state, taskName);
        activeTimers := activeTimers - {pollingInterval.value};
        pollingInterval := None;
        WriteStatus(Error, "Task interrupted - you are offline", None, CreatedAt(entry), now);
      } else if online && hasError && pollingInterval.None? {
        BeginPolling(now);
      }
    }

    method RunInitialEffect(now: Time)
      modifies this, global
      ensures View() == InitialEffect(old(View()), taskName, applicationId, now)
    {
      activeTimers := activeTimers - TimerSet(cleanupHandle);
      cleanupHandle := pollingInterval;
      if Entry(global.state, taskName).None? && applicationId != "" && global.state.networkStatus.isOnline {
        BeginTask(now);
      }
    }

    /** The user presses start or retry. */
    method StartPressed(now: Time)
      requires Valid()
      modifies this, global
      ensures View() == UserStartTask(old(View()), taskName, applicationId, now)
      ensures Valid()
    {
      BeginTask(now);
      RunNetworkEffect(now);
      UserStartTaskSettles(old(View()), taskName, applicationId, now);
    }

    /** The live polling interval fires; the random draw is the `outcome`. */
    method IntervalFired(outcome: TickOutcome, now: Time)
      requires Valid() && pollingInterval.Some?
      modifies this, global
      ensures View() == TimerFires(old(View()), taskName, applicationId, outcome, now)
      ensures Valid()
    {
      var h := pollingInterval.value;
      var seen := pollCreatedAt;
      match outcome
      case Continue =>
        WriteStatus(Pending, "Processing " + taskName + "...", None, seen, now);
      case Succeed =>
        activeTimers := activeTimers - {h};
        pollingInterval := None;
        WriteStatus(Success, taskName + " completed successfully", ResultFor(taskName), seen, now);
      case Fail =>
        activeTimers := activeTimers - {h};
        pollingInterval := None;
        WriteStatus(Error, "Error processing " + taskName, None, seen, now);
      RunNetworkEffect(now);
      TimerFiresSettles(old(View()), taskName, applicationId, outcome, now);
    }

    /** The browser reports connectivity: the store records it and, on a real change, both effects re-run. */
    method ConnectivityChanged(online: bool, now: Time)
      requires Valid()
      modifies this, global
      ensures View() == ConnectivityChange(old(View()), taskName, applicationId, online, now)
      ensures Valid()
    {
      var wasOnline := global.state.networkStatus.isOnline;
      global.Dispatch(SetNetworkStatus(online), now);
      if online != wasOnline {
        RunInitialEffect(now);
        RunNetworkEffect(now);
      }
      ConnectivityChangeSettles(old(View()), taskName, applicationId, online, now);
    }

    /** Unmounting, with the polling timer cleared as the hook evidently intends. */
    method Unmount()
      requires Valid()
      modifies this
      ensures View() == TearDown(old(View()))
      ensures activeTimers == {}
    {
      activeTimers := activeTimers - TimerSet(cleanupHandle) - TimerSet(pollingInterval);
      pollingInterval := None;
      cleanupHandle := None;
      TearDownStopsAllTimers(old(View()), taskName, applicationId);
    }
  }
}
