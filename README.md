# Loan-origination workflow: a Dafny model

This project models the core of a React application that walks a loan application through five stages:

1. lead capture
2. application
3. document upload
4. underwriting
5. approval

Each stage is split into sub-stages. The model covers:

- **Global store.** The workflow position, the users and applications, the UI flags, the network status and a registry of background tasks. It changes only through one reducer (`GlobalContext`).
- **Form hook.** It keeps one application's draft, saves it to local storage and "syncs" it to a simulated server. It validates sub-stages, checks role-based access, and moves the position forward, back, or directly to a sub-stage (`MultiStageForm`).
- **Field-logic engine.** Rules decide whether a field is visible and whether it is enabled, and three registered formulas compute derived values (`FieldLogicEngine`).
- **Background-task monitor.** It drives a simulated long-running task through pending, success and error with a polling timer. It restarts on request, is interrupted when the browser goes offline, and restarts itself after an error once online (`BackgroundTaskMonitor`).
- **The five stage components.** Their field configurations, Continue-button gates and event handlers (`ApplicationStage`, `LeadCaptureStage`, `DocumentUploadStage`, `ApprovalStage`, `UnderwritingStage`).

JavaScript values are modelled in `Js`: truthiness, `===`, `Number(...)`, `String(...)`, `||`, ASCII `toLowerCase` and `includes`. Numbers are exact decimals plus NaN and the two infinities.

The code is pure in places and mutating in others, and the model follows suit:

- The reducer, the rule engine, the validation and access tests, and the navigation arithmetic are functions, with lemmas about them.
- What the hooks keep in `useState`, and what they write to storage or the store, is held in classes: `GlobalStore`, `FormSession`, `LocalStorage`, `TaskMonitor` and one panel class per stage.
- Each class method is proved to produce exactly the state given by a pure step function, and the properties are proved about those functions.

The React effects that follow a render are modelled as explicit steps, such as `FormSession.ChangeEffect` and `TaskMonitor.RunNetworkEffect`. Their ordering follows the code:

- handlers see the data of the render they were created in;
- the two `isOnline` effects of the form hook run on the same render;
- the network effect of the task monitor re-runs until it is at rest. `Settled` characterises the rest state, and `SettledIsAtRest` proves one run is enough.

## Where the code differs from its documented behaviour

The model follows the code in each of these cases:

- **`findIndex(...) || 0` keeps -1.** A position whose sub-stage id is not listed in its stage therefore has index -1. Next then goes to the stage's first sub-stage, and Back leaves the stage (`UnlistedSubStage*`).
- **Reconnecting with unsaved offline edits starts two saves, not one.** Both the change effect and the reconnection effect fire (`ReconnectWithUnsavedEditsStartsTwoSaves`).
- **A save's resolution marks the form synced and unchanged even if an offline edit came after it started** (`StaleSaveHidesOfflineEdit`).
- **A failing poll while online is restarted at once** by the network effect, without the user pressing retry (`FailureOnlineRestartsImmediately`).
- **The ticks of a task's first run re-stamp `createdAt` on every tick.** They report through the closure of the render that had no entry yet (`FirstRunTicksRestamp`).
- **The stage components initialise their local state on the first render, before the form hook loads the saved draft.**
  - The uploaded-documents list always starts empty.
  - The agreement flag always starts false.
  - The risk assessment is written on every mount of the risk-score step, into the empty first-render data. When a saved draft exists, the load effect then replaces the data with the draft, so the written assessment is lost (`RiskScoreMountKeepsDraft`).
  - A component mounted directly on the co-applicant step always skips it, whatever the draft says (`ApplicationStage.MountOnCoApplicant`).
- **Verifying the correct OTP does not advance on the first press.** It writes `otpVerified`, but navigates with the data rendered before that write (`FirstCorrectCodeStaysSecondAdvances`).
- **The underwriting component admits Admins to the overrides view, but navigation refuses them the sub-stage.** Restricted users can still "Skip to Approval" (`RestrictionVersusNavigationAccess`, `RestrictedSkipReachesApproval`).

## Model

| member | source | states |
|---|---|---|
| GlobalContext.FindStage | src/context/GlobalContext.tsx:166-177 | the stage found has the requested id; none is found exactly when no catalogue stage has it |
| GlobalContext.InitialState | src/context/GlobalContext.tsx:134-152 | the position is the first sub-stage of the first catalogue stage; no user, applications or tasks, and no open modals; the sidebar is open; `lastOnlineAt` is set exactly when starting online |
| GlobalContext.CatalogueIsWellFormed | src/context/GlobalContext.tsx:89-132 | stage ids are unique and every stage has a first sub-stage with a non-empty id |
| GlobalContext.Reduce | src/context/GlobalContext.tsx:155-229 | field by field: each action changes only its own field; `TOGGLE_MODAL` changes only its modal key; `SET_TASK` replaces only its entry; an unrecognised action leaves the state unchanged |
| GlobalContext.ApplyConcat | src/context/GlobalContext.tsx:155-229 | dispatching two action lists in turn is dispatching their concatenation |
| GlobalContext.SetCurrentStageEntersFirstSubStage | src/context/GlobalContext.tsx:166-177 | `SET_CURRENT_STAGE` to a catalogue stage lands on that stage's first sub-stage |
| GlobalContext.SetUnknownStageKeepsSubStage | src/context/GlobalContext.tsx:166-177 | for a stage id outside the catalogue, the stage changes and the sub-stage id is kept |
| GlobalContext.NetworkStatusStampsOnlyWhenOnline | src/context/GlobalContext.tsx:209-216 | `lastOnlineAt` becomes now only when going online, and is otherwise retained; the position and tasks are untouched |
| GlobalContext.SetTaskTouchesOneEntry | src/context/GlobalContext.tsx:218-225 | the named entry is replaced wholesale; every other entry and its presence are unchanged |
| GlobalContext.DemoSetupSignsInAnAgent | src/context/GlobalContext.tsx:265-292 | the provider's demo setup signs in an Agent, loads two applications and selects app-1, leaving the position, network and tasks as they were |
| GlobalContext.GlobalStore.constructor | src/context/GlobalContext.tsx:243 | the store starts in the initial state |
| GlobalContext.GlobalStore.Dispatch | src/context/GlobalContext.tsx:243 | dispatch replaces the state by the reducer's result |
| Js.IncludesIffOccurs | src/hooks/useFieldLogicEngine.ts:97-99 | `includes` holds exactly when the needle occurs at some index of the haystack |
| Js.NaNIsIncomparable | src/hooks/useFieldLogicEngine.ts:91-95 | NaN is neither less than, greater than nor equal to any number |
| MultiStageForm.CurrentSubStageIndex | src/hooks/useMultiStageForm.ts:20-23 | within a known stage the index lies between -1 and the last sub-stage index |
| MultiStageForm.ValidationTarget | src/hooks/useMultiStageForm.ts:105-106 | an absent or empty argument validates the current sub-stage instead |
| MultiStageForm.ValidIffRequiredFieldsTruthy | src/hooks/useMultiStageForm.ts:105-124 | a sub-stage is valid exactly when its required fields are truthy: three for basic details, one for OTP, two for the primary applicant, none for any other |
| MultiStageForm.ValidityDependsOnlyOnRequiredFields | src/hooks/useMultiStageForm.ts:105-124 | data agreeing on the required fields validate alike |
| MultiStageForm.CanAccessIff | src/hooks/useMultiStageForm.ts:126-142 | access is granted exactly for sub-stages in the catalogue, with `overrides` granted only to a Manager (so Agent and Admin are both refused) |
| MultiStageForm.CataloguePositionIsKnown | src/context/GlobalContext.tsx:89-132 | every catalogue sub-stage is a workflow position, and only `overrides` requires a role, namely Manager |
| MultiStageForm.OrderIsCatalogueFlattened | src/context/GlobalContext.tsx:89-132 | the workflow order is the catalogue's sub-stages, stage by stage |
| MultiStageForm.GoToSubStageActions | src/hooks/useMultiStageForm.ts:226-237 | an accessible sub-stage yields the stage-then-sub-stage pair of actions, with no check that the sub-stage belongs to the stage; an inaccessible one yields nothing |
| MultiStageForm.Advance | src/hooks/useMultiStageForm.ts:144-194 | only the position changes, and an invalid current sub-stage changes nothing |
| MultiStageForm.Retreat | src/hooks/useMultiStageForm.ts:196-224 | only the position changes |
| MultiStageForm.Jump | src/hooks/useMultiStageForm.ts:226-237 | the position becomes exactly (stage, sub-stage) iff the sub-stage is accessible; otherwise nothing changes |
| MultiStageForm.NavigationMovesOnlyPosition | src/hooks/useMultiStageForm.ts:144-237 | dispatching any list of navigation actions changes nothing but the position |
| MultiStageForm.NextFollowsOrder | src/hooks/useMultiStageForm.ts:144-194 | from every position, Next moves to the following position in workflow order (across stage boundaries) exactly when the current sub-stage is valid and the next is accessible; otherwise nothing changes |
| MultiStageForm.NextAtLastPositionStays | src/hooks/useMultiStageForm.ts:173-192 | Next at the last sub-stage of the last stage is a no-op |
| MultiStageForm.PrevFollowsOrder | src/hooks/useMultiStageForm.ts:196-224 | Back moves to the previous position (the previous stage's last sub-stage at a boundary), without validation, and is a no-op at the first position |
| MultiStageForm.PrevUndoesNext | src/hooks/useMultiStageForm.ts:144-224 | after a Next that moved, Back returns to the original state |
| MultiStageForm.RiskScoreNextNeedsManager | src/hooks/useMultiStageForm.ts:156-171 | from risk-score, Next reaches overrides iff the user is a Manager, and otherwise stays |
| MultiStageForm.UnlistedSubStageHasIndexMinusOne | src/hooks/useMultiStageForm.ts:20-23 | a sub-stage id not listed in its stage gets index -1, not 0 |
| MultiStageForm.UnlistedSubStageNextRestartsStage | src/hooks/useMultiStageForm.ts:144-171 | with index -1, Next goes to the stage's first sub-stage |
| MultiStageForm.UnlistedSubStagePrevLeavesStage | src/hooks/useMultiStageForm.ts:196-224 | with index -1, Back goes to the previous stage's last sub-stage, or stays in the first stage |
| MultiStageForm.GoToOverridesNeedsManager | src/hooks/useMultiStageForm.ts:226-237 | a direct jump to overrides succeeds only for a Manager |
| MultiStageForm.GoToUnknownSubStageRefused | src/hooks/useMultiStageForm.ts:226-237 | a jump to a sub-stage outside the catalogue changes nothing |
| MultiStageForm.StorageKeyInjective | src/hooks/useMultiStageForm.ts:44 | different applications never share a storage key |
| MultiStageForm.FirstRender | src/hooks/useMultiStageForm.ts:12-14 | the first render holds empty data, unchanged and synced, with nothing in flight |
| MultiStageForm.SavedDraft | src/hooks/useMultiStageForm.ts:27-29 | a draft is read iff there is an id and a draft stored under its key |
| MultiStageForm.Loaded | src/hooks/useMultiStageForm.ts:30-31 | a read draft replaces the data wholesale and changes nothing else |
| MultiStageForm.Mount | src/hooks/useMultiStageForm.ts:12-38 | with no first-render write: empty, unchanged and synced, then the saved draft (only with an id and a stored draft) becomes the data |
| MultiStageForm.MountEffects | src/hooks/useMultiStageForm.ts:26-66 | the first commit stores first-render writes, then the read draft (if any) becomes the data; without writes it is the plain load |
| MultiStageForm.MountWithoutWritesIsMount | src/hooks/useMultiStageForm.ts:12-66 | a mount without first-render writes is the plain load of the draft |
| MultiStageForm.DraftDiscardsFirstRenderWrites | src/hooks/useMultiStageForm.ts:26-59 | with a saved draft, first-render writes reach storage once, but the data and the stored snapshot end as the draft |
| MultiStageForm.FirstRenderWritesKeptWithoutDraft | src/hooks/useMultiStageForm.ts:26-59 | without a saved draft, the first-render writes stay in the data and are stored |
| MultiStageForm.FieldUpdated | src/hooks/useMultiStageForm.ts:97-103 | the named field takes the value, every other field is kept, and the form is marked changed |
| MultiStageForm.StartSync | src/hooks/useMultiStageForm.ts:68-72 | a no-op without an id; otherwise the status becomes syncing and one save is in flight |
| MultiStageForm.ResolveSync | src/hooks/useMultiStageForm.ts:74-79 | a resolving save marks the form synced and unchanged, keeping data and storage |
| MultiStageForm.AfterChangeEffect | src/hooks/useMultiStageForm.ts:41-59 | a changed form is written to storage under its key whether online or offline; offline it becomes local, online a save starts |
| MultiStageForm.SyncInvariantPreserved | src/hooks/useMultiStageForm.ts:41-95 | every step keeps this invariant: "syncing" implies a save in flight, and no save exists without an id |
| MultiStageForm.NoIdNoStorageNoSync | src/hooks/useMultiStageForm.ts:41-72 | without an id, edits and reconnections never touch storage or start a save |
| MultiStageForm.UpdateAllKeepsSyncFields | src/hooks/useMultiStageForm.ts:97-103 | a run of field updates leaves status, pending saves and storage alone |
| MultiStageForm.UpdateAllIsLastWrite | src/hooks/useMultiStageForm.ts:97-103 | after a run of updates each field holds the last value written to it, or its old value |
| MultiStageForm.UpdateAllSnoc | src/hooks/useMultiStageForm.ts:97-103 | one more update extends a run by one step |
| MultiStageForm.OfflineEditsSavedLocally | src/hooks/useMultiStageForm.ts:41-59 | after any offline session, storage holds the latest data, the status is local and the form is changed |
| MultiStageForm.OfflineSessionKeepsPending | src/hooks/useMultiStageForm.ts:50-58 | offline edits start no save |
| MultiStageForm.ReconnectStartsSync | src/hooks/useMultiStageForm.ts:62-66 | coming online while local starts a save with no further edit |
| MultiStageForm.ReconnectWithUnsavedEditsStartsTwoSaves | src/hooks/useMultiStageForm.ts:41-66 | with unsaved offline edits, reconnecting starts two saves |
| MultiStageForm.StaleSaveHidesOfflineEdit | src/hooks/useMultiStageForm.ts:68-79 | a save started online resolves after a later offline edit: the edit is in storage and in the data, yet the form is synced and unchanged and reconnecting starts no save |
| MultiStageForm.OnlineEditSyncs | src/hooks/useMultiStageForm.ts:41-79 | an online edit is stored, syncs, and ends synced and unchanged |
| MultiStageForm.FormSession.constructor | src/hooks/useMultiStageForm.ts:12-14 | the session starts in the first-render state over the given storage, before the draft is loaded |
| MultiStageForm.FormSession.FirstCommitEffects | src/hooks/useMultiStageForm.ts:26-66 | the session's state becomes `MountEffects` of the first-render state, keeping the invariant |
| MultiStageForm.FormSession.UpdateField | src/hooks/useMultiStageForm.ts:97-103 | the session's state becomes `FieldUpdated` of the old state, keeping the invariant |
| MultiStageForm.FormSession.SyncFormData | src/hooks/useMultiStageForm.ts:68-72 | the session's state becomes `StartSync` of the old state |
| MultiStageForm.FormSession.SyncResolved | src/hooks/useMultiStageForm.ts:74-79 | the session's state becomes `ResolveSync` of the old state |
| MultiStageForm.FormSession.ChangeEffect | src/hooks/useMultiStageForm.ts:41-59 | storage and state become `AfterChangeEffect` of the old state under the store's network flag |
| MultiStageForm.FormSession.NetworkChanged | src/hooks/useMultiStageForm.ts:41-66 | both effects after a network flip, with the reconnection test on the status rendered before |
| MultiStageForm.FormSession.NextSubStage | src/hooks/useMultiStageForm.ts:144-194 | the store's state becomes `Advance` of the old state with the session's data |
| MultiStageForm.FormSession.PrevSubStage | src/hooks/useMultiStageForm.ts:196-224 | the store's state becomes `Retreat` of the old state |
| MultiStageForm.FormSession.GoToSubStage | src/hooks/useMultiStageForm.ts:226-237 | the store's state becomes `Jump` of the old state |
| FieldLogicEngine.EvaluateConditionsIsConjunction | src/hooks/useFieldLogicEngine.ts:80-108 | a rule list holds exactly when every rule holds; the empty list holds |
| FieldLogicEngine.EvaluateConcat | src/hooks/useFieldLogicEngine.ts:80-81 | concatenated rule lists evaluate to the conjunction |
| FieldLogicEngine.NotEqualsNegatesEquals | src/hooks/useFieldLogicEngine.ts:85-89 | `notEquals` is always the negation of `equals` |
| FieldLogicEngine.ComparisonsFailOnNaNAndEquality | src/hooks/useFieldLogicEngine.ts:91-95 | with NaN on either side, or equal numbers, both `greaterThan` and `lessThan` are false; they never both hold |
| FieldLogicEngine.ContainsIsCaseInsensitiveSubstring | src/hooks/useFieldLogicEngine.ts:97-99 | false for a non-string field; otherwise a lower-cased substring test |
| FieldLogicEngine.ExistsIff | src/hooks/useFieldLogicEngine.ts:101-102 | `exists` holds iff the value is not undefined, null or '' |
| FieldLogicEngine.UnknownOperatorPasses | src/hooks/useFieldLogicEngine.ts:104-105 | an unknown operator evaluates to true |
| FieldLogicEngine.VisibleIff | src/hooks/useFieldLogicEngine.ts:29-36 | visible when the rules are absent or empty; otherwise iff every rule holds |
| FieldLogicEngine.DisabledIff | src/hooks/useFieldLogicEngine.ts:39-46 | disabled iff enablement rules exist and some rule fails |
| FieldLogicEngine.LookupFormula | src/hooks/useFieldLogicEngine.ts:56-68 | a formula is found only from its exact registered text; otherwise no formula matches |
| FieldLogicEngine.Resolve | src/hooks/useFieldLogicEngine.ts:23-77 | visibility and enablement come from the rules; without a derived-value configuration or with an unregistered formula the previous value is kept; a registered formula's value replaces it |
| FieldLogicEngine.UnregisteredFormulaKeepsValue | src/hooks/useFieldLogicEngine.ts:49-74 | any unregistered formula keeps the previous derived value, which is initially null |
| FieldLogicEngine.ResolveIsIdempotent | src/hooks/useFieldLogicEngine.ts:29-74 | re-running the effects on the same inputs changes nothing |
| FieldLogicEngine.IncomeHalfValue | src/hooks/useFieldLogicEngine.ts:56-59 | the income formula is exactly half the income |
| FieldLogicEngine.IncomeHalfOfMissingIncome | src/hooks/useFieldLogicEngine.ts:57 | a missing or falsy income reads as 0 |
| FieldLogicEngine.FullNameValue | src/hooks/useFieldLogicEngine.ts:60-64 | the names are joined by one space, with either or both missing names reading as '' |
| FieldLogicEngine.LoanMarginValue | src/hooks/useFieldLogicEngine.ts:65-68 | the margin is the loan amount scaled exactly by 1.1 |
| FieldLogicEngine.LoanMarginOfMissingAmount | src/hooks/useFieldLogicEngine.ts:66 | a missing or falsy loan amount reads as 0 |
| FieldLogicEngine.LookupFindsRegisteredFormula | src/hooks/useFieldLogicEngine.ts:56-68 | every registered formula is found from its text |
| BackgroundTaskMonitor.UpdateTaskStatus | src/hooks/useBackgroundTaskMonitor.ts:16-48 | the entry gets the status, message and result; it keeps the creation time the caller saw (or now); it is completed exactly for success or error; no other entry or store field changes; an error latches the error flag |
| BackgroundTaskMonitor.StartTaskPolling | src/hooks/useBackgroundTaskMonitor.ts:50-115 | offline: an error with "Cannot start task while offline" and no timer; no id: nothing; otherwise the old timer is cleared and one new timer starts; the entry becomes pending with "Task started" or "Task restarted", keeping its creation time or stamping now; the result is cleared and so is the error flag; other entries and the rest of the store are unchanged |
| BackgroundTaskMonitor.StartTask | src/hooks/useBackgroundTaskMonitor.ts:118-121 | the attempt count grows by exactly one |
| BackgroundTaskMonitor.TearDown | src/hooks/useBackgroundTaskMonitor.ts:124-135 | unmounting clears both the cleanup handle and the polling timer |
| BackgroundTaskMonitor.SettledHasAtMostOneTimer | src/hooks/useBackgroundTaskMonitor.ts:50-115 | at rest at most one timer is live, and none once the task has finished |
| BackgroundTaskMonitor.SettledIsAtRest | src/hooks/useBackgroundTaskMonitor.ts:138-147 | at rest the network effect changes nothing |
| BackgroundTaskMonitor.MountSettles | src/hooks/useBackgroundTaskMonitor.ts:124-147 | mounting reaches the rest state |
| BackgroundTaskMonitor.UserStartTaskSettles | src/hooks/useBackgroundTaskMonitor.ts:118-121 | a start or retry keeps the rest state |
| BackgroundTaskMonitor.TimerFiresSettles | src/hooks/useBackgroundTaskMonitor.ts:78-107 | every tick outcome keeps the rest state |
| BackgroundTaskMonitor.ConnectivityChangeSettles | src/hooks/useBackgroundTaskMonitor.ts:124-147 | every connectivity change keeps the rest state |
| BackgroundTaskMonitor.TearDownStopsAllTimers | src/hooks/useBackgroundTaskMonitor.ts:124-135 | the corrected unmount leaves no timer live |
| BackgroundTaskMonitor.OfflineStartFails | src/hooks/useBackgroundTaskMonitor.ts:51-54 | starting offline records the error message and creates no timer |
| BackgroundTaskMonitor.StartWithoutIdDoesNothing | src/hooks/useBackgroundTaskMonitor.ts:56-59 | starting without an application id changes only the attempt count |
| BackgroundTaskMonitor.RestartDiscardsResult | src/hooks/useBackgroundTaskMonitor.ts:62-74 | a restart is pending "Task restarted", with no result and no completion, keeping `createdAt` |
| BackgroundTaskMonitor.TickOutcomes | src/hooks/useBackgroundTaskMonitor.ts:78-107 | a tick either stays pending with the timer, succeeds with the name's result (none for an unknown name) and clears the timer, or fails and clears the timer |
| BackgroundTaskMonitor.FailureOnlineRestartsImmediately | src/hooks/useBackgroundTaskMonitor.ts:138-147 | a failed tick while online ends pending again, with a fresh timer, without a new attempt being counted |
| BackgroundTaskMonitor.GoingOfflineInterrupts | src/hooks/useBackgroundTaskMonitor.ts:139-142 | going offline while polling clears the timer and records "Task interrupted - you are offline" |
| BackgroundTaskMonitor.ReconnectAfterErrorRestarts | src/hooks/useBackgroundTaskMonitor.ts:143-145 | coming online with an error and an id restarts polling |
| BackgroundTaskMonitor.FirstRunTicksRestamp | src/hooks/useBackgroundTaskMonitor.ts:16-29 | ticks of a first run stamp their own time as `createdAt` |
| BackgroundTaskMonitor.Expose | src/hooks/useBackgroundTaskMonitor.ts:149-158 | idle with no entry; running, error and complete follow the status and are mutually exclusive; the attempt count is passed through |
| BackgroundTaskMonitor.MountStartsPollingWithoutCleanupHandle | src/hooks/useBackgroundTaskMonitor.ts:124-135 | mounting online for a new task starts a timer while the cleanup captures none |
| BackgroundTaskMonitor.TearDownAsWrittenLeaksTimer | src/hooks/useBackgroundTaskMonitor.ts:129-134 | as written, unmounting while polling leaves the polling timer live |
| BackgroundTaskMonitor.TaskMonitor.constructor | src/hooks/useBackgroundTaskMonitor.ts:124-147 | the mounted monitor is the pure mount's world, at rest |
| BackgroundTaskMonitor.TaskMonitor.WriteStatus | src/hooks/useBackgroundTaskMonitor.ts:16-48 | the world becomes `UpdateTaskStatus` of the old world |
| BackgroundTaskMonitor.TaskMonitor.BeginPolling | src/hooks/useBackgroundTaskMonitor.ts:50-115 | the world becomes `StartTaskPolling` of the old world |
| BackgroundTaskMonitor.TaskMonitor.BeginTask | src/hooks/useBackgroundTaskMonitor.ts:118-121 | the world becomes `StartTask` of the old world |
| BackgroundTaskMonitor.TaskMonitor.RunNetworkEffect | src/hooks/useBackgroundTaskMonitor.ts:138-147 | the world becomes `NetworkEffect` of the old world |
| BackgroundTaskMonitor.TaskMonitor.RunInitialEffect | src/hooks/useBackgroundTaskMonitor.ts:124-135 | the world becomes `InitialEffect` of the old world |
| BackgroundTaskMonitor.TaskMonitor.StartPressed | src/hooks/useBackgroundTaskMonitor.ts:118-121 | a start press is `UserStartTask`, keeping the rest state |
| BackgroundTaskMonitor.TaskMonitor.IntervalFired | src/hooks/useBackgroundTaskMonitor.ts:78-107 | a tick is `TimerFires`, keeping the rest state |
| BackgroundTaskMonitor.TaskMonitor.ConnectivityChanged | src/hooks/useBackgroundTaskMonitor.ts:124-147 | a connectivity report is `ConnectivityChange`, keeping the rest state |
| BackgroundTaskMonitor.TaskMonitor.Unmount | src/hooks/useBackgroundTaskMonitor.ts:129-134 | the corrected tear-down, leaving no live timer |
| ApplicationStage.CoApplicantVisibleIffHomeLoan | src/components/forms/ApplicationStage.tsx:26-31 | the co-applicant checkbox is visible iff `loanType === 'Home'`, and never disabled |
| ApplicationStage.IncomeProofRules | src/components/forms/ApplicationStage.tsx:34-42 | the proof select is visible iff an employment type exists, and disabled unless income reads as a positive number |
| ApplicationStage.MaxLoanHintShownIffIncomeNonZero | src/components/forms/ApplicationStage.tsx:45-51 | the hint value is the half-income formula, and it is shown iff that is a non-zero number, so income 0 hides it |
| ApplicationStage.PrimaryGateIsStricterThanValidation | src/components/forms/ApplicationStage.tsx:192 | the Continue gate implies the hook's validation, and some data pass the validation but not the gate |
| ApplicationStage.CoApplicantGateIsTheOnlyCheck | src/components/forms/ApplicationStage.tsx:273 | the hook accepts the co-applicant step unconditionally; the gate refuses a missing last name |
| ApplicationStage.BureauConsentGatesBoth | src/components/forms/ApplicationStage.tsx:309-326 | the task card and the Continue button both wait for the consent, which the hook does not check |
| ApplicationStage.CoApplicantSkipLandsOnBureauCheck | src/components/forms/ApplicationStage.tsx:201-206 | the self-skip from co-applicant lands on bureau-check for any role and data |
| ApplicationStage.HandleChange | src/components/forms/ApplicationStage.tsx:20-23 | a typed value is written to its field |
| ApplicationStage.RenderCoApplicant | src/components/forms/ApplicationStage.tsx:201-206 | on the data the hook holds in that render: without a co-applicant the component navigates to the next sub-stage and renders nothing; with one it leaves the position alone |
| ApplicationStage.MountOnCoApplicant | src/components/forms/ApplicationStage.tsx:201-206 | a fresh mount on co-applicant sees the empty first-render data, always skips to the bureau check, and then the hook loads the draft |
| LeadCaptureStage.BasicGateMatchesValidation | src/components/forms/LeadCaptureStage.tsx:105 | the basic-details gate is exactly the hook's validation of that sub-stage |
| LeadCaptureStage.BasicContinueMovesToVerification | src/components/forms/LeadCaptureStage.tsx:103-106 | Continue moves to OTP verification exactly when the three fields are filled |
| LeadCaptureStage.VerificationStepNeedsRenderedFlag | src/components/forms/LeadCaptureStage.tsx:32-36 | from OTP verification, Next moves on exactly when the rendered data has `otpVerified` |
| LeadCaptureStage.FirstCorrectCodeStaysSecondAdvances | src/components/forms/LeadCaptureStage.tsx:32-36 | the first correct code does not move; once the flag is rendered, Verify moves to the primary applicant |
| LeadCaptureStage.OtpPanel.constructor | src/components/forms/LeadCaptureStage.tsx:16-17 | no OTP sent, empty code |
| LeadCaptureStage.OtpPanel.SendOtp | src/components/forms/LeadCaptureStage.tsx:24-30 | the OTP is marked sent only when the phone is truthy |
| LeadCaptureStage.OtpPanel.EnterOtp | src/components/forms/LeadCaptureStage.tsx:138 | the typed code is kept |
| LeadCaptureStage.OtpPanel.VerifyOtp | src/components/forms/LeadCaptureStage.tsx:32-40 | '1234' writes `otpVerified` and navigates with the pre-write data; any other code changes neither data nor position |
| DocumentUploadStage.UploadIsIdempotent | src/components/forms/DocumentUploadStage.tsx:22 | uploading the same document twice equals uploading it once |
| DocumentUploadStage.UploadKeepsNoDuplicates | src/components/forms/DocumentUploadStage.tsx:21-25 | uploads keep the list free of duplicates and add exactly the new id to its contents |
| DocumentUploadStage.UploadKeepsRequiredOnly | src/components/forms/DocumentUploadStage.tsx:48-64 | uploading required ids keeps the list within the required ones |
| DocumentUploadStage.ContinueIffAllRequiredUploaded | src/components/forms/DocumentUploadStage.tsx:79-82 | for a duplicate-free list of required ids, the length gate holds iff all three documents are present |
| DocumentUploadStage.UploadPanel.constructor | src/components/forms/DocumentUploadStage.tsx:17 | the list starts empty, since it is initialised before the draft is loaded |
| DocumentUploadStage.UploadPanel.HandleUpload | src/components/forms/DocumentUploadStage.tsx:19-27 | a new id is appended and written to the form; a known id changes nothing; no duplicates ever |
| ApprovalStage.DisplayedAmount | src/components/forms/ApprovalStage.tsx:40 | the loan amount, or 25000 when it is falsy |
| ApprovalStage.ToggleFlipsOneItem | src/components/forms/ApprovalStage.tsx:20-24 | a toggle flips its item's truthiness in a copy and keeps every other item |
| ApprovalStage.ToggleTwiceRestores | src/components/forms/ApprovalStage.tsx:22 | toggling twice restores truthiness; an absent item becomes true, then false |
| ApprovalStage.AllCompleteIff | src/components/forms/ApprovalStage.tsx:26-31 | completion is exactly the four required items being truthy |
| ApprovalStage.OtherItemsAreIgnored | src/components/forms/ApprovalStage.tsx:26-31 | toggling any other key never changes completion |
| ApprovalStage.TickingAllFourCompletes | src/components/forms/ApprovalStage.tsx:20-31 | from no checklist, the fourth toggle of the required items completes it and the third does not |
| ApprovalStage.ApprovalPanel.constructor | src/components/forms/ApprovalStage.tsx:17-18 | agreement not accepted and disbursement not initiated |
| ApprovalStage.ApprovalPanel.HandleChecklistChange | src/components/forms/ApprovalStage.tsx:20-24 | the form's checklist becomes the toggled copy |
| ApprovalStage.ApprovalPanel.HandleAcceptAgreement | src/components/forms/ApprovalStage.tsx:33-37 | accepted becomes true, enabling "Continue to Disbursement", and both fields are written |
| ApprovalStage.ApprovalPanel.PressInitiateDisbursement | src/components/forms/ApprovalStage.tsx:257-265 | disbursement is initiated only with a complete checklist, and never reset |
| UnderwritingStage.RiskData | src/components/forms/UnderwritingStage.tsx:24-32 | the mock assessment is a truthy value |
| UnderwritingStage.RestrictionVersusNavigationAccess | src/components/forms/UnderwritingStage.tsx:41 | on overrides the view is restricted iff navigation refuses the role and the role is not Admin; Admin sees the view yet is refused navigation |
| UnderwritingStage.OnlyOverridesIsRestricted | src/components/forms/UnderwritingStage.tsx:41 | no other sub-stage is ever restricted |
| UnderwritingStage.RestrictedViewHasNoOverrideFields | src/components/forms/UnderwritingStage.tsx:43-64 | a restricted view offers only Back and Next, and the override fields show iff the role is Manager or Admin |
| UnderwritingStage.RestrictedSkipReachesApproval | src/components/forms/UnderwritingStage.tsx:58-60 | the restricted view's Next goes to the approval stage's sanction step |
| UnderwritingStage.RiskAssessmentWrittenOnce | src/components/forms/UnderwritingStage.tsx:35-39 | on the empty first-render data the assessment is asked for iff the step is risk-score; once written it is never asked for again; other steps never write it |
| UnderwritingStage.RiskScoreMountKeepsDraft | src/components/forms/UnderwritingStage.tsx:35-39 | mounting on risk-score over a saved draft ends with the draft as data and snapshot, so a draft without an assessment keeps none; without a draft the assessment is kept and stored |
| UnderwritingStage.OtherStepMountIsPlainLoad | src/components/forms/UnderwritingStage.tsx:35-39 | on any other step, mounting is the plain load of the draft |
| UnderwritingStage.OverridesGate | src/components/forms/UnderwritingStage.tsx:215 | Continue is enabled with no override or with a reason, and the hook never blocks this step |
| UnderwritingStage.RiskLabelThreshold | src/components/forms/UnderwritingStage.tsx:89-90 | "Acceptable Risk" iff the score is at least 70, which the mock score of 75 earns |
| UnderwritingStage.UnderwritingPanel.constructor | src/components/forms/UnderwritingStage.tsx:35-39 | the initialiser writes the assessment iff the step is risk-score and the data of the render it runs in lack one |
| UnderwritingStage.UnderwritingPanel.Mount | src/components/forms/UnderwritingStage.tsx:18-39 | a fresh hook's first render, the initialiser, the first commit and the change effect a loaded draft triggers give exactly `MountedStore` |
| UnderwritingStage.UnderwritingPanel.HandleChange | src/components/forms/UnderwritingStage.tsx:140-143 | a typed value is written to its field |

## Left out

- Browser input and output become inputs and steps of the model:
  - the provider's `window` online and offline listeners and `navigator.onLine` become the connectivity event and its flag;
  - `localStorage` becomes a map of drafts, stored as values rather than JSON text, so the parse-error branch of the load effect does not arise;
  - toasts, `alert` and `console` output are dropped, since no behaviour depends on them.
- Timing becomes discrete events:
  - the one-second save delay is the separate `SyncResolved` step;
  - each interval firing is `IntervalFired`;
  - dates are abstract instants (`Time`), and the agreement's signing date is a parameter.
- BackgroundTaskMonitor.Tick: the random draw is the `outcome` parameter, and the 0.7 and 0.95 thresholds are not modelled.
- The `catch` branch of `syncFormData`: the simulated save never fails, so the model has no failure path.
- Floating point:
  - Js.Mul and the other number operations compute exact decimals;
  - FieldLogicEngine.IncomeHalfValue states the exact half, not IEEE-754 rounding;
  - Js.NumberToString never uses exponent notation;
  - `toLocaleString`, the processing fee and the EMI arithmetic are display only.
- Js.ToLower folds ASCII letters only.
- Arrays and objects have no reference identity: strict equality on them is always false, and copies are implicit in value semantics.
- ApprovalStage.ChecklistOf reads a truthy checklist that is not an object as empty; spreading a string or an array would yield index keys instead.
- The uploaded-documents list holds plain ids; a stored list is never read, since its initialiser runs before the draft is loaded.
- `workflow.stages` is always the constant catalogue, since no action replaces it. GlobalContext.StageEntry falls back to the current sub-stage for a stage without sub-stages, where the source would throw; the catalogue has no such stage.
- The provider's demo seeding appears only as `DemoSetup`.
- The co-applicant self-skip is modelled once per render of that step. Repeated renders before the store update lands are not modelled.
- The cleanup that `startTaskPolling` returns is discarded by its callers, so it is not modelled.
- React's effect dependency lists are modelled only as far as deciding which effects run after each event. The monitor's two effects on a connectivity change run in sequence on the updated state. This matches the source's shared render snapshot because `Settled` rules out an error flag without an entry.
- Presentation-only components are not part of this model: the dashboard, the task card, the progress bar, the sidebar, the sync badge, the network indicator, the error boundary and the page.

## Findings

| source | as written | input that shows it | evidently intended | confidence | as-written member | corrected member |
|---|---|---|---|---|---|---|
| src/hooks/useBackgroundTaskMonitor.ts:129-134 | the initial effect's cleanup clears only the polling handle captured when the effect ran. That handle is null at mount, the same run that starts the task, so the interval set afterwards is never cleared on unmount | mount online, with an application id, for a task with no entry; then unmount while it is pending | unmounting stops the polling interval | not executed | BackgroundTaskMonitor.TearDownAsWrittenLeaksTimer | BackgroundTaskMonitor.TearDown |
