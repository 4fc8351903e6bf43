# Nexuss approved-action protocol in Dafny

Nexuss plans a request, checks the plan against a policy, pauses for the approval of an exact payload, executes once,
verifies, keeps receipts and can roll back. This project models that protocol and proves what it keeps on every run:
the orchestrator and its ledger, the managed note directory, the device node reached over a lossy channel, the pairing of
phones, and the limit on pairing attempts.

## How it is built

| files | what they model |
|---|---|
| `StateMachine`, `Domain`, `Registry` | the lifecycle table, the values, the manifests and the policy |
| `NoteText`, `NoteStore` | note normalisation, exclusive create and guarded delete |
| `CanonicalJson`, `Payload`, `Planner` | the canonical text that is hashed, what the hash binds, the plans |
| `CoreModel` | every operation of the orchestrator as a function on values |
| `TaskInvariant`, `CoreInvariant`, `CoreSteps`, `CoreRuns` | the invariant of a task and of the whole state, kept by every operation on every exit |
| `CoreTheorems`, `CoreEvolution` | what the invariant means for every run; how states evolve along runs |
| `CoreAnswers` | what each operation answers and stores in every reachable state, field by field, and that effects carry out the intent |
| `Ledger`, `Service` | the ledger and the service as classes with shared, mutable event lists, verified against `CoreModel` |
| `NonceCache`, `ProcessTable`, `DeviceNode` | the device node: replay guard, process table, message queue |
| `DeviceSystem`, `DeviceTheorems` | orchestrator and node together, over a channel that loses, delays and repeats, with arbitrary clock readings at the node |
| `DeviceExamples`, `RouteExamples` | runs that end where the promises end, and a run for each route of the lifecycle |
| `PairingGateway`, `RateLimit`, `Api` | pairing, the sliding window, and the HTTP surface that joins the gateway to the orchestrator |

An operation that the program performs on its fields is a method of a class, and its contract equates result and new
state with a function on values; theorems are about those functions and about runs of them. `Service` holds its events in
`EventList` objects that are appended to in place, so that what a deep copy protects is an obligation, not a convention.

## Assumptions

- Identifiers made with uuid5 are terms over the parts of their names, and SHA-256 is an injective function. A signature
  verifies exactly on what the core signed. Minted tokens and nonces are fresh. These are the only facts about
  cryptography and randomness that are used.
- Every public method holds a lock, so runs are sequences of calls. Clock readings are arbitrary. Where a promise needs
  readings that do not go back in lock order, the statement has that as a hypothesis, and beside it stand a run that
  breaks the promise without it and a lemma that says, for any readings, exactly when it is broken: for the replay guard
  `CacheDiffersFromLog`, for the agreement of tasks and node `DeviceTasksMatchNode`, for pairing `PairDiffersFromLog`, for
  the limiter `LimiterDiffersFromWindow`. `ReadmissionIsExact` says when the node admits an envelope again.
  `AcceptedAreSpaced` has `SixthFollowsLeaving` as its form for any readings. The order of the pending list is stated for
  creates whose readings do not go back.
- What a call reads from outside (clock readings, a minted token, answers of the operating system and of the device node)
  is a parameter of the call and arbitrary.
- A step either returns a result or raises a managed-note error, and the device client returns evidence or raises a device
  command error. Neither process restarts.
- Only the store touches the managed directory; of its file operations only the exclusive open may fail.
- A dead process stays dead, and starting a process gives a handle that was not given before.
- Text is ASCII: one character is one byte. Paths are resolved lexically.

## Model

| member | source | states |
|---|---|---|
| StateMachine.AcceptedTraceIsShort | src/nexuss/core/state_machine.py:8-38 | no state sequence that the transition table accepts, from any first state, is longer than nine or visits a state twice |
| StateMachine.WordsAreAccepted | src/nexuss/core/state_machine.py:8-29 | each of the ten state words the service spells is accepted by the table |
| StateMachine.WordsAreDistinct | src/nexuss/core/state_machine.py:8-29 | the ten words are different, so a trace tells the route that was taken |
| StateMachine.NineIsReached | src/nexuss/core/state_machine.py:8-29 | the table accepts a sequence of nine states, so the bound is attained |
| StateMachine.TableOrders | src/nexuss/core/state_machine.py:8-29 | in every accepted sequence a task that waits for approval executes only after it was approved, rolling back follows completion, completion follows verification, and nothing follows DENIED, FAILED or ROLLED_BACK |
| Registry.PolicyFailsClosed | src/nexuss/core/policy.py:25-96 | (helper) a step is allowed or sent to approval only if its capability is registered, and a capability with an effect outside is never allowed without approval |
| Registry.PolicyIsExact | src/nexuss/core/policy.py:16-96 | for each capability whether the policy allows it, sends it to approval or denies it, and with which reason; the decision names the step it is on |
| NoteText.NormalizedTitleIsNormal | src/nexuss/core/managed_notes.py:60-79 | every title that is returned has the normal form: 1 to 80 kept characters, single inner spaces, no spaces or dots at the ends, not a reserved name |
| NoteText.TitleFixedPoints | src/nexuss/core/managed_notes.py:60-79 | a title is returned unchanged exactly when it has the normal form |
| NoteText.TwoPassesAreOne | src/nexuss/core/managed_notes.py:86 | replacing CRLF and then CR equals a single pass that turns every CRLF, CR and LF into LF |
| NoteText.PreparedNoteIsNormal | src/nexuss/core/managed_notes.py:82-100 | a prepared note has a normal title, its own file name, normal content that ends in a newline, and the hash of that content |
| NoteText.PrepareIsIdempotent | src/nexuss/core/managed_notes.py:82-100 | preparing the title and content of a prepared note gives that note again |
| NoteText.PreparedFixedPoints | src/nexuss/core/managed_notes.py:82-100 | preparing leaves title and content as they are exactly when both are in normal form |
| NoteText.TitleIsExact | src/nexuss/core/managed_notes.py:60-79 | for any text: the title without the white space around it and one ending ".md" must have 1 to 80 characters and no path syntax; the result has exactly its words without the characters that are not kept, and each refusal happens exactly for its own reason |
| NoteText.PaddedTitleIsNormalized | src/nexuss/core/managed_notes.py:61-63 | a normal title comes out of any white space around it, with or without the ending ".md" in any case |
| NoteText.PathSyntaxIsRefused | src/nexuss/core/managed_notes.py:66-67 | a title with a slash, a backslash or a colon anywhere is refused |
| NoteText.ReservedNames | src/nexuss/core/managed_notes.py:16-24 | the reserved names are the four device names and the nine numbered ones of each of two ports |
| NoteText.ReservedTitleIsRefused | src/nexuss/core/managed_notes.py:77-78 | a reserved name is refused in any case, with any white space around it and with or without the ending |
| NoteText.KeepOnlyAdds | src/nexuss/core/managed_notes.py:69-73 | dropping the characters that are not kept goes character by character, in order |
| NoteText.PrepareIsExact | src/nexuss/core/managed_notes.py:82-100 | for any title and content: what is refused and why, and otherwise the content with every line end a newline, stripped, with one newline after it, its hash, and the file name of the title |
| CanonicalJson.DecodeEncode | src/nexuss/core/service.py:77-83 | the compact, key-sorted text of a JSON value decodes to that value with its keys sorted, with the escapes of section 7 of RFC 8259 |
| CanonicalJson.TextRoundTrip | src/nexuss/core/service.py:77-83 | reading an escaped string gives the string and leaves the rest |
| CanonicalJson.NumberRoundTrip | src/nexuss/core/service.py:77-83 | reading a written integer, also a negative one, gives the integer and leaves the rest |
| CanonicalJson.SortingKeepsEntries | src/nexuss/core/service.py:77-83 | sorting puts the keys in strictly ascending order and keeps every entry |
| CanonicalJson.AscendingIsUnique | src/nexuss/core/service.py:77-83 | two ascending member lists with the same entries are the same list |
| CanonicalJson.SameTextSameEntries | src/nexuss/core/service.py:77-83 | two dictionaries have the same canonical text exactly when they have the same entries, in whatever order they were inserted |
| Payload.CapabilityNamesAreDistinct | src/nexuss/core/registry.py:14-143 | different capabilities have different names |
| Payload.PayloadRoundTrip | src/nexuss/core/service.py:70-84 | capability, parameters, reversibility and risk of a step are recovered from the text that is hashed |
| Payload.HashBindsPayload | src/nexuss/core/service.py:70-84 | two steps have the same payload hash exactly when they agree in capability, parameters as a mapping, reversibility and risk |
| Planner.PlansByVerdict | src/nexuss/core/planner.py:37-159 | a plan that needs approval has exactly one step, a note in normal form or a Notepad launch; a plan that runs at once has no step with an effect outside. What is planned from an intent is in the next five rows |
| Planner.PlansAsAsked | src/nexuss/core/planner.py:37-159 | every plan asks for the capabilities of its kind of intent, in order, in steps numbered from one with ids of their own task, and is marked invalid exactly for a note that cannot be prepared |
| Planner.NotePlanIsPrepared | src/nexuss/core/planner.py:54-70 | a note is planned with title, file name, content, hash and length of the note that is prepared from the intent, as a reversible step of medium risk |
| Planner.NotepadPlanIsAsked | src/nexuss/core/planner.py:71-86 | a launch is planned for the node the intent names, or for "windows-primary", as a reversible step of high risk |
| Planner.InvalidNoteIsDenied | src/nexuss/core/service.py:160-177 | a note that cannot be prepared is planned as one step that names the error, and denied for it |
| Planner.PlainDecisions | src/nexuss/core/service.py:345-377 | the policy denies every step of the seven refused kinds and allows every step of the other plain kinds, and each decision names its step |
| Planner.NoteLookups | src/nexuss/core/planner.py:54-70 | the parameters of a note step give back every field of the prepared note |
| Planner.UnregisteredPlansAreRefused | src/nexuss/core/policy.py:35-43 | plans that read Nexuss's own health or prepare playback are refused, because the registry has no manifest for their capability |
| NoteStore.NoteFilenameIsInside | src/nexuss/core/managed_notes.py:112-116 | the file name of every prepared note resolves to that name directly inside the managed directory |
| NoteStore.PlainNameIsInside | src/nexuss/core/managed_notes.py:112-116 | so does every non-empty name without a slash other than the two dot names |
| NoteStore.OutsideIsRefused | src/nexuss/core/managed_notes.py:112-116 | a name that leads below the managed directory, into the one above it or from the root of the file system is refused |
| NoteStore.CreateOnlyAdds | src/nexuss/core/managed_notes.py:118-149 | create goes through exactly when the name is inside, nothing is there, opening works and the hash fits; it then adds one file with the text and answers name, length and hash, and otherwise changes nothing and answers the first error that fits |
| NoteStore.RemoveUndoesCreate | src/nexuss/core/managed_notes.py:151-161 | removing with the hash of a created note restores the directory |
| NoteStore.RemoveIsGuarded | src/nexuss/core/managed_notes.py:151-161 | remove succeeds exactly on an existing file inside whose content has the expected hash, and then removes only it; otherwise it changes nothing and answers the first error that fits |
| NoteStore.ManagedNoteStore.Create | src/nexuss/core/managed_notes.py:118-149 | the store's create has the result and the directory of the specification |
| NoteStore.ManagedNoteStore.Rollback | src/nexuss/core/managed_notes.py:151-161 | the store's rollback has the result and the directory of the specification |
| TaskInvariant.ExecutionFits | src/nexuss/core/service.py:230-296 | executing adds one of three endings to the trace; it completes only with every step verified and evidence that names what the step asked for |
| TaskInvariant.NewTaskFits | src/nexuss/core/service.py:298-396 | every new task satisfies the task invariant and creating it touches no file and makes no call |
| TaskInvariant.OnlyApprovedTasksAreReversible | src/nexuss/core/service.py:563-580 | a completed task has a reversible result exactly when it was approved, and then it is that of its only step |
| CoreRuns.PerformKeeps | src/nexuss/core/service.py:298-639 | every operation, on every return and every raised error, keeps indexes, tasks, ledger, directory and the record of calls tied together |
| CoreRuns.RunKeeps | src/nexuss/core/service.py:298-639 | every run from an empty service and any directory stays in that invariant |
| CoreTheorems.LifecycleTrace | src/nexuss/core/service.py:109-131 | in every reachable state a task's events are numbered 1 to n, their states spell one of ten words and their kinds are those of the same route, a rejected and an expired approval told apart; they follow the table and end in the stored state; what rolls back was approved before |
| RouteExamples.EveryRouteIsTaken | src/nexuss/core/service.py:230-639 | each of the ten words is spelt by a task of some run of the service, from any initial directory |
| CoreTheorems.EventIdsAreDistinct | src/nexuss/core/service.py:109-131 | the events of a task have different ids |
| CoreTheorems.EffectsAreAuthorised | src/nexuss/core/service.py:398-521 | each note create and each launch carries out its task's only step, directly after an approval on the registry's channel by the task's authenticated session, with matching id, token and hash, before the five minutes are over |
| CoreTheorems.OneEffectPerTask | src/nexuss/core/service.py:398-521 | a task causes at most one such call in a run |
| CoreTheorems.DeniedTasksDoNothing | src/nexuss/core/service.py:348-356 | a task with any DENY decision is denied, has no result and causes no call |
| CoreTheorems.OneUndoPerTask | src/nexuss/core/service.py:557-639 | an undo call is made at most once per task, and the task has then left COMPLETED |
| CoreTheorems.ApprovalBindsPlan | src/nexuss/core/service.py:179-228 | an approval's hash is that of the only step of the stored plan and of no step that asks for anything else; its channel is the registry's, risk and reversibility are the step's; a note's preview is the text of every note create of the task, and a launch's preview names capability, executable and the very node of every launch call of the task |
| CoreTheorems.LedgerIsFaithful | src/nexuss/core/service.py:133-158 | versions are positions, each receipt's events and results extend those of the one before, the newest has every field of the stored task, is verified exactly when the task is COMPLETED or ROLLED_BACK and reversible exactly when it was approved and is COMPLETED, and there are at most three |
| CoreTheorems.ReceiptFlagsAreExact | src/nexuss/core/service.py:136-141 | the newest receipt is reversible exactly when an undo by the owning session would start, and verified exactly when the task is COMPLETED or ROLLED_BACK |
| CoreTheorems.VerifiedResultsMatchPlan | src/nexuss/core/service.py:274-296 | a completed task has one verified result with evidence for each step in order, and a rolled back one has one ROLLED_BACK result more |
| CoreTheorems.DirectoryIsConserved | src/nexuss/core/managed_notes.py:118-161 | the directory is the initial one plus exactly one file for each COMPLETED note task, holding the planned bytes; different tasks own different files |
| CoreTheorems.NoteUndoSucceeds | src/nexuss/core/service.py:593-670 | undoing a completed note by its session succeeds in every reachable state and removes exactly its file |
| CoreTheorems.PendingIsWaiting | src/nexuss/core/service.py:362-396 | an approval has a token exactly while it is PENDING, which is exactly while its task is AWAITING_APPROVAL |
| CoreTheorems.ConsumedGuardIsUnreachable | src/nexuss/core/service.py:459-460 | the guard for an already consumed approval never fires |
| CoreTheorems.RefusedDecisionsChangeNothing | src/nexuss/core/service.py:406-460 | a refused decision changes nothing, except that an expired one denies the task, leaves its approval EXPIRED and adds one receipt |
| CoreTheorems.ApprovalIsExact | src/nexuss/core/service.py:406-521 | a decision to approve is accepted exactly when task, session, channel, expiry, id, token and hash all fit |
| CoreTheorems.RejectionIsExact | src/nexuss/core/service.py:406-488 | a decision to reject is accepted exactly when all of these but the channel fit; it denies the task, which has no result, leaves the approval REJECTED and adds an event that says so |
| CoreAnswers.UndoIsExact | src/nexuss/core/service.py:557-580 | in every reachable state, a task enters ROLLING_BACK exactly when it is there and COMPLETED, was approved, and the session is authenticated and is the task's own; any other undo changes nothing and answers the first error that fits |
| CoreAnswers.NoteUndoAnswer | src/nexuss/core/service.py:582-670 | the owner's undo of a completed note answers with the stored task: ROLLED_BACK, one verified removal and two events more; it removes the file of the note prepared from the intent, which holds its text, and makes the one call |
| CoreAnswers.LaunchUndoAnswer | src/nexuss/core/service.py:582-703 | the owner's undo of a completed launch calls the node for the command and node of the receipt; it answers with the stored ROLLED_BACK task exactly when the process is reported absent, and otherwise fails the task and answers why |
| CoreAnswers.DecisionIsExact | src/nexuss/core/service.py:406-460 | in every reachable state, a decision is accepted exactly when the owner makes it on a waiting task, on the right channel if it is to approve, before the expiry, with the id, token and hash of the approval; any other is answered with the first error that fits |
| CoreAnswers.RejectionAnswer | src/nexuss/core/service.py:462-488 | an accepted rejection stores the task DENIED, its approval REJECTED without token, and one "approval_rejected" event more; it records the decision and touches no file |
| CoreAnswers.LateDecisionAnswer | src/nexuss/core/service.py:424-451 | a decision at or past the expiry stores the task DENIED, its approval EXPIRED without token, and one "approval_expired" event more; it records and touches nothing else |
| CoreAnswers.NoteApprovalAnswer | src/nexuss/core/service.py:490-521 | an accepted approval of a note stores the approval CONSUMED, makes the one create call for the note prepared from the intent, and completes the task with its file, length and hash in evidence exactly when the name is free and opening works; every event is as its time and kind say |
| CoreAnswers.LaunchApprovalAnswer | src/nexuss/core/service.py:490-521 | an accepted approval of a launch stores the approval CONSUMED, makes the one call to the node the intent asks for, and completes the task exactly when a running process is reported; otherwise it fails with the error of what happened |
| CoreAnswers.CreateIsExact | src/nexuss/core/service.py:298-396 | a create answers a known request with its task, refuses any other unless its session is authenticated and is the request's own, and otherwise stores the task of the intent, field by field: waiting, denied, or at its end with a result for each step; it touches no file and makes no call |
| CoreAnswers.PlainPlanRuns | src/nexuss/core/executor.py:120-174 | every plain kind that is not refused runs at once to COMPLETED with plain evidence for each step, except that reading the workspace fails exactly when it cannot be read |
| CoreAnswers.IntentIsCarriedOut | src/nexuss/core/planner.py:37-159 | in every reachable state a note task plans the note prepared from its intent, creates no other, and while COMPLETED its file holds that note's text; a launch task calls only the node its intent asks for; every effect is of the kind its intent asks for |
| CoreAnswers.ApprovalIsAsked | src/nexuss/core/service.py:179-228 | in every reachable state an approval is, but for status and token, the one the intent asks for, with preview, hash, session, five minutes, risk, reversibility and channel spelt out |
| CoreAnswers.TasksWereAsked | src/nexuss/core/service.py:298-396 | every task of a run was asked for by one of the run's commands, from the authenticated session that owns it, and keeps intent, request, session and creation time |
| CoreEvolution.RunEvolves | src/nexuss/core/service.py:298-639 | from every reachable state on, plans and origins of tasks never change, an approval leaves PENDING at most once, and events, results, receipts and recorded calls only grow |
| CoreEvolution.RepeatsChangeNothing | src/nexuss/core/service.py:300-302 | leaving out every create whose request had been accepted leaves the outcome of the whole run unchanged |
| CoreEvolution.RepeatAnswersStoredTask | src/nexuss/core/service.py:300-302 | a repeated create answers with the stored task |
| CoreEvolution.SortingSorts | src/nexuss/core/service.py:555 | the pending list is sorted by expiry and keeps every summary |
| CoreEvolution.SortingIsStable | src/nexuss/core/service.py:555 | in every list, summaries that expire at the same instant keep their order |
| CoreEvolution.SortedListStays | src/nexuss/core/service.py:555 | a list that is in order already is left as it is |
| CoreEvolution.RunCreatesInOrder | src/nexuss/core/service.py:298-396 | when the readings of the creates do not go back, tasks are stored in order of creation |
| CoreEvolution.PendingListIsExact | src/nexuss/core/service.py:523-555 | the list is sorted by expiry and holds, once each, exactly the session's tasks that wait for the phone, with id, token, hash, preview, risk, reversibility and expiry of their approvals; when the readings of the creates do not go back it is in the order of creation |
| CoreEvolution.ListedApprovalIsAccepted | src/nexuss/core/service.py:523-555 | whatever is listed, sent back as it was shown on the phone channel, is accepted exactly before its expiry |
| Ledger.EventList.Append | src/nexuss/core/service.py:118-131 | one event is added in place |
| Ledger.InMemoryActionLedger.Append | src/nexuss/core/ledger.py:16-23 | a receipt with the next version is stored as a copy of its own; any other version is refused and nothing changes |
| Ledger.InMemoryActionLedger.Get | src/nexuss/core/ledger.py:25-29 | the newest receipt, as a fresh copy |
| Ledger.InMemoryActionLedger.GetHistory | src/nexuss/core/ledger.py:31-32 | all receipts in order, as fresh copies |
| Service.CoreSimulatorService.CreateTask | src/nexuss/core/service.py:298-396 | refines the specification, whose answers are spelt out in `CoreAnswers`, and hands out a fresh copy |
| Service.CoreSimulatorService.ApproveTask | src/nexuss/core/service.py:398-521 | refines the specification, whose answers are spelt out in `CoreAnswers`, on every exit; no transition check and no version check fails |
| Service.CoreSimulatorService.RollbackTask | src/nexuss/core/service.py:557-639 | refines the specification, whose answers are spelt out in `CoreAnswers`, on every exit |
| Service.CoreSimulatorService.ExecuteAuthorizedSteps | src/nexuss/core/service.py:230-296 | appends to the given list in place and computes what the specification says |
| Service.CoreSimulatorService.ExecuteEach | src/nexuss/core/service.py:246-256 | the loop gives the results up to the first step that raises |
| Service.CoreSimulatorService.RecordReceipt | src/nexuss/core/service.py:133-158 | the next receipt of the task is recorded; no earlier receipt changes |
| Service.CoreSimulatorService.ListPendingPhoneApprovals | src/nexuss/core/service.py:523-555 | the loop gives the list of the specification, which `CoreEvolution.PendingListIsExact` spells out |
| Service.CoreSimulatorService.GetTask | src/nexuss/core/service.py:705-710 | a fresh copy of the stored task |
| Service.CoreSimulatorService.GetReceipt | src/nexuss/core/service.py:712-717 | a fresh copy of the newest receipt |
| Service.CoreSimulatorService.GetReceiptHistory | src/nexuss/core/service.py:719-724 | fresh copies of all receipts |
| Service.CallerRewrites | src/nexuss/core/service.py:396 | a caller that rewrites the event list of a view it was given changes nothing of the service |
| Service.ViewsStay | src/nexuss/core/service.py:521 | a view and a receipt that were handed out stay as they were through any sequence of later calls, while the service appends to the same tasks and serves the calls as specified |
| NonceCache.CacheHoldsRemembered | src/nexuss/device_node/app.py:54-65 | for any readings, a nonce is cached exactly when a request with it was accepted and no reading since has passed its expiry |
| NonceCache.GuardAnswers | src/nexuss/device_node/app.py:46-65 | for any readings, what each request is answered: expired out of its time, then invalid when the signature does not verify, then replayed exactly when it replays a request that is still remembered |
| NonceCache.CacheRefinesLog | src/nexuss/device_node/app.py:46-65 | when the readings do not go back, every envelope is decided as by an unbounded log of accepted ones restricted to unexpired |
| NonceCache.CacheDiffersFromLog | src/nexuss/device_node/app.py:46-65 | for any readings, the cache accepts what the log refuses exactly when every accepted request it replays was overtaken by a reading past that one's expiry; it never refuses what the log accepts |
| NonceCache.EnvelopeIsAcceptedOnce | src/nexuss/device_node/app.py:46-65 | one envelope is accepted at most once in a run whose clock does not go back |
| NonceCache.BackwardClockAllowsReplay | src/nexuss/device_node/app.py:47-54 | a run with a clock that goes back accepts an envelope twice |
| NonceCache.NonceGuard.Admit | src/nexuss/device_node/app.py:46-65 | the purge loop, the checks and the insertion compute the specification |
| ProcessTable.LaunchKeeps | src/nexuss/device_node/executor.py:82-126 | a launch succeeds exactly on its own node for a recorded command or a valid process id, and answers the first error that fits otherwise; the answer carries command, node, process id and start time as recorded and reports the process as running exactly when it runs; a repeated launch starts nothing, a new one starts one process and touches no other record |
| ProcessTable.RollbackKeeps | src/nexuss/device_node/executor.py:128-162 | a rollback succeeds exactly on its own node for a recorded command of its own task whose process is not running or ends in time; it then removes that record, the process is dead and the answer says whether it ran before; every other record and process is untouched, and a refused one changes nothing and answers the first error that fits |
| ProcessTable.StartsAreConserved | src/nexuss/device_node/executor.py:82-162 | over any mix of launches, rollbacks and exits, the steps that started a process with a valid id are as many as the records that are left, less those there at first, plus the rollbacks reported verified absent |
| ProcessTable.WindowsNotepadExecutor.Launch | src/nexuss/device_node/executor.py:82-126 | refines the specification over process objects; the answer carries the id of the recorded process object and whether that object runs |
| ProcessTable.WindowsNotepadExecutor.Rollback | src/nexuss/device_node/executor.py:128-162 | refines the specification over process objects; the recorded process object does not run any more |
| ProcessTable.WindowsNotepadExecutor.ProcessExits | src/nexuss/device_node/executor.py:25-32 | a process that ends by itself changes nothing but whether it runs |
| DeviceNode.NodeRunKeeps | src/nexuss/device_node/app.py:77-112 | for any readings, however envelopes are forged, repeated, delayed and reordered: what is handled was sent by the core and admitted, every answer names the command of the envelope it answers and reports a running process exactly when it ran as the answer was given, answers are never more than admissions, and a command is recorded exactly when the last answer about it was to its launch |
| DeviceNode.AnswerFits | src/nexuss/device_node/app.py:77-112 | an envelope is answered exactly when it names the node, asks for nothing but the launch or the undo of a recorded command of its own task, and that succeeds; any other capability is refused without effect |
| DeviceNode.LaunchedLastStands | src/nexuss/device_node/executor.py:98-162 | the last answer about a command is to its launch exactly when some launch of it was answered and no undo after that |
| DeviceNode.AdmittedOnceDecides | src/nexuss/device_node/app.py:46-112 | when a command's launch was admitted once at most, the last answer is to its launch exactly when its launch was answered and no undo of it was |
| DeviceNode.ReadmissionIsExact | src/nexuss/device_node/app.py:46-65 | for any readings, an envelope admitted before is admitted again exactly when it comes at a reading within its own time and, since each earlier admission, some request was checked at a reading past its expiry |
| DeviceNode.OrderedClockAdmitsOnce | src/nexuss/device_node/app.py:46-65 | when the readings of the requests that pass the first checks do not go back, no envelope is admitted twice |
| DeviceNode.SendingKeeps | src/nexuss/device/client.py:114-151 | sending one more envelope under a new nonce disturbs nothing |
| DeviceSystem.RequestIsSendable | src/nexuss/device/client.py:114-151 | the core never sends a second command envelope for the same command id |
| DeviceSystem.RequestIsBuilt | src/nexuss/device/client.py:114-151 | every field of an envelope: the task's own command or rollback id, the one capability, the call's nonce and thirty seconds from its reading |
| DeviceSystem.SystemTakeKeeps | src/nexuss/device/client.py:86-151 | for any readings, a command of the core, with any delivery in between and any one of the answers arriving or none, keeps tasks, envelopes, table and answers tied together |
| DeviceTheorems.RequestIsTheCall | src/nexuss/core/executor.py:78-117 | an envelope is sent exactly when the core calls the device client, for that call, at most once per operation |
| DeviceTheorems.DeviceTasksMatchNode | src/nexuss/device_node/executor.py:98-162 | for any readings, in every reachable state: each COMPLETED device task has its own command recorded for itself with the process its receipt names, and each ROLLED_BACK one has none and its process is dead, except exactly a ROLLED_BACK task whose launch was answered again after its undo |
| DeviceTheorems.AdmittedOnceMatchesNode | src/nexuss/device_node/executor.py:98-162 | when the node admitted a task's launch once at most, whatever it admitted of others, tasks and node agree on the task, and its command is recorded exactly when its launch was answered and no undo of it was |
| DeviceTheorems.OrderedReadingsMatchNode | src/nexuss/device_node/app.py:46-65 | when the node's readings do not go back in lock order, each launch is admitted once at most and tasks and node agree without exception |
| DeviceTheorems.RecordIsExact | src/nexuss/device_node/executor.py:98-162 | for any readings and every device task in any state, FAILED too: its command is recorded, for the task, exactly when the last answer about it was to its launch, and is gone with a dead process exactly when it was to an undo; unless the task is COMPLETED no session can undo it |
| DeviceTheorems.RecordedWasApproved | src/nexuss/core/service.py:398-521 | for any readings, every command the node ever recorded is that of a task whose launch call stands in the record directly after the approval of the task's own session on the phone channel, for the hash of its step, within five minutes |
| DeviceExamples.LostAnswerLeavesProcess | src/nexuss/core/executor.py:85-93 | a run with ordered readings in which an answer is lost: the task is FAILED, its command is recorded and the process runs |
| DeviceExamples.LostAnswerHidesUndo | src/nexuss/core/service.py:604-619 | a run with ordered readings in which the answer to an undo is lost: the task is FAILED, not ROLLED_BACK, and its process is gone |
| DeviceExamples.BackwardClockRelaunches | src/nexuss/device_node/app.py:47-54 | a run with a node reading that goes back, in which the launch of a ROLLED_BACK task is answered again and its process runs once more |
| DeviceTheorems.DeviceTasksAreApart | src/nexuss/device/client.py:116-119 | for any readings, two device tasks have different commands and different processes |
| DeviceTheorems.LaunchOutcome | src/nexuss/core/executor.py:78-117 | a granted device task completes exactly when an answer to its own envelope arrives that was given while the process ran, and fails otherwise |
| DeviceTheorems.CompletedWasRunning | src/nexuss/device_node/executor.py:116-126 | for any readings, in every reachable state a COMPLETED device task reports an answer that the node gave to its own envelope at a moment when the process ran |
| DeviceTheorems.UndoOutcome | src/nexuss/core/service.py:593-639 | an undo of a device task goes through exactly when an answer to its own envelope arrives |
| DeviceTheorems.HandlingTouchesOwnTask | src/nexuss/device_node/executor.py:98-162 | for any readings, handling an envelope of one task leaves record and process of every other task as they are |
| PairingGateway.CodeRoundTrip | src/nexuss/mobile/gateway.py:74 | a drawn number gives an eight-digit code from which it can be read back |
| PairingGateway.CreateFindsCode | src/nexuss/mobile/gateway.py:66-97 | creating stores a challenge for ten minutes under the first drawn code no unexpired one has, and answers its id, code and expiry, or fails exactly when all twenty draws are taken; either way just the expired ones are gone |
| PairingGateway.TakeKeeps | src/nexuss/mobile/gateway.py:60-165 | every operation keeps stored challenges and devices tied to the history of what was issued, paired and removed |
| PairingGateway.OneDevicePerChallenge | src/nexuss/mobile/gateway.py:99-142 | in every run each challenge yields at most one device, before it expires |
| PairingGateway.StoredCodesAreDistinct | src/nexuss/mobile/gateway.py:74-91 | two stored challenges never share a code, and a code names the last challenge issued with it |
| PairingGateway.RemovedExactly | src/nexuss/mobile/gateway.py:144-165 | a device is removed exactly when some call revoked it while it was paired, or authenticated it at a reading at or past its eight hours |
| PairingGateway.AuthenticateIsExact | src/nexuss/mobile/gateway.py:144-161 | a session is returned exactly to a device paired from one of its challenges, with its own token, before its eight hours end, that no such call has removed |
| PairingGateway.AuthenticateAnswer | src/nexuss/mobile/gateway.py:144-161 | what authenticating answers: not paired if it never was or a call ended it, then expired after its eight hours, then invalid for any token but its own, and otherwise the session of its challenge |
| PairingGateway.RemovedStays | src/nexuss/mobile/gateway.py:155-165 | a device that such a call removed never authenticates again, in any continuation |
| PairingGateway.PairRefinesLog | src/nexuss/mobile/gateway.py:99-142 | when no create has read a later instant than the pairing, a code pairs exactly when, of all challenges ever issued, one with that code is unexpired and unused; it is then the only one and gives its session |
| PairingGateway.PairDecides | src/nexuss/mobile/gateway.py:66-142 | for any readings, a code pairs exactly when a challenge with that code is unexpired and unused and no create has purged it; it is then the only one and gives its session |
| PairingGateway.PairAnswer | src/nexuss/mobile/gateway.py:99-142 | for any readings, what pairing answers: the three refusals, each exactly for its own reason and without effect, and otherwise id, stripped label, minted token and an expiry in eight hours |
| PairingGateway.PairedDeviceAuthenticates | src/nexuss/mobile/gateway.py:99-161 | a device that was just paired authenticates to the session of its challenge with the answered token, and with no other, until the answered expiry |
| PairingGateway.PairDiffersFromLog | src/nexuss/mobile/gateway.py:66-142 | for any readings, pairing refuses what a log of all challenges accepts exactly when each unexpired, unused challenge with the code was purged by a create that read an instant past its expiry; it never accepts what the log refuses |
| PairingGateway.BackwardClockLosesChallenge | src/nexuss/mobile/gateway.py:66-113 | a run with a clock that goes back, in which a code is refused although its challenge is unexpired and unused |
| PairingGateway.MobileApprovalGateway.CreateChallenge | src/nexuss/mobile/gateway.py:60-97 | the purge loop and the loop of twenty draws compute the specification |
| PairingGateway.MobileApprovalGateway.PairDevice | src/nexuss/mobile/gateway.py:99-142 | refines the specification |
| PairingGateway.MobileApprovalGateway.AuthenticateDevice | src/nexuss/mobile/gateway.py:144-161 | refines the specification |
| PairingGateway.MobileApprovalGateway.RevokeDevice | src/nexuss/mobile/gateway.py:163-165 | refines the specification |
| RateLimit.DequeIsTail | src/nexuss/api/app.py:88-101 | for any readings, the deque is the end of the full accepted history and has at most five entries |
| RateLimit.DequeIsWindow | src/nexuss/api/app.py:88-101 | when the readings do not go back, the pruned deque is the accepted history of the last five minutes, sorted, and an attempt is refused exactly when five lie in it |
| RateLimit.AcceptedAreSpaced | src/nexuss/api/app.py:88-101 | when the readings do not go back, an accepted attempt and the fifth after it are at least five minutes apart |
| RateLimit.SixthFollowsLeaving | src/nexuss/api/app.py:88-101 | for any readings, before the fifth attempt after an accepted one passes, a reading has reached its five minutes |
| RateLimit.LimiterIsExact | src/nexuss/api/app.py:88-101 | for any readings, an attempt is refused exactly when five were accepted and the fifth last has not left the deque, which it does when some reading since has reached its five minutes behind those before it |
| RateLimit.DequeMeetsWindow | src/nexuss/api/app.py:88-101 | for any readings, the pruned deque is the accepted history of the last five minutes exactly when the attempts that left it are those outside that window |
| RateLimit.LimiterDiffersFromWindow | src/nexuss/api/app.py:88-101 | for any readings, an attempt passes with a full window exactly when the fifth last accepted one has left the deque, and is refused with room in the window exactly when five were accepted and the fifth last has not left |
| RateLimit.BackwardClockAllowsMore | src/nexuss/api/app.py:90-92 | with a clock that goes back an attempt can pass although six accepted ones lie in its window |
| RateLimit.BackwardClockRefusesEarly | src/nexuss/api/app.py:90-92 | with a clock that goes back an attempt can be refused although only one accepted attempt lies in its window |
| RateLimit.HostsAreApart | src/nexuss/api/app.py:65-93 | each host's deque, and what its next attempt is answered, depend on its own attempts only |
| RateLimit.PairRateLimiter.Admit | src/nexuss/api/app.py:88-101 | the pruning loop and the check compute the specification |
| Api.ServedHolds | src/nexuss/api/app.py:165-319 | gateway and orchestrator stay in their invariants whatever state-changing calls arrive, a phone asking what is pending included |
| Api.PhoneDecisionsArePaired | src/nexuss/api/app.py:116-121 | every decision on the phone channel was asked for by a phone that was paired to the deciding session when it was authenticated, with any calls between authentication and decision |
| Api.PairedPhoneApproves | src/nexuss/api/app.py:286-319 | a phone paired to a session is let in, and when it sends back what is listed for the session, the task is executed if that comes before the expiry, and denied as expired otherwise |
| Api.PairingIsLimited | src/nexuss/api/app.py:274-283 | a call to pair reaches the gateway exactly when the limiter lets it through, by the client's own earlier attempts among all calls; a refused one changes nothing but the deque |
| Api.LaunchesNeedPairedPhone | src/nexuss/api/app.py:295-319 | every launch follows the approval that a phone asked for which was paired to the task's own session when it was authenticated |

## Where code and expectation part

- A device task that ends FAILED says nothing about the node. When only the answer is lost, the process runs on, its
  record stays, and the task can no longer be undone (`LostAnswerLeavesProcess`); when the answer to an undo is lost, the
  process is gone although the task is not ROLLED_BACK (`LostAnswerHidesUndo`). `RecordIsExact` says when a record is
  there, for every state of a task.
- The replay guard, the gateway and the pairing limiter read the clock before they take their locks, so readings may go
  back in lock order. `BackwardClockAllowsReplay`, `BackwardClockRelaunches`, `BackwardClockLosesChallenge`,
  `BackwardClockAllowsMore` and `BackwardClockRefusesEarly` show runs where a promise fails then.
- The guard for an approval that was already consumed cannot fire, because the state check before it excludes the case.
- The simulator can answer for reading Nexuss's own health and for preparing playback, but neither capability is
  registered, so the policy denies every plan that names them
  (`UnregisteredPlansAreRefused`).

## Left out

- Intent classification and the extraction of note text: an arbitrary classified intent is an input instead.
- Reading the workspace (git, platform, disk) and the simulator's table: an arbitrary or a fixed result.
- FastAPI routing, header parsing, loopback checks, status codes, health endpoints and static files. In `Api` a call
  that the loopback check turns away does not occur, and a local session is whatever its headers say.
- HTTP transport and URL parsing of the device client, and a node without a configured secret: the channel loses such
  messages.
- Cryptography, UUID formats and random number generation; the canonical text of signed envelopes.
- NFKC and other Unicode: text is ASCII, and idempotence of normalisation is claimed for ASCII only.
- Symbolic links, case-insensitive file systems, creation of the root directory, and a root that is the file system's root.
- Failures of writing, reading or deleting a file after a successful open; processes that survive being terminated and
  waited for; platform and path checks before a launch.
- Exceptions other than those named under Assumptions: the program lets them escape after events were appended.
- Titles, explanations, event details, labels, hostnames, executable paths, the mobile URL and expected-evidence lists;
  the assistant's replies are shortened.
- Service.CallerRewrites: covers the event list of a view, the only object that the program changes in place; plans with
  their parameters, results and decisions are values, so that a view shares none of them with the service is not an
  obligation here.
- `ledger.values()`, `list_capabilities()`, `reset_nonce_cache()`, and restarts.
- Browser client, scripts, schemas and the repository validator.
