/** What each operation answers and stores, field by field, in every state that a run reaches. */
module CoreAnswers {
  import opened StateMachine
  import opened Domain
  import opened Registry
  import opened NoteText
  import opened NoteStore
  import opened Payload
  import opened Planner
  import opened CoreModel
  import opened TaskInvariant
  import opened CoreInvariant
  import opened CoreSteps
  import opened CoreRuns
  import opened CoreTheorems
  import opened CoreEvolution

  /** A task's event at a position. */
  function EventAt(task: Uuid, n: nat, state: TaskState, kind: EventKind, at: Instant): Event {
    Event(EventId(task, n, kind, state), n, state, kind, at)
  }

  /** Two events are added one after the other. */
  lemma TwoMore(
    task: Uuid, events: seq<Event>, s1: TaskState, k1: EventKind, at1: Instant, s2: TaskState, k2: EventKind,
    at2: Instant)
    ensures AddEvent(task, AddEvent(task, events, s1, k1, at1), s2, k2, at2) ==
            events + [EventAt(task, |events| + 1, s1, k1, at1), EventAt(task, |events| + 2, s2, k2, at2)]
  {
  }

  /** A task is stored, the files and the record are as given, and the ledger may grow; nothing else changes. */
  ghost predicate Stored(c: Core, after: Core, t: Task, files: Files, entries: seq<Entry>) {
    && after.tasks == c.tasks[t.taskId := t]
    && after.files == files
    && after.log == c.log + entries
    && after.root == c.root && after.order == c.order && after.requestIndex == c.requestIndex
  }

  /* What the plan and the approval of a task are. */

  /** The note that an intent asks for. */
  function NoteAsked(intent: Intent): PreparedNote
    requires intent.NoteIntent? && PrepareNote(intent.title, intent.content).Success?
  {
    PrepareNote(intent.title, intent.content).value
  }

  /** The node that an intent asks for, or the default one. */
  function TargetAsked(intent: Intent): string
    requires intent.NotepadIntent?
  {
    match intent.target
    case Some(target) => target
    case None => "windows-primary"
  }

  lemma ApprovedIsPlanned(t: Task)
    requires TaskInv(t) && t.approval.Some?
    ensures t.plan == PlanFor(t.taskId, t.intent) && t.decisions == DecisionsFor(t.taskId, t.intent)
    ensures t.intent.Classified() && VerdictOn(t.decisions) == NeedsApproval
  {
    hide PlanFor, DecisionsFor, VerdictOn, Traced, ResultsKept, IssuedApproval;
  }

  /** Only notes and launches are ever asked approval for. */
  lemma ApprovedKinds(t: Task)
    requires TaskInv(t) && t.approval.Some?
    ensures t.intent.NoteIntent? || t.intent.NotepadIntent?
    ensures t.intent.NoteIntent? ==> PrepareNote(t.intent.title, t.intent.content).Success?
  {
    hide PlanFor, DecisionsFor, TaskInv, PrepareNote, IsNoteStep;
    ApprovedIsPlanned(t);
    match t.intent
    case NoteIntent(title, content) => NotePlan(t.taskId, title, content);
    case NotepadIntent(_) =>
    case PlainIntent(kind) => PlainPlan(t.taskId, kind);
  }

  /** An approved note's only step rebuilds to the note prepared from the intent. */
  lemma NoteIsAsked(t: Task)
    requires TaskInv(t) && t.approval.Some? && t.intent.NoteIntent?
    ensures PrepareNote(t.intent.title, t.intent.content).Success?
    ensures |t.plan.steps| == 1 && IsNoteStep(t.plan.steps[0])
    ensures PlannedNote(t) == NoteAsked(t.intent)
    ensures var step := t.plan.steps[0];
            && step.capability == CreateNote && step.stepId == StepId(t.taskId, 1, CreateNote)
            && step.risk == Medium && step.reversible
  {
    hide PlanFor, DecisionsFor, VerdictOn, TaskInv, PrepareNote, Lookup, IsNoteStep;
    ApprovedKinds(t);
    ApprovedIsPlanned(t);
    NotePlan(t.taskId, t.intent.title, t.intent.content);
    NotePlanIsPrepared(t.taskId, t.intent.title, t.intent.content);
    PreparedNoteIsNormal(t.intent.title, t.intent.content);
    PlansAsAsked(t.taskId, t.intent);
    assert Capabilities(t.plan)[0] == AskedFor(CreateNoteIntent)[0];
  }

  lemma LaunchIsAsked(t: Task)
    requires TaskInv(t) && t.approval.Some? && t.intent.NotepadIntent?
    ensures |t.plan.steps| == 1 && IsNotepadStep(t.plan.steps[0])
    ensures TargetNode(t.plan.steps[0]) == TargetAsked(t.intent)
    ensures var step := t.plan.steps[0];
            && step.capability == LaunchNotepad && step.stepId == StepId(t.taskId, 1, LaunchNotepad)
            && step.risk == High && step.reversible
  {
    hide PlanFor, DecisionsFor, VerdictOn, TaskInv, Lookup, IsNoteStep, IsNotepadStep;
    ApprovedIsPlanned(t);
    PlansByVerdict(t.taskId, t.intent);
    NotepadPlanIsAsked(t.taskId, t.intent.target);
    PlansAsAsked(t.taskId, t.intent);
    assert Capabilities(t.plan)[0] == AskedFor(LaunchNotepadIntent)[0];
    NoteStepCreates(t.plan.steps[0]);
  }

  /* Undoing. */

  /** The session owns the task, which is completed and was approved. */
  ghost predicate MayUndo(c: Core, id: Uuid, session: IdentitySession) {
    && id in c.tasks
    && c.tasks[id].state == Completed
    && c.tasks[id].approval.Some?
    && session.authenticated
    && session.sessionId == c.tasks[id].sessionId
  }

  /** A task that was there has one more event, which has the state RollingBack. */
  ghost predicate StartsRollingBack(c: Core, after: Core, id: Uuid) {
    && id in c.tasks && id in after.tasks
    && |c.tasks[id].events| < |after.tasks[id].events|
    && after.tasks[id].events[|c.tasks[id].events|].state == RollingBack
  }

  /**
   * An undo starts exactly for the authenticated session that owns the task, when the task is completed and was
   * approved. Any other changes nothing and is refused, with the first of the errors that fits.
   */
  lemma UndoIsExact(
    root: Path, initial: Files, c: Core, id: Uuid, session: IdentitySession, clock: Clock, env: Environment)
    requires ReachedFrom(root, initial, c)
    ensures var (after, outcome) := RollbackTask(c, id, session, clock, env);
            && (StartsRollingBack(c, after, id) <==> MayUndo(c, id, session))
            && (!MayUndo(c, id, session) ==>
                  && after == c
                  && outcome == Failure(
                                  if id !in c.tasks then TaskNotFound
                                  else if !session.authenticated || session.sessionId != c.tasks[id].sessionId then
                                    InvalidSession
                                  else if c.tasks[id].state != Completed then TaskIsNotRollbackEligible
                                  else NoReceiptBoundReversibleResult))
  {
    hide CoreInv, TaskInv, ReachedFrom, RecordReceipt, RollbackRunFor;
    ReachedHolds(root, initial, c);
    if id in c.tasks {
      TaskUnderItsId(initial, c, id);
      if c.tasks[id].state == Completed {
        OnlyApprovedTasksAreReversible(c.tasks[id]);
      }
    }
  }

  /** The task that an undo of a note leaves: one verified removal more, and two events more. */
  function NoteUndone(t: Task, note: PreparedNote, clock: Clock): Task {
    t.(state := RolledBack,
       results := t.results + [CapabilityResult(
                                 StepId(t.taskId, 1, CreateNote), RollbackCreateNote, StepRolledBack,
                                 [NoteRemoved(clock.now, note.filename, Sha256(note.content))], None)],
       events := t.events + [
         EventAt(t.taskId, 8, RollingBack, RollbackStarted, clock.now),
         EventAt(t.taskId, 9, RolledBack, RollbackVerified, clock.executed)],
       updatedAt := clock.updated)
  }

  /** The owner's undo of a completed note answers with the task that is stored, and removes the note's file. */
  lemma NoteUndoAnswer(root: Path, initial: Files, c: Core, id: Uuid, clock: Clock, env: Environment)
    requires ReachedFrom(root, initial, c) && id in c.tasks
    requires c.tasks[id].state == Completed && c.tasks[id].intent.NoteIntent?
    ensures PrepareNote(c.tasks[id].intent.title, c.tasks[id].intent.content).Success?
    ensures var t := c.tasks[id];
            var note := NoteAsked(t.intent);
            var (after, outcome) := RollbackTask(c, id, IdentitySession(t.sessionId, true), clock, env);
            && outcome == Success(NoteUndone(t, note, clock))
            && note.filename in c.files && c.files[note.filename] == note.content
            && Stored(
                 c, after, outcome.value, c.files - {note.filename},
                 [NoteRemoveCall(id, note.filename, Sha256(note.content))])
  {
    hide CoreInv, TaskInv, ReachedFrom, RecordReceipt, RollbackRunFor, IsNoteStep, PrepareNote, RebuiltNote;
    ReachedHolds(root, initial, c);
    TaskUnderItsId(initial, c, id);
    var t := c.tasks[id];
    NotesAreApproved(t);
    NoteIsAsked(t);
    OnlyApprovedTasksAreReversible(t);
    NoteFileIsThere(initial, c, id);
    UndoneNote(c, t, clock, env);
    CompletedResult(t);
    CompletedIsTraced(t);
    TwoMore(t.taskId, t.events, RollingBack, RollbackStarted, clock.now, RolledBack, RollbackVerified, clock.executed);
  }

  /** A note or a launch is completed only with an approval. */
  lemma NotesAreApproved(t: Task)
    requires TaskInv(t) && t.state == Completed && !t.intent.PlainIntent?
    ensures t.approval.Some?
  {
    hide Traced, ResultsKept, IssuedApproval, PlanFor, DecisionsFor, VerdictOn, IsNoteStep;
    PlansByVerdict(t.taskId, t.intent);
    PlansAsAsked(t.taskId, t.intent);
    assert HasOutsideEffect(AskedFor(t.intent.Kind())[0]);
    assert Capabilities(t.plan)[0] == t.plan.steps[0].capability;
  }

  lemma CompletedResult(t: Task)
    requires TaskInv(t) && t.state == Completed && t.approval.Some?
    ensures |t.plan.steps| == 1 && |t.results| == 1
    ensures t.results[0].stepId == t.plan.steps[0].stepId
  {
    hide Traced, PlanKept, ApprovalKept, EvidenceBinds;
    WaitingPlan(t);
    assert ResultFor(t.results[0], t.plan.steps[0]);
  }

  lemma CompletedIsTraced(t: Task)
    requires TaskInv(t) && t.state == Completed && t.approval.Some?
    ensures |t.events| == 7
  {
    hide PlanKept, ApprovalKept, ResultsKept, Kinds, Numbered;
    assert |States(t.events)| == |t.events|;
  }

  /** The task that an undo of a launch leaves. */
  function LaunchUndone(t: Task, stopped: Option<RollbackEvidence>, clock: Clock): Task {
    var rolling := EventAt(t.taskId, 8, RollingBack, RollbackStarted, clock.now);
    match stopped
    case Some(stop) =>
      t.(state := RolledBack,
         results := t.results + [CapabilityResult(
                                   StepId(t.taskId, 1, LaunchNotepad), RollbackLaunchNotepad, StepRolledBack,
                                   [DeviceStopped(clock.now, stop)], None)],
         events := t.events + [rolling, EventAt(t.taskId, 9, RolledBack, RollbackVerified, clock.executed)],
         updatedAt := clock.updated)
    case None =>
      t.(state := Failed,
         events := t.events + [rolling, EventAt(t.taskId, 9, Failed, RollbackFailed, clock.executed)],
         updatedAt := clock.updated)
  }

  /**
   * The owner's undo of a completed launch calls the node for the command its receipt names. It answers with the task
   * that is stored exactly when the node reports the process absent; otherwise the task is FAILED.
   */
  lemma LaunchUndoAnswer(root: Path, initial: Files, c: Core, id: Uuid, clock: Clock, env: Environment)
    requires ReachedFrom(root, initial, c) && id in c.tasks
    requires c.tasks[id].state == Completed && c.tasks[id].intent.NotepadIntent?
    ensures var t := c.tasks[id];
            && |t.results| == 1 && |t.results[0].evidence| == 1 && t.results[0].evidence[0].DeviceEvidence?
            && var launch, reply := t.results[0].evidence[0].launch, env.rollbackReply;
               var stopped := if reply.Some? && reply.value.verifiedAbsent then reply else None;
               var (after, outcome) := RollbackTask(c, id, IdentitySession(t.sessionId, true), clock, env);
               && outcome == (if stopped.Some? then Success(LaunchUndone(t, stopped, clock))
                              else if reply.None? then Failure(RollbackRefused(DeviceFailure))
                              else Failure(RollbackRefused(DeviceRollbackNotVerified)))
               && Stored(
                    c, after, LaunchUndone(t, stopped, clock), c.files,
                    [DeviceRollbackCall(id, launch.commandId, launch.nodeId)])
  {
    hide CoreInv, TaskInv, ReachedFrom, RecordReceipt, IsNotepadStep;
    ReachedHolds(root, initial, c);
    TaskUnderItsId(initial, c, id);
    var t := c.tasks[id];
    NotesAreApproved(t);
    LaunchIsAsked(t);
    OnlyApprovedTasksAreReversible(t);
    UndoneLaunch(c, t, clock, env);
    CompletedResult(t);
    CompletedIsTraced(t);
    TwoMore(t.taskId, t.events, RollingBack, RollbackStarted, clock.now, RolledBack, RollbackVerified, clock.executed);
    TwoMore(t.taskId, t.events, RollingBack, RollbackStarted, clock.now, Failed, RollbackFailed, clock.executed);
  }

  /* Deciding. */

  /** Whether a decision names the approval it decides: its id, its token and its hash. */
  ghost predicate Names(decision: ApprovalDecision, a: ApprovalRequest) {
    && decision.approvalId == a.approvalId
    && Some(decision.token) == a.token
    && decision.payloadSha256 == a.payloadSha256
  }

  /** A decision that the owner's session makes on a waiting task, on the right channel if it is to approve. */
  ghost predicate MayDecide(
    c: Core, id: Uuid, decision: ApprovalDecision, session: IdentitySession, channel: ApprovalChannel)
  {
    && id in c.tasks
    && session.authenticated && session.sessionId == c.tasks[id].sessionId
    && c.tasks[id].state == AwaitingApproval && c.tasks[id].approval.Some?
    && (decision.decision == Approve ==> channel == c.tasks[id].approval.value.channel)
  }

  /**
   * A decision is accepted exactly when it may be made, before the approval expires, and names the approval. Any other
   * is refused with the first error that fits.
   */
  lemma DecisionIsExact(
    root: Path, initial: Files, c: Core, id: Uuid, decision: ApprovalDecision, session: IdentitySession,
    channel: ApprovalChannel, clock: Clock, env: Environment)
    requires ReachedFrom(root, initial, c)
    ensures var outcome := ApproveTask(c, id, decision, session, channel, clock, env).1;
            && (outcome.Success? <==>
                  && MayDecide(c, id, decision, session, channel)
                  && clock.now < c.tasks[id].approval.value.expiresAt
                  && Names(decision, c.tasks[id].approval.value))
            && (outcome.Failure? ==>
                  outcome.error ==
                  if id !in c.tasks then TaskNotFound
                  else if !session.authenticated || session.sessionId != c.tasks[id].sessionId then InvalidSession
                  else if c.tasks[id].state != AwaitingApproval || c.tasks[id].approval.None? then
                    TaskIsNotAwaitingApproval
                  else
                    var a := c.tasks[id].approval.value;
                    if decision.decision == Approve && channel != a.channel then
                      (if a.channel == Phone then PhoneApprovalRequired else DesktopApprovalRequired)
                    else if a.expiresAt <= clock.now then ApprovalHasExpired
                    else if decision.approvalId != a.approvalId then ApprovalIdMismatch
                    else if Some(decision.token) != a.token then ApprovalTokenMismatch
                    else ApprovalPayloadHashMismatch)
  {
    hide CoreInv, TaskInv, ReachedFrom, GrantedRun, Store, Spend;
    ReachedHolds(root, initial, c);
    if id in c.tasks && c.tasks[id].approval.Some? {
      TaskUnderItsId(initial, c, id);
      PendingTask(c.tasks[id]);
    }
  }

  /** The task that a denied approval leaves. */
  function ApprovalDeniedTask(t: Task, status: ApprovalStatus, kind: EventKind, at: Instant): Task
    requires t.approval.Some?
  {
    t.(state := Denied,
       approval := Some(t.approval.value.(status := status, token := None)),
       events := t.events + [EventAt(t.taskId, 4, Denied, kind, at)],
       updatedAt := at)
  }

  lemma WaitingIsTraced(t: Task)
    requires TaskInv(t) && t.state == AwaitingApproval
    ensures |t.events| == 3 && t.results == []
  {
    hide PlanKept, ApprovalKept, Kinds, Numbered;
    assert |States(t.events)| == |t.events|;
  }

  /** An accepted rejection leaves the approval Rejected, says so in one event more, and makes no call. */
  lemma RejectionAnswer(
    root: Path, initial: Files, c: Core, id: Uuid, decision: ApprovalDecision, session: IdentitySession,
    channel: ApprovalChannel, clock: Clock, env: Environment)
    requires ReachedFrom(root, initial, c) && decision.decision == Reject
    ensures var (after, outcome) := ApproveTask(c, id, decision, session, channel, clock, env);
            outcome.Success? ==>
              && id in c.tasks && c.tasks[id].approval.Some?
              && outcome.value == ApprovalDeniedTask(c.tasks[id], Rejected, ApprovalRejectedEvent, clock.now)
              && Stored(c, after, outcome.value, c.files, [Decided(id, decision, session, channel, clock.now)])
  {
    hide CoreInv, TaskInv, ReachedFrom, GrantedRun, RecordReceipt, LateRefusal;
    ReachedHolds(root, initial, c);
    if id in c.tasks && c.tasks[id].state == AwaitingApproval {
      TaskUnderItsId(initial, c, id);
      WaitingIsTraced(c.tasks[id]);
    }
  }

  /** A decision that comes too late leaves the approval Expired, says so in one event more, and makes no call. */
  lemma LateDecisionAnswer(
    root: Path, initial: Files, c: Core, id: Uuid, decision: ApprovalDecision, session: IdentitySession,
    channel: ApprovalChannel, clock: Clock, env: Environment)
    requires ReachedFrom(root, initial, c)
    requires MayDecide(c, id, decision, session, channel) && c.tasks[id].approval.value.expiresAt <= clock.now
    ensures var (after, outcome) := ApproveTask(c, id, decision, session, channel, clock, env);
            && outcome == Failure(ApprovalHasExpired)
            && Stored(
                 c, after, ApprovalDeniedTask(c.tasks[id], Expired, ApprovalExpiredEvent, clock.now), c.files, [])
  {
    hide CoreInv, TaskInv, ReachedFrom, GrantedRun, RecordReceipt, LateRefusal;
    ReachedHolds(root, initial, c);
    TaskUnderItsId(initial, c, id);
    WaitingIsTraced(c.tasks[id]);
  }

  /** What a grant leaves of a task, apart from how the execution ended. */
  function Granted(
    t: Task, state: TaskState, results: seq<CapabilityResult>, ending: seq<Event>, clock: Clock): Task
    requires t.approval.Some?
  {
    t.(state := state,
       approval := Some(t.approval.value.(status := Consumed, token := None)),
       results := results,
       events := t.events + [
         EventAt(t.taskId, 4, Approved, ApprovalGranted, clock.now),
         EventAt(t.taskId, 5, Executing, ExecutionStarted, clock.now)] + ending,
       updatedAt := clock.updated)
  }

  /** The events of a verification that ends in a state. */
  function Verified(t: Task, state: TaskState, kind: EventKind, clock: Clock): seq<Event> {
    [
      EventAt(t.taskId, 6, Verifying, VerificationStarted, clock.executed),
      EventAt(t.taskId, 7, state, kind, clock.verified)
    ]
  }

  /** The task that a granted note leaves: one verified result, or none when the file could not be created. */
  function NoteGranted(t: Task, note: PreparedNote, made: bool, clock: Clock): Task
    requires t.approval.Some?
  {
    if made then
      Granted(
        t, Completed,
        [CapabilityResult(
           StepId(t.taskId, 1, CreateNote), CreateNote, StepVerified,
           [NoteEvidence(clock.now, note.filename, |note.content|, Sha256(note.content))], None)],
        Verified(t, Completed, VerificationCompleted, clock), clock)
    else
      Granted(t, Failed, [], [EventAt(t.taskId, 6, Failed, ExecutionFailedEvent, clock.executed)], clock)
  }

  /** The task that a granted launch leaves: what the node reports decides whether it is completed. */
  function LaunchGranted(t: Task, reply: Option<LaunchEvidence>, clock: Clock): Task
    requires t.approval.Some?
  {
    var step := StepId(t.taskId, 1, LaunchNotepad);
    match reply
    case None =>
      Granted(
        t, Failed, [CapabilityResult(step, LaunchNotepad, StepFailed, [], Some(TrustedDeviceCommandFailed))],
        Verified(t, Failed, VerificationFailedEvent, clock), clock)
    case Some(launch) =>
      if launch.verifiedRunning then
        Granted(
          t, Completed,
          [CapabilityResult(step, LaunchNotepad, StepVerified, [DeviceEvidence(clock.now, launch)], None)],
          Verified(t, Completed, VerificationCompleted, clock), clock)
      else
        Granted(
          t, Failed,
          [CapabilityResult(
             step, LaunchNotepad, StepFailed, [DeviceEvidence(clock.now, launch)], Some(DeviceProcessNotRunning))],
          Verified(t, Failed, VerificationFailedEvent, clock), clock)
  }

  /** What running a granted note or launch comes to, event by event. */
  lemma GrantedNoteRun(c: Core, t: Task, clock: Clock, env: Environment)
    requires TaskInv(t) && t.state == AwaitingApproval && t.approval.Some? && t.intent.NoteIntent?
    ensures PrepareNote(t.intent.title, t.intent.content).Success?
    ensures var note := NoteAsked(t.intent);
            var made := !env.openFails && note.filename !in c.files;
            var run, done := GrantedRun(c, t, clock, env), NoteGranted(t, note, made, clock);
            && run.state == done.state && run.results == done.results && run.events == done.events
            && run.files == (if made then c.files[note.filename := note.content] else c.files)
            && run.calls == [NoteCreateCall(t.taskId, note)]
  {
    hide TaskInv, PrepareNote, IsNoteStep, RebuiltNote, TargetName;
    WaitingIsTraced(t);
    NoteIsAsked(t);
    var step := t.plan.steps[0];
    RebuiltNoteIsPlanned(step, c.root);
    SingleStepRun(step, t.taskId, clock.now, env, c.root, c.files);
    assert t.plan.steps == [step];
    GrantedEventsAre(t, clock);
  }

  /** The events of a granted task up to each ending. */
  lemma GrantedEventsAre(t: Task, clock: Clock)
    requires |t.events| == 3
    ensures var started := AddEvent(t.taskId, GrantedEvents(t, clock.now), Executing, ExecutionStarted, clock.now);
            var verifying := AddEvent(t.taskId, started, Verifying, VerificationStarted, clock.executed);
            var head := [
                          EventAt(t.taskId, 4, Approved, ApprovalGranted, clock.now),
                          EventAt(t.taskId, 5, Executing, ExecutionStarted, clock.now)];
            && AddEvent(t.taskId, started, Failed, ExecutionFailedEvent, clock.executed) ==
               t.events + head + [EventAt(t.taskId, 6, Failed, ExecutionFailedEvent, clock.executed)]
            && AddEvent(t.taskId, verifying, Completed, VerificationCompleted, clock.verified) ==
               t.events + head + Verified(t, Completed, VerificationCompleted, clock)
            && AddEvent(t.taskId, verifying, Failed, VerificationFailedEvent, clock.verified) ==
               t.events + head + Verified(t, Failed, VerificationFailedEvent, clock)
  {
  }

  lemma GrantedLaunchRun(c: Core, t: Task, clock: Clock, env: Environment)
    requires TaskInv(t) && t.state == AwaitingApproval && t.approval.Some? && t.intent.NotepadIntent?
    ensures var run, done := GrantedRun(c, t, clock, env), LaunchGranted(t, env.launchReply, clock);
            && run.state == done.state && run.results == done.results && run.events == done.events
            && run.files == c.files
            && run.calls == [LaunchCall(t.taskId, TargetAsked(t.intent))]
  {
    hide TaskInv, IsNotepadStep, TargetNode, TargetAsked;
    WaitingIsTraced(t);
    LaunchIsAsked(t);
    var step := t.plan.steps[0];
    SingleStepRun(step, t.taskId, clock.now, env, c.root, c.files);
    assert t.plan.steps == [step];
    GrantedEventsAre(t, clock);
    var result := LaunchResult(step, clock.now, env.launchReply);
    assert [result][0] == result;
    assert AllVerified([result]) <==> result.status == StepVerified && result.evidence != [];
  }

  /**
   * An accepted approval of a note makes the one call, for the note prepared from the intent. It completes the task and
   * writes the file exactly when the name is free and opening works.
   */
  lemma NoteApprovalAnswer(
    root: Path, initial: Files, c: Core, id: Uuid, decision: ApprovalDecision, session: IdentitySession,
    channel: ApprovalChannel, clock: Clock, env: Environment)
    requires ReachedFrom(root, initial, c) && decision.decision == Approve
    requires ApproveTask(c, id, decision, session, channel, clock, env).1.Success?
    requires c.tasks[id].intent.NoteIntent?
    ensures c.tasks[id].approval.Some?
    ensures PrepareNote(c.tasks[id].intent.title, c.tasks[id].intent.content).Success?
    ensures var (after, outcome) := ApproveTask(c, id, decision, session, channel, clock, env);
            var note := NoteAsked(c.tasks[id].intent);
            var made := !env.openFails && note.filename !in c.files;
            && outcome.value == NoteGranted(c.tasks[id], note, made, clock)
            && Stored(
                 c, after, outcome.value, if made then c.files[note.filename := note.content] else c.files,
                 [Decided(id, decision, session, channel, clock.now), NoteCreateCall(id, note)])
  {
    hide CoreInv, TaskInv, ReachedFrom, RecordReceipt, LateRefusal, GrantedRun, PrepareNote, IsNoteStep, RebuiltNote;
    ReachedHolds(root, initial, c);
    TaskUnderItsId(initial, c, id);
    var t := c.tasks[id];
    WaitingIsTraced(t);
    GrantedNoteRun(c, t, clock, env);
    assert forall d, e: Entry :: c.log + [d] + [e] == c.log + [d, e];
  }

  /**
   * An accepted approval of a launch makes the one call, to the node that the intent asks for. It completes the task
   * exactly when the node reports a running process.
   */
  lemma LaunchApprovalAnswer(
    root: Path, initial: Files, c: Core, id: Uuid, decision: ApprovalDecision, session: IdentitySession,
    channel: ApprovalChannel, clock: Clock, env: Environment)
    requires ReachedFrom(root, initial, c) && decision.decision == Approve
    requires ApproveTask(c, id, decision, session, channel, clock, env).1.Success?
    requires c.tasks[id].intent.NotepadIntent?
    ensures c.tasks[id].approval.Some?
    ensures var (after, outcome) := ApproveTask(c, id, decision, session, channel, clock, env);
            && outcome.value == LaunchGranted(c.tasks[id], env.launchReply, clock)
            && Stored(
                 c, after, outcome.value, c.files,
                 [Decided(id, decision, session, channel, clock.now), LaunchCall(id, TargetAsked(c.tasks[id].intent))])
  {
    hide CoreInv, TaskInv, ReachedFrom, RecordReceipt, LateRefusal, GrantedRun, TargetAsked;
    ReachedHolds(root, initial, c);
    TaskUnderItsId(initial, c, id);
    var t := c.tasks[id];
    WaitingIsTraced(t);
    GrantedLaunchRun(c, t, clock, env);
    assert forall d, e: Entry :: c.log + [d] + [e] == c.log + [d, e];
  }

  /* Creating. */

  /** How a new task comes out: waiting for approval, or at its end. */
  function FirstState(intent: Intent, env: Environment): TaskState {
    match intent
    case NoteIntent(title, content) => if PrepareNote(title, content).Success? then AwaitingApproval else Denied
    case NotepadIntent(_) => AwaitingApproval
    case PlainIntent(kind) =>
      if IsRefusedKind(kind) then Denied
      else if kind == LocalWorkspaceStatus && !env.workspaceReadable then Failed
      else Completed
  }

  /** The result of a step that runs at once: verified, or the workspace could not be read. */
  function FirstResult(step: PlanStep, ok: bool, now: Instant): CapabilityResult {
    if ok then CapabilityResult(step.stepId, step.capability, StepVerified, [PlainEvidence(now)], None)
    else CapabilityResult(step.stepId, step.capability, StepFailed, [], Some(LocalWorkspaceEvidenceUnavailable))
  }

  function FirstResults(steps: seq<PlanStep>, ok: bool, now: Instant): seq<CapabilityResult> {
    seq(|steps|, i requires 0 <= i < |steps| => FirstResult(steps[i], ok, now))
  }

  /** The events of a new task. */
  function FirstEvents(task: Uuid, state: TaskState, clock: Clock): seq<Event> {
    var planned := [
      EventAt(task, 1, Received, RequestReceived, clock.now), EventAt(task, 2, Planned, PlanGenerated, clock.now)];
    match state
    case AwaitingApproval => planned + [EventAt(task, 3, AwaitingApproval, ApprovalRequested, clock.now)]
    case Denied => planned + [EventAt(task, 3, Denied, PolicyDeniedEvent, clock.now)]
    case _ =>
      planned + [
        EventAt(task, 3, Executing, ExecutionStarted, clock.now),
        EventAt(task, 4, Verifying, VerificationStarted, clock.executed),
        EventAt(
          task, 5, state, if state == Completed then VerificationCompleted else VerificationFailedEvent,
          clock.verified)]
  }

  lemma PlannedEventsAre(task: Uuid, clock: Clock)
    ensures PlannedEvents(task, clock.now) == [
              EventAt(task, 1, Received, RequestReceived, clock.now),
              EventAt(task, 2, Planned, PlanGenerated, clock.now)]
  {
  }

  /** The step succeeds, or reads a workspace that cannot be read. */
  predicate RunsAs(step: PlanStep, env: Environment, ok: bool) {
    || (ok && Simulates(step.capability))
    || (ok && step.capability == AssistantRespond && TextOr(step.parameters, "response", "") != "")
    || (step.capability == ReadWorkspaceStatus && env.workspaceReadable == ok)
  }

  lemma PlainStepRuns(
    step: PlanStep, task: Uuid, now: Instant, env: Environment, root: Path, files: Files, ok: bool)
    requires RunsAs(step, env, ok)
    ensures ExecuteStep(step, task, now, env, root, files) ==
            StepRun(Success(FirstResult(step, ok, now)), files, [])
  {
    hide TextOr;
  }

  lemma {:induction false} PlainStepsRun(
    steps: seq<PlanStep>, task: Uuid, now: Instant, env: Environment, root: Path, files: Files, ok: bool)
    requires forall i :: 0 <= i < |steps| ==> RunsAs(steps[i], env, ok)
    ensures ExecuteSteps(steps, task, now, env, root, files) ==
            StepsRun(FirstResults(steps, ok, now), None, files, [])
  {
    hide RunsAs, ExecuteStep;
    if steps != [] {
      PlainStepRuns(steps[0], task, now, env, root, files, ok);
      PlainStepsRun(steps[1..], task, now, env, root, files, ok);
      assert [FirstResult(steps[0], ok, now)] + FirstResults(steps[1..], ok, now) == FirstResults(steps, ok, now);
    }
  }

  /** Each plain kind that is not refused runs at once, and fails only when the workspace cannot be read. */
  lemma PlainPlanRuns(
    task: Uuid, kind: IntentKind, clock: Clock, env: Environment, root: Path, files: Files)
    requires kind != CreateNoteIntent && kind != LaunchNotepadIntent && !IsRefusedKind(kind)
    ensures var plan, state := PlanFor(task, PlainIntent(kind)), FirstState(PlainIntent(kind), env);
            ExecuteAuthorizedSteps(task, plan, PlannedEvents(task, clock.now), clock, env, root, files) ==
            PlanRun(
              state, FirstResults(plan.steps, state == Completed, clock.now), FirstEvents(task, state, clock),
              files, [])
  {
    hide ExecuteSteps, RunsAs, PlanFor, FirstState, PlannedEvents;
    var plan, state := PlanFor(task, PlainIntent(kind)), FirstState(PlainIntent(kind), env);
    var ok := state == Completed;
    PlainState(kind, env);
    PlainStepsRunAs(task, kind, env, ok);
    PlainStepsRun(plan.steps, task, clock.now, env, root, files, ok);
    PlannedEventsAre(task, clock);
    var results := FirstResults(plan.steps, ok, clock.now);
    PlanHasSteps(task, kind);
    assert results[0] == FirstResult(plan.steps[0], ok, clock.now);
    assert AllVerified(results) <==> ok;
  }

  lemma PlainState(kind: IntentKind, env: Environment)
    requires !IsRefusedKind(kind)
    ensures FirstState(PlainIntent(kind), env) in {Completed, Failed}
  {
  }

  lemma PlanHasSteps(task: Uuid, kind: IntentKind)
    requires kind != CreateNoteIntent && kind != LaunchNotepadIntent
    ensures PlanFor(task, PlainIntent(kind)).steps != []
  {
    hide PlanFor, DecisionsFor, VerdictOn;
    PlainPlan(task, kind);
  }

  lemma PlainStepsRunAs(task: Uuid, kind: IntentKind, env: Environment, ok: bool)
    requires kind != CreateNoteIntent && kind != LaunchNotepadIntent && !IsRefusedKind(kind)
    requires ok == (FirstState(PlainIntent(kind), env) == Completed)
    ensures forall i :: 0 <= i < |PlanFor(task, PlainIntent(kind)).steps| ==>
                          RunsAs(PlanFor(task, PlainIntent(kind)).steps[i], env, ok)
  {
    var steps := PlanFor(task, PlainIntent(kind)).steps;
    forall i | 0 <= i < |steps|
      ensures RunsAs(steps[i], env, ok)
    {
      assert steps[i] == StepOf(task, i + 1, PlainSpecs(kind)[i]);
    }
  }

  /** The approval that a note or a launch asks for, with what is shown to the user spelt out. */
  function ApprovalAsked(
    task: Uuid, session: Uuid, intent: Intent, hash: string, token: string, now: Instant): ApprovalRequest
    requires intent.NotepadIntent? || (intent.NoteIntent? && PrepareNote(intent.title, intent.content).Success?)
  {
    match intent
    case NoteIntent(_, _) =>
      ApprovalRequest(
        ApprovalId(task, hash), task, CreateNote, Pending, NoteAsked(intent).content, hash, Some(token), session,
        now + 300_000_000, Medium, true, Desktop)
    case NotepadIntent(_) =>
      ApprovalRequest(
        ApprovalId(task, hash), task, LaunchNotepad, Pending, LaunchPreview(TargetAsked(intent)), hash,
        Some(token), session, now + 300_000_000, High, true, Phone)
  }

  lemma AskedApproval(task: Uuid, session: Uuid, intent: Intent, token: string, now: Instant)
    requires intent.NotepadIntent? || (intent.NoteIntent? && PrepareNote(intent.title, intent.content).Success?)
    ensures |PlanFor(task, intent).steps| == 1
    ensures var step := PlanFor(task, intent).steps[0];
            ApprovalFor(task, session, step, token, now) ==
            ApprovalAsked(task, session, intent, PayloadSha256(step), token, now)
    ensures VerdictOn(DecisionsFor(task, intent)) == NeedsApproval
  {
    hide PlanFor, DecisionsFor, PrepareNote, PayloadSha256, Lookup;
    match intent
    case NoteIntent(title, content) => AskedNote(task, session, intent, token, now);
    case NotepadIntent(target) => AskedLaunch(task, session, intent, token, now);
  }

  lemma AskedNote(task: Uuid, session: Uuid, intent: Intent, token: string, now: Instant)
    requires intent.NoteIntent? && PrepareNote(intent.title, intent.content).Success?
    ensures |PlanFor(task, intent).steps| == 1
    ensures var step := PlanFor(task, intent).steps[0];
            ApprovalFor(task, session, step, token, now) ==
            ApprovalAsked(task, session, intent, PayloadSha256(step), token, now)
    ensures VerdictOn(DecisionsFor(task, intent)) == NeedsApproval
  {
    hide PlanFor, DecisionsFor, PrepareNote, PayloadSha256, Lookup, IsNoteStep;
    PlansAsAsked(task, intent);
    assert Capabilities(PlanFor(task, intent))[0] == AskedFor(CreateNoteIntent)[0];
    NotePlanIsPrepared(task, intent.title, intent.content);
    NotePlan(task, intent.title, intent.content);
  }

  lemma AskedLaunch(task: Uuid, session: Uuid, intent: Intent, token: string, now: Instant)
    requires intent.NotepadIntent?
    ensures |PlanFor(task, intent).steps| == 1
    ensures var step := PlanFor(task, intent).steps[0];
            ApprovalFor(task, session, step, token, now) ==
            ApprovalAsked(task, session, intent, PayloadSha256(step), token, now)
    ensures VerdictOn(DecisionsFor(task, intent)) == NeedsApproval
  {
    hide PlanFor, DecisionsFor, VerdictOn, PayloadSha256, Lookup, NotepadPreview, LaunchPreview;
    PreviewIsSpelt(TargetAsked(intent));
    PlansAsAsked(task, intent);
    assert Capabilities(PlanFor(task, intent))[0] == AskedFor(LaunchNotepadIntent)[0];
    NotepadPlanIsAsked(task, intent.target);
    LaunchNeedsApproval(task, intent.target);
  }

  /** The task that a request becomes. */
  function FirstTask(
    request: TaskRequest, session: IdentitySession, intent: Intent, token: string, clock: Clock, env: Environment)
    : Task
  {
    var task, state := TaskId(request.requestId), FirstState(intent, env);
    var plan := PlanFor(task, intent);
    TaskOf(
      task, request.requestId, request.sessionId, state, intent, plan, DecisionsFor(task, intent),
      if state == Completed || state == Failed then FirstResults(plan.steps, state == Completed, clock.now) else [],
      FirstEvents(task, state, clock),
      if state == AwaitingApproval && plan.steps != []
      then Some(ApprovalAsked(task, session.sessionId, intent, PayloadSha256(plan.steps[0]), token, clock.now))
      else None,
      clock.now, clock.updated)
  }

  lemma NewTaskIsFirstTask(
    request: TaskRequest, session: IdentitySession, intent: Intent, token: string, clock: Clock, env: Environment,
    root: Path, files: Files)
    requires intent.Classified()
    ensures var first := FirstTask(request, session, intent, token, clock, env);
            NewTask(request, session, intent, token, clock, env, root, files) ==
            Fresh(first, files, if first.approval.Some? then [Issued(first.approval.value)] else [])
  {
    hide PlanFor, DecisionsFor, VerdictOn, ExecuteAuthorizedSteps, PrepareNote, PayloadSha256, ApprovalFor, AddEvent;
    hide ApprovalAsked, FirstResults, IsRefusedKind;
    var task := TaskId(request.requestId);
    PlannedEventsAre(task, clock);
    ThirdEvent(task, PlannedEvents(task, clock.now), AwaitingApproval, ApprovalRequested, clock.now);
    ThirdEvent(task, PlannedEvents(task, clock.now), Denied, PolicyDeniedEvent, clock.now);
    match intent
    case NoteIntent(title, content) =>
      if PrepareNote(title, content).Success? {
        AskedApproval(task, session.sessionId, intent, token, clock.now);
      } else {
        InvalidNoteIsDenied(task, title, content);
        RefusedFirst(DecisionsFor(task, intent));
      }
    case NotepadIntent(_) => AskedApproval(task, session.sessionId, intent, token, clock.now);
    case PlainIntent(kind) =>
      PlainDecisions(task, kind);
      if !IsRefusedKind(kind) {
        PlainPlanRuns(task, kind, clock, env, root, files);
      }
  }

  lemma ThirdEvent(task: Uuid, events: seq<Event>, state: TaskState, kind: EventKind, at: Instant)
    ensures AddEvent(task, events, state, kind, at) == events + [EventAt(task, |events| + 1, state, kind, at)]
  {
  }

  lemma RefusedFirst(decisions: seq<PolicyDecision>)
    requires decisions != [] && decisions[0].outcome == Deny
    ensures VerdictOn(decisions) == Refused
  {
  }

  /**
   * A create answers a request that is known with its task, and refuses any other that does not come from its own
   * authenticated session; neither changes anything. Otherwise it stores the task that the request becomes, touches no
   * file, and records no call.
   */
  lemma CreateIsExact(
    root: Path, initial: Files, c: Core, request: TaskRequest, session: IdentitySession, intent: Intent, token: string,
    clock: Clock, env: Environment)
    requires ReachedFrom(root, initial, c) && intent.Classified()
    ensures var (after, outcome) := CreateTask(c, request, session, intent, token, clock, env);
            var id := TaskId(request.requestId);
            && (request.requestId in c.requestIndex <==> id in c.tasks)
            && (id in c.tasks ==> after == c && outcome == Success(c.tasks[id]))
            && (id !in c.tasks && !(session.authenticated && session.sessionId == request.sessionId) ==>
                  after == c && outcome == Failure(InvalidSession))
            && (id !in c.tasks && session.authenticated && session.sessionId == request.sessionId ==>
                  var first := FirstTask(request, session, intent, token, clock, env);
                  && outcome == Success(first)
                  && after.tasks == c.tasks[id := first] && after.files == c.files && after.root == c.root
                  && after.order == c.order + [id] && after.requestIndex == c.requestIndex[request.requestId := id]
                  && after.log == c.log + if first.approval.Some? then [Issued(first.approval.value)] else [])
  {
    hide ReachedFrom, TasksHold, LedgerHolds, FilesConserved, EffectsAuthorised, UndosBound, DecisionsBound;
    hide NewTask, RecordReceipt, FirstEvents, FirstState, FirstResults;
    ReachedHolds(root, initial, c);
    NewTaskIsFirstTask(request, session, intent, token, clock, env, c.root, c.files);
  }

  /* From the request to the effect. */

  /**
   * In every reachable state a task's plan asks for the capabilities of its own intent, in order. A note task plans the
   * note that is prepared from its intent, every note create of its is for that note, and while it is completed that
   * note's file holds the content prepared from the intent. Every launch of a launch task goes to the node that its
   * intent asks for.
   */
  lemma IntentIsCarriedOut(root: Path, initial: Files, c: Core, id: Uuid)
    requires ReachedFrom(root, initial, c) && id in c.tasks
    ensures var t := c.tasks[id];
            && t.taskId == id && t.plan.taskId == id && t.plan.intent == t.intent
            && Capabilities(t.plan) == AskedFor(t.intent.Kind()) && StepsNumbered(id, t.plan)
            && (t.intent.NoteIntent? && PrepareNote(t.intent.title, t.intent.content).Success? ==>
                  var note := PrepareNote(t.intent.title, t.intent.content).value;
                  && t.plan.steps != [] && PlannedNote(t) == note
                  && (forall i :: 0 <= i < |c.log| && c.log[i].NoteCreateCall? && c.log[i].task == id ==>
                                    c.log[i].note == note)
                  && (t.state == Completed ==> note.filename in c.files && c.files[note.filename] == note.content))
            && (t.intent.NotepadIntent? ==>
                  forall i :: 0 <= i < |c.log| && c.log[i].LaunchCall? && c.log[i].task == id ==>
                                c.log[i].target == TargetAsked(t.intent))
            && forall i :: 0 <= i < |c.log| && IsEffect(c.log[i]) && EntryTask(c.log[i]) == id ==>
                             if t.intent.NoteIntent? then c.log[i].NoteCreateCall?
                             else t.intent.NotepadIntent? && c.log[i].LaunchCall?
  {
    hide CoreInv, TaskInv, ReachedFrom, PrepareNote, RebuiltNote, TargetNode, TargetAsked, IsNoteStep, IsNotepadStep;
    hide Authorised;
    ReachedHolds(root, initial, c);
    TaskUnderItsId(initial, c, id);
    var t := c.tasks[id];
    PlannedFromIntent(t);
    PlansAsAsked(id, t.intent);
    forall i | 0 <= i < |c.log| && IsEffect(c.log[i]) && EntryTask(c.log[i]) == id
      ensures t.approval.Some? && t.plan.steps != [] && CarriesOut(c.log[i], id, t.plan.steps[0])
    {
      EffectIsBound(initial, c, i);
      AuthorisedFields(c.log, i, t);
      EffectWasApproved(initial, c, i);
    }
    if t.approval.Some? {
      ApprovedKinds(t);
      if t.intent.NoteIntent? {
        NoteIsAsked(t);
      } else {
        LaunchIsAsked(t);
      }
    } else if t.intent.NoteIntent? {
      UnapprovedNote(t);
    }
    if t.intent.NoteIntent? && t.state == Completed {
      NotesAreApproved(t);
      NoteFileIsThere(initial, c, id);
    }
  }

  lemma PlannedFromIntent(t: Task)
    requires TaskInv(t)
    ensures t.intent.Classified() && t.plan == PlanFor(t.taskId, t.intent)
  {
    hide PlanFor, DecisionsFor, Traced, ApprovalKept, ResultsKept;
  }

  /** A note that can be prepared is always asked approval for. */
  lemma UnapprovedNote(t: Task)
    requires TaskInv(t) && t.approval.None? && t.intent.NoteIntent?
    ensures PrepareNote(t.intent.title, t.intent.content).Failure?
  {
    hide PlanFor, DecisionsFor, Traced, ResultsKept, PrepareNote, IssuedApproval;
    if PrepareNote(t.intent.title, t.intent.content).Success? {
      AskedApproval(t.taskId, t.sessionId, t.intent, "", 0);
    }
  }

  lemma EffectWasApproved(initial: Files, c: Core, i: nat)
    requires CoreInv(initial, c) && i < |c.log| && IsEffect(c.log[i])
    ensures EntryTask(c.log[i]) in c.tasks && c.tasks[EntryTask(c.log[i])].approval.Some?
  {
    hide TaskInv, Indexed, LedgerHolds, FilesConserved, UndosBound, DecisionsBound, Authorised;
    assert EffectsAuthorised(c);
  }

  /**
   * In every reachable state an approval is, but for its status and token, the one that its task's intent asks for: the
   * preview is the content that is written, or names the node that is asked to launch.
   */
  lemma ApprovalIsAsked(root: Path, initial: Files, c: Core, id: Uuid)
    requires ReachedFrom(root, initial, c) && id in c.tasks && c.tasks[id].approval.Some?
    ensures var t := c.tasks[id];
            && (t.intent.NotepadIntent? ||
                (t.intent.NoteIntent? && PrepareNote(t.intent.title, t.intent.content).Success?))
            && |t.plan.steps| == 1
            && var a, hash := t.approval.value, PayloadSha256(t.plan.steps[0]);
               a == ApprovalAsked(id, t.sessionId, t.intent, hash, "", t.createdAt).(
                        status := a.status, token := a.token)
  {
    hide CoreInv, TaskInv, ReachedFrom, PrepareNote, PayloadSha256, PlanFor, DecisionsFor, ApprovalFor, ApprovalAsked;
    ReachedHolds(root, initial, c);
    TaskUnderItsId(initial, c, id);
    var t := c.tasks[id];
    ApprovedIsPlanned(t);
    ApprovedKinds(t);
    KeptAsIssued(t);
    AskedApproval(id, t.sessionId, t.intent, "", t.createdAt);
  }

  /** The command asked for the task, from the session that owns it. */
  ghost predicate AskedBy(t: Task, command: Command) {
    && command.Create?
    && t.requestId == command.request.requestId
    && t.sessionId == command.request.sessionId
    && command.session == IdentitySession(t.sessionId, true)
    && t.intent == command.intent
    && t.createdAt == command.clock.now
  }

  /** Every task of a run was asked for by one of the run's commands, and keeps what was asked. */
  lemma {:induction false} TasksWereAsked(root: Path, initial: Files, commands: seq<Command>, id: Uuid)
    requires AllWellFormed(commands) && id in Run(InitialCore(root, initial), commands).tasks
    ensures exists i :: && 0 <= i < |commands|
                        && AskedBy(Run(InitialCore(root, initial), commands).tasks[id], commands[i])
  {
    hide CoreInv, Perform, TaskEvolves, AskedBy;
    if commands != [] {
      var before, last := commands[..|commands| - 1], commands[|commands| - 1];
      var c := Run(InitialCore(root, initial), before);
      var c' := Perform(c, last).0;
      RunKeeps(root, initial, before);
      PerformEvolves(initial, c, last);
      if id in c.tasks {
        TasksWereAsked(root, initial, before, id);
        var i :| 0 <= i < |before| && AskedBy(c.tasks[id], before[i]);
        AskedStays(c.tasks[id], c'.tasks[id], before[i]);
        assert commands[i] == before[i];
      } else {
        assert ReachedFrom(root, initial, c);
        NewTaskWasAsked(root, initial, c, last, id);
        assert AskedBy(c'.tasks[id], commands[|commands| - 1]);
      }
    }
  }

  lemma AskedStays(t: Task, t': Task, command: Command)
    requires AskedBy(t, command) && TaskEvolves(t, t')
    ensures AskedBy(t', command)
  {
  }

  lemma NewTaskWasAsked(root: Path, initial: Files, c: Core, command: Command, id: Uuid)
    requires ReachedFrom(root, initial, c) && WellFormed(command)
    requires id !in c.tasks && id in Perform(c, command).0.tasks
    ensures AskedBy(Perform(c, command).0.tasks[id], command)
  {
    hide ReachedFrom, CoreInv, CreateTask, ApproveTask, RollbackTask, FirstState, FirstResults, FirstEvents, PlanFor;
    ReachedHolds(root, initial, c);
    OrderStep(initial, c, command);
    CreateIsExact(
      root, initial, c, command.request, command.session, command.intent, command.token, command.clock, command.env);
  }
}
