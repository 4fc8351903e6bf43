/** What is true of every stored task, and that each operation on a task keeps it. */
module TaskInvariant {
  import opened StateMachine
  import opened Domain
  import opened Registry
  import opened NoteText
  import opened NoteStore
  import opened Payload
  import opened Planner
  import opened CoreModel

  /* Events. */

  function States(events: seq<Event>): seq<TaskState> {
    seq(|events|, i requires 0 <= i < |events| => events[i].state)
  }

  function Kinds(events: seq<Event>): seq<EventKind> {
    seq(|events|, i requires 0 <= i < |events| => events[i].kind)
  }

  /** Events are numbered 1, 2, ... and carry the ids derived from their numbers. */
  ghost predicate Numbered(task: Uuid, events: seq<Event>) {
    forall i :: 0 <= i < |events| ==>
      && events[i].sequence == i + 1
      && events[i].eventId == EventId(task, i + 1, events[i].kind, events[i].state)
  }

  lemma AddEventExtends(task: Uuid, events: seq<Event>, state: TaskState, kind: EventKind, at: Instant)
    ensures States(AddEvent(task, events, state, kind, at)) == States(events) + [state]
    ensures Kinds(AddEvent(task, events, state, kind, at)) == Kinds(events) + [kind]
    ensures Numbered(task, events) ==> Numbered(task, AddEvent(task, events, state, kind, at))
    ensures events <= AddEvent(task, events, state, kind, at)
  {
  }

  /** The route a stored task has taken, read off its fields. */
  function RouteOf(t: Task): Route {
    match t.state
    case AwaitingApproval => Waiting
    case Completed => if t.approval.None? then AutoCompleted else Fulfilled
    case RolledBack => Undone
    case Failed =>
      if t.approval.None? then AutoFailed
      else if |t.events| == 6 then ExecutionFailed
      else if |t.events| == 7 then VerificationFailed
      else UndoFailed
    case _ => if t.approval.None? then PolicyDenied else ApprovalDenied
  }

  /** The kinds of the events along a route; an approval that is denied was rejected or has expired. */
  function KindsOf(route: Route, expired: bool): seq<EventKind> {
    var planned := [RequestReceived, PlanGenerated];
    var granted := planned + [ApprovalRequested, ApprovalGranted, ExecutionStarted];
    match route
    case PolicyDenied => planned + [PolicyDeniedEvent]
    case Waiting => planned + [ApprovalRequested]
    case AutoCompleted => planned + [ExecutionStarted, VerificationStarted, VerificationCompleted]
    case AutoFailed => planned + [ExecutionStarted, VerificationStarted, VerificationFailedEvent]
    case ApprovalDenied =>
      planned + [ApprovalRequested, if expired then ApprovalExpiredEvent else ApprovalRejectedEvent]
    case ExecutionFailed => granted + [ExecutionFailedEvent]
    case Fulfilled => granted + [VerificationStarted, VerificationCompleted]
    case VerificationFailed => granted + [VerificationStarted, VerificationFailedEvent]
    case Undone => granted + [VerificationStarted, VerificationCompleted, RollbackStarted, RollbackVerified]
    case UndoFailed => granted + [VerificationStarted, VerificationCompleted, RollbackStarted, RollbackFailed]
  }

  predicate HasExpired(t: Task) {
    t.approval.Some? && t.approval.value.status == Expired
  }

  /**
   * The events are numbered, their states spell the word of the route, which ends in the stored state, and they are of
   * the route's kinds.
   */
  ghost predicate Traced(t: Task) {
    && Numbered(t.taskId, t.events)
    && States(t.events) == Word(RouteOf(t))
    && Kinds(t.events) == KindsOf(RouteOf(t), HasExpired(t))
    && Word(RouteOf(t))[|Word(RouteOf(t))| - 1] == t.state
  }

  /* Plan and approval. */

  /** The plan and the decisions are those computed from the intent when the task was created. */
  ghost predicate PlanKept(t: Task) {
    && t.taskId == TaskId(t.requestId)
    && t.intent.Classified()
    && t.plan == PlanFor(t.taskId, t.intent)
    && t.decisions == DecisionsFor(t.taskId, t.intent)
  }

  function VerdictOf(t: Task): Verdict {
    VerdictOn(t.decisions)
  }

  /** The approval as it was issued with the task, for a given token. */
  function IssuedApproval(t: Task, token: string): ApprovalRequest
    requires t.plan.steps != []
  {
    ApprovalFor(t.taskId, t.sessionId, t.plan.steps[0], token, t.createdAt)
  }

  /** How an approval is spent without being granted, and the event that says so. */
  predicate SpentAs(status: ApprovalStatus, kind: EventKind) {
    (status == Expired && kind == ApprovalExpiredEvent) || (status == Rejected && kind == ApprovalRejectedEvent)
  }

  /** The statuses an approval can have in each task state. */
  predicate StatusFits(state: TaskState, status: ApprovalStatus) {
    match state
    case AwaitingApproval => status == Pending
    case Denied => status == Expired || status == Rejected
    case Completed | Failed | RolledBack => status == Consumed
    case _ => false
  }

  /**
   * A task has an approval exactly when its plan needs one, and is denied without one exactly when the
   * policy refused its plan. The approval differs from the one issued
   * in its status and token only; it has a token exactly while it is pending.
   */
  ghost predicate ApprovalKept(t: Task) {
    && (VerdictOf(t) == NeedsApproval <==> t.approval.Some?)
    && (VerdictOf(t) == Refused <==> t.state == Denied && t.approval.None?)
    && (VerdictOf(t) == RunsAtOnce ==> t.state == Completed || t.state == Failed)
    && (t.approval.Some? ==>
          && t.plan.steps != []
          && var a := t.approval.value;
             && a == IssuedApproval(t, "").(status := a.status, token := a.token)
             && StatusFits(t.state, a.status)
             && (a.status == Pending <==> a.token.Some?))
  }

  /* Results. */

  predicate ResultFor(r: CapabilityResult, step: PlanStep) {
    r.stepId == step.stepId && r.capability == step.capability
  }

  /** The results so far stand for the first steps of the plan, in order. */
  ghost predicate ResultsMatch(results: seq<CapabilityResult>, steps: seq<PlanStep>) {
    && |results| <= |steps|
    && forall i :: 0 <= i < |results| ==> ResultFor(results[i], steps[i])
  }

  /** The evidence of an effect names exactly what the step asked for. */
  ghost predicate EvidenceBinds(r: CapabilityResult, step: PlanStep) {
    && (step.capability == CreateNote ==>
          && |r.evidence| == 1
          && r.evidence[0].NoteEvidence?
          && var note := RebuiltNote(step);
             && r.evidence[0].filename == note.filename
             && r.evidence[0].byteCount == |note.content|
             && r.evidence[0].sha256 == Sha256(note.content))
    && (step.capability == LaunchNotepad ==>
          |r.evidence| == 1 && r.evidence[0].DeviceEvidence? && r.evidence[0].launch.verifiedRunning)
  }

  ghost predicate FullyVerified(results: seq<CapabilityResult>, steps: seq<PlanStep>) {
    && |results| == |steps|
    && ResultsMatch(results, steps)
    && AllVerified(results)
    && forall i :: 0 <= i < |steps| ==> EvidenceBinds(results[i], steps[i])
  }

  function UndoOf(c: Capability): Capability {
    if c == CreateNote then RollbackCreateNote else RollbackLaunchNotepad
  }

  ghost predicate ResultsKept(t: Task) {
    match t.state
    case Completed => FullyVerified(t.results, t.plan.steps)
    case RolledBack =>
      && |t.plan.steps| == 1
      && |t.results| == 2
      && FullyVerified(t.results[..1], t.plan.steps)
      && t.results[1].status == StepRolledBack
      && t.results[1].stepId == t.plan.steps[0].stepId
      && t.results[1].capability == UndoOf(t.plan.steps[0].capability)
      && t.results[1].evidence != []
    case Failed => ResultsMatch(t.results, t.plan.steps)
    case _ => t.results == []
  }

  ghost predicate TaskInv(t: Task) {
    Traced(t) && PlanKept(t) && ApprovalKept(t) && ResultsKept(t)
  }

  /* Executing a plan. */

  lemma ExecuteStepFits(step: PlanStep, task: Uuid, now: Instant, env: Environment, root: Path, files: Files)
    ensures var run := ExecuteStep(step, task, now, env, root, files);
            && (run.result.Success? ==>
                  && ResultFor(run.result.value, step)
                  && (run.result.value.status == StepVerified ==> EvidenceBinds(run.result.value, step)))
            && (!HasOutsideEffect(step.capability) ==> run.result.Success? && run.files == files && run.calls == [])
  {
  }

  lemma {:induction false} ExecuteStepsFit(
    steps: seq<PlanStep>, task: Uuid, now: Instant, env: Environment, root: Path, files: Files)
    ensures var run := ExecuteSteps(steps, task, now, env, root, files);
            && ResultsMatch(run.results, steps)
            && (run.error.None? ==> |run.results| == |steps|)
            && (forall i :: 0 <= i < |run.results| && run.results[i].status == StepVerified ==>
                              EvidenceBinds(run.results[i], steps[i]))
            && ((forall i :: 0 <= i < |steps| ==> !HasOutsideEffect(steps[i].capability)) ==>
                  run.error.None? && run.files == files && run.calls == [])
  {
    if steps != [] {
      ExecuteStepFits(steps[0], task, now, env, root, files);
      var first := ExecuteStep(steps[0], task, now, env, root, files);
      ExecuteStepsFit(steps[1..], task, now, env, root, first.files);
    }
  }

  /** Executing adds to the events one of three endings, and fits the results to the steps. */
  lemma ExecutionFits(
    task: Uuid, plan: TaskPlan, events: seq<Event>, clock: Clock, env: Environment, root: Path, files: Files)
    requires Numbered(task, events)
    ensures var run := ExecuteAuthorizedSteps(task, plan, events, clock, env, root, files);
            && Numbered(task, run.events)
            && events <= run.events
            && ResultsMatch(run.results, plan.steps)
            && run.state == run.events[|run.events| - 1].state
            && (run.state == Completed ==>
                  && FullyVerified(run.results, plan.steps)
                  && States(run.events) == States(events) + [Executing, Verifying, Completed]
                  && Kinds(run.events) ==
                     Kinds(events) + [ExecutionStarted, VerificationStarted, VerificationCompleted])
            && (run.state != Completed ==>
                  && run.state == Failed
                  && (|| (&& States(run.events) == States(events) + [Executing, Verifying, Failed]
                          && Kinds(run.events) ==
                             Kinds(events) + [ExecutionStarted, VerificationStarted, VerificationFailedEvent])
                      || (&& States(run.events) == States(events) + [Executing, Failed]
                          && Kinds(run.events) == Kinds(events) + [ExecutionStarted, ExecutionFailedEvent])))
            && ((forall i :: 0 <= i < |plan.steps| ==> !HasOutsideEffect(plan.steps[i].capability)) ==>
                  && run.files == files
                  && run.calls == []
                  && |run.events| == |events| + 3)
  {
    hide ExecuteSteps, EvidenceBinds;
    ExecuteStepsFit(plan.steps, task, clock.now, env, root, files);
    var started := AddEvent(task, events, Executing, ExecutionStarted, clock.now);
    AddEventExtends(task, events, Executing, ExecutionStarted, clock.now);
    var run := ExecuteSteps(plan.steps, task, clock.now, env, root, files);
    if run.error.Some? {
      AddEventExtends(task, started, Failed, ExecutionFailedEvent, clock.executed);
    } else {
      var verifying := AddEvent(task, started, Verifying, VerificationStarted, clock.executed);
      AddEventExtends(task, started, Verifying, VerificationStarted, clock.executed);
      AddEventExtends(task, verifying, Completed, VerificationCompleted, clock.verified);
      AddEventExtends(task, verifying, Failed, VerificationFailedEvent, clock.verified);
    }
  }

  /* The operations. */

  lemma PlannedEventsFit(task: Uuid, now: Instant)
    ensures Numbered(task, PlannedEvents(task, now))
    ensures States(PlannedEvents(task, now)) == [Received, Planned]
    ensures Kinds(PlannedEvents(task, now)) == [RequestReceived, PlanGenerated]
  {
    AddEventExtends(task, [], Received, RequestReceived, now);
    AddEventExtends(task, AddEvent(task, [], Received, RequestReceived, now), Planned, PlanGenerated, now);
  }

  /** A new task satisfies the invariant, and only issuing an approval is recorded. */
  ghost predicate MadeWell(made: Fresh, request: TaskRequest, files: Files) {
    && TaskInv(made.task)
    && made.task.taskId == TaskId(request.requestId)
    && made.task.requestId == request.requestId
    && made.task.sessionId == request.sessionId
    && made.task.state in {Denied, AwaitingApproval, Completed, Failed}
    && made.files == files
    && if made.task.approval.Some?
       then made.entries == [Issued(made.task.approval.value)] && made.task.state == AwaitingApproval
       else made.entries == [] && made.task.state != AwaitingApproval
  }

  lemma RefusedTaskFits(
    request: TaskRequest, session: IdentitySession, intent: Intent, token: string, clock: Clock, env: Environment,
    root: Path, files: Files)
    requires intent.Classified()
    requires session.sessionId == request.sessionId
    requires VerdictOn(DecisionsFor(TaskId(request.requestId), intent)) == Refused
    ensures MadeWell(NewTask(request, session, intent, token, clock, env, root, files), request, files)
  {
    hide PlanFor, DecisionsFor, VerdictOn, ExecuteAuthorizedSteps, IsNoteStep, IsNotepadStep;
    hide PayloadSha256, TextOr, NotepadPreview, TargetNode, AddEvent, Numbered, HasOutsideEffect, PlannedEvents;
    var task := TaskId(request.requestId);
    PlannedEventsFit(task, clock.now);
    AddEventExtends(task, PlannedEvents(task, clock.now), Denied, PolicyDeniedEvent, clock.now);
    var t := NewTask(request, session, intent, token, clock, env, root, files).task;
    assert States(t.events) == Word(PolicyDenied) && Kinds(t.events) == KindsOf(PolicyDenied, false);
  }

  lemma WaitingTaskFits(
    request: TaskRequest, session: IdentitySession, intent: Intent, token: string, clock: Clock, env: Environment,
    root: Path, files: Files)
    requires intent.Classified()
    requires session.sessionId == request.sessionId
    requires VerdictOn(DecisionsFor(TaskId(request.requestId), intent)) == NeedsApproval
    ensures MadeWell(NewTask(request, session, intent, token, clock, env, root, files), request, files)
  {
    hide PlanFor, DecisionsFor, VerdictOn, ExecuteAuthorizedSteps, IsNoteStep, IsNotepadStep;
    hide PayloadSha256, TextOr, NotepadPreview, TargetNode, AddEvent, Numbered, HasOutsideEffect, PlannedEvents;
    var task := TaskId(request.requestId);
    PlansByVerdict(task, intent);
    PlannedEventsFit(task, clock.now);
    AddEventExtends(task, PlannedEvents(task, clock.now), AwaitingApproval, ApprovalRequested, clock.now);
    var t := NewTask(request, session, intent, token, clock, env, root, files).task;
    assert States(t.events) == Word(Waiting) && Kinds(t.events) == KindsOf(Waiting, false);
  }

  lemma AutomaticTaskFits(
    request: TaskRequest, session: IdentitySession, intent: Intent, token: string, clock: Clock, env: Environment,
    root: Path, files: Files)
    requires intent.Classified()
    requires session.sessionId == request.sessionId
    requires VerdictOn(DecisionsFor(TaskId(request.requestId), intent)) == RunsAtOnce
    ensures MadeWell(NewTask(request, session, intent, token, clock, env, root, files), request, files)
  {
    hide PlanFor, DecisionsFor, VerdictOn, ExecuteAuthorizedSteps, IsNoteStep, IsNotepadStep;
    hide PayloadSha256, TextOr, NotepadPreview, TargetNode, AddEvent, Numbered, HasOutsideEffect, PlannedEvents;
    var task := TaskId(request.requestId);
    PlansByVerdict(task, intent);
    PlannedEventsFit(task, clock.now);
    ExecutionFits(task, PlanFor(task, intent), PlannedEvents(task, clock.now), clock, env, root, files);
    var t := NewTask(request, session, intent, token, clock, env, root, files).task;
    assert |States(t.events)| == |t.events|;
    var route := if t.state == Completed then AutoCompleted else AutoFailed;
    assert States(t.events) == Word(route) && Kinds(t.events) == KindsOf(route, false);
  }

  lemma NewTaskFits(
    request: TaskRequest, session: IdentitySession, intent: Intent, token: string, clock: Clock, env: Environment,
    root: Path, files: Files)
    requires intent.Classified()
    requires session.sessionId == request.sessionId
    ensures MadeWell(NewTask(request, session, intent, token, clock, env, root, files), request, files)
  {
    hide NewTask, MadeWell, VerdictOn, DecisionsFor;
    match VerdictOn(DecisionsFor(TaskId(request.requestId), intent))
    case Refused => RefusedTaskFits(request, session, intent, token, clock, env, root, files);
    case NeedsApproval => WaitingTaskFits(request, session, intent, token, clock, env, root, files);
    case RunsAtOnce => AutomaticTaskFits(request, session, intent, token, clock, env, root, files);
  }

  lemma SpendFits(t: Task, status: ApprovalStatus, kind: EventKind, at: Instant)
    requires TaskInv(t) && t.state == AwaitingApproval
    requires SpentAs(status, kind)
    ensures t.approval.Some?
    ensures TaskInv(Spend(t, status, Denied, kind, at))
    ensures t.events <= Spend(t, status, Denied, kind, at).events
  {
    hide PlanFor, DecisionsFor, VerdictOn, ApprovalFor, AddEvent, Numbered;
    AddEventExtends(t.taskId, t.events, Denied, kind, at);
    var s := Spend(t, status, Denied, kind, at);
    assert States(s.events) == Word(ApprovalDenied);
    assert Kinds(s.events) == KindsOf(ApprovalDenied, status == Expired);
  }

  /** The task after its approval was granted and its plan was run. */
  function GrantedTask(task: Task, run: PlanRun, updated: Instant): Task
    requires task.approval.Some?
  {
    task.(state := run.state, results := run.results, events := run.events,
          approval := Some(task.approval.value.(status := Consumed, token := None)),
          updatedAt := updated)
  }

  lemma GrantFits(c: Core, t: Task, clock: Clock, env: Environment)
    requires TaskInv(t) && t.state == AwaitingApproval
    ensures t.approval.Some?
    ensures TaskInv(GrantedTask(t, GrantedRun(c, t, clock, env), clock.updated))
    ensures GrantedRun(c, t, clock, env).state in {Completed, Failed}
    ensures t.events <= GrantedRun(c, t, clock, env).events
    ensures |t.events| == 3 && 6 <= |GrantedRun(c, t, clock, env).events| <= 7
  {
    hide PlanFor, DecisionsFor, VerdictOn, ApprovalFor, AddEvent, Numbered, ExecuteAuthorizedSteps;
    AddEventExtends(t.taskId, t.events, Approved, ApprovalGranted, clock.now);
    var granted := GrantedEvents(t, clock.now);
    ExecutionFits(t.taskId, t.plan, granted, clock, env, c.root, c.files);
    var run := GrantedRun(c, t, clock, env);
    var done := GrantedTask(t, run, clock.updated);
    assert |States(t.events)| == |t.events|;
    assert States(granted) == [Received, Planned, AwaitingApproval, Approved];
    assert Kinds(granted) == [RequestReceived, PlanGenerated, ApprovalRequested, ApprovalGranted];
    assert |States(done.events)| == |done.events|;
    if run.state == Completed {
      assert States(done.events) == Word(Fulfilled) && Kinds(done.events) == KindsOf(Fulfilled, false);
    } else if |done.events| == 6 {
      assert States(done.events) == Word(ExecutionFailed) && Kinds(done.events) == KindsOf(ExecutionFailed, false);
    } else {
      assert States(done.events) == Word(VerificationFailed);
      assert Kinds(done.events) == KindsOf(VerificationFailed, false);
    }
  }

  /** A completed task whose plan ran at once has nothing to undo. */
  lemma OnlyApprovedTasksAreReversible(t: Task)
    requires TaskInv(t) && t.state == Completed
    ensures ReversibleResult(t.results).Some? <==> t.approval.Some?
    ensures t.approval.Some? ==>
              && |t.plan.steps| == 1
              && t.results != []
              && ReversibleResult(t.results) == Some(t.results[0])
              && (IsNoteStep(t.plan.steps[0]) || IsNotepadStep(t.plan.steps[0]))
  {
    PlansByVerdict(t.taskId, t.intent);
    if t.approval.Some? {
      assert ResultFor(t.results[0], t.plan.steps[0]);
    } else {
      assert VerdictOf(t) == RunsAtOnce;
      forall i | 0 <= i < |t.results|
        ensures !IsReversibleCapability(t.results[i].capability)
      {
        assert ResultFor(t.results[i], t.plan.steps[i]);
      }
      NothingReversible(t.results);
    }
  }

  lemma {:induction results} NothingReversible(results: seq<CapabilityResult>)
    requires forall i :: 0 <= i < |results| ==> !IsReversibleCapability(results[i].capability)
    ensures ReversibleResult(results).None?
  {
  }
}
