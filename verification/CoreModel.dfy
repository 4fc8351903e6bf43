/**
 * The orchestrator's operations as functions on values. What the program reads from outside — clock
 * readings, the minted token, the answers of the operating system and of the device node — is a
 * parameter. The service class is verified against these functions.
 */
module CoreModel {
  import opened StateMachine
  import opened Domain
  import opened Registry
  import opened NoteText
  import opened NoteStore
  import opened Payload
  import opened Planner

  const APPROVAL_LIFETIME: int := 5 * MINUTE

  /** The readings one call takes: at its start, after execution, at verification, and at the end. */
  datatype Clock = Clock(now: Instant, executed: Instant, verified: Instant, updated: Instant)

  /**
   * What the outside answers during one call. A device reply of None is a device command error.
   * At most one step of a plan consults any of these.
   */
  datatype Environment = Environment(
    openFails: bool,
    workspaceReadable: bool,
    launchReply: Option<LaunchEvidence>,
    rollbackReply: Option<RollbackEvidence>)

  /** The record of what happened: approvals issued, decisions accepted, and calls made outside. */
  datatype Entry =
    | Issued(approval: ApprovalRequest)
    | Decided(task: Uuid, decision: ApprovalDecision, session: IdentitySession, channel: ApprovalChannel, at: Instant)
    | NoteCreateCall(task: Uuid, note: PreparedNote)
    | LaunchCall(task: Uuid, target: string)
    | NoteRemoveCall(task: Uuid, filename: string, sha256: string)
    | DeviceRollbackCall(task: Uuid, command: Uuid, target: string)

  datatype RollbackFailure =
    | NoteFailure(note: NoteError)
    | DeviceFailure
    | MalformedCommandId
    | DeviceRollbackNotVerified

  datatype ServiceError =
    | InvalidSession
    | TaskNotFound
    | TaskIsNotAwaitingApproval
    | PhoneApprovalRequired
    | DesktopApprovalRequired
    | ApprovalHasExpired
    | ApprovalIdMismatch
    | ApprovalTokenMismatch
    | ApprovalPayloadHashMismatch
    | ApprovalAlreadyConsumed
    | TaskIsNotRollbackEligible
    | NoReceiptBoundReversibleResult
    | RollbackRefused(reason: RollbackFailure)

  datatype Core = Core(
    root: Path,
    files: Files,
    tasks: map<Uuid, Task>,
    order: seq<Uuid>,
    requestIndex: map<Uuid, Uuid>,
    ledger: map<Uuid, seq<Receipt>>,
    log: seq<Entry>)

  function InitialCore(root: Path, files: Files): Core {
    Core(root, files, map[], [], map[], map[], [])
  }

  predicate SessionMatches(session: IdentitySession, expected: Uuid) {
    session.authenticated && session.sessionId == expected
  }

  /* Receipts. */

  predicate IsReversibleCapability(c: Capability) {
    c == CreateNote || c == LaunchNotepad
  }

  function ReceiptFor<E>(task: TaskOf<E>, version: nat): ReceiptOf<E> {
    ReceiptOf(
      ReceiptId(task.taskId), version, task.taskId, task.requestId, task.state, task.intent, task.plan.planId,
      task.decisions, task.results, task.events, task.createdAt, task.updatedAt,
      task.state in {Completed, RolledBack} && task.results != [],
      && task.state == Completed
      && exists i :: && 0 <= i < |task.results|
                     && IsReversibleCapability(task.results[i].capability)
                     && task.results[i].status == StepVerified)
  }

  function History<E>(ledger: map<Uuid, seq<ReceiptOf<E>>>, task: Uuid): seq<ReceiptOf<E>> {
    if task in ledger then ledger[task] else []
  }

  /** One more than the version of the newest receipt. */
  function NextVersion<E>(history: seq<ReceiptOf<E>>): nat {
    if history == [] then 1 else history[|history| - 1].version + 1
  }

  function RecordReceipt(ledger: map<Uuid, seq<Receipt>>, task: Task): map<Uuid, seq<Receipt>> {
    var history := History(ledger, task.taskId);
    ledger[task.taskId := history + [ReceiptFor(task, NextVersion(history))]]
  }

  /** The state after a task is stored and its receipt is recorded. */
  function Store(c: Core, task: Task): Core {
    c.(tasks := c.tasks[task.taskId := task], ledger := RecordReceipt(c.ledger, task))
  }

  /* Executing steps. */

  datatype StepRun = StepRun(result: Result<CapabilityResult, NoteError>, files: Files, calls: seq<Entry>)

  function VerifiedResult(step: PlanStep, evidence: Evidence): CapabilityResult {
    CapabilityResult(step.stepId, step.capability, StepVerified, [evidence], None)
  }

  function FailedResult(step: PlanStep, error: StepError): CapabilityResult {
    CapabilityResult(step.stepId, step.capability, StepFailed, [], Some(error))
  }

  /** The note that the executor rebuilds from a step's parameters. */
  function RebuiltNote(step: PlanStep): PreparedNote {
    PreparedNote(
      TextOr(step.parameters, "title", ""),
      TextOr(step.parameters, "filename", ""),
      TextOr(step.parameters, "content", ""),
      TextOr(step.parameters, "content_sha256", ""))
  }

  function TargetNode(step: PlanStep): string {
    TextOr(step.parameters, "target_node_id", DEFAULT_NODE)
  }

  predicate Simulates(c: Capability) {
    c in {ReadCalendar, ReadEmail, ReadGithub, ReadAtsHealth, ReadAtsIntelligence, ReadNexussHealth, PreparePlayback}
  }

  function LaunchResult(step: PlanStep, now: Instant, reply: Option<LaunchEvidence>): CapabilityResult {
    match reply
    case None => FailedResult(step, TrustedDeviceCommandFailed)
    case Some(launch) =>
      CapabilityResult(
        step.stepId, step.capability,
        if launch.verifiedRunning then StepVerified else StepFailed,
        [DeviceEvidence(now, launch)],
        if launch.verifiedRunning then None else Some(DeviceProcessNotRunning))
  }

  function ExecuteStep(step: PlanStep, task: Uuid, now: Instant, env: Environment, root: Path, files: Files): StepRun {
    match step.capability
    case AssistantRespond =>
      if TextOr(step.parameters, "response", "") == "" then
        StepRun(Success(FailedResult(step, AssistantResponseMissing)), files, [])
      else StepRun(Success(VerifiedResult(step, PlainEvidence(now))), files, [])
    case CreateNote =>
      var note := RebuiltNote(step);
      var (created, after) := CreateFile(root, files, note, env.openFails);
      var calls := [NoteCreateCall(task, note)];
      (match created
       case Failure(error) => StepRun(Failure(error), after, calls)
       case Success(file) =>
         StepRun(
           Success(VerifiedResult(step, NoteEvidence(now, file.filename, file.byteCount, file.sha256))), after, calls))
    case LaunchNotepad =>
      StepRun(Success(LaunchResult(step, now, env.launchReply)), files, [LaunchCall(task, TargetNode(step))])
    case ReadWorkspaceStatus =>
      if env.workspaceReadable then StepRun(Success(VerifiedResult(step, PlainEvidence(now))), files, [])
      else StepRun(Success(FailedResult(step, LocalWorkspaceEvidenceUnavailable)), files, [])
    case _ =>
      if Simulates(step.capability) then StepRun(Success(VerifiedResult(step, PlainEvidence(now))), files, [])
      else StepRun(Success(FailedResult(step, SimulatorCapabilityNotFound)), files, [])
  }

  /** The results up to the first step that raises, and the error it raised. */
  datatype StepsRun = StepsRun(
    results: seq<CapabilityResult>,
    error: Option<NoteError>,
    files: Files,
    calls: seq<Entry>)

  function ExecuteSteps(
    steps: seq<PlanStep>, task: Uuid, now: Instant, env: Environment, root: Path, files: Files): StepsRun
  {
    if steps == [] then StepsRun([], None, files, [])
    else
      var first := ExecuteStep(steps[0], task, now, env, root, files);
      match first.result
      case Failure(error) => StepsRun([], Some(error), first.files, first.calls)
      case Success(result) =>
        var rest := ExecuteSteps(steps[1..], task, now, env, root, first.files);
        StepsRun([result] + rest.results, rest.error, rest.files, first.calls + rest.calls)
  }

  predicate AllVerified(results: seq<CapabilityResult>) {
    && results != []
    && forall i :: 0 <= i < |results| ==> results[i].status == StepVerified && results[i].evidence != []
  }

  datatype PlanRun = PlanRun(
    state: TaskState,
    results: seq<CapabilityResult>,
    events: seq<Event>,
    files: Files,
    calls: seq<Entry>)

  function ExecuteAuthorizedSteps(
    task: Uuid, plan: TaskPlan, events: seq<Event>, clock: Clock, env: Environment, root: Path, files: Files): PlanRun
  {
    var started := AddEvent(task, events, Executing, ExecutionStarted, clock.now);
    var run := ExecuteSteps(plan.steps, task, clock.now, env, root, files);
    if run.error.Some? then
      PlanRun(
        Failed, run.results, AddEvent(task, started, Failed, ExecutionFailedEvent, clock.executed),
        run.files, run.calls)
    else
      var verifying := AddEvent(task, started, Verifying, VerificationStarted, clock.executed);
      if AllVerified(run.results) then
        PlanRun(
          Completed, run.results, AddEvent(task, verifying, Completed, VerificationCompleted, clock.verified),
          run.files, run.calls)
      else
        PlanRun(
          Failed, run.results, AddEvent(task, verifying, Failed, VerificationFailedEvent, clock.verified),
          run.files, run.calls)
  }

  /* Creating a task. */

  function NotepadPreview(target: string): string {
    "Capability: device.launch_notepad\nTarget node: " + target +
    "\nExecutable: C:\\Windows\\System32\\notepad.exe\nShell: disabled\nArguments: none"
  }

  function ApprovalFor(task: Uuid, session: Uuid, step: PlanStep, token: string, now: Instant): ApprovalRequest {
    var hash := PayloadSha256(step);
    var device := step.capability == LaunchNotepad;
    ApprovalRequest(
      ApprovalId(task, hash), task, step.capability, Pending,
      if device then NotepadPreview(TargetNode(step))
      else TextOr(step.parameters, "content", "No content preview available."),
      hash, Some(token), session, now + APPROVAL_LIFETIME, step.risk, step.reversible,
      if device then Phone else Desktop)
  }

  function PlannedEvents(task: Uuid, now: Instant): seq<Event> {
    AddEvent(task, AddEvent(task, [], Received, RequestReceived, now), Planned, PlanGenerated, now)
  }

  /** What a fresh request becomes: the stored task, the directory, and the entries to record. */
  datatype Fresh = Fresh(task: Task, files: Files, entries: seq<Entry>)

  function NewTask(
    request: TaskRequest, session: IdentitySession, intent: Intent, token: string, clock: Clock, env: Environment,
    root: Path, files: Files): Fresh
  {
    var task := TaskId(request.requestId);
    var plan := PlanFor(task, intent);
    var decisions := DecisionsFor(task, intent);
    var events := PlannedEvents(task, clock.now);
    var base := TaskOf(
      task, request.requestId, request.sessionId, Planned, intent, plan, decisions, [], events, None,
      clock.now, clock.updated);
    match VerdictOn(decisions)
    case Refused =>
      Fresh(
        base.(state := Denied, events := AddEvent(task, events, Denied, PolicyDeniedEvent, clock.now)), files, [])
    case NeedsApproval =>
      if plan.steps == [] then Fresh(base, files, [])
      else
        var approval := ApprovalFor(task, session.sessionId, plan.steps[0], token, clock.now);
        Fresh(
          base.(state := AwaitingApproval,
                events := AddEvent(task, events, AwaitingApproval, ApprovalRequested, clock.now),
                approval := Some(approval)),
          files, [Issued(approval)])
    case RunsAtOnce =>
      var run := ExecuteAuthorizedSteps(task, plan, events, clock, env, root, files);
      Fresh(base.(state := run.state, events := run.events, results := run.results), run.files, run.calls)
  }

  type Outcome = Result<Task, ServiceError>

  function CreateTask(
    c: Core, request: TaskRequest, session: IdentitySession, intent: Intent, token: string, clock: Clock,
    env: Environment): (Core, Outcome)
  {
    if request.requestId in c.requestIndex then
      var existing := c.requestIndex[request.requestId];
      if existing in c.tasks then (c, Success(c.tasks[existing])) else (c, Failure(TaskNotFound))
    else if !SessionMatches(session, request.sessionId) then (c, Failure(InvalidSession))
    else
      var made := NewTask(request, session, intent, token, clock, env, c.root, c.files);
      var id := made.task.taskId;
      var c1 := Store(c, made.task);
      (c1.(files := made.files,
           order := if id in c.tasks then c.order else c.order + [id],
           requestIndex := c.requestIndex[request.requestId := id],
           log := c.log + made.entries),
       Success(made.task))
  }

  /* Deciding an approval. */

  function Presented(token: Option<string>): string {
    if token.Some? then token.value else ""
  }

  /** Why a decision on a task is refused before the expiry check, in the order the program checks. */
  function EarlyRefusalOf<E>(
    task: TaskOf<E>, decision: ApprovalDecision, session: IdentitySession, channel: ApprovalChannel)
    : Option<ServiceError>
  {
    if !SessionMatches(session, task.sessionId) then Some(InvalidSession)
    else if task.state != AwaitingApproval || task.approval.None? then Some(TaskIsNotAwaitingApproval)
    else if decision.decision == Approve && task.approval.value.channel != channel then
      Some(if task.approval.value.channel == Phone then PhoneApprovalRequired else DesktopApprovalRequired)
    else None
  }

  function EarlyRefusal(
    c: Core, id: Uuid, decision: ApprovalDecision, session: IdentitySession, channel: ApprovalChannel)
    : Option<ServiceError>
  {
    if id !in c.tasks then Some(TaskNotFound) else EarlyRefusalOf(c.tasks[id], decision, session, channel)
  }

  /** Why it is refused after the expiry check. */
  function LateRefusal(approval: ApprovalRequest, decision: ApprovalDecision): Option<ServiceError> {
    if decision.approvalId != approval.approvalId then Some(ApprovalIdMismatch)
    else if decision.token != Presented(approval.token) then Some(ApprovalTokenMismatch)
    else if decision.payloadSha256 != approval.payloadSha256 then Some(ApprovalPayloadHashMismatch)
    else if approval.status != Pending then Some(ApprovalAlreadyConsumed)
    else None
  }

  /** The task with its approval spent and one event added. */
  function Spend(
    task: Task, status: ApprovalStatus, state: TaskState, kind: EventKind, at: Instant): Task
    requires task.approval.Some?
  {
    task.(state := state,
          events := AddEvent(task.taskId, task.events, state, kind, at),
          approval := Some(task.approval.value.(status := status, token := None)),
          updatedAt := at)
  }

  function GrantedEvents(task: Task, now: Instant): seq<Event> {
    AddEvent(task.taskId, task.events, Approved, ApprovalGranted, now)
  }

  function GrantedRun(c: Core, task: Task, clock: Clock, env: Environment): PlanRun {
    ExecuteAuthorizedSteps(task.taskId, task.plan, GrantedEvents(task, clock.now), clock, env, c.root, c.files)
  }

  function ApproveTask(
    c: Core, id: Uuid, decision: ApprovalDecision, session: IdentitySession, channel: ApprovalChannel, clock: Clock,
    env: Environment): (Core, Outcome)
  {
    var refusal := EarlyRefusal(c, id, decision, session, channel);
    if refusal.Some? then (c, Failure(refusal.value))
    else
      var task := c.tasks[id];
      var approval := task.approval.value;
      if approval.expiresAt <= clock.now then
        (Store(c, Spend(task, Expired, Denied, ApprovalExpiredEvent, clock.now)), Failure(ApprovalHasExpired))
      else if LateRefusal(approval, decision).Some? then
        (c, Failure(LateRefusal(approval, decision).value))
      else
        var logged := c.(log := c.log + [Decided(id, decision, session, channel, clock.now)]);
        if decision.decision == Reject then
          var rejected := Spend(task, Rejected, Denied, ApprovalRejectedEvent, clock.now);
          (Store(logged, rejected), Success(rejected))
        else
          var run := GrantedRun(c, task, clock, env);
          var done := task.(
            state := run.state, results := run.results, events := run.events,
            approval := Some(approval.(status := Consumed, token := None)),
            updatedAt := clock.updated);
          (Store(logged.(files := run.files, log := logged.log + run.calls), done), Success(done))
  }

  /* Rolling back. */

  function ReversibleResult(results: seq<CapabilityResult>): Option<CapabilityResult> {
    if results == [] then None
    else if
      && IsReversibleCapability(results[0].capability)
      && results[0].status == StepVerified
      && results[0].evidence != []
    then Some(results[0])
    else ReversibleResult(results[1..])
  }

  datatype RollbackRun = RollbackRun(
    result: Result<CapabilityResult, RollbackFailure>,
    files: Files,
    calls: seq<Entry>)

  function RollbackNote(source: CapabilityResult, task: Uuid, now: Instant, root: Path, files: Files): RollbackRun
    requires source.evidence != []
  {
    var evidence := source.evidence[0];
    var filename := if evidence.NoteEvidence? then evidence.filename else "";
    var sha256 := if evidence.NoteEvidence? then evidence.sha256 else "";
    var (removed, after) := RemoveFile(root, files, filename, sha256);
    var calls := [NoteRemoveCall(task, filename, sha256)];
    match removed
    case Failure(error) => RollbackRun(Failure(NoteFailure(error)), after, calls)
    case Success(_) =>
      RollbackRun(
        Success(CapabilityResult(
                  source.stepId, RollbackCreateNote, StepRolledBack, [NoteRemoved(now, filename, sha256)], None)),
        after, calls)
  }

  function RollbackDeviceCommand(
    source: CapabilityResult, task: Uuid, now: Instant, reply: Option<RollbackEvidence>, files: Files): RollbackRun
    requires source.evidence != []
  {
    var evidence := source.evidence[0];
    if !evidence.DeviceEvidence? then RollbackRun(Failure(MalformedCommandId), files, [])
    else
      var calls := [DeviceRollbackCall(task, evidence.launch.commandId, evidence.launch.nodeId)];
      match reply
      case None => RollbackRun(Failure(DeviceFailure), files, calls)
      case Some(stop) =>
        if !stop.verifiedAbsent then RollbackRun(Failure(DeviceRollbackNotVerified), files, calls)
        else
          RollbackRun(
            Success(CapabilityResult(
                      source.stepId, RollbackLaunchNotepad, StepRolledBack, [DeviceStopped(now, stop)], None)),
            files, calls)
  }

  function RollbackRunFor(c: Core, task: Task, source: CapabilityResult, clock: Clock, env: Environment): RollbackRun
    requires source.evidence != []
  {
    if source.capability == CreateNote then RollbackNote(source, task.taskId, clock.now, c.root, c.files)
    else RollbackDeviceCommand(source, task.taskId, clock.now, env.rollbackReply, c.files)
  }

  /** Why an undo is refused before it starts. */
  function RollbackRefusalOf<E>(task: TaskOf<E>, session: IdentitySession): Option<ServiceError> {
    if !SessionMatches(session, task.sessionId) then Some(InvalidSession)
    else if task.state != Completed then Some(TaskIsNotRollbackEligible)
    else if ReversibleResult(task.results).None? then Some(NoReceiptBoundReversibleResult)
    else None
  }

  function RollbackRefusal(c: Core, id: Uuid, session: IdentitySession): Option<ServiceError> {
    if id !in c.tasks then Some(TaskNotFound) else RollbackRefusalOf(c.tasks[id], session)
  }

  lemma {:induction results} ReversibleResultHasEvidence(results: seq<CapabilityResult>)
    ensures ReversibleResult(results).Some? ==> ReversibleResult(results).value.evidence != []
    ensures ReversibleResult(results).Some? ==> IsReversibleCapability(ReversibleResult(results).value.capability)
  {
  }

  function RollbackTask(c: Core, id: Uuid, session: IdentitySession, clock: Clock, env: Environment): (Core, Outcome) {
    var refusal := RollbackRefusal(c, id, session);
    if refusal.Some? then (c, Failure(refusal.value))
    else
      var task := c.tasks[id];
      var source := ReversibleResult(task.results).value;
      ReversibleResultHasEvidence(task.results);
      var rolling := AddEvent(task.taskId, task.events, RollingBack, RollbackStarted, clock.now);
      var run := RollbackRunFor(c, task, source, clock, env);
      var logged := c.(files := run.files, log := c.log + run.calls);
      match run.result
      case Failure(reason) =>
        var failed := task.(
          state := Failed,
          events := AddEvent(task.taskId, rolling, Failed, RollbackFailed, clock.executed),
          updatedAt := clock.updated);
        (Store(logged, failed), Failure(RollbackRefused(reason)))
      case Success(result) =>
        var undone := task.(
          state := RolledBack,
          events := AddEvent(task.taskId, rolling, RolledBack, RollbackVerified, clock.executed),
          results := task.results + [result],
          updatedAt := clock.updated);
        (Store(logged, undone), Success(undone))
  }

  /* Listing what waits for a phone. */

  datatype ApprovalSummary = ApprovalSummary(
    taskId: Uuid,
    approvalId: Uuid,
    token: string,
    payloadSha256: string,
    preview: string,
    risk: RiskTier,
    reversible: bool,
    expiresAt: Instant)

  predicate IsPendingPhone<E>(task: TaskOf<E>, session: Uuid) {
    && task.sessionId == session
    && task.state == AwaitingApproval
    && task.approval.Some?
    && task.approval.value.channel == Phone
    && task.approval.value.status == Pending
    && task.approval.value.token.Some?
  }

  function SummaryOf<E>(task: TaskOf<E>): ApprovalSummary
    requires task.approval.Some? && task.approval.value.token.Some?
  {
    var a := task.approval.value;
    ApprovalSummary(
      task.taskId, a.approvalId, a.token.value, a.payloadSha256, a.preview, a.risk, a.reversible, a.expiresAt)
  }

  /** The waiting phone approvals of a session, in the order their tasks were created. */
  function PendingInOrder<E>(order: seq<Uuid>, tasks: map<Uuid, TaskOf<E>>, session: Uuid): seq<ApprovalSummary> {
    if order == [] then []
    else
      var before := PendingInOrder(order[..|order| - 1], tasks, session);
      var id := order[|order| - 1];
      if id in tasks && IsPendingPhone(tasks[id], session) then before + [SummaryOf(tasks[id])] else before
  }

  /** Stable insertion into a list sorted by expiry: after every summary that expires no later. */
  function InsertByExpiry(s: ApprovalSummary, sorted: seq<ApprovalSummary>): seq<ApprovalSummary> {
    if sorted == [] then [s]
    else if s.expiresAt < sorted[|sorted| - 1].expiresAt then
      InsertByExpiry(s, sorted[..|sorted| - 1]) + [sorted[|sorted| - 1]]
    else sorted + [s]
  }

  function SortByExpiry(summaries: seq<ApprovalSummary>): seq<ApprovalSummary> {
    if summaries == [] then []
    else InsertByExpiry(summaries[|summaries| - 1], SortByExpiry(summaries[..|summaries| - 1]))
  }

  function ListPendingPhoneApprovals(c: Core, session: Uuid): seq<ApprovalSummary> {
    SortByExpiry(PendingInOrder(c.order, c.tasks, session))
  }

  /* Runs. */

  datatype Command =
    | Create(
        request: TaskRequest, session: IdentitySession, intent: Intent, token: string, clock: Clock, env: Environment)
    | Decide(
        id: Uuid, decision: ApprovalDecision, session: IdentitySession, channel: ApprovalChannel, clock: Clock,
        env: Environment)
    | Rollback(id: Uuid, session: IdentitySession, clock: Clock, env: Environment)

  function Perform(c: Core, command: Command): (Core, Outcome) {
    match command
    case Create(request, session, intent, token, clock, env) =>
      CreateTask(c, request, session, intent, token, clock, env)
    case Decide(id, decision, session, channel, clock, env) =>
      ApproveTask(c, id, decision, session, channel, clock, env)
    case Rollback(id, session, clock, env) => RollbackTask(c, id, session, clock, env)
  }

  /** Every request a run handles has been classified. */
  ghost predicate WellFormed(command: Command) {
    command.Create? ==> command.intent.Classified()
  }

  function Run(c: Core, commands: seq<Command>): Core {
    if commands == [] then c
    else Perform(Run(c, commands[..|commands| - 1]), commands[|commands| - 1]).0
  }
}
