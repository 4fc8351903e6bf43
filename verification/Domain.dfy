/** The values that plans, approvals, results, receipts and task views are made of. */
module Domain {
  import opened StateMachine

  datatype Option<+T> = None | Some(value: T)

  datatype Result<+R, +E> = Success(value: R) | Failure(error: E)

  /** Instants and durations, in microseconds. */
  type Instant = int

  const SECOND: int := 1_000_000
  const MINUTE: int := 60 * SECOND

  /**
   * Identifiers. Those that the program derives with uuid5 are terms over the parts of the name
   * that is hashed, so deriving is injective and the name spaces are disjoint.
   */
  datatype Uuid =
    | External(n: nat)
    | TaskId(request: Uuid)
    | StepId(task: Uuid, order: nat, capability: Capability)
    | PlanId(task: Uuid, kind: IntentKind, invalid: bool)
    | EventId(task: Uuid, sequence: nat, event: EventKind, state: TaskState)
    | ReceiptId(task: Uuid)
    | ApprovalId(task: Uuid, payload: string)
    | CommandId(task: Uuid, target: string)
    | RollbackId(task: Uuid, command: Uuid)
    | PairingId(session: Uuid, code: string, issuedAt: Instant)
    | MobileDeviceId(session: Uuid, deviceLabel: string, token: string)

  /** SHA-256, stood for by an injective function. */
  function Sha256(text: string): string {
    "sha256:" + text
  }

  lemma Sha256IsInjective(a: string, b: string)
    requires Sha256(a) == Sha256(b)
    ensures a == b
  {
    assert a == Sha256(a)[7..];
    assert b == Sha256(b)[7..];
  }

  datatype IntentKind =
    | AssistantIdentity
    | AssistantCapabilities
    | AssistantHelp
    | DailyBriefing
    | SystemHealth
    | LocalWorkspaceStatus
    | CreateNoteIntent
    | LaunchNotepadIntent
    | PrepareWorkspace
    | PlayMedia
    | AtsRead
    | AtsWrite
    | FinancialTransfer
    | SocialPublish
    | Unknown

  /** A classified request. The classifier always gives a note a title and a content. */
  datatype Intent =
    | NoteIntent(title: string, content: string)
    | NotepadIntent(target: Option<string>)
    | PlainIntent(plain: IntentKind)
  {
    function Kind(): IntentKind {
      match this
      case NoteIntent(_, _) => CreateNoteIntent
      case NotepadIntent(_) => LaunchNotepadIntent
      case PlainIntent(kind) => kind
    }

    /** The two kinds that carry entities are only ever built with them. */
    ghost predicate Classified() {
      PlainIntent? ==> plain != CreateNoteIntent && plain != LaunchNotepadIntent
    }
  }

  /** Every capability that a plan or the registry names. */
  datatype Capability =
    | AssistantRespond
    | ReadWorkspaceStatus
    | CreateNote
    | RollbackCreateNote
    | LaunchNotepad
    | RollbackLaunchNotepad
    | ReadCalendar
    | ReadEmail
    | ReadGithub
    | ReadAtsHealth
    | ReadAtsIntelligence
    | ReadNexussHealth
    | PreparePlayback
    | DeviceWorkspacePrepare
    | AtsWriteOrder
    | FinanceTransfer
    | PublishSocial
    | Unsupported

  datatype RiskTier = Informational | Low | Medium | High | Critical

  /** A planned step's parameters: an insertion-ordered dictionary of strings and integers. */
  datatype Value = Str(s: string) | Num(n: int)

  type Parameters = seq<(string, Value)>

  /** The value under a key; in a dictionary a key occurs once. */
  function Lookup(parameters: Parameters, key: string): Option<Value> {
    if parameters == [] then None
    else if parameters[0].0 == key then Some(parameters[0].1)
    else Lookup(parameters[1..], key)
  }

  /** `str(parameters.get(key, default))` for the parameters that hold text. */
  function TextOr(parameters: Parameters, key: string, default: string): string {
    match Lookup(parameters, key)
    case Some(Str(s)) => s
    case _ => default
  }

  datatype PlanStep = PlanStep(
    stepId: Uuid,
    order: nat,
    capability: Capability,
    risk: RiskTier,
    parameters: Parameters,
    reversible: bool)

  datatype TaskPlan = TaskPlan(planId: Uuid, taskId: Uuid, intent: Intent, steps: seq<PlanStep>)

  datatype PolicyOutcome = Allow | RequireApproval | Deny

  datatype ReasonCode =
    | CapabilityProhibitedInP3
    | CapabilityNotRegistered
    | CapabilityRegistryProhibited
    | TrustedPhoneApprovalRequired
    | ExplicitUserApprovalRequired
    | InformationalNoSideEffect
    | RegisteredReadOnlyOrSimulated
    | FailClosedPolicyConfiguration
    | InvalidManagedNoteRequest

  datatype PolicyDecision = PolicyDecision(
    stepId: Uuid,
    capability: Capability,
    outcome: PolicyOutcome,
    reason: ReasonCode)

  datatype StepStatus = StepVerified | StepSkipped | StepFailed | StepRolledBack

  /** The attributes an evidence record carries, by the source that wrote it. */
  datatype Evidence =
    | PlainEvidence(observedAt: Instant)
    | NoteEvidence(observedAt: Instant, filename: string, byteCount: nat, sha256: string)
    | NoteRemoved(observedAt: Instant, filename: string, sha256: string)
    | DeviceEvidence(observedAt: Instant, launch: LaunchEvidence)
    | DeviceStopped(observedAt: Instant, stop: RollbackEvidence)

  /** The node's report on a launched process, and on a stopped one. */
  datatype LaunchEvidence = LaunchEvidence(
    commandId: Uuid,
    nodeId: string,
    processId: int,
    startedAt: Instant,
    verifiedRunning: bool)

  datatype RollbackEvidence = RollbackEvidence(
    rollbackId: Uuid,
    commandId: Uuid,
    nodeId: string,
    processId: int,
    terminated: bool,
    verifiedAbsent: bool)

  datatype StepError =
    | AssistantResponseMissing
    | TrustedDeviceCommandFailed
    | DeviceProcessNotRunning
    | LocalWorkspaceEvidenceUnavailable
    | SimulatorCapabilityNotFound

  datatype CapabilityResult = CapabilityResult(
    stepId: Uuid,
    capability: Capability,
    status: StepStatus,
    evidence: seq<Evidence>,
    error: Option<StepError>)

  datatype EventKind =
    | RequestReceived
    | PlanGenerated
    | PolicyDeniedEvent
    | ApprovalRequested
    | ApprovalExpiredEvent
    | ApprovalRejectedEvent
    | ApprovalGranted
    | ExecutionStarted
    | ExecutionFailedEvent
    | VerificationStarted
    | VerificationCompleted
    | VerificationFailedEvent
    | RollbackStarted
    | RollbackFailed
    | RollbackVerified

  datatype Event = Event(
    eventId: Uuid,
    sequence: nat,
    state: TaskState,
    kind: EventKind,
    occurredAt: Instant)

  /** The event that takes position `|events| + 1` in a task's list. */
  function NextEvent(task: Uuid, events: seq<Event>, state: TaskState, kind: EventKind, at: Instant): Event {
    Event(EventId(task, |events| + 1, kind, state), |events| + 1, state, kind, at)
  }

  function AddEvent(task: Uuid, events: seq<Event>, state: TaskState, kind: EventKind, at: Instant): seq<Event> {
    events + [NextEvent(task, events, state, kind, at)]
  }

  datatype ApprovalStatus = Pending | ApprovedStatus | Rejected | Expired | Consumed

  datatype ApprovalChannel = Desktop | Phone

  datatype DecisionKind = Approve | Reject

  datatype ApprovalRequest = ApprovalRequest(
    approvalId: Uuid,
    taskId: Uuid,
    capability: Capability,
    status: ApprovalStatus,
    preview: string,
    payloadSha256: string,
    token: Option<string>,
    sessionId: Uuid,
    expiresAt: Instant,
    risk: RiskTier,
    reversible: bool,
    channel: ApprovalChannel)

  datatype ApprovalDecision = ApprovalDecision(
    approvalId: Uuid,
    token: string,
    payloadSha256: string,
    decision: DecisionKind)

  datatype IdentitySession = IdentitySession(sessionId: Uuid, authenticated: bool)

  datatype TaskRequest = TaskRequest(requestId: Uuid, sessionId: Uuid)

  /**
   * A task and a receipt hold their events either as a value (`seq<Event>`) or, in the service, as
   * a list object that is shared and appended to in place.
   */
  datatype TaskOf<E> = TaskOf(
    taskId: Uuid,
    requestId: Uuid,
    sessionId: Uuid,
    state: TaskState,
    intent: Intent,
    plan: TaskPlan,
    decisions: seq<PolicyDecision>,
    results: seq<CapabilityResult>,
    events: E,
    approval: Option<ApprovalRequest>,
    createdAt: Instant,
    updatedAt: Instant)
  {
    /** The same task with another representation of its events. */
    function With<F>(e: F): TaskOf<F> {
      TaskOf(taskId, requestId, sessionId, state, intent, plan, decisions, results, e, approval, createdAt, updatedAt)
    }
  }

  datatype ReceiptOf<E> = ReceiptOf(
    receiptId: Uuid,
    version: nat,
    taskId: Uuid,
    requestId: Uuid,
    state: TaskState,
    intent: Intent,
    planId: Uuid,
    decisions: seq<PolicyDecision>,
    results: seq<CapabilityResult>,
    events: E,
    createdAt: Instant,
    updatedAt: Instant,
    verified: bool,
    reversible: bool)
  {
    function With<F>(e: F): ReceiptOf<F> {
      ReceiptOf(receiptId, version, taskId, requestId, state, intent, planId, decisions, results, e,
                createdAt, updatedAt, verified, reversible)
    }
  }

  type Task = TaskOf<seq<Event>>

  type Receipt = ReceiptOf<seq<Event>>
}
