/**
 * Runs of the orchestrator and the device node that end where the promises end: an answer that is lost, and a clock
 * that goes back.
 */
module DeviceExamples {
  import opened StateMachine
  import opened Domain
  import opened NoteStore
  import opened Payload
  import opened Planner
  import opened CoreModel
  import opened TaskInvariant
  import opened CoreInvariant
  import opened CoreSteps
  import opened CoreRuns
  import opened CoreEvolution
  import opened NonceCache
  import opened ProcessTable
  import opened DeviceNode
  import opened DeviceSystem
  import opened DeviceTheorems

  const OWNER: IdentitySession := IdentitySession(External(1), true)
  const TASK: Uuid := TaskId(External(0))
  const COMMAND: Uuid := CommandId(TASK, DEFAULT_NODE)
  const AT_ONCE: Clock := Clock(0, 0, 0, 0)
  const NOTHING: Environment := Environment(false, true, None, None)
  const STARTS: Machine := Machine(7, true, 0, false)

  /* Asking for Notepad, and having it approved. */

  function Ask(): Command {
    Create(TaskRequest(External(0), External(1)), OWNER, NotepadIntent(None), "t", AT_ONCE, NOTHING)
  }

  ghost function Asked(root: Path, files: Files): System {
    StartHasTable(root, files, DEFAULT_NODE);
    SystemTake(InitialSystem(root, files, DEFAULT_NODE), Submit(Ask(), Contact("a", 0, [], None)))
  }

  ghost predicate AwaitsLaunch(c: Core) {
    && TASK in c.tasks
    && var t := c.tasks[TASK];
       && IsDeviceTask(t) && TargetNode(t.plan.steps[0]) == DEFAULT_NODE
       && t.taskId == TASK && t.sessionId == External(1) && t.state == AwaitingApproval
       && t.approval.Some?
       && t.approval.value.status == Pending && t.approval.value.token == Some("t")
       && t.approval.value.channel == Phone && t.approval.value.expiresAt == APPROVAL_LIFETIME
  }

  lemma AskedAwaits(root: Path, files: Files)
    ensures var s := Asked(root, files);
            && SystemReached(root, files, DEFAULT_NODE, s)
            && s.sent == map[] && s.node == EmptyNode(DEFAULT_NODE)
            && AwaitsLaunch(s.core)
  {
    hide SystemReached, RecordReceipt, NewTask, TableInv;
    SystemStartIsReached(root, files, DEFAULT_NODE);
    StartHasTable(root, files, DEFAULT_NODE);
    NextSystemIsReached(
      root, files, DEFAULT_NODE, InitialSystem(root, files, DEFAULT_NODE), Submit(Ask(), Contact("a", 0, [], None)));
    NewLaunchTask(root, files);
  }

  lemma NewLaunchTask(root: Path, files: Files)
    ensures var t := NewTask(
                       TaskRequest(External(0), External(1)), OWNER, NotepadIntent(None), "t", AT_ONCE, NOTHING, root,
                       files).task;
            && t.taskId == TASK
            && IsDeviceTask(t) && TargetNode(t.plan.steps[0]) == DEFAULT_NODE
            && t.sessionId == External(1) && t.state == AwaitingApproval
            && t.approval.Some?
            && t.approval.value.status == Pending && t.approval.value.token == Some("t")
            && t.approval.value.channel == Phone && t.approval.value.expiresAt == APPROVAL_LIFETIME
  {
    hide PayloadSha256, NotepadPreview, AddEvent, Lookup;
    assert DecisionsFor(TASK, NotepadIntent(None))[0].outcome == RequireApproval;
    NotepadLookups(None);
  }

  function Granted(c: Core): ApprovalDecision
    requires TASK in c.tasks && c.tasks[TASK].approval.Some?
  {
    var approval := c.tasks[TASK].approval.value;
    ApprovalDecision(approval.approvalId, "t", approval.payloadSha256, Approve)
  }

  lemma GrantLaunches(c: Core)
    requires AwaitsLaunch(c)
    ensures Launches(c, TASK, Granted(c), OWNER, Phone, 0)
  {
  }

  /* What the node does with an envelope that is delivered and handled at once. */

  function AtOnce(e: Envelope, reading: Instant): seq<NodeStep> {
    [Deliver(e, true, reading), Handle(0, STARTS)]
  }

  lemma ServedAtOnce(sent: Sent, n: Node, e: Envelope, reading: Instant)
    requires TableInv(n.table) && Genuine(sent, e) && n.pending == []
    requires e.issuedAt <= reading < e.expiresAt && e.nonce !in Purge(n.seen, reading)
    ensures var n', (reply, table) := NodeRun(sent, n, AtOnce(e, reading)), HandleEnvelope(n.table, e, STARTS);
            && n'.table == table && n'.pending == []
            && n'.seen == Purge(n.seen, reading)[e.nonce := e.expiresAt]
            && n'.attempts == n.attempts + [AttemptOf(sent, e, true, reading)]
            && n'.answers == if reply.Some? then n.answers + [AnswerTo(e, reply.value, n'.table)] else n.answers
  {
    hide TableInv, HandleEnvelope, Purge;
    var steps := AtOnce(e, reading);
    var delivered := DeliverTo(sent, n, e, true, reading);
    assert delivered.pending == [e];
    NodeTakeKeepsTable(sent, n, steps[0]);
    NodeTakeKeepsTable(sent, delivered, steps[1]);
    assert steps[1..] == [steps[1]] && steps[1..][1..] == [];
    assert NodeRun(sent, n, steps) == NodeRun(sent, delivered, steps[1..]);
    assert NodeRun(sent, delivered, steps[1..]) == NodeTake(sent, delivered, steps[1]);
    assert [e][..0] + [e][1..] == [];
  }

  /** What a command that sends an envelope comes to. */
  lemma CallTaken(s: System, command: Command, contact: Contact, e: Envelope)
    requires TableInv(s.node.table) && RequestOf(s.core, command, contact) == Some(e)
    ensures var n := NodeRun(s.sent[contact.nonce := e], s.node, contact.schedule);
            SystemTake(s, Submit(command, contact)) ==
            System(Perform(s.core, WithReply(command, ReplyOf(n, contact))).0, s.sent[contact.nonce := e], n)
  {
    hide TableInv, RequestOf, Perform, WithReply;
    RequestIsBuilt(s.core, command, contact);
  }

  /* The launch: delivered and handled at once, and its answer received or lost. */

  const LAUNCH: Envelope :=
    CommandEnvelope(COMMAND, TASK, LaunchNotepad, DEFAULT_NODE, 0, DEVICE_COMMAND_LIFETIME, "b")
  const RECORD: LaunchedProcess := LaunchedProcess(TASK, COMMAND, 0, 7, 0)
  const EVIDENCE: LaunchEvidence := LaunchEvidence(COMMAND, DEFAULT_NODE, 7, 0, true)

  function LaunchContact(received: bool): Contact {
    Contact("b", 0, AtOnce(LAUNCH, SECOND), if received then Some(0) else None)
  }

  function Approval(c: Core): Command
    requires TASK in c.tasks && c.tasks[TASK].approval.Some?
  {
    Decide(TASK, Granted(c), OWNER, Phone, AT_ONCE, NOTHING)
  }

  ghost function Launched(root: Path, files: Files, received: bool): System {
    AskedAwaits(root, files);
    SystemTake(Asked(root, files), Submit(Approval(Asked(root, files).core), LaunchContact(received)))
  }

  ghost predicate HasLaunched(n: Node) {
    && n.table == Table(DEFAULT_NODE, map[COMMAND := RECORD], [true], map[COMMAND := 0])
    && n.seen == map["b" := DEVICE_COMMAND_LIFETIME]
    && n.attempts == [Attempt("b", 0, DEVICE_COMMAND_LIFETIME, true, SECOND)]
    && n.pending == []
    && n.answers == [Answer("b", LaunchReply(EVIDENCE), true)]
  }

  lemma NodeLaunches(sent: Sent)
    requires "b" in sent && sent["b"] == LAUNCH
    ensures TableInv(EmptyNode(DEFAULT_NODE).table)
    ensures HasLaunched(NodeRun(sent, EmptyNode(DEFAULT_NODE), AtOnce(LAUNCH, SECOND)))
  {
    hide NodeRun;
    var n := EmptyNode(DEFAULT_NODE);
    assert Purge(n.seen, SECOND) == map[];
    ServedAtOnce(sent, n, LAUNCH, SECOND);
    assert [] + [true] == [true];
  }

  /** A command keeps what a task was created with. */
  lemma OriginStays(initial: Files, c: Core, command: Command, id: Uuid)
    requires CoreInv(initial, c) && WellFormed(command) && id in c.tasks
    ensures id in Perform(c, command).0.tasks
    ensures var t, t' := c.tasks[id], Perform(c, command).0.tasks[id];
            t'.plan == t.plan && t'.sessionId == t.sessionId && t'.taskId == t.taskId
  {
    hide CoreInv, Perform;
    PerformEvolves(initial, c, command);
  }

  /** What the core makes of its own task after the approval. */
  ghost predicate ReportsLaunch(c: Core, received: bool) {
    && TASK in c.tasks && IsDeviceTask(c.tasks[TASK])
    && c.tasks[TASK].taskId == TASK && CommandOf(c.tasks[TASK]) == COMMAND
    && c.tasks[TASK].sessionId == External(1)
    && c.tasks[TASK].state == (if received then Completed else Failed)
    && (received ==>
          && |c.tasks[TASK].results| == 1
          && c.tasks[TASK].results[0].evidence == [DeviceEvidence(0, EVIDENCE)])
  }

  lemma CoreLaunches(initial: Files, c: Core, received: bool)
    requires CoreInv(initial, c) && AwaitsLaunch(c)
    ensures ReportsLaunch(
              Perform(c, WithReply(Approval(c), if received then Some(LaunchReply(EVIDENCE)) else None)).0, received)
  {
    hide CoreInv, TargetNode, ApproveTask, Launches;
    var answered := WithReply(Approval(c), if received then Some(LaunchReply(EVIDENCE)) else None);
    GrantLaunches(c);
    OriginStays(initial, c, answered, TASK);
    GrantedOutcome(initial, c, TASK, Granted(c), OWNER, Phone, AT_ONCE, answered.env);
    DecidedDeviceTask(initial, c, TASK, Granted(c), OWNER, Phone, AT_ONCE, answered.env);
  }

  lemma LaunchedStands(root: Path, files: Files, received: bool)
    ensures var s := Launched(root, files, received);
            && SystemReached(root, files, DEFAULT_NODE, s)
            && s.sent == map["b" := LAUNCH] && HasLaunched(s.node)
            && ReportsLaunch(s.core, received)
  {
    hide SystemReached, Asked, NodeRun, TableInv, SystemInv, Perform, ReportsLaunch, HasLaunched, RequestOf;
    hide SystemTake, WithReply, AwaitsLaunch;
    var before, contact := Asked(root, files), LaunchContact(received);
    AskedAwaits(root, files);
    SystemReachedHolds(root, files, DEFAULT_NODE, before);
    CoreHolds(files, before);
    ApprovalWaits(before.core);
    LaunchIsSent(before.core, contact);
    assert map[]["b" := LAUNCH] == map["b" := LAUNCH];
    NodeLaunches(map["b" := LAUNCH]);
    CallTaken(before, Approval(before.core), contact, LAUNCH);
    LaunchIsAnswered(NodeRun(map["b" := LAUNCH], before.node, contact.schedule), received);
    CoreLaunches(files, before.core, received);
    NextSystemIsReached(root, files, DEFAULT_NODE, before, Submit(Approval(before.core), contact)) by {
      CommandsNeedNothing(before, contact);
    }
  }

  lemma ApprovalWaits(c: Core)
    requires AwaitsLaunch(c)
    ensures TASK in c.tasks && c.tasks[TASK].approval.Some?
  {
  }

  lemma LaunchIsSent(c: Core, contact: Contact)
    requires AwaitsLaunch(c) && contact.nonce == "b" && contact.issuedAt == 0
    ensures RequestOf(c, Approval(c), contact) == Some(LAUNCH)
  {
    hide Launches;
    GrantLaunches(c);
  }

  lemma LaunchIsAnswered(n: Node, received: bool)
    requires HasLaunched(n)
    ensures ReplyOf(n, LaunchContact(received)) == if received then Some(LaunchReply(EVIDENCE)) else None
  {
  }

  lemma CommandsNeedNothing(s: System, contact: Contact)
    requires AwaitsLaunch(s.core) && contact.nonce !in s.sent
    ensures CanTake(s, Submit(Approval(s.core), contact))
  {
    hide AwaitsLaunch;
  }

  /**
   * A lost answer: the task has failed and can no longer be undone, its command is recorded at the node and the process
   * runs, although no envelope was admitted twice and the clock never went back.
   */
  lemma LostAnswerLeavesProcess(root: Path, files: Files)
    ensures exists s: System ::
              && SystemReached(root, files, DEFAULT_NODE, s)
              && ClockHolds(s.node.attempts, |s.node.attempts|)
              && TASK in s.core.tasks && IsDeviceTask(s.core.tasks[TASK])
              && s.core.tasks[TASK].state == Failed
              && COMMAND == CommandOf(s.core.tasks[TASK])
              && COMMAND in s.node.table.launched && s.node.table.launched[COMMAND].handle < |s.node.table.alive|
              && s.node.table.alive[s.node.table.launched[COMMAND].handle]
  {
    hide SystemReached, Launched, CommandOf, IsDeviceTask;
    LaunchedStands(root, files, false);
    var s := Launched(root, files, false);
    assert HasLaunched(s.node);
  }

  /* The undo: delivered late, handled at once, and its answer received or lost. */

  const STOP: Envelope :=
    RollbackEnvelope(
      RollbackId(TASK, COMMAND), TASK, COMMAND, DEFAULT_NODE, 20 * SECOND, 20 * SECOND + DEVICE_COMMAND_LIFETIME, "c")
  const STOPPED: RollbackEvidence := RollbackEvidence(RollbackId(TASK, COMMAND), COMMAND, DEFAULT_NODE, 7, true, true)

  function StopContact(received: bool): Contact {
    Contact("c", 20 * SECOND, AtOnce(STOP, 40 * SECOND), if received then Some(1) else None)
  }

  function Undo(): Command {
    Rollback(TASK, OWNER, AT_ONCE, NOTHING)
  }

  ghost function Stopped(root: Path, files: Files, received: bool): System {
    LaunchedStands(root, files, true);
    SystemTake(Launched(root, files, true), Submit(Undo(), StopContact(received)))
  }

  ghost predicate HasStopped(n: Node) {
    && n.table == Table(DEFAULT_NODE, map[], [false], map[COMMAND := 0])
    && n.seen == map["c" := 20 * SECOND + DEVICE_COMMAND_LIFETIME]
    && n.attempts == [Attempt("b", 0, DEVICE_COMMAND_LIFETIME, true, SECOND),
                      Attempt("c", 20 * SECOND, 20 * SECOND + DEVICE_COMMAND_LIFETIME, true, 40 * SECOND)]
    && n.pending == []
    && n.answers == [Answer("b", LaunchReply(EVIDENCE), true), Answer("c", StopReply(STOPPED), false)]
  }

  lemma NodeStops(sent: Sent, n: Node)
    requires "c" in sent && sent["c"] == STOP && HasLaunched(n) && TableInv(n.table)
    ensures HasStopped(NodeRun(sent, n, AtOnce(STOP, 40 * SECOND)))
  {
    hide NodeRun, TableInv;
    assert Purge(n.seen, 40 * SECOND) == map[];
    ServedAtOnce(sent, n, STOP, 40 * SECOND);
    assert [true][0 := false] == [false];
    assert map[COMMAND := RECORD] - {COMMAND} == map[];
  }

  ghost predicate ReportsStop(c: Core, received: bool) {
    && TASK in c.tasks && IsDeviceTask(c.tasks[TASK])
    && CommandOf(c.tasks[TASK]) == COMMAND
    && c.tasks[TASK].state == if received then RolledBack else Failed
  }

  lemma LaunchCanBeUndone(initial: Files, c: Core)
    requires CoreInv(initial, c) && ReportsLaunch(c, true)
    ensures Stops(c, TASK, OWNER)
  {
    hide CoreInv, TaskInv, TargetNode;
    TaskUnderItsId(initial, c, TASK);
    var t := c.tasks[TASK];
    CompletedLaunch(t);
    OnlyApprovedTasksAreReversible(t);
  }

  /** A completed device task was approved. */
  lemma CompletedLaunch(t: Task)
    requires TaskInv(t) && IsDeviceTask(t) && t.state == Completed
    ensures t.approval.Some?
  {
    hide TaskInv, TargetNode;
    if t.approval.None? {
      CompletedWithoutApproval(t);
      NewDeviceTaskWaits(t);
      assert false;
    }
  }

  lemma CompletedWithoutApproval(t: Task)
    requires t.state == Completed && t.approval.None?
    ensures t.state in {Denied, AwaitingApproval, Completed, Failed}
    ensures t.approval.Some? <==> t.state == AwaitingApproval
  {
  }

  lemma CoreStops(initial: Files, c: Core, received: bool)
    requires CoreInv(initial, c) && ReportsLaunch(c, true)
    ensures ReportsStop(Perform(c, WithReply(Undo(), if received then Some(StopReply(STOPPED)) else None)).0, received)
  {
    hide CoreInv, TargetNode, RollbackTask, Stops;
    var answered := WithReply(Undo(), if received then Some(StopReply(STOPPED)) else None);
    LaunchCanBeUndone(initial, c);
    OriginStays(initial, c, answered, TASK);
    UndoneOutcome(initial, c, TASK, OWNER, AT_ONCE, answered.env);
  }

  lemma StoppedStands(root: Path, files: Files, received: bool)
    ensures var s := Stopped(root, files, received);
            && SystemReached(root, files, DEFAULT_NODE, s)
            && s.sent == map["b" := LAUNCH, "c" := STOP] && HasStopped(s.node)
            && ReportsStop(s.core, received)
  {
    hide SystemReached, Launched, NodeRun, TableInv, SystemInv, Perform, ReportsStop, HasStopped, RequestOf;
    hide SystemTake, WithReply, ReportsLaunch, HasLaunched;
    var before, contact := Launched(root, files, true), StopContact(received);
    LaunchedStands(root, files, true);
    SystemReachedHolds(root, files, DEFAULT_NODE, before);
    CoreHolds(files, before);
    StopIsSent(files, before.core, contact);
    assert map["b" := LAUNCH]["c" := STOP] == map["b" := LAUNCH, "c" := STOP];
    NodeStops(map["b" := LAUNCH, "c" := STOP], before.node);
    CallTaken(before, Undo(), contact, STOP);
    StopIsAnswered(NodeRun(map["b" := LAUNCH, "c" := STOP], before.node, contact.schedule), received);
    CoreStops(files, before.core, received);
    assert "b" != "c";
    NextSystemIsReached(root, files, DEFAULT_NODE, before, Submit(Undo(), contact));
  }

  lemma StopIsSent(initial: Files, c: Core, contact: Contact)
    requires CoreInv(initial, c) && ReportsLaunch(c, true) && contact.nonce == "c" && contact.issuedAt == 20 * SECOND
    ensures RequestOf(c, Undo(), contact) == Some(STOP)
  {
    hide CoreInv, Stops;
    LaunchCanBeUndone(initial, c);
  }

  lemma StopIsAnswered(n: Node, received: bool)
    requires HasStopped(n)
    ensures ReplyOf(n, StopContact(received)) == if received then Some(StopReply(STOPPED)) else None
  {
  }

  /** A lost answer to an undo: the task has failed, not rolled back, and its process is gone all the same. */
  lemma LostAnswerHidesUndo(root: Path, files: Files)
    ensures exists s: System ::
              && SystemReached(root, files, DEFAULT_NODE, s)
              && ClockHolds(s.node.attempts, |s.node.attempts|)
              && TASK in s.core.tasks && IsDeviceTask(s.core.tasks[TASK])
              && s.core.tasks[TASK].state == Failed
              && IsGone(s.node.table, CommandOf(s.core.tasks[TASK]))
  {
    hide SystemReached, Stopped, CommandOf, IsDeviceTask;
    StoppedStands(root, files, false);
    var s := Stopped(root, files, false);
    assert HasStopped(s.node);
  }

  /* The replay: a reading from before the one that purged the launch's nonce. */

  lemma NodeRelaunches(sent: Sent, n: Node)
    requires "b" in sent && sent["b"] == LAUNCH && HasStopped(n) && TableInv(n.table)
    ensures var t := NodeRun(sent, n, AtOnce(LAUNCH, 10 * SECOND)).table;
            COMMAND in t.launched && t.launched[COMMAND].handle == 1 && t.alive == [false, true]
  {
    hide NodeRun, TableInv;
    assert "b" != "c";
    assert Purge(n.seen, 10 * SECOND) == n.seen;
    ServedAtOnce(sent, n, LAUNCH, 10 * SECOND);
    assert [false] + [true] == [false, true];
  }

  /**
   * With a node clock that goes back, the agreement of tasks and node fails: the undo's reading purges the launch's
   * nonce, an earlier reading admits the same launch again, and the process of a ROLLED_BACK task runs once more.
   */
  lemma BackwardClockRelaunches(root: Path, files: Files)
    ensures exists s: System ::
              && SystemReached(root, files, DEFAULT_NODE, s)
              && TASK in s.core.tasks && IsDeviceTask(s.core.tasks[TASK])
              && s.core.tasks[TASK].state == RolledBack
              && COMMAND == CommandOf(s.core.tasks[TASK])
              && COMMAND in s.node.table.launched && s.node.table.launched[COMMAND].handle < |s.node.table.alive|
              && s.node.table.alive[s.node.table.launched[COMMAND].handle]
              && !MatchesNode(s.core.tasks[TASK], s.node.table)
  {
    hide SystemReached, Stopped, CommandOf, IsDeviceTask, NodeRun, TableInv, SystemInv, HasStopped;
    StoppedStands(root, files, true);
    var before := Stopped(root, files, true);
    SystemReachedHolds(root, files, DEFAULT_NODE, before);
    NodeRelaunches(before.sent, before.node);
    NextSystemIsReached(root, files, DEFAULT_NODE, before, Background(AtOnce(LAUNCH, 10 * SECOND)));
    var s := SystemTake(before, Background(AtOnce(LAUNCH, 10 * SECOND)));
    assert COMMAND in s.node.table.launched;
  }
}
