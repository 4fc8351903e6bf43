/**
 * The orchestrator and the device node together. The core's two device calls go through the channel: an envelope is
 * sent, the node and the network take any steps, and an answer arrives if the node gave one and it was not lost.
 */
module DeviceSystem {
  import opened StateMachine
  import opened Domain
  import opened Registry
  import opened NoteStore
  import opened Payload
  import opened Planner
  import opened CoreModel
  import opened TaskInvariant
  import opened CoreInvariant
  import opened CoreSteps
  import opened CoreRuns
  import opened CoreTheorems
  import opened CoreEvolution
  import opened NonceCache
  import opened ProcessTable
  import opened DeviceNode

  const DEVICE_COMMAND_LIFETIME: int := 30 * SECOND

  datatype System = System(core: Core, sent: Sent, node: Node)

  /**
   * One call over the channel: the nonce and clock reading of the envelope, what happens until the call returns, and
   * which of the node's answers, if any, arrives.
   */
  datatype Contact = Contact(nonce: string, issuedAt: Instant, schedule: seq<NodeStep>, arrives: Option<nat>)

  datatype SystemCommand =
    | Submit(command: Command, contact: Contact)
    | Background(schedule: seq<NodeStep>)

  /* The envelopes that the client builds. */

  function LaunchEnvelope(task: Uuid, target: string, contact: Contact): Envelope {
    CommandEnvelope(
      CommandId(task, target), task, LaunchNotepad, target, contact.issuedAt,
      contact.issuedAt + DEVICE_COMMAND_LIFETIME, contact.nonce)
  }

  function StopEnvelope(task: Uuid, command: Uuid, target: string, contact: Contact): Envelope {
    RollbackEnvelope(
      RollbackId(task, command), task, command, target, contact.issuedAt,
      contact.issuedAt + DEVICE_COMMAND_LIFETIME, contact.nonce)
  }

  ghost predicate IsDeviceTask(t: Task) {
    |t.plan.steps| == 1 && t.plan.steps[0].capability == LaunchNotepad
  }

  /** The decision is one that makes the core call the node to launch. */
  ghost predicate Launches(
    c: Core, id: Uuid, decision: ApprovalDecision, session: IdentitySession, channel: ApprovalChannel, now: Instant)
  {
    && EarlyRefusal(c, id, decision, session, channel).None?
    && now < c.tasks[id].approval.value.expiresAt
    && LateRefusal(c.tasks[id].approval.value, decision).None?
    && decision.decision == Approve
    && IsDeviceTask(c.tasks[id])
  }

  /** The undo is one that makes the core call the node to stop a process. */
  ghost predicate Stops(c: Core, id: Uuid, session: IdentitySession) {
    && RollbackRefusal(c, id, session).None?
    && IsDeviceTask(c.tasks[id])
    && c.tasks[id].results != []
    && |c.tasks[id].results[0].evidence| == 1
    && c.tasks[id].results[0].evidence[0].DeviceEvidence?
  }

  /** The envelope that the core sends while it performs a command, if it sends one. */
  ghost function RequestOf(c: Core, command: Command, contact: Contact): Option<Envelope> {
    match command
    case Create(_, _, _, _, _, _) => None
    case Decide(id, decision, session, channel, clock, _) =>
      if Launches(c, id, decision, session, channel, clock.now) then
        Some(LaunchEnvelope(id, TargetNode(c.tasks[id].plan.steps[0]), contact))
      else None
    case Rollback(id, session, _, _) =>
      if Stops(c, id, session) then
        var launch := c.tasks[id].results[0].evidence[0].launch;
        Some(StopEnvelope(id, launch.commandId, launch.nodeId, contact))
      else None
  }

  /** The command with the device's answers as the channel gives them. */
  function WithReply(command: Command, reply: Option<Reply>): Command {
    var launch := if reply.Some? && reply.value.LaunchReply? then Some(reply.value.launch) else None;
    var stop := if reply.Some? && reply.value.StopReply? then Some(reply.value.stop) else None;
    command.(env := command.env.(launchReply := launch, rollbackReply := stop))
  }

  ghost predicate ChannelInv(s: System) {
    UniqueCommands(s.sent) && NodeInv(s.sent, s.node)
  }

  /** The envelope can be sent: its nonce is new, and so is its command if it launches. */
  ghost predicate Sendable(sent: Sent, e: Envelope) {
    && e.nonce !in sent
    && (e.CommandEnvelope? ==>
          forall b :: b in sent && sent[b].CommandEnvelope? ==> sent[b].command != e.command)
  }

  ghost function NodeAfterCall(s: System, e: Envelope, contact: Contact): (n: Node)
    requires TableInv(s.node.table)
    ensures TableInv(n.table)
  {
    NodeRun(s.sent[e.nonce := e], s.node, contact.schedule)
  }

  /** The answer that arrives, if it is one to the call's own envelope. */
  function ReplyOf(n: Node, contact: Contact): Option<Reply> {
    match contact.arrives
    case Some(i) =>
      if i < |n.answers| && n.answers[i].nonce == contact.nonce then Some(n.answers[i].reply) else None
    case None => None
  }

  /* What holds of the whole. */

  /** A sent envelope belongs to a task that has gone beyond it, and names the command of that task. */
  ghost predicate EnvelopeFits(c: Core, e: Envelope) {
    && e.task in c.tasks
    && IsDeviceTask(c.tasks[e.task])
    && e.command == CommandId(e.task, TargetNode(c.tasks[e.task].plan.steps[0]))
    && (match e
        case CommandEnvelope(_, _, _, target, _, _, _) =>
          WasExecuted(c.tasks[e.task]) && target == TargetNode(c.tasks[e.task].plan.steps[0])
        case RollbackEnvelope(_, _, _, _, _, _, _) => WasUndone(c.tasks[e.task]))
  }

  ghost predicate SentFits(c: Core, sent: Sent) {
    forall n :: n in sent ==> EnvelopeFits(c, sent[n])
  }

  /** The answer at a position is to one of the task's own envelopes. */
  ghost predicate AnsweredBy(sent: Sent, n: Node, task: Uuid, i: int) {
    0 <= i < |n.answers| && n.answers[i].nonce in sent && sent[n.answers[i].nonce].task == task
  }

  /** What the task reports of its launch is an answer of the node. */
  ghost predicate LaunchWasAnswered(sent: Sent, n: Node, t: Task) {
    && t.results != []
    && |t.results[0].evidence| == 1
    && t.results[0].evidence[0].DeviceEvidence?
    && exists i :: AnsweredBy(sent, n, t.taskId, i)
                   && n.answers[i].reply == LaunchReply(t.results[0].evidence[0].launch)
  }

  ghost predicate StopWasAnswered(sent: Sent, n: Node, t: Task) {
    exists i :: AnsweredBy(sent, n, t.taskId, i) && n.answers[i].reply.StopReply?
  }

  ghost predicate DeviceTaskHolds(sent: Sent, n: Node, t: Task) {
    && (t.state == Completed || t.state == RolledBack ==> LaunchWasAnswered(sent, n, t))
    && (t.state == RolledBack ==> StopWasAnswered(sent, n, t))
  }

  ghost predicate DeviceTasksHold(c: Core, sent: Sent, n: Node) {
    forall id :: id in c.tasks && IsDeviceTask(c.tasks[id]) ==> DeviceTaskHolds(sent, n, c.tasks[id])
  }

  ghost predicate SystemInv(initial: Files, s: System) {
    && CoreInv(initial, s.core)
    && ChannelInv(s)
    && SentFits(s.core, s.sent)
    && DeviceTasksHold(s.core, s.sent, s.node)
  }

  /* One step. */

  /** What the core sends can be sent. */
  lemma RequestIsSendable(initial: Files, s: System, command: Command, contact: Contact)
    requires SystemInv(initial, s) && contact.nonce !in s.sent
    requires RequestOf(s.core, command, contact).Some?
    ensures Sendable(s.sent, RequestOf(s.core, command, contact).value)
  {
    hide CoreInv, ChannelInv, DeviceTasksHold, TargetNode, WasUndone, LateRefusal;
    var e := RequestOf(s.core, command, contact).value;
    if e.CommandEnvelope? {
      forall b | b in s.sent && s.sent[b].CommandEnvelope?
        ensures s.sent[b].command != e.command
      {
        assert EnvelopeFits(s.core, s.sent[b]);
      }
    }
  }

  ghost function SystemTake(s: System, command: SystemCommand): (s': System)
    requires TableInv(s.node.table)
    ensures TableInv(s'.node.table)
  {
    match command
    case Background(schedule) => s.(node := NodeRun(s.sent, s.node, schedule))
    case Submit(command, contact) =>
      var request := RequestOf(s.core, command, contact);
      if request.None? then s.(core := Perform(s.core, WithReply(command, None)).0)
      else
        var n := NodeAfterCall(s, request.value, contact);
        System(
          Perform(s.core, WithReply(command, ReplyOf(n, contact))).0,
          s.sent[contact.nonce := request.value],
          n)
  }

  /* What one operation of the core does to the tasks. */

  /** A task never goes back: once executed or undone it stays so, and its first results stay. */
  lemma ExecutedStays(t: Task, t': Task)
    requires TaskInv(t) && TaskInv(t') && TaskEvolves(t, t')
    ensures WasExecuted(t) ==> WasExecuted(t')
    ensures WasUndone(t) ==> WasUndone(t')
    ensures t.plan == t'.plan && t.taskId == t'.taskId
  {
    hide PlanKept, ApprovalKept, ResultsKept, Numbered, ApprovalEvolves;
    assert |States(t.events)| == |t.events| && |States(t'.events)| == |t'.events|;
    if WasExecuted(t) {
      assert States(t.events)[|t.events| - 1] == t.state;
      assert t'.events[2] == t.events[2] && t'.events[3] == t.events[3];
      assert States(t'.events)[2] == States(t.events)[2] && States(t'.events)[3] == States(t.events)[3];
      ApprovalStays(t, t');
    }
  }

  lemma ApprovalStays(t: Task, t': Task)
    requires TaskEvolves(t, t')
    ensures t.approval.Some? <==> t'.approval.Some?
  {
  }

  function CommandTask(command: Command): Uuid {
    match command
    case Create(request, _, _, _, _, _) => TaskId(request.requestId)
    case Decide(id, _, _, _, _, _) => id
    case Rollback(id, _, _, _) => id
  }

  /** An operation stores no task but its own. */
  lemma OthersStay(initial: Files, c: Core, command: Command, id: Uuid)
    requires CoreInv(initial, c) && WellFormed(command)
    requires id != CommandTask(command)
    ensures id in Perform(c, command).0.tasks <==> id in c.tasks
    ensures id in c.tasks ==> Perform(c, command).0.tasks[id] == c.tasks[id]
  {
    hide CoreInv, TaskInv, RecordReceipt, GrantedRun, RollbackRunFor, LateRefusal, AddEvent, NewTask;
    match command
    case Create(request, session, intent, token, clock, env) =>
      NewTaskIsDated(request, session, intent, token, clock, env, c.root, c.files);
    case Decide(other, _, _, _, _, _) =>
      if other in c.tasks {
        TaskUnderItsId(initial, c, other);
      }
    case Rollback(other, _, _, _) =>
      if other in c.tasks {
        TaskUnderItsId(initial, c, other);
      }
  }

  /** A task that is completed as soon as it is created is not a device task. */
  lemma CreatedTask(initial: Files, c: Core, command: Command)
    requires CoreInv(initial, c) && WellFormed(command) && command.Create?
    ensures var id, c' := CommandTask(command), Perform(c, command).0;
            id in c'.tasks ==>
              || (id in c.tasks && c'.tasks[id] == c.tasks[id])
              || (IsDeviceTask(c'.tasks[id]) ==> c'.tasks[id].state != Completed && c'.tasks[id].state != RolledBack)
  {
    hide CoreInv, TaskInv, RecordReceipt, NewTask;
    var request := command.request;
    if request.requestId !in c.requestIndex && SessionMatches(command.session, request.sessionId) {
      NewTaskFits(
        request, command.session, command.intent, command.token, command.clock, command.env, c.root, c.files);
      var made := NewTask(
        request, command.session, command.intent, command.token, command.clock, command.env, c.root, c.files);
      assert MadeWell(made, request, c.files);
      NewDeviceTaskWaits(made.task);
    }
  }

  lemma NewDeviceTaskWaits(t: Task)
    requires TaskInv(t)
    requires t.state in {Denied, AwaitingApproval, Completed, Failed}
    requires t.approval.Some? <==> t.state == AwaitingApproval
    ensures IsDeviceTask(t) ==> t.state != Completed && t.state != RolledBack
  {
    hide PlanFor, DecisionsFor, VerdictOn, Traced, ApprovalFor, EvidenceBinds;
    if t.state == Completed && IsDeviceTask(t) {
      OnlyApprovedTasksAreReversible(t);
      assert ResultFor(t.results[0], t.plan.steps[0]);
      FirstIsReversible(t.results);
    }
  }

  /** A decision completes a device task only by launching, with the answer that the channel gave. */
  lemma DecidedDeviceTask(
    initial: Files, c: Core, id: Uuid, decision: ApprovalDecision, session: IdentitySession, channel: ApprovalChannel,
    clock: Clock, env: Environment)
    requires CoreInv(initial, c) && id in c.tasks && IsDeviceTask(c.tasks[id])
    ensures var t, c' := c.tasks[id], ApproveTask(c, id, decision, session, channel, clock, env).0;
            && id in c'.tasks
            && var t' := c'.tasks[id];
               && (t' == t || (t'.state != RolledBack && t.state != Completed && t.state != RolledBack))
               && (t' != t && t'.state == Completed ==>
                     && Launches(c, id, decision, session, channel, clock.now)
                     && env.launchReply.Some?
                     && |t'.results| == 1
                     && t'.results[0].evidence == [DeviceEvidence(clock.now, env.launchReply.value)])
               && (Launches(c, id, decision, session, channel, clock.now) ==> WasExecuted(t'))
  {
    hide CoreInv, TaskInv, RecordReceipt, GrantedRun, LateRefusal, AddEvent, IsNoteStep, IsNotepadStep, TargetNode;
    TaskUnderItsId(initial, c, id);
    var t := c.tasks[id];
    if EarlyRefusal(c, id, decision, session, channel).None? {
      WaitingPlan(t);
      NoteStepCreates(t.plan.steps[0]);
      GrantedLaunch(c, t, clock, env);
      GrantFits(c, t, clock, env);
    }
  }

  /** An undo rolls a device task back only by stopping its process, with the answer that the channel gave. */
  lemma UndoneDeviceTask(
    initial: Files, c: Core, id: Uuid, session: IdentitySession, clock: Clock, env: Environment)
    requires CoreInv(initial, c) && id in c.tasks && IsDeviceTask(c.tasks[id])
    ensures var t, c' := c.tasks[id], RollbackTask(c, id, session, clock, env).0;
            && id in c'.tasks
            && var t' := c'.tasks[id];
               && (t' != t ==>
                     && Stops(c, id, session)
                     && t.state == Completed
                     && t'.state != Completed
                     && (t'.state == RolledBack ==> env.rollbackReply.Some?))
               && t.results <= t'.results
               && (Stops(c, id, session) ==> WasUndone(t'))
  {
    hide CoreInv, TaskInv, RecordReceipt, RollbackRunFor, AddEvent, IsNoteStep, IsNotepadStep, WasUndone, UndoFits;
    hide PlannedNote;
    TaskUnderItsId(initial, c, id);
    var t := c.tasks[id];
    if RollbackRefusal(c, id, session).None? {
      OnlyApprovedTasksAreReversible(t);
      NoteStepCreates(t.plan.steps[0]);
      UndoneLaunch(c, t, clock, env);
      UndoDoes(initial, c, t, clock, env);
      UndoneTaskFits(t, RollbackRunFor(c, t, t.results[0], clock, env), clock);
    }
  }

  /* The parts of the invariant are kept. */

  lemma WithReplyIsWellFormed(command: Command, reply: Option<Reply>)
    requires WellFormed(command)
    ensures WellFormed(WithReply(command, reply)) && CommandTask(WithReply(command, reply)) == CommandTask(command)
  {
  }

  lemma TasksOf(initial: Files, c: Core)
    requires CoreInv(initial, c)
    ensures TasksHold(c)
  {
  }

  /** The envelopes that were sent before still fit their tasks. */
  lemma SentStillFits(initial: Files, c: Core, sent: Sent, command: Command)
    requires CoreInv(initial, c) && WellFormed(command) && SentFits(c, sent)
    ensures SentFits(Perform(c, command).0, sent)
  {
    hide CoreInv, Perform, TaskInv, WasExecuted, WasUndone, TaskEvolves, TargetNode;
    PerformKeeps(initial, c, command);
    PerformEvolves(initial, c, command);
    var c' := Perform(c, command).0;
    TasksOf(initial, c);
    TasksOf(initial, c');
    forall n | n in sent
      ensures EnvelopeFits(c', sent[n])
    {
      assert EnvelopeFits(c, sent[n]);
      ExecutedStays(c.tasks[sent[n].task], c'.tasks[sent[n].task]);
    }
  }

  /** An envelope of a task is one of its command. */
  lemma OwnEnvelopes(c: Core, sent: Sent, t: Task, nonce: string)
    requires SentFits(c, sent) && nonce in sent
    requires t.taskId in c.tasks && c.tasks[t.taskId] == t && IsDeviceTask(t)
    ensures sent[nonce].task == t.taskId <==>
              sent[nonce].command == CommandId(t.taskId, TargetNode(t.plan.steps[0]))
    ensures sent[nonce].RollbackEnvelope? && sent[nonce].task == t.taskId ==> WasUndone(t)
  {
    hide TargetNode, WasExecuted, WasUndone;
    assert EnvelopeFits(c, sent[nonce]);
  }

  /** The command that a device task reports is its own. */
  lemma ReportedCommand(s: System, t: Task)
    requires ChannelInv(s) && SentFits(s.core, s.sent)
    requires t.taskId in s.core.tasks && s.core.tasks[t.taskId] == t && IsDeviceTask(t)
    requires LaunchWasAnswered(s.sent, s.node, t)
    ensures t.results != [] && |t.results[0].evidence| == 1 && t.results[0].evidence[0].DeviceEvidence?
    ensures t.results[0].evidence[0].launch.commandId == CommandId(t.taskId, TargetNode(t.plan.steps[0]))
  {
    hide TargetNode, TableInv, GuardHolds, QueueIsGenuine, RecordsFollow, AnswersName, StopsFollow, RecordsGenuine;
    hide AnswersCounted, SentFits, UniqueCommands, WasUndone;
    var i :| && AnsweredBy(s.sent, s.node, t.taskId, i)
             && s.node.answers[i].reply == LaunchReply(t.results[0].evidence[0].launch);
    OwnEnvelopes(s.core, s.sent, t, s.node.answers[i].nonce);
  }

  /** The envelope that is sent during a command fits its task afterwards. */
  lemma RequestFits(initial: Files, s: System, command: Command, contact: Contact, reply: Option<Reply>)
    requires SystemInv(initial, s) && WellFormed(command)
    requires RequestOf(s.core, command, contact).Some?
    ensures EnvelopeFits(
              Perform(s.core, WithReply(command, reply)).0, RequestOf(s.core, command, contact).value)
  {
    hide CoreInv, ChannelInv, SentFits, Launches, Stops, TargetNode, LaunchWasAnswered;
    hide TaskInv, ApproveTask, RollbackTask, WasExecuted, WasUndone, TaskEvolves;
    var c, answered := s.core, WithReply(command, reply);
    WithReplyIsWellFormed(command, reply);
    RequestedTask(s, command, contact);
    var id := CommandTask(command);
    TaskUnderItsId(initial, c, id);
    PerformEvolves(initial, c, answered);
    var c' := Perform(c, answered).0;
    assert TaskEvolves(c.tasks[id], c'.tasks[id]);
    PlanStays(c.tasks[id], c'.tasks[id]);
    if command.Decide? {
      DecidedDeviceTask(
        initial, c, id, command.decision, command.session, command.channel, command.clock, answered.env);
    } else {
      UndoneDeviceTask(initial, c, id, command.session, command.clock, answered.env);
      assert DeviceTaskHolds(s.sent, s.node, c.tasks[id]);
      ReportedCommand(s, c.tasks[id]);
    }
  }

  lemma PlanStays(t: Task, t': Task)
    requires TaskEvolves(t, t')
    ensures t'.plan == t.plan
  {
  }

  lemma RequestedTask(s: System, command: Command, contact: Contact)
    requires RequestOf(s.core, command, contact).Some?
    ensures !command.Create?
    ensures var id := CommandTask(command);
            && id in s.core.tasks && IsDeviceTask(s.core.tasks[id])
            && (command.Decide? ==>
                  Launches(s.core, id, command.decision, command.session, command.channel, command.clock.now))
            && (command.Rollback? ==> Stops(s.core, id, command.session) && s.core.tasks[id].state == Completed)
  {
    hide TargetNode, LateRefusal, TaskInv;
  }

  /** Answers that were given are still there after more steps and more envelopes. */
  lemma AnswersStay(sent: Sent, n: Node, sent': Sent, n': Node, t: Task)
    requires n.answers <= n'.answers
    requires forall nonce :: nonce in sent ==> nonce in sent' && sent'[nonce] == sent[nonce]
    ensures LaunchWasAnswered(sent, n, t) ==> LaunchWasAnswered(sent', n', t)
    ensures StopWasAnswered(sent, n, t) ==> StopWasAnswered(sent', n', t)
  {
    if LaunchWasAnswered(sent, n, t) {
      var i :| && AnsweredBy(sent, n, t.taskId, i)
               && n.answers[i].reply == LaunchReply(t.results[0].evidence[0].launch);
      assert n'.answers[i] == n.answers[i] && AnsweredBy(sent', n', t.taskId, i);
    }
    if StopWasAnswered(sent, n, t) {
      var i :| AnsweredBy(sent, n, t.taskId, i) && n.answers[i].reply.StopReply?;
      assert n'.answers[i] == n.answers[i] && AnsweredBy(sent', n', t.taskId, i);
    }
  }

  /** A task with the same first results is answered by the same answer. */
  lemma AnsweredAsBefore(sent: Sent, n: Node, t: Task, t': Task)
    requires LaunchWasAnswered(sent, n, t) && t.results <= t'.results && t.taskId == t'.taskId
    ensures LaunchWasAnswered(sent, n, t')
  {
    assert t'.results[0] == t.results[0];
  }

  /**
   * Every completed device task still reports an answer of the node after a command of the core, whose own answer, if
   * it got one, is the node's answer to the envelope it sent.
   */
  lemma DeviceTasksStillHold(
    initial: Files, c: Core, command: Command, contact: Contact, reply: Option<Reply>, sent: Sent, n: Node)
    requires CoreInv(initial, c) && WellFormed(command) && DeviceTasksHold(c, sent, n)
    requires reply.Some? ==>
               && RequestOf(c, command, contact).Some?
               && contact.nonce in sent && sent[contact.nonce] == RequestOf(c, command, contact).value
               && reply == ReplyOf(n, contact)
    ensures DeviceTasksHold(Perform(c, WithReply(command, reply)).0, sent, n)
  {
    hide CoreInv, TaskInv, LaunchWasAnswered, StopWasAnswered, Perform, Launches, Stops;
    var answered := WithReply(command, reply);
    WithReplyIsWellFormed(command, reply);
    var c' := Perform(c, answered).0;
    forall id | id in c'.tasks && IsDeviceTask(c'.tasks[id])
      ensures DeviceTaskHolds(sent, n, c'.tasks[id])
    {
      if id != CommandTask(command) {
        OthersStay(initial, c, answered, id);
        assert DeviceTaskHolds(sent, n, c.tasks[id]);
      } else {
        OwnTaskHolds(initial, c, command, contact, reply, sent, n);
      }
    }
  }

  lemma OwnTaskHolds(
    initial: Files, c: Core, command: Command, contact: Contact, reply: Option<Reply>, sent: Sent, n: Node)
    requires CoreInv(initial, c) && WellFormed(command) && DeviceTasksHold(c, sent, n)
    requires reply.Some? ==>
               && RequestOf(c, command, contact).Some?
               && contact.nonce in sent && sent[contact.nonce] == RequestOf(c, command, contact).value
               && reply == ReplyOf(n, contact)
    ensures var id, c' := CommandTask(command), Perform(c, WithReply(command, reply)).0;
            id in c'.tasks && IsDeviceTask(c'.tasks[id]) ==> DeviceTaskHolds(sent, n, c'.tasks[id])
  {
    hide CoreInv, TaskInv, LaunchWasAnswered, StopWasAnswered, Launches, Stops;
    hide CreateTask, ApproveTask, RollbackTask;
    var answered := WithReply(command, reply);
    WithReplyIsWellFormed(command, reply);
    var id, c' := CommandTask(command), Perform(c, answered).0;
    if id in c'.tasks && IsDeviceTask(c'.tasks[id]) {
      match command
      case Create(_, _, _, _, _, _) =>
        CreatedTask(initial, c, answered);
        if id in c.tasks && c'.tasks[id] == c.tasks[id] {
          assert DeviceTaskHolds(sent, n, c.tasks[id]);
        }
      case Decide(_, _, _, _, _, _) => DecidedTaskHolds(initial, c, command, contact, reply, sent, n);
      case Rollback(_, _, _, _) => UndoneTaskHolds(initial, c, command, contact, reply, sent, n);
    }
  }

  lemma TaskWasThere(initial: Files, c: Core, command: Command)
    requires CoreInv(initial, c) && WellFormed(command) && !command.Create?
    requires var id, c' := CommandTask(command), Perform(c, command).0;
             id in c'.tasks && IsDeviceTask(c'.tasks[id])
    ensures CommandTask(command) in c.tasks && IsDeviceTask(c.tasks[CommandTask(command)])
    ensures c.tasks[CommandTask(command)].taskId == CommandTask(command)
    ensures Perform(c, command).0.tasks[CommandTask(command)].taskId == CommandTask(command)
  {
    hide CoreInv, TaskInv, ApproveTask, RollbackTask, TaskEvolves;
    var id := CommandTask(command);
    OrderStep(initial, c, command);
    PerformEvolves(initial, c, command);
    TaskUnderItsId(initial, c, id);
    PerformKeeps(initial, c, command);
    TaskUnderItsId(initial, Perform(c, command).0, id);
    assert TaskEvolves(c.tasks[id], Perform(c, command).0.tasks[id]);
    PlanStays(c.tasks[id], Perform(c, command).0.tasks[id]);
  }

  lemma DecidedTaskHolds(
    initial: Files, c: Core, command: Command, contact: Contact, reply: Option<Reply>, sent: Sent, n: Node)
    requires CoreInv(initial, c) && WellFormed(command) && DeviceTasksHold(c, sent, n) && command.Decide?
    requires reply.Some? ==>
               && RequestOf(c, command, contact).Some?
               && contact.nonce in sent && sent[contact.nonce] == RequestOf(c, command, contact).value
               && reply == ReplyOf(n, contact)
    requires var id, c' := CommandTask(command), Perform(c, WithReply(command, reply)).0;
             id in c'.tasks && IsDeviceTask(c'.tasks[id])
    ensures DeviceTaskHolds(sent, n, Perform(c, WithReply(command, reply)).0.tasks[CommandTask(command)])
  {
    hide CoreInv, TaskInv, Launches, Stops, ApproveTask, StopWasAnswered;
    var answered := WithReply(command, reply);
    WithReplyIsWellFormed(command, reply);
    TaskWasThere(initial, c, answered);
    var id := CommandTask(command);
    DecidedDeviceTask(
      initial, c, id, command.decision, command.session, command.channel, command.clock, answered.env);
    assert DeviceTaskHolds(sent, n, c.tasks[id]);
    var t' := Perform(c, answered).0.tasks[id];
    if t' != c.tasks[id] && t'.state == Completed {
      assert reply.Some? && reply.value == LaunchReply(t'.results[0].evidence[0].launch);
      assert AnsweredBy(sent, n, t'.taskId, contact.arrives.value);
    }
  }

  lemma UndoneTaskHolds(
    initial: Files, c: Core, command: Command, contact: Contact, reply: Option<Reply>, sent: Sent, n: Node)
    requires CoreInv(initial, c) && WellFormed(command) && DeviceTasksHold(c, sent, n) && command.Rollback?
    requires reply.Some? ==>
               && RequestOf(c, command, contact).Some?
               && contact.nonce in sent && sent[contact.nonce] == RequestOf(c, command, contact).value
               && reply == ReplyOf(n, contact)
    requires var id, c' := CommandTask(command), Perform(c, WithReply(command, reply)).0;
             id in c'.tasks && IsDeviceTask(c'.tasks[id])
    ensures DeviceTaskHolds(sent, n, Perform(c, WithReply(command, reply)).0.tasks[CommandTask(command)])
  {
    hide CoreInv, TaskInv, Launches, Stops, RollbackTask, LaunchWasAnswered;
    var answered := WithReply(command, reply);
    WithReplyIsWellFormed(command, reply);
    TaskWasThere(initial, c, answered);
    var id := CommandTask(command);
    UndoneDeviceTask(initial, c, id, command.session, command.clock, answered.env);
    assert DeviceTaskHolds(sent, n, c.tasks[id]);
    var t, t' := c.tasks[id], Perform(c, answered).0.tasks[id];
    if t' != t && t'.state == RolledBack {
      AnsweredAsBefore(sent, n, t, t');
      assert reply.Some? && reply.value.StopReply?;
      assert AnsweredBy(sent, n, t'.taskId, contact.arrives.value);
    }
  }

  /* Every step keeps the whole. */

  ghost predicate CanTake(s: System, command: SystemCommand) {
    command.Submit? ==> WellFormed(command.command) && command.contact.nonce !in s.sent
  }

  /** Every field of what is sent: for the command's task, under the call's nonce, and good for thirty seconds. */
  lemma RequestIsBuilt(c: Core, command: Command, contact: Contact)
    requires RequestOf(c, command, contact).Some?
    ensures var e := RequestOf(c, command, contact).value;
            && e.nonce == contact.nonce
            && e.issuedAt == contact.issuedAt && e.expiresAt == contact.issuedAt + 30_000_000
            && e.task == CommandTask(command)
            && (e.CommandEnvelope? <==> command.Decide?)
            && (e.CommandEnvelope? ==> e.capability == LaunchNotepad && e.command == CommandId(e.task, e.target))
            && (e.RollbackEnvelope? ==> e.rollback == RollbackId(e.task, e.command))
  {
    hide Launches, Stops, TargetNode;
  }

  lemma InvHasTable(initial: Files, s: System)
    requires SystemInv(initial, s)
    ensures TableInv(s.node.table)
  {
    hide CoreInv, UniqueCommands, NodeInv, SentFits, DeviceTasksHold;
    NodeHasTable(s.sent, s.node);
  }

  lemma AllAnswersStay(c: Core, sent: Sent, n: Node, sent': Sent, n': Node)
    requires DeviceTasksHold(c, sent, n) && n.answers <= n'.answers
    requires forall nonce :: nonce in sent ==> nonce in sent' && sent'[nonce] == sent[nonce]
    ensures DeviceTasksHold(c, sent', n')
  {
    hide LaunchWasAnswered, StopWasAnswered, IsDeviceTask;
    forall id | id in c.tasks && IsDeviceTask(c.tasks[id])
      ensures DeviceTaskHolds(sent', n', c.tasks[id])
    {
      assert DeviceTaskHolds(sent, n, c.tasks[id]);
      AnswersStay(sent, n, sent', n', c.tasks[id]);
    }
  }

  lemma QuietCommandKeeps(initial: Files, s: System, command: Command, contact: Contact)
    requires SystemInv(initial, s) && WellFormed(command)
    ensures SystemInv(initial, s.(core := Perform(s.core, WithReply(command, None)).0))
  {
    hide CoreInv, UniqueCommands, NodeInv, SentFits, DeviceTasksHold, Perform;
    WithReplyIsWellFormed(command, None);
    PerformKeeps(initial, s.core, WithReply(command, None));
    SentStillFits(initial, s.core, s.sent, WithReply(command, None));
    DeviceTasksStillHold(initial, s.core, command, contact, None, s.sent, s.node);
  }

  /** The envelope that is sent, and the node after the call. */
  lemma ChannelTakes(s: System, e: Envelope, contact: Contact)
    requires ChannelInv(s) && TableInv(s.node.table) && Sendable(s.sent, e) && e.nonce == contact.nonce
    ensures var n := NodeAfterCall(s, e, contact);
            && ChannelInv(s.(sent := s.sent[contact.nonce := e], node := n))
            && s.node.answers <= n.answers && s.node.attempts <= n.attempts
  {
    hide NodeInv, TableInv, NodeRun, UniqueCommands;
    SendingKeeps(s.sent, s.node, e);
    SendingKeepsUnique(s.sent, e);
    NodeRunKeeps(s.sent[contact.nonce := e], s.node, contact.schedule);
  }

  lemma CallKeeps(initial: Files, s: System, command: Command, contact: Contact)
    requires SystemInv(initial, s) && TableInv(s.node.table) && WellFormed(command) && contact.nonce !in s.sent
    requires RequestOf(s.core, command, contact).Some?
    ensures var e := RequestOf(s.core, command, contact).value;
            var n := NodeAfterCall(s, e, contact);
            && SystemInv(
                 initial,
                 System(
                   Perform(s.core, WithReply(command, ReplyOf(n, contact))).0, s.sent[contact.nonce := e], n))
            && s.node.attempts <= n.attempts
  {
    hide CoreInv, ChannelInv, DeviceTasksHold, Perform, EnvelopeFits, NodeAfterCall, RequestOf, Sendable, TableInv;
    var e := RequestOf(s.core, command, contact).value;
    RequestIsBuilt(s.core, command, contact);
    RequestIsSendable(initial, s, command, contact);
    ChannelTakes(s, e, contact);
    var sent, n := s.sent[contact.nonce := e], NodeAfterCall(s, e, contact);
    var reply := ReplyOf(n, contact);
    var answered := WithReply(command, reply);
    WithReplyIsWellFormed(command, reply);
    PerformKeeps(initial, s.core, answered);
    SentStillFits(initial, s.core, s.sent, answered);
    RequestFits(initial, s, command, contact, reply);
    AllAnswersStay(s.core, s.sent, s.node, sent, n);
    DeviceTasksStillHold(initial, s.core, command, contact, reply, sent, n);
    ChannelIgnoresCore(s.(sent := sent, node := n), Perform(s.core, answered).0);
  }

  lemma ChannelIgnoresCore(s: System, c: Core)
    requires ChannelInv(s)
    ensures ChannelInv(s.(core := c))
  {
    hide UniqueCommands, NodeInv;
  }

  /**
   * A command of the core with any call over the channel, and anything the network does on its own, for any readings.
   */
  lemma SystemTakeKeeps(initial: Files, s: System, command: SystemCommand)
    requires SystemInv(initial, s) && TableInv(s.node.table) && CanTake(s, command)
    ensures SystemInv(initial, SystemTake(s, command))
    ensures s.node.attempts <= SystemTake(s, command).node.attempts
  {
    hide CoreInv, UniqueCommands, NodeInv, SentFits, DeviceTasksHold, RequestOf, Perform, NodeRun, WellFormed, TableInv;
    hide Sendable, EnvelopeFits;
    match command
    case Background(schedule) =>
      NodeRunKeeps(s.sent, s.node, schedule);
      AllAnswersStay(s.core, s.sent, s.node, s.sent, NodeRun(s.sent, s.node, schedule));
    case Submit(command, contact) =>
      if RequestOf(s.core, command, contact).None? {
        QuietCommandKeeps(initial, s, command, contact);
      } else {
        CallKeeps(initial, s, command, contact);
      }
  }
}
