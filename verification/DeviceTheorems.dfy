/** The promises of the orchestrator and the device node together, for every run over a lossy channel. */
module DeviceTheorems {
  import opened StateMachine
  import opened Domain
  import opened NoteStore
  import opened Payload
  import opened Planner
  import opened CoreModel
  import opened TaskInvariant
  import opened CoreInvariant
  import opened CoreSteps
  import opened CoreRuns
  import opened CoreTheorems
  import opened Registry
  import opened NonceCache
  import opened ProcessTable
  import opened DeviceNode
  import opened DeviceSystem

  function InitialSystem(root: Path, files: Files, nodeId: string): System {
    System(InitialCore(root, files), map[], EmptyNode(nodeId))
  }

  lemma InitialSystemHolds(root: Path, files: Files, nodeId: string)
    ensures SystemInv(files, InitialSystem(root, files, nodeId))
  {
    hide CoreInv, NodeInv;
    InitialHolds(root, files);
    EmptyNodeHolds(nodeId);
  }

  ghost function SystemRun(s: System, commands: seq<SystemCommand>): (s': System)
    requires TableInv(s.node.table)
    ensures TableInv(s'.node.table)
  {
    if commands == [] then s else SystemTake(SystemRun(s, commands[..|commands| - 1]), commands[|commands| - 1])
  }

  /** Every request is classified, and every call uses a nonce that was not used before. */
  ghost predicate CanRun(s: System, commands: seq<SystemCommand>)
    requires TableInv(s.node.table)
  {
    commands == [] ||
    (&& CanRun(s, commands[..|commands| - 1])
     && CanTake(SystemRun(s, commands[..|commands| - 1]), commands[|commands| - 1]))
  }

  /** The states of the whole that some run reaches, whatever the node's clock reads. */
  ghost predicate SystemReached(root: Path, files: Files, nodeId: string, s: System) {
    var start := InitialSystem(root, files, nodeId);
    exists commands :: CanRun(start, commands) && s == SystemRun(start, commands)
  }

  lemma NextSystemIsReached(root: Path, files: Files, nodeId: string, s: System, command: SystemCommand)
    requires SystemReached(root, files, nodeId, s) && TableInv(s.node.table) && CanTake(s, command)
    ensures SystemReached(root, files, nodeId, SystemTake(s, command))
  {
    hide SystemTake, CanTake, TableInv;
    var start := InitialSystem(root, files, nodeId);
    StartHasTable(root, files, nodeId);
    var commands :| CanRun(start, commands) && s == SystemRun(start, commands);
    var more := commands + [command];
    assert more[..|more| - 1] == commands;
    assert CanRun(start, more) && SystemRun(start, more) == SystemTake(s, command);
  }

  lemma StartHasTable(root: Path, files: Files, nodeId: string)
    ensures TableInv(InitialSystem(root, files, nodeId).node.table)
  {
  }

  lemma SystemStartIsReached(root: Path, files: Files, nodeId: string)
    ensures SystemReached(root, files, nodeId, InitialSystem(root, files, nodeId))
  {
    StartHasTable(root, files, nodeId);
    hide TableInv;
    assert CanRun(InitialSystem(root, files, nodeId), []);
    assert SystemRun(InitialSystem(root, files, nodeId), []) == InitialSystem(root, files, nodeId);
  }

  lemma {:induction false} SystemRunKeeps(initial: Files, s: System, commands: seq<SystemCommand>)
    requires SystemInv(initial, s) && TableInv(s.node.table) && CanRun(s, commands)
    ensures SystemInv(initial, SystemRun(s, commands))
  {
    hide SystemInv, SystemTake, CanTake, TableInv;
    if commands != [] {
      SystemRunKeeps(initial, s, commands[..|commands| - 1]);
      SystemTakeKeeps(initial, SystemRun(s, commands[..|commands| - 1]), commands[|commands| - 1]);
    }
  }

  lemma SystemReachedHolds(root: Path, files: Files, nodeId: string, s: System)
    requires SystemReached(root, files, nodeId, s)
    ensures SystemInv(files, s) && TableInv(s.node.table)
  {
    hide SystemInv, SystemTake, CanTake, TableInv;
    var start := InitialSystem(root, files, nodeId);
    StartHasTable(root, files, nodeId);
    InitialSystemHolds(root, files, nodeId);
    var commands :| CanRun(start, commands) && s == SystemRun(start, commands);
    SystemRunKeeps(files, start, commands);
    InvHasTable(files, s);
  }

  /** The command that a device task's plan asks the node for. */
  function CommandOf(t: Task): Uuid
    requires t.plan.steps != []
  {
    CommandId(t.taskId, TargetNode(t.plan.steps[0]))
  }

  /* What the node holds for each device task. */

  /** A command's process ran at some time, is not recorded any more, and is dead. */
  ghost predicate IsGone(table: Table, command: Uuid) {
    && command !in table.launched
    && command in table.latest
    && table.latest[command] < |table.alive|
    && !table.alive[table.latest[command]]
  }

  lemma UnrecordedIsGone(t: Table, command: Uuid)
    requires TableInv(t)
    ensures IsGone(t, command) <==> command in t.latest && command !in t.launched
  {
  }

  /** The last answer about the command was to an undo. */
  ghost predicate StoppedLast(answers: seq<Answer>, command: Uuid) {
    LastAbout(answers, command).Some? && LastAbout(answers, command).value.StopReply?
  }

  /**
   * What the node holds for a device task in any state of the task, whatever was delivered, however often and at
   * whatever readings. Its command is recorded exactly when the last answer about it was to its launch, that is, when
   * some launch of it was answered and no undo after that; it is then recorded for the task. It is gone exactly when
   * the last answer was to an undo. A task that is not COMPLETED cannot be undone any more.
   */
  lemma RecordIsExact(root: Path, files: Files, nodeId: string, s: System, id: Uuid)
    requires SystemReached(root, files, nodeId, s)
    requires id in s.core.tasks && IsDeviceTask(s.core.tasks[id])
    ensures var t, table, answers := s.core.tasks[id], s.node.table, s.node.answers;
            && t.taskId == id
            && (CommandOf(t) in table.launched <==> LaunchedLast(answers, CommandOf(t)))
            && (LaunchedLast(answers, CommandOf(t)) <==> SomeStands(answers, CommandOf(t)))
            && (CommandOf(t) in table.launched ==> table.launched[CommandOf(t)].task == id)
            && (IsGone(table, CommandOf(t)) <==> StoppedLast(answers, CommandOf(t)))
            && (t.state != Completed ==> forall session :: RollbackRefusal(s.core, id, session).Some?)
  {
    hide SystemReached, CoreInv, TaskInv, NodeInv, UniqueCommands, SentFits, DeviceTasksHold, CommandOf, LastAbout;
    hide IsGone, SomeStands, TableInv;
    SystemReachedHolds(root, files, nodeId, s);
    TaskUnderItsId(files, s.core, id);
    var t := s.core.tasks[id];
    LaunchedLastStands(s.node.answers, CommandOf(t));
    NodeFollows(s.sent, s.node, CommandOf(t));
    UnrecordedIsGone(s.node.table, CommandOf(t));
    if CommandOf(t) in s.node.table.launched {
      RecordedTask(s, t);
    }
  }

  lemma NodeFollows(sent: Sent, n: Node, c: Uuid)
    requires NodeInv(sent, n)
    ensures c in n.table.launched <==> LaunchedLast(n.answers, c)
    ensures c in n.table.latest <==> LastAbout(n.answers, c).Some?
  {
    hide TableInv, GuardHolds, QueueIsGenuine, AnswersFit, AnswersName, StopsFollow, RecordsGenuine, AnswersCounted;
    hide LastAbout;
    assert RecordsFollow(n.table, n.answers);
  }

  /** A record is of the task that its command belongs to. */
  lemma RecordedTask(s: System, t: Task)
    requires NodeInv(s.sent, s.node) && SentFits(s.core, s.sent)
    requires t.taskId in s.core.tasks && s.core.tasks[t.taskId] == t && IsDeviceTask(t)
    requires CommandOf(t) in s.node.table.launched
    ensures s.node.table.launched[CommandOf(t)].task == t.taskId
  {
    hide TableInv, GuardHolds, QueueIsGenuine, AnswersFit, RecordsFollow, AnswersName, StopsFollow, AnswersCounted;
    hide SentFits, TargetNode;
    var table := s.node.table;
    assert LaunchSent(s.sent, CommandOf(t), table.launched[CommandOf(t)].task);
    var nonce :| && nonce in s.sent && s.sent[nonce].CommandEnvelope? && s.sent[nonce].command == CommandOf(t)
                 && s.sent[nonce].task == table.launched[CommandOf(t)].task;
    OwnEnvelopes(s.core, s.sent, t, nonce);
  }

  /**
   * What tasks and node agree on. A completed device task has its own command recorded, for itself, and its receipt
   * names the very process that is recorded; a rolled back one has no record, and the process started for it is dead.
   */
  ghost predicate MatchesNode(t: Task, table: Table)
    requires IsDeviceTask(t)
  {
    var command := CommandOf(t);
    && (t.state == Completed ==>
          && command in table.launched
          && table.launched[command].task == t.taskId
          && |t.results| == 1
          && |t.results[0].evidence| == 1
          && t.results[0].evidence[0].DeviceEvidence?
          && var launch := t.results[0].evidence[0].launch;
             && launch.commandId == command
             && launch.processId == table.launched[command].processId
             && launch.startedAt == table.launched[command].startedAt)
    && (t.state == RolledBack ==> IsGone(table, command))
  }

  /** An undo of the command was answered, then a launch of it again, and no undo after that. */
  ghost predicate AnsweredAgain(answers: seq<Answer>, command: Uuid) {
    exists i, j :: && 0 <= i < j < |answers|
                   && answers[i].reply.StopReply? && About(answers[i].reply) == command
                   && StillStands(answers, j, command)
  }

  /**
   * Whatever the channel loses, delays or repeats and whatever the node's clock reads, in every reachable state tasks
   * and node agree on every device task, except exactly on those that are ROLLED_BACK and whose launch was answered
   * again after the undo.
   */
  lemma DeviceTasksMatchNode(root: Path, files: Files, nodeId: string, s: System, id: Uuid)
    requires SystemReached(root, files, nodeId, s)
    requires id in s.core.tasks && IsDeviceTask(s.core.tasks[id])
    ensures var t := s.core.tasks[id];
            MatchesNode(t, s.node.table) <==>
              !(t.state == RolledBack && AnsweredAgain(s.node.answers, CommandOf(t)))
  {
    hide SystemReached, CoreInv, TaskInv, NodeInv, UniqueCommands, SentFits, LaunchWasAnswered, StopWasAnswered;
    hide CommandOf, IsGone, LaunchedLast, StoppedLast, SomeStands, AnsweredAgain, RollbackRefusal;
    SystemReachedHolds(root, files, nodeId, s);
    RecordIsExact(root, files, nodeId, s, id);
    TaskUnderItsId(files, s.core, id);
    var t := s.core.tasks[id];
    assert DeviceTaskHolds(s.sent, s.node, t);
    if t.state == Completed {
      CompletedStands(s, t);
    } else if t.state == RolledBack {
      StopOfTask(s, t);
      StoppedOrAgain(s.node.answers, CommandOf(t));
    }
  }

  lemma CompletedIsNotUndone(t: Task)
    requires TaskInv(t) && IsDeviceTask(t) && t.state == Completed
    ensures !WasUndone(t) && |t.results| == 1
  {
    hide PlanKept, ApprovalKept, Traced, EvidenceBinds;
  }

  /** The answer that a completed device task reports stands, and names the recorded process. */
  lemma CompletedStands(s: System, t: Task)
    requires ChannelInv(s) && SentFits(s.core, s.sent) && TaskInv(t) && t.state == Completed
    requires t.taskId in s.core.tasks && s.core.tasks[t.taskId] == t && IsDeviceTask(t)
    requires LaunchWasAnswered(s.sent, s.node, t)
    ensures |t.results| == 1 && |t.results[0].evidence| == 1 && t.results[0].evidence[0].DeviceEvidence?
    ensures CommandOf(t) in s.node.table.launched
    ensures var launch, record := t.results[0].evidence[0].launch, s.node.table.launched[CommandOf(t)];
            && launch.commandId == CommandOf(t)
            && launch.processId == record.processId && launch.startedAt == record.startedAt
  {
    hide TaskInv, TargetNode, TableInv, GuardHolds, QueueIsGenuine, RecordsFollow, StopsFollow, RecordsGenuine;
    hide AnswersCounted, SentFits, UniqueCommands, WasUndone;
    CompletedIsNotUndone(t);
    ReportedCommand(s, t);
    var answers := s.node.answers;
    var i :| AnsweredBy(s.sent, s.node, t.taskId, i)
             && answers[i].reply == LaunchReply(t.results[0].evidence[0].launch);
    forall j | 0 <= j < |answers| && answers[j].reply.StopReply?
      ensures About(answers[j].reply) != CommandOf(t)
    {
      OwnEnvelopes(s.core, s.sent, t, answers[j].nonce);
    }
    assert StillStands(answers, i, CommandOf(t));
  }

  /** An undo of a rolled back task's command was answered. */
  lemma StopOfTask(s: System, t: Task)
    requires ChannelInv(s) && SentFits(s.core, s.sent)
    requires t.taskId in s.core.tasks && s.core.tasks[t.taskId] == t && IsDeviceTask(t)
    requires StopWasAnswered(s.sent, s.node, t)
    ensures StopAnswered(s.node.answers, CommandOf(t))
  {
    hide TargetNode, TableInv, GuardHolds, QueueIsGenuine, RecordsFollow, AnswersName, StopsFollow, RecordsGenuine;
    hide AnswersCounted, SentFits, UniqueCommands, WasUndone;
    var i :| AnsweredBy(s.sent, s.node, t.taskId, i) && s.node.answers[i].reply.StopReply?;
    OwnEnvelopes(s.core, s.sent, t, s.node.answers[i].nonce);
  }

  /** Once an undo was answered, it was the last answer, or a launch was answered again after it. */
  lemma StoppedOrAgain(answers: seq<Answer>, command: Uuid)
    requires StopAnswered(answers, command)
    ensures StoppedLast(answers, command) <==> !AnsweredAgain(answers, command)
    ensures LaunchedLast(answers, command) <==> AnsweredAgain(answers, command)
  {
    hide LastAbout;
    LaunchedLastStands(answers, command);
    SomeAnswerIsLast(answers, command);
    var i :| 0 <= i < |answers| && answers[i].reply.StopReply? && About(answers[i].reply) == command;
    if SomeStands(answers, command) {
      var j :| 0 <= j < |answers| && StillStands(answers, j, command);
      assert i < j;
    }
  }

  /* When a task's launch was admitted once. */

  /** No envelope that launches for the task was admitted twice. */
  ghost predicate LaunchAdmittedOnce(s: System, id: Uuid) {
    forall nonce :: nonce in s.sent && s.sent[nonce].CommandEnvelope? && s.sent[nonce].task == id ==>
                      Admissions(s.node.attempts, |s.node.attempts|, nonce) <= 1
  }

  /**
   * When the node admitted a task's launch once at most, whatever it admitted of others: tasks and node agree on the
   * task, and its command is recorded exactly when its launch was answered and no undo of it was.
   */
  lemma AdmittedOnceMatchesNode(root: Path, files: Files, nodeId: string, s: System, id: Uuid)
    requires SystemReached(root, files, nodeId, s) && LaunchAdmittedOnce(s, id)
    requires id in s.core.tasks && IsDeviceTask(s.core.tasks[id])
    ensures var t, answers := s.core.tasks[id], s.node.answers;
            && MatchesNode(t, s.node.table)
            && (CommandOf(t) in s.node.table.launched <==>
                  LaunchAnswered(answers, CommandOf(t)) && !StopAnswered(answers, CommandOf(t)))
  {
    hide SystemReached, CoreInv, TaskInv, NodeInv, UniqueCommands, SentFits, LaunchAnswered, StopAnswered, MatchesNode;
    hide DeviceTasksHold, CommandOf, IsGone, LaunchedLast, SomeStands, LaunchAdmittedOnce, RollbackRefusal;
    SystemReachedHolds(root, files, nodeId, s);
    RecordIsExact(root, files, nodeId, s, id);
    DeviceTasksMatchNode(root, files, nodeId, s, id);
    var t := s.core.tasks[id];
    OnceMeansNotAgain(s, t);
  }

  lemma OnceMeansNotAgain(s: System, t: Task)
    requires ChannelInv(s) && SentFits(s.core, s.sent) && LaunchAdmittedOnce(s, t.taskId)
    requires t.taskId in s.core.tasks && s.core.tasks[t.taskId] == t && IsDeviceTask(t)
    ensures var c, answers := CommandOf(t), s.node.answers;
            && (LaunchedLast(answers, c) <==> LaunchAnswered(answers, c) && !StopAnswered(answers, c))
            && !AnsweredAgain(answers, c)
  {
    hide NodeInv, UniqueCommands, SentFits, TargetNode, WasUndone, LastAbout;
    var c, answers := CommandOf(t), s.node.answers;
    LaunchedLastStands(answers, c);
    if SomeStands(answers, c) || LaunchAnswered(answers, c) {
      var i :| 0 <= i < |answers| && answers[i].reply.LaunchReply? && About(answers[i].reply) == c;
      AnswerWasSent(s.sent, s.node, i);
      OwnEnvelopes(s.core, s.sent, t, answers[i].nonce);
      var nonce := answers[i].nonce;
      assert answers[i].reply.launch.commandId == About(answers[i].reply) == c;
      assert s.sent[nonce].CommandEnvelope? && s.sent[nonce].command == c;
      AdmittedOnceDecides(s.sent, s.node, nonce);
    }
  }

  lemma AnswerWasSent(sent: Sent, n: Node, i: nat)
    requires NodeInv(sent, n) && i < |n.answers|
    ensures n.answers[i].nonce in sent && ReplyFits(sent[n.answers[i].nonce], n.answers[i].reply)
  {
    hide TableInv, GuardHolds, QueueIsGenuine, RecordsFollow, AnswersName, StopsFollow, RecordsGenuine, AnswersCounted;
    hide ReplyFits;
  }

  /** When the node's readings do not go back in lock order, it admits each launch once, and agreement is complete. */
  lemma OrderedReadingsMatchNode(root: Path, files: Files, nodeId: string, s: System, id: Uuid)
    requires SystemReached(root, files, nodeId, s)
    requires ClockHolds(s.node.attempts, |s.node.attempts|)
    requires id in s.core.tasks && IsDeviceTask(s.core.tasks[id])
    ensures LaunchAdmittedOnce(s, id) && MatchesNode(s.core.tasks[id], s.node.table)
  {
    hide SystemReached, CoreInv, NodeInv, UniqueCommands, SentFits, DeviceTasksHold, ClockHolds, MatchesNode;
    hide AdmittedOnce, CommandOf;
    SystemReachedHolds(root, files, nodeId, s);
    OrderedClockAdmitsOnce(s.sent, s.node);
    forall nonce
      ensures Admissions(s.node.attempts, |s.node.attempts|, nonce) <= 1
    {
      AdmittedOnceCounts(s.node.attempts, |s.node.attempts|, nonce);
    }
    AdmittedOnceMatchesNode(root, files, nodeId, s, id);
  }

  /** Two device tasks have different commands, and different processes. */
  lemma DeviceTasksAreApart(root: Path, files: Files, nodeId: string, s: System, a: Uuid, b: Uuid)
    requires SystemReached(root, files, nodeId, s)
    requires a in s.core.tasks && b in s.core.tasks && a != b
    requires IsDeviceTask(s.core.tasks[a]) && IsDeviceTask(s.core.tasks[b])
    ensures var x, y, latest := CommandOf(s.core.tasks[a]), CommandOf(s.core.tasks[b]), s.node.table.latest;
            x != y && (x in latest && y in latest ==> latest[x] != latest[y])
  {
    hide SystemReached, CoreInv, UniqueCommands, NodeInv, SentFits, DeviceTasksHold, TaskInv, TargetNode, RecordsFit;
    SystemReachedHolds(root, files, nodeId, s);
    TaskUnderItsId(files, s.core, a);
    TaskUnderItsId(files, s.core, b);
  }

  /* The envelopes are the calls that the core makes. */

  /** The calls to the device client among recorded entries. */
  function DeviceCalls(entries: seq<Entry>): seq<Entry> {
    if entries == [] then []
    else if entries[0].LaunchCall? || entries[0].DeviceRollbackCall? then [entries[0]] + DeviceCalls(entries[1..])
    else DeviceCalls(entries[1..])
  }

  function CallOf(e: Envelope): Entry {
    match e
    case CommandEnvelope(_, task, _, target, _, _, _) => LaunchCall(task, target)
    case RollbackEnvelope(_, task, command, target, _, _, _) => DeviceRollbackCall(task, command, target)
  }

  ghost function ExpectedCalls(request: Option<Envelope>): seq<Entry> {
    if request.Some? then [CallOf(request.value)] else []
  }

  lemma Appended(log: seq<Entry>, extra: seq<Entry>, log': seq<Entry>)
    requires log' == log + extra
    ensures log <= log' && log'[|log|..] == extra
  {
  }

  lemma SingleCall(e: Entry)
    ensures DeviceCalls([e]) == if e.LaunchCall? || e.DeviceRollbackCall? then [e] else []
    ensures forall d: Entry :: d.Decided? ==> DeviceCalls([d, e]) == DeviceCalls([e])
  {
    forall d: Entry | d.Decided?
      ensures DeviceCalls([d, e]) == DeviceCalls([e])
    {
      assert [d, e][1..] == [e];
    }
  }

  /** While the core performs a command, an envelope is sent exactly when it calls the device client, for that call. */
  lemma RequestIsTheCall(initial: Files, c: Core, command: Command, contact: Contact, reply: Option<Reply>)
    requires CoreInv(initial, c) && WellFormed(command)
    ensures var log, log' := c.log, Perform(c, WithReply(command, reply)).0.log;
            log <= log' && DeviceCalls(log'[|log|..]) == ExpectedCalls(RequestOf(c, command, contact))
  {
    hide CoreInv, ApproveTask, RollbackTask, CreateTask, Launches, Stops;
    var answered := WithReply(command, reply);
    match command
    case Create(request, session, intent, token, clock, _) =>
      CreatingCallsNothing(c, request, session, intent, token, clock, answered.env);
    case Decide(id, decision, session, channel, clock, _) =>
      DecidingCalls(initial, c, id, decision, session, channel, clock, answered.env);
    case Rollback(id, session, clock, _) => UndoingCalls(initial, c, id, session, clock, answered.env);
  }

  lemma CreatingCallsNothing(
    c: Core, request: TaskRequest, session: IdentitySession, intent: Intent, token: string, clock: Clock,
    env: Environment)
    requires intent.Classified()
    ensures var log' := CreateTask(c, request, session, intent, token, clock, env).0.log;
            c.log <= log' && DeviceCalls(log'[|c.log|..]) == []
  {
    hide NewTask, TaskInv, RecordReceipt;
    if request.requestId !in c.requestIndex && SessionMatches(session, request.sessionId) {
      NewTaskFits(request, session, intent, token, clock, env, c.root, c.files);
      var made := NewTask(request, session, intent, token, clock, env, c.root, c.files);
      Appended(c.log, made.entries, CreateTask(c, request, session, intent, token, clock, env).0.log);
    }
  }

  /** What a decision adds to the record. */
  ghost function DecisionEntries(
    c: Core, id: Uuid, decision: ApprovalDecision, session: IdentitySession, channel: ApprovalChannel, clock: Clock,
    env: Environment): seq<Entry>
  {
    if || EarlyRefusal(c, id, decision, session, channel).Some?
       || c.tasks[id].approval.value.expiresAt <= clock.now
       || LateRefusal(c.tasks[id].approval.value, decision).Some? then []
    else if decision.decision == Reject then [Decided(id, decision, session, channel, clock.now)]
    else [Decided(id, decision, session, channel, clock.now)] + GrantedRun(c, c.tasks[id], clock, env).calls
  }

  lemma DecisionIsRecorded(
    c: Core, id: Uuid, decision: ApprovalDecision, session: IdentitySession, channel: ApprovalChannel, clock: Clock,
    env: Environment)
    ensures var log', extra := ApproveTask(c, id, decision, session, channel, clock, env).0.log,
                               DecisionEntries(c, id, decision, session, channel, clock, env);
            c.log <= log' && log'[|c.log|..] == extra
  {
    hide RecordReceipt, GrantedRun, LateRefusal, Spend;
    var log' := ApproveTask(c, id, decision, session, channel, clock, env).0.log;
    Appended(c.log, DecisionEntries(c, id, decision, session, channel, clock, env), log');
  }

  lemma DecidingCalls(
    initial: Files, c: Core, id: Uuid, decision: ApprovalDecision, session: IdentitySession, channel: ApprovalChannel,
    clock: Clock, env: Environment)
    requires CoreInv(initial, c)
    ensures var log' := ApproveTask(c, id, decision, session, channel, clock, env).0.log;
            && c.log <= log'
            && DeviceCalls(log'[|c.log|..]) ==
               if Launches(c, id, decision, session, channel, clock.now)
               then [LaunchCall(id, TargetNode(c.tasks[id].plan.steps[0]))] else []
  {
    hide CoreInv, TaskInv, ApproveTask, GrantedRun, LateRefusal, IsNoteStep, IsNotepadStep, TargetNode, RebuiltNote;
    hide DeviceCalls;
    DecisionIsRecorded(c, id, decision, session, channel, clock, env);
    NoCalls();
    SingleCall(Decided(id, decision, session, channel, clock.now));
    if EarlyRefusal(c, id, decision, session, channel).None? {
      TaskUnderItsId(initial, c, id);
      GrantingCalls(c, c.tasks[id], Decided(id, decision, session, channel, clock.now), clock, env);
    }
  }

  lemma GrantingCalls(c: Core, t: Task, decided: Entry, clock: Clock, env: Environment)
    requires TaskInv(t) && t.state == AwaitingApproval && t.approval.Some? && decided.Decided?
    ensures |t.plan.steps| == 1
    ensures DeviceCalls([decided] + GrantedRun(c, t, clock, env).calls) ==
            if IsDeviceTask(t) then [LaunchCall(t.taskId, TargetNode(t.plan.steps[0]))] else []
  {
    hide TaskInv, GrantedRun, IsNoteStep, IsNotepadStep, TargetNode, RebuiltNote, DeviceCalls;
    WaitingPlan(t);
    NoteStepCreates(t.plan.steps[0]);
    if IsNoteStep(t.plan.steps[0]) {
      GrantedNote(c, t, clock, env);
    } else {
      GrantedLaunch(c, t, clock, env);
    }
    var call := GrantedRun(c, t, clock, env).calls[0];
    SingleCall(call);
    assert [decided] + GrantedRun(c, t, clock, env).calls == [decided, call];
  }

  lemma NoCalls()
    ensures DeviceCalls([]) == []
  {
  }

  lemma UndoingCalls(initial: Files, c: Core, id: Uuid, session: IdentitySession, clock: Clock, env: Environment)
    requires CoreInv(initial, c)
    ensures var log' := RollbackTask(c, id, session, clock, env).0.log;
            && c.log <= log'
            && DeviceCalls(log'[|c.log|..]) ==
               if Stops(c, id, session) then
                 var launch := c.tasks[id].results[0].evidence[0].launch;
                 [DeviceRollbackCall(id, launch.commandId, launch.nodeId)]
               else []
  {
    hide CoreInv, TaskInv, RecordReceipt, RollbackRunFor, AddEvent, IsNoteStep, IsNotepadStep, UndoFits;
    hide RebuiltNote, DeviceCalls;
    NoCalls();
    assert c.log[|c.log|..] == [];
    if RollbackRefusal(c, id, session).None? {
      TaskUnderItsId(initial, c, id);
      var t := c.tasks[id];
      OnlyApprovedTasksAreReversible(t);
      NoteStepCreates(t.plan.steps[0]);
      UndoDoes(initial, c, t, clock, env);
      var run := RollbackRunFor(c, t, t.results[0], clock, env);
      if IsNoteStep(t.plan.steps[0]) {
        NoteFileIsThere(initial, c, id);
        UndoneNote(c, t, clock, env);
      } else {
        UndoneLaunch(c, t, clock, env);
      }
      SingleCall(run.calls[0]);
      assert run.calls == [run.calls[0]];
      Appended(c.log, run.calls, RollbackTask(c, id, session, clock, env).0.log);
    }
  }

  /* From the node's table back to the decision. */

  ghost predicate SentIsLogged(s: System) {
    forall nonce :: nonce in s.sent ==> CallOf(s.sent[nonce]) in s.core.log
  }

  lemma {:induction false} DeviceCallsAreEntries(entries: seq<Entry>, e: Entry)
    requires e in DeviceCalls(entries)
    ensures e in entries
  {
    if e != entries[0] {
      DeviceCallsAreEntries(entries[1..], e);
    }
  }

  lemma TakingLogs(initial: Files, s: System, command: SystemCommand)
    requires SystemInv(initial, s) && TableInv(s.node.table) && CanTake(s, command) && SentIsLogged(s)
    ensures SentIsLogged(SystemTake(s, command))
  {
    hide SystemInv, TableInv, NodeRun, RequestOf, Perform, CallOf, DeviceCalls, WithReply, WellFormed;
    if command.Submit? {
      var c, contact, request := s.core, command.contact, RequestOf(s.core, command.command, command.contact);
      CoreHolds(initial, s);
      var reply := if request.None? then None else ReplyOf(NodeAfterCall(s, request.value, contact), contact);
      RequestIsTheCall(initial, c, command.command, contact, reply);
      var log' := Perform(c, WithReply(command.command, reply)).0.log;
      if request.Some? {
        DeviceCallsAreEntries(log'[|c.log|..], CallOf(request.value));
      }
      assert forall e :: e in c.log ==> e in log';
    }
  }

  lemma {:induction false} RunLogs(initial: Files, s: System, commands: seq<SystemCommand>)
    requires SystemInv(initial, s) && TableInv(s.node.table) && CanRun(s, commands) && SentIsLogged(s)
    ensures SentIsLogged(SystemRun(s, commands))
  {
    hide SystemInv, SystemTake, CanTake, TableInv, SentIsLogged;
    if commands != [] {
      RunLogs(initial, s, commands[..|commands| - 1]);
      SystemRunKeeps(initial, s, commands[..|commands| - 1]);
      TakingLogs(initial, SystemRun(s, commands[..|commands| - 1]), commands[|commands| - 1]);
    }
  }

  lemma ReachedLogs(root: Path, files: Files, nodeId: string, s: System)
    requires SystemReached(root, files, nodeId, s)
    ensures SentIsLogged(s)
  {
    hide SystemInv, SystemTake, CanTake, TableInv;
    var start := InitialSystem(root, files, nodeId);
    StartHasTable(root, files, nodeId);
    InitialSystemHolds(root, files, nodeId);
    var commands :| CanRun(start, commands) && s == SystemRun(start, commands);
    RunLogs(files, start, commands);
  }

  /**
   * The entry launches the command, right after the approval that the task's session gave on the phone channel in
   * time.
   */
  ghost predicate LaunchedByPhone(c: Core, i: nat, command: Uuid)
    requires i < |c.log|
  {
    && 0 < i && c.log[i].LaunchCall? && command == CommandId(c.log[i].task, c.log[i].target)
    && c.log[i].task in c.tasks && c.log[i - 1].Decided?
    && var t, d := c.tasks[c.log[i].task], c.log[i - 1];
       && IsDeviceTask(t) && CommandOf(t) == command
       && d.task == t.taskId
       && d.decision.decision == Approve
       && d.decision.payloadSha256 == PayloadSha256(t.plan.steps[0])
       && d.session == IdentitySession(t.sessionId, true)
       && d.channel == Phone
       && d.at < t.createdAt + 5 * MINUTE
  }

  /**
   * Every command that the node ever recorded, whatever was delivered and at whatever readings, is that of a task whose
   * launch the core has in its record directly after the task's own approval on the phone channel.
   */
  lemma RecordedWasApproved(root: Path, files: Files, nodeId: string, s: System, command: Uuid)
    requires SystemReached(root, files, nodeId, s) && command in s.node.table.latest
    ensures exists i :: 0 <= i < |s.core.log| && LaunchedByPhone(s.core, i, command)
  {
    hide SystemReached, CoreInv, NodeInv, UniqueCommands, SentFits, DeviceTasksHold, LaunchedByPhone, LastAbout;
    SystemReachedHolds(root, files, nodeId, s);
    ReachedLogs(root, files, nodeId, s);
    NodeFollows(s.sent, s.node, command);
    var nonce := LaunchOfRecorded(s.sent, s.node, command);
    var e := s.sent[nonce];
    var i :| 0 <= i < |s.core.log| && s.core.log[i] == CallOf(e);
    LaunchIsApproved(files, s.core, s.sent, nonce, i);
  }

  /** A command with an answer had its launch sent. */
  lemma LaunchOfRecorded(sent: Sent, n: Node, command: Uuid) returns (nonce: string)
    requires NodeInv(sent, n) && LastAbout(n.answers, command).Some?
    ensures nonce in sent && sent[nonce].CommandEnvelope? && sent[nonce].command == command
  {
    hide NodeInv, LastAbout;
    SomeAnswerIsLast(n.answers, command);
    if StopAnswered(n.answers, command) {
      var j :| 0 <= j < |n.answers| && n.answers[j].reply.StopReply? && About(n.answers[j].reply) == command;
      UndosFollow(sent, n);
      var k :| 0 <= k < j && n.answers[..j][k].reply.LaunchReply? && About(n.answers[..j][k].reply) == command;
      assert n.answers[k] == n.answers[..j][k];
    }
    var i :| 0 <= i < |n.answers| && n.answers[i].reply.LaunchReply? && About(n.answers[i].reply) == command;
    AnswerWasSent(sent, n, i);
    nonce := n.answers[i].nonce;
    assert n.answers[i].reply.launch.commandId == About(n.answers[i].reply);
  }

  lemma LaunchIsApproved(initial: Files, c: Core, sent: Sent, nonce: string, i: nat)
    requires CoreInv(initial, c) && SentFits(c, sent) && nonce in sent && sent[nonce].CommandEnvelope?
    requires i < |c.log| && c.log[i] == CallOf(sent[nonce])
    ensures LaunchedByPhone(c, i, sent[nonce].command)
  {
    hide CoreInv, TaskInv, TargetNode, Authorised, WasExecuted, WasUndone, PayloadSha256, CarriesOut, Authorises;
    assert EnvelopeFits(c, sent[nonce]);
    EffectIsBound(initial, c, i);
    TaskUnderItsId(initial, c, c.log[i].task);
    AuthorisedFields(c.log, i, c.tasks[c.log[i].task]);
  }

  /* What a call over the channel comes to. */

  /**
   * A granted device task completes exactly when the answer that arrives is one of the node to its own envelope and
   * reports a running process, that is, when the process ran as the answer was given. It fails otherwise; which answer
   * arrives makes no difference to the node.
   */
  lemma LaunchOutcome(initial: Files, s: System, command: Command, contact: Contact)
    requires SystemInv(initial, s) && TableInv(s.node.table) && CanTake(s, Submit(command, contact))
    requires command.Decide?
    requires Launches(s.core, command.id, command.decision, command.session, command.channel, command.clock.now)
    ensures var s' := SystemTake(s, Submit(command, contact));
            && command.id in s'.core.tasks
            && var t, reply := s'.core.tasks[command.id], ReplyOf(s'.node, contact);
               && (t.state == Completed <==>
                     reply.Some? && reply.value.LaunchReply? && reply.value.launch.verifiedRunning)
               && (t.state == Completed <==> reply.Some? && s'.node.answers[contact.arrives.value].running)
               && (t.state != Completed ==> t.state == Failed)
               && s'.node == SystemTake(s, Submit(command, contact.(arrives := None))).node
  {
    hide SystemInv, Launches, NodeRun, ApproveTask, TargetNode, TableInv;
    var request := RequestOf(s.core, command, contact);
    var n := NodeAfterCall(s, request.value, contact);
    ArrivingTellsRunning(initial, s, Submit(command, contact));
    CoreHolds(initial, s);
    GrantedOutcome(
      initial, s.core, command.id, command.decision, command.session, command.channel, command.clock,
      WithReply(command, ReplyOf(n, contact)).env);
  }

  /** An answer to a command envelope reports a running process exactly when it ran; to an undo it never did. */
  lemma AnswerRunning(sent: Sent, n: Node, i: nat)
    requires NodeInv(sent, n) && i < |n.answers|
    ensures var a := n.answers[i];
            && a.nonce in sent
            && (sent[a.nonce].CommandEnvelope? <==> a.reply.LaunchReply?)
            && (a.running <==> a.reply.LaunchReply? && a.reply.launch.verifiedRunning)
  {
    hide TableInv, GuardHolds, QueueIsGenuine, RecordsFollow, AnswersName, StopsFollow, RecordsGenuine, AnswersCounted;
  }

  lemma ArrivingTellsRunning(initial: Files, s: System, command: SystemCommand)
    requires SystemInv(initial, s) && TableInv(s.node.table) && CanTake(s, command) && command.Submit?
    ensures var n, contact := SystemTake(s, command).node, command.contact;
            ReplyOf(n, contact).Some? ==>
              && contact.arrives.Some? && contact.arrives.value < |n.answers|
              && var a := n.answers[contact.arrives.value];
                 && a.reply == ReplyOf(n, contact).value
                 && (a.running <==> a.reply.LaunchReply? && a.reply.launch.verifiedRunning)
  {
    hide SystemInv, SystemTake, TableInv, NodeInv, CanTake;
    SystemTakeKeeps(initial, s, command);
    InvHasChannel(initial, SystemTake(s, command));
    var n := SystemTake(s, command).node;
    if ReplyOf(n, command.contact).Some? {
      AnswerRunning(SystemTake(s, command).sent, n, command.contact.arrives.value);
    }
  }

  /** A completed device task's evidence is an answer that the node gave to its envelope while its process ran. */
  lemma CompletedWasRunning(root: Path, files: Files, nodeId: string, s: System, id: Uuid)
    requires SystemReached(root, files, nodeId, s)
    requires id in s.core.tasks && IsDeviceTask(s.core.tasks[id]) && s.core.tasks[id].state == Completed
    ensures var t, answers := s.core.tasks[id], s.node.answers;
            && |t.results| == 1 && |t.results[0].evidence| == 1 && t.results[0].evidence[0].DeviceEvidence?
            && exists i :: && AnsweredBy(s.sent, s.node, id, i)
                           && answers[i].reply == LaunchReply(t.results[0].evidence[0].launch)
                           && answers[i].running
  {
    hide SystemReached, CoreInv, TaskInv, NodeInv, UniqueCommands, SentFits;
    SystemReachedHolds(root, files, nodeId, s);
    TaskUnderItsId(files, s.core, id);
    var t := s.core.tasks[id];
    assert DeviceTaskHolds(s.sent, s.node, t);
    CompletedIsNotUndone(t);
    CompletedReportsRunning(t);
    var i :| && AnsweredBy(s.sent, s.node, id, i)
             && s.node.answers[i].reply == LaunchReply(t.results[0].evidence[0].launch);
    AnswerRunning(s.sent, s.node, i);
  }

  lemma CompletedReportsRunning(t: Task)
    requires TaskInv(t) && IsDeviceTask(t) && t.state == Completed
    ensures |t.results| == 1 && |t.results[0].evidence| == 1 && t.results[0].evidence[0].DeviceEvidence?
    ensures t.results[0].evidence[0].launch.verifiedRunning
  {
    hide PlanKept, ApprovalKept, Traced;
  }

  lemma CoreHolds(initial: Files, s: System)
    requires SystemInv(initial, s)
    ensures CoreInv(initial, s.core)
  {
    hide CoreInv, ChannelInv, SentFits, DeviceTasksHold;
  }

  lemma GrantedOutcome(
    initial: Files, c: Core, id: Uuid, decision: ApprovalDecision, session: IdentitySession, channel: ApprovalChannel,
    clock: Clock, env: Environment)
    requires CoreInv(initial, c) && Launches(c, id, decision, session, channel, clock.now)
    ensures var c' := ApproveTask(c, id, decision, session, channel, clock, env).0;
            && id in c'.tasks
            && (c'.tasks[id].state == Completed <==> env.launchReply.Some? && env.launchReply.value.verifiedRunning)
            && (c'.tasks[id].state != Completed ==> c'.tasks[id].state == Failed)
  {
    hide CoreInv, TaskInv, RecordReceipt, GrantedRun, LateRefusal, AddEvent, IsNoteStep, IsNotepadStep, TargetNode;
    TaskUnderItsId(initial, c, id);
    var t := c.tasks[id];
    WaitingPlan(t);
    NoteStepCreates(t.plan.steps[0]);
    GrantedLaunch(c, t, clock, env);
    GrantFits(c, t, clock, env);
  }

  /** An undo of a device task goes through exactly when an answer of the node to its envelope arrives. */
  lemma UndoOutcome(initial: Files, s: System, command: Command, contact: Contact)
    requires SystemInv(initial, s) && TableInv(s.node.table) && CanTake(s, Submit(command, contact))
    requires command.Rollback? && Stops(s.core, command.id, command.session)
    ensures var s' := SystemTake(s, Submit(command, contact));
            && command.id in s'.core.tasks
            && var t := s'.core.tasks[command.id];
               && (t.state == RolledBack <==> ReplyOf(s'.node, contact).Some?)
               && (t.state != RolledBack ==> t.state == Failed)
  {
    hide SystemInv, Stops, NodeRun, RollbackTask, TableInv;
    SystemTakeKeeps(initial, s, Submit(command, contact));
    var s' := SystemTake(s, Submit(command, contact));
    if ReplyOf(s'.node, contact).Some? {
      InvHasChannel(initial, s');
      AnswerWasSent(s'.sent, s'.node, contact.arrives.value);
    }
    CoreHolds(initial, s);
    UndoneOutcome(
      initial, s.core, command.id, command.session, command.clock, WithReply(command, ReplyOf(s'.node, contact)).env);
  }

  lemma InvHasChannel(initial: Files, s: System)
    requires SystemInv(initial, s)
    ensures NodeInv(s.sent, s.node)
  {
    hide CoreInv, NodeInv, UniqueCommands, SentFits, DeviceTasksHold;
  }

  lemma UndoneOutcome(
    initial: Files, c: Core, id: Uuid, session: IdentitySession, clock: Clock, env: Environment)
    requires CoreInv(initial, c) && Stops(c, id, session)
    ensures var c' := RollbackTask(c, id, session, clock, env).0;
            && id in c'.tasks
            && (c'.tasks[id].state == RolledBack <==>
                  env.rollbackReply.Some? && env.rollbackReply.value.verifiedAbsent)
            && (c'.tasks[id].state != RolledBack ==> c'.tasks[id].state == Failed)
  {
    hide CoreInv, TaskInv, RecordReceipt, RollbackRunFor, AddEvent, IsNoteStep, IsNotepadStep, UndoFits;
    TaskUnderItsId(initial, c, id);
    var t := c.tasks[id];
    OnlyApprovedTasksAreReversible(t);
    NoteStepCreates(t.plan.steps[0]);
    UndoneLaunch(c, t, clock, env);
  }

  /* One task's envelopes leave the others alone. */

  /** Nothing that the node keeps about a command differs: its record, its process, and whether that runs. */
  ghost predicate SameFor(t: Table, t': Table, command: Uuid)
    requires TableInv(t) && TableInv(t')
  {
    && (command in t.latest <==> command in t'.latest)
    && (command in t.launched <==> command in t'.launched)
    && (command in t.launched ==> t'.launched[command] == t.launched[command])
    && (command in t.latest ==>
          t'.latest[command] == t.latest[command] && t'.alive[t'.latest[command]] == t.alive[t.latest[command]])
  }

  /**
   * Handling one task's envelope, to launch or to undo, touches no record and no process of another task, whatever the
   * clock reads.
   */
  lemma HandlingTouchesOwnTask(
    root: Path, files: Files, nodeId: string, s: System, i: nat, m: Machine, id: Uuid)
    requires SystemReached(root, files, nodeId, s)
    requires i < |s.node.pending|
    requires id in s.core.tasks && IsDeviceTask(s.core.tasks[id]) && id != s.node.pending[i].task
    ensures TableInv(s.node.table) && TableInv(HandleAt(s.node, i, m).table)
    ensures SameFor(s.node.table, HandleAt(s.node, i, m).table, CommandOf(s.core.tasks[id]))
  {
    hide SystemReached, CoreInv, TaskInv, DeviceTasksHold, TargetNode, TableInv, GuardHolds, RecordsHold, SameFor;
    hide WasExecuted, WasUndone, WasAdmitted, LaunchOn, RollbackOn, UniqueCommands, AnswersCounted;
    SystemReachedHolds(root, files, nodeId, s);
    TaskUnderItsId(files, s.core, id);
    var e := s.node.pending[i];
    assert EnvelopeFits(s.core, s.sent[e.nonce]);
    HandlingLeavesOthers(s.node.table, e, m, CommandOf(s.core.tasks[id]));
  }

  lemma HandlingLeavesOthers(t: Table, e: Envelope, m: Machine, command: Uuid)
    requires TableInv(t) && command != e.command
    ensures TableInv(HandleEnvelope(t, e, m).1)
    ensures SameFor(t, HandleEnvelope(t, e, m).1, command)
  {
    hide TableInv, SameFor, LaunchOn, RollbackOn;
    if e.CommandEnvelope? {
      LaunchLeavesOthers(t, e.task, e.command, e.target, m, command);
      if e.capability != LaunchNotepad {
        Unchanged(t, command);
      }
    } else {
      RollbackLeavesOthers(t, e.rollback, e.task, e.command, e.target, m, command);
    }
  }

  lemma Unchanged(t: Table, command: Uuid)
    requires TableInv(t)
    ensures SameFor(t, t, command)
  {
  }

  lemma ProcessesAreApart(t: Table, a: Uuid, b: Uuid)
    requires TableInv(t) && a != b
    ensures a in t.latest ==> t.latest[a] < |t.alive|
    ensures a in t.latest && b in t.launched ==> t.latest[a] != t.launched[b].handle
  {
  }

  lemma LaunchLeavesOthers(t: Table, task: Uuid, own: Uuid, target: string, m: Machine, command: Uuid)
    requires TableInv(t) && command != own
    ensures TableInv(LaunchOn(t, task, own, target, m).1)
    ensures SameFor(t, LaunchOn(t, task, own, target, m).1, command)
  {
    hide TableInv;
    LaunchKeepsInv(t, task, own, target, m);
    ProcessesAreApart(t, command, own);
  }

  lemma RollbackLeavesOthers(
    t: Table, rollback: Uuid, task: Uuid, own: Uuid, target: string, m: Machine, command: Uuid)
    requires TableInv(t) && command != own
    ensures TableInv(RollbackOn(t, rollback, task, own, target, m).1)
    ensures SameFor(t, RollbackOn(t, rollback, task, own, target, m).1, command)
  {
    hide TableInv;
    RollbackKeepsInv(t, rollback, task, own, target, m);
    ProcessesAreApart(t, command, own);
  }
}
