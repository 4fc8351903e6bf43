/**
 * The device node as a whole: it admits signed envelopes, handles the admitted ones in any order, and answers. The
 * network may lose, delay and repeat what the core sent, and may deliver forged envelopes; clock readings are
 * arbitrary.
 */
module DeviceNode {
  import opened Domain
  import opened NonceCache
  import opened ProcessTable

  datatype Envelope =
    | CommandEnvelope(
        command: Uuid, task: Uuid, capability: Capability, target: string, issuedAt: Instant, expiresAt: Instant,
        nonce: string)
    | RollbackEnvelope(
        rollback: Uuid, task: Uuid, command: Uuid, target: string, issuedAt: Instant, expiresAt: Instant,
        nonce: string)

  datatype Reply = LaunchReply(launch: LaunchEvidence) | StopReply(stop: RollbackEvidence)

  /** An answer to the envelope with a nonce, and whether the process it is about ran when it was given. */
  datatype Answer = Answer(nonce: string, reply: Reply, running: bool)

  /** Everything the core has signed and sent, by nonce. */
  type Sent = map<string, Envelope>

  /**
   * The node: its table and nonce cache, every request it was asked to admit, the admitted envelopes that wait to be
   * handled, and the answers given, all in order.
   */
  datatype Node = Node(
    table: Table,
    seen: Seen,
    attempts: seq<Attempt>,
    pending: seq<Envelope>,
    answers: seq<Answer>)

  function EmptyNode(nodeId: string): Node {
    Node(EmptyTable(nodeId), map[], [], [], [])
  }

  /** A signature verifies exactly on an envelope that the core signed. */
  predicate Genuine(sent: Sent, e: Envelope) {
    e.nonce in sent && sent[e.nonce] == e
  }

  datatype NodeStep =
    | Deliver(envelope: Envelope, signed: bool, reading: Instant)
    | Handle(index: nat, m: Machine)
    | ProcessExit(handle: nat)

  function AttemptOf(sent: Sent, e: Envelope, signed: bool, reading: Instant): Attempt {
    Attempt(e.nonce, e.issuedAt, e.expiresAt, signed && Genuine(sent, e), reading)
  }

  function DeliverTo(sent: Sent, n: Node, e: Envelope, signed: bool, reading: Instant): Node {
    var attempt := AttemptOf(sent, e, signed, reading);
    var (admitted, seen) := Authorize(n.seen, attempt);
    n.(seen := seen,
       attempts := n.attempts + [attempt],
       pending := if admitted.Success? then n.pending + [e] else n.pending)
  }

  /** The table after handling an envelope, and the answer, if it is one. */
  function HandleEnvelope(t: Table, e: Envelope, m: Machine): (Option<Reply>, Table)
    requires TableInv(t)
  {
    match e
    case CommandEnvelope(command, task, capability, target, _, _, _) =>
      if capability != LaunchNotepad then (None, t)
      else
        var (r, after) := LaunchOn(t, task, command, target, m);
        (if r.Success? then Some(LaunchReply(r.value)) else None, after)
    case RollbackEnvelope(rollback, task, command, target, _, _, _) =>
      var (r, after) := RollbackOn(t, rollback, task, command, target, m);
      (if r.Success? then Some(StopReply(r.value)) else None, after)
  }

  function AnswerTo(e: Envelope, reply: Reply, t: Table): Answer {
    Answer(e.nonce, reply, IsRunning(t, e.command))
  }

  function HandleAt(n: Node, i: nat, m: Machine): Node
    requires TableInv(n.table)
    requires i < |n.pending|
  {
    var e := n.pending[i];
    var (reply, table) := HandleEnvelope(n.table, e, m);
    n.(table := table,
       pending := n.pending[..i] + n.pending[i + 1..],
       answers := if reply.Some? then n.answers + [AnswerTo(e, reply.value, table)] else n.answers)
  }

  function NodeTake(sent: Sent, n: Node, step: NodeStep): Node
    requires TableInv(n.table)
  {
    match step
    case Deliver(e, signed, reading) => DeliverTo(sent, n, e, signed, reading)
    case Handle(i, m) => if i < |n.pending| then HandleAt(n, i, m) else n
    case ProcessExit(handle) => n.(table := Exit(n.table, handle))
  }

  lemma NodeTakeKeepsTable(sent: Sent, n: Node, step: NodeStep)
    requires TableInv(n.table)
    ensures TableInv(NodeTake(sent, n, step).table)
  {
    hide TableInv, Authorize;
    match step
    case Deliver(_, _, _) =>
    case Handle(i, m) =>
      if i < |n.pending| {
        HandlingKeepsTable(n.table, n.pending[i], m);
      }
    case ProcessExit(handle) => ExitKeeps(n.table, handle);
  }

  lemma HandlingKeepsTable(t: Table, e: Envelope, m: Machine)
    requires TableInv(t)
    ensures TableInv(HandleEnvelope(t, e, m).1)
  {
    hide TableInv;
    match e
    case CommandEnvelope(command, task, _, target, _, _, _) => LaunchKeepsInv(t, task, command, target, m);
    case RollbackEnvelope(rollback, task, command, target, _, _, _) =>
      RollbackKeepsInv(t, rollback, task, command, target, m);
  }

  function NodeRun(sent: Sent, n: Node, steps: seq<NodeStep>): (n': Node)
    requires TableInv(n.table)
    ensures TableInv(n'.table)
    decreases |steps|
  {
    if steps == [] then n
    else
      NodeTakeKeepsTable(sent, n, steps[0]);
      NodeRun(sent, NodeTake(sent, n, steps[0]), steps[1..])
  }

  /* What holds of the node, whatever is delivered and whatever its clock reads. */

  /** A command is sent in one envelope only. */
  ghost predicate UniqueCommands(sent: Sent) {
    && (forall n :: n in sent ==> sent[n].nonce == n)
    && forall a, b :: (&& a in sent && b in sent && sent[a].CommandEnvelope? && sent[b].CommandEnvelope?
                       && sent[a].command == sent[b].command) ==> a == b
  }

  /** The cache is that of the requests, and the accepted ones carried what the core had sent. */
  ghost predicate GuardHolds(sent: Sent, seen: Seen, attempts: seq<Attempt>) {
    && seen == CacheAfter(attempts, |attempts|)
    && forall i :: 0 <= i < |attempts| && Accepts(attempts, i) ==>
                     attempts[i].nonce in sent && attempts[i].expiresAt == sent[attempts[i].nonce].expiresAt
  }

  ghost predicate WasAdmitted(attempts: seq<Attempt>, nonce: string) {
    exists i :: 0 <= i < |attempts| && Accepts(attempts, i) && attempts[i].nonce == nonce
  }

  /** What waits was sent by the core and admitted. */
  ghost predicate QueueIsGenuine(sent: Sent, n: Node) {
    forall i :: 0 <= i < |n.pending| ==> Genuine(sent, n.pending[i]) && WasAdmitted(n.attempts, n.pending[i].nonce)
  }

  /** An answer names the command, and the node, of the envelope it answers. */
  ghost predicate ReplyFits(e: Envelope, reply: Reply) {
    match e
    case CommandEnvelope(command, _, capability, target, _, _, _) =>
      && capability == LaunchNotepad
      && reply.LaunchReply? && reply.launch.commandId == command && reply.launch.nodeId == target
    case RollbackEnvelope(rollback, _, command, target, _, _, _) =>
      && reply.StopReply? && reply.stop.commandId == command && reply.stop.nodeId == target
      && reply.stop.rollbackId == rollback && reply.stop.verifiedAbsent
  }

  /** An answer to a launch reports a running process exactly when it ran then; after an undo it never does. */
  ghost predicate TellsRunning(a: Answer) {
    match a.reply
    case LaunchReply(launch) => launch.verifiedRunning <==> a.running
    case StopReply(_) => !a.running
  }

  ghost predicate AnswersFit(sent: Sent, answers: seq<Answer>) {
    forall i :: 0 <= i < |answers| ==>
                  && answers[i].nonce in sent && ReplyFits(sent[answers[i].nonce], answers[i].reply)
                  && TellsRunning(answers[i])
  }

  /** The command that an answer is about. */
  function About(reply: Reply): Uuid {
    match reply
    case LaunchReply(launch) => launch.commandId
    case StopReply(stop) => stop.commandId
  }

  /** The last answer about a command. */
  function LastAbout(answers: seq<Answer>, command: Uuid): Option<Reply> {
    if answers == [] then None
    else
      var last := answers[|answers| - 1].reply;
      if About(last) == command then Some(last) else LastAbout(answers[..|answers| - 1], command)
  }

  ghost predicate LaunchedLast(answers: seq<Answer>, command: Uuid) {
    LastAbout(answers, command).Some? && LastAbout(answers, command).value.LaunchReply?
  }

  /** A command is recorded exactly when the last answer about it was to a launch, and was ever when there is one. */
  ghost predicate RecordsFollow(t: Table, answers: seq<Answer>) {
    forall c: Uuid ::
      && (c in t.launched <==> LaunchedLast(answers, c))
      && (c in t.latest <==> LastAbout(answers, c).Some?)
  }

  /** The answer at a position is to a launch, and no undo of the same command was answered after it. */
  ghost predicate StillStands(answers: seq<Answer>, i: nat, command: Uuid)
    requires i < |answers|
  {
    && answers[i].reply.LaunchReply? && About(answers[i].reply) == command
    && forall j :: i < j < |answers| && answers[j].reply.StopReply? ==> About(answers[j].reply) != command
  }

  /** The record is the process that every standing answer named. */
  ghost predicate AnswersName(t: Table, answers: seq<Answer>) {
    forall c, i :: 0 <= i < |answers| && StillStands(answers, i, c) ==>
                     && c in t.launched
                     && t.launched[c].processId == answers[i].reply.launch.processId
                     && t.launched[c].startedAt == answers[i].reply.launch.startedAt
  }

  /** The command's launch was answered, and an undo of it was. */
  ghost predicate LaunchAnswered(answers: seq<Answer>, command: Uuid) {
    exists i :: 0 <= i < |answers| && answers[i].reply.LaunchReply? && About(answers[i].reply) == command
  }

  ghost predicate StopAnswered(answers: seq<Answer>, command: Uuid) {
    exists i :: 0 <= i < |answers| && answers[i].reply.StopReply? && About(answers[i].reply) == command
  }

  /** An undo of a command is answered only after a launch of it. */
  ghost predicate StopsFollow(answers: seq<Answer>) {
    forall j :: 0 <= j < |answers| && answers[j].reply.StopReply? ==>
                  LaunchAnswered(answers[..j], About(answers[j].reply))
  }

  /** The core sent an envelope to launch a command for a task. */
  ghost predicate LaunchSent(sent: Sent, command: Uuid, task: Uuid) {
    exists nonce :: nonce in sent && sent[nonce].CommandEnvelope? && sent[nonce].command == command
                    && sent[nonce].task == task
  }

  ghost predicate RecordsGenuine(sent: Sent, t: Table) {
    forall c :: c in t.launched ==> LaunchSent(sent, c, t.launched[c].task)
  }

  /* How often an envelope is admitted, waits and is answered. */

  function Admissions(attempts: seq<Attempt>, n: nat, nonce: string): nat
    requires n <= |attempts|
  {
    if n == 0 then 0
    else
      Admissions(attempts, n - 1, nonce) +
      if Accepts(attempts, n - 1) && attempts[n - 1].nonce == nonce then 1 else 0
  }

  function WaitingTimes(pending: seq<Envelope>, nonce: string): nat {
    if pending == [] then 0
    else WaitingTimes(pending[1..], nonce) + if pending[0].nonce == nonce then 1 else 0
  }

  function AnsweredTimes(answers: seq<Answer>, nonce: string): nat {
    if answers == [] then 0
    else AnsweredTimes(answers[..|answers| - 1], nonce) + if answers[|answers| - 1].nonce == nonce then 1 else 0
  }

  /** An envelope is answered at most as often as it was admitted. */
  ghost predicate AnswersCounted(n: Node) {
    forall nonce :: WaitingTimes(n.pending, nonce) + AnsweredTimes(n.answers, nonce) <=
                    Admissions(n.attempts, |n.attempts|, nonce)
  }

  ghost predicate RecordsHold(sent: Sent, t: Table, answers: seq<Answer>) {
    && AnswersFit(sent, answers)
    && RecordsFollow(t, answers)
    && AnswersName(t, answers)
    && StopsFollow(answers)
    && RecordsGenuine(sent, t)
  }

  ghost predicate NodeInv(sent: Sent, n: Node) {
    && TableInv(n.table)
    && GuardHolds(sent, n.seen, n.attempts)
    && QueueIsGenuine(sent, n)
    && RecordsHold(sent, n.table, n.answers)
    && AnswersCounted(n)
  }

  lemma EmptyNodeHolds(nodeId: string)
    ensures NodeInv(map[], EmptyNode(nodeId))
  {
  }

  /* Delivering. */

  lemma GuardTakes(sent: Sent, n: Node, e: Envelope, signed: bool, reading: Instant)
    requires GuardHolds(sent, n.seen, n.attempts)
    ensures var n' := DeliverTo(sent, n, e, signed, reading);
            && GuardHolds(sent, n'.seen, n'.attempts)
            && (Accepts(n'.attempts, |n.attempts|) <==> |n.pending| < |n'.pending|)
            && (|n.pending| < |n'.pending| ==> Genuine(sent, e))
  {
    hide Purge, CacheAfter;
    var attempt := AttemptOf(sent, e, signed, reading);
    var attempts := n.attempts + [attempt];
    LaterRequestsChangeNothing(n.attempts, [attempt], |n.attempts|);
    CacheTakes(attempts, |n.attempts|);
    forall i | 0 <= i < |n.attempts|
      ensures attempts[i] == n.attempts[i] && (Accepts(attempts, i) <==> Accepts(n.attempts, i))
    {
      LaterRequestsChangeNothing(n.attempts, [attempt], i);
    }
  }

  lemma CacheTakes(attempts: seq<Attempt>, n: nat)
    requires n < |attempts|
    ensures CacheAfter(attempts, n + 1) == Authorize(CacheAfter(attempts, n), attempts[n]).1
  {
  }

  lemma AdmittedStays(attempts: seq<Attempt>, more: seq<Attempt>, nonce: string)
    requires WasAdmitted(attempts, nonce)
    ensures WasAdmitted(attempts + more, nonce)
  {
    hide CacheAfter, Accepts;
    var i :| 0 <= i < |attempts| && Accepts(attempts, i) && attempts[i].nonce == nonce;
    LaterRequestsChangeNothing(attempts, more, i);
    assert (attempts + more)[i] == attempts[i];
  }

  lemma {:induction false} AdmissionsStay(attempts: seq<Attempt>, more: seq<Attempt>, n: nat, nonce: string)
    requires n <= |attempts|
    ensures Admissions(attempts + more, n, nonce) == Admissions(attempts, n, nonce)
  {
    hide Accepts;
    if n > 0 {
      AdmissionsStay(attempts, more, n - 1, nonce);
      LaterRequestsChangeNothing(attempts, more, n - 1);
      assert (attempts + more)[n - 1] == attempts[n - 1];
    }
  }

  lemma {:induction false} WaitingAdds(a: seq<Envelope>, b: seq<Envelope>, nonce: string)
    ensures WaitingTimes(a + b, nonce) == WaitingTimes(a, nonce) + WaitingTimes(b, nonce)
  {
    if a == [] {
      assert a + b == b;
    } else {
      assert (a + b)[1..] == a[1..] + b;
      WaitingAdds(a[1..], b, nonce);
    }
  }

  lemma OneWaits(e: Envelope, nonce: string)
    ensures WaitingTimes([e], nonce) == if e.nonce == nonce then 1 else 0
  {
    assert [e][1..] == [];
  }

  lemma AnswerAdds(answers: seq<Answer>, a: Answer, nonce: string)
    ensures AnsweredTimes(answers + [a], nonce) ==
            AnsweredTimes(answers, nonce) + if a.nonce == nonce then 1 else 0
  {
    assert (answers + [a])[..|answers|] == answers;
  }

  lemma DeliverCounts(sent: Sent, n: Node, e: Envelope, signed: bool, reading: Instant)
    requires GuardHolds(sent, n.seen, n.attempts) && AnswersCounted(n)
    ensures AnswersCounted(DeliverTo(sent, n, e, signed, reading))
  {
    hide Authorize, CacheAfter, Accepts, GuardHolds, WaitingTimes, AnsweredTimes;
    GuardTakes(sent, n, e, signed, reading);
    var n' := DeliverTo(sent, n, e, signed, reading);
    forall nonce
      ensures WaitingTimes(n'.pending, nonce) + AnsweredTimes(n'.answers, nonce) <=
              Admissions(n'.attempts, |n'.attempts|, nonce)
    {
      AdmissionsStay(n.attempts, [AttemptOf(sent, e, signed, reading)], |n.attempts|, nonce);
      WaitingAdds(n.pending, [e], nonce);
      OneWaits(e, nonce);
    }
  }

  lemma DeliverKeeps(sent: Sent, n: Node, e: Envelope, signed: bool, reading: Instant)
    requires NodeInv(sent, n)
    ensures NodeInv(sent, DeliverTo(sent, n, e, signed, reading))
  {
    hide TableInv, RecordsHold, Authorize, CacheAfter, Accepts, GuardHolds, AnswersCounted;
    var attempt := AttemptOf(sent, e, signed, reading);
    GuardTakes(sent, n, e, signed, reading);
    DeliverCounts(sent, n, e, signed, reading);
    var n' := DeliverTo(sent, n, e, signed, reading);
    forall nonce | WasAdmitted(n.attempts, nonce)
      ensures WasAdmitted(n'.attempts, nonce)
    {
      AdmittedStays(n.attempts, [attempt], nonce);
    }
    assert n'.attempts[|n.attempts|] == attempt;
  }

  /* Handling. */

  /** An envelope is answered exactly when its operation is allowed and succeeds, and the answer fits it. */
  lemma AnswerFits(t: Table, e: Envelope, m: Machine)
    requires TableInv(t)
    ensures var (reply, t') := HandleEnvelope(t, e, m);
            && (reply.Some? ==> ReplyFits(e, reply.value) && TellsRunning(AnswerTo(e, reply.value, t')))
            && (reply.Some? <==>
                  && e.target == t.nodeId
                  && if e.CommandEnvelope?
                     then e.capability == LaunchNotepad && (e.command in t.launched || 0 < m.processId)
                     else && e.command in t.launched && t.launched[e.command].task == e.task
                          && !(IsRunning(t, e.command) && m.timesOut))
            && (e.CommandEnvelope? && e.capability != LaunchNotepad ==> t' == t)
  {
    hide TableInv, LaunchOn, RollbackOn;
    match e
    case CommandEnvelope(command, task, _, target, _, _, _) => LaunchKeeps(t, task, command, target, m);
    case RollbackEnvelope(rollback, task, command, target, _, _, _) =>
      RollbackKeeps(t, rollback, task, command, target, m);
  }

  /** What an answer says about the records: a launch leaves its command recorded, an undo takes it out. */
  ghost predicate Tells(t: Table, e: Envelope, reply: Option<Reply>, t': Table) {
    match reply
    case None => t'.launched == t.launched && t'.latest == t.latest
    case Some(LaunchReply(launch)) =>
      && launch.commandId == e.command && e.CommandEnvelope?
      && t'.launched.Keys == t.launched.Keys + {e.command}
      && t'.latest.Keys == t.latest.Keys + {e.command}
      && (forall c :: c in t.launched ==> t'.launched[c] == t.launched[c])
      && t'.launched[e.command].processId == launch.processId
      && t'.launched[e.command].startedAt == launch.startedAt
      && (e.command !in t.launched ==> t'.launched[e.command].task == e.task)
    case Some(StopReply(stop)) =>
      && stop.commandId == e.command && e.command in t.launched
      && t'.launched == t.launched - {e.command} && t'.latest == t.latest
  }

  lemma HandlingTells(t: Table, e: Envelope, m: Machine)
    requires TableInv(t)
    ensures var (reply, t') := HandleEnvelope(t, e, m); Tells(t, e, reply, t')
  {
    hide RecordsFit, ProcessesFit;
    if e.command in t.launched {
      RecordedProcess(t, e.command);
    }
  }

  /** One more answer is the last about its command, and about no other. */
  lemma LastAfter(answers: seq<Answer>, a: Answer, command: Uuid)
    ensures LastAbout(answers + [a], command) ==
            if About(a.reply) == command then Some(a.reply) else LastAbout(answers, command)
  {
    assert (answers + [a])[..|answers|] == answers;
  }

  /** Handling keeps the records following the answers, for any order and any repetition. */
  lemma HandlingFollows(t: Table, e: Envelope, reply: Reply, t': Table, answers: seq<Answer>, a: Answer)
    requires RecordsFollow(t, answers) && Tells(t, e, Some(reply), t') && a.reply == reply
    requires forall c :: c in t.launched ==> c in t.latest
    ensures RecordsFollow(t', answers + [a])
  {
    hide LastAbout;
    forall c: Uuid
      ensures c in t'.launched <==> LaunchedLast(answers + [a], c)
      ensures c in t'.latest <==> LastAbout(answers + [a], c).Some?
    {
      LastAfter(answers, a, c);
    }
  }

  lemma StandsBefore(answers: seq<Answer>, a: Answer, i: nat, c: Uuid)
    requires i < |answers| && StillStands(answers + [a], i, c)
    ensures StillStands(answers, i, c)
    ensures a.reply.StopReply? ==> About(a.reply) != c
  {
    var more := answers + [a];
    assert more[i] == answers[i] && more[|answers|] == a;
    assert forall j :: i < j < |answers| ==> more[j] == answers[j];
  }

  lemma HandlingNames(t: Table, e: Envelope, reply: Reply, t': Table, answers: seq<Answer>, a: Answer)
    requires AnswersName(t, answers) && Tells(t, e, Some(reply), t') && a.reply == reply
    ensures AnswersName(t', answers + [a])
  {
    var more := answers + [a];
    forall c, i | 0 <= i < |more| && StillStands(more, i, c)
      ensures c in t'.launched
      ensures t'.launched[c].processId == more[i].reply.launch.processId
      ensures t'.launched[c].startedAt == more[i].reply.launch.startedAt
    {
      if i < |answers| {
        StandsBefore(answers, a, i, c);
        assert more[i] == answers[i];
      }
    }
  }

  lemma HandlingOrders(t: Table, e: Envelope, reply: Reply, t': Table, answers: seq<Answer>, a: Answer)
    requires RecordsFollow(t, answers) && StopsFollow(answers) && Tells(t, e, Some(reply), t') && a.reply == reply
    ensures StopsFollow(answers + [a])
  {
    hide LastAbout, LaunchAnswered;
    var more := answers + [a];
    forall j | 0 <= j < |more| && more[j].reply.StopReply?
      ensures LaunchAnswered(more[..j], About(more[j].reply))
    {
      if j < |answers| {
        assert more[..j] == answers[..j];
      } else {
        assert more[..j] == answers;
        LastLaunchIsAnswer(answers, e.command);
      }
    }
  }

  lemma {:induction false} LastLaunchIsAnswer(answers: seq<Answer>, command: Uuid)
    requires LaunchedLast(answers, command)
    ensures LaunchAnswered(answers, command)
  {
    var front := answers[..|answers| - 1];
    if About(answers[|answers| - 1].reply) != command {
      LastLaunchIsAnswer(front, command);
      var i :| 0 <= i < |front| && front[i].reply.LaunchReply? && About(front[i].reply) == command;
      assert answers[i] == front[i];
    }
  }

  lemma HandlingIsGenuine(sent: Sent, t: Table, e: Envelope, reply: Option<Reply>, t': Table)
    requires RecordsGenuine(sent, t) && Genuine(sent, e) && Tells(t, e, reply, t')
    ensures RecordsGenuine(sent, t')
  {
    assert e.CommandEnvelope? ==> LaunchSent(sent, e.command, e.task);
  }

  lemma HandlingKeepsRecords(sent: Sent, n: Node, i: nat, m: Machine)
    requires TableInv(n.table) && QueueIsGenuine(sent, n) && RecordsHold(sent, n.table, n.answers) && i < |n.pending|
    ensures RecordsHold(sent, HandleAt(n, i, m).table, HandleAt(n, i, m).answers)
  {
    hide TableInv, HandleEnvelope, ReplyFits, TellsRunning, IsRunning, WasAdmitted, RecordsFollow, AnswersName;
    hide RecordsGenuine, Tells;
    hide StopsFollow;
    var e := n.pending[i];
    var (reply, t') := HandleEnvelope(n.table, e, m);
    AnswerFits(n.table, e, m);
    HandlingTells(n.table, e, m);
    HandlingIsGenuine(sent, n.table, e, reply, t');
    if reply.Some? {
      LatestCoversLaunched(n.table);
      HandlingFollows(n.table, e, reply.value, t', n.answers, AnswerTo(e, reply.value, t'));
      HandlingNames(n.table, e, reply.value, t', n.answers, AnswerTo(e, reply.value, t'));
      HandlingOrders(n.table, e, reply.value, t', n.answers, AnswerTo(e, reply.value, t'));
    } else {
      SilenceKeeps(n.table, e, t', n.answers);
    }
  }

  lemma SilenceKeeps(t: Table, e: Envelope, t': Table, answers: seq<Answer>)
    requires RecordsFollow(t, answers) && AnswersName(t, answers) && Tells(t, e, None, t')
    ensures RecordsFollow(t', answers) && AnswersName(t', answers)
  {
    hide LastAbout, StillStands;
  }

  lemma LatestCoversLaunched(t: Table)
    requires TableInv(t)
    ensures forall c :: c in t.launched ==> c in t.latest
  {
    hide ProcessesFit;
    assert forall c :: c in t.launched ==> RecordFits(c, t.launched[c], t.alive, t.latest);
  }

  lemma HandleCounts(n: Node, i: nat, m: Machine)
    requires TableInv(n.table) && AnswersCounted(n) && i < |n.pending|
    ensures AnswersCounted(HandleAt(n, i, m))
  {
    hide TableInv, HandleEnvelope, WaitingTimes, AnsweredTimes, Admissions;
    var e, n' := n.pending[i], HandleAt(n, i, m);
    var reply := HandleEnvelope(n.table, e, m).0;
    forall nonce
      ensures WaitingTimes(n'.pending, nonce) + AnsweredTimes(n'.answers, nonce) <=
              Admissions(n'.attempts, |n'.attempts|, nonce)
    {
      assert n.pending == n.pending[..i] + ([e] + n.pending[i + 1..]);
      WaitingAdds(n.pending[..i], [e] + n.pending[i + 1..], nonce);
      WaitingAdds([e], n.pending[i + 1..], nonce);
      WaitingAdds(n.pending[..i], n.pending[i + 1..], nonce);
      OneWaits(e, nonce);
      if reply.Some? {
        AnswerAdds(n.answers, AnswerTo(e, reply.value, n'.table), nonce);
      }
    }
  }

  lemma HandleKeeps(sent: Sent, n: Node, i: nat, m: Machine)
    requires NodeInv(sent, n) && i < |n.pending|
    ensures NodeInv(sent, HandleAt(n, i, m))
  {
    hide TableInv, HandleEnvelope, RecordsHold, WasAdmitted, GuardHolds, AnswersCounted;
    HandlingKeepsTable(n.table, n.pending[i], m);
    HandlingKeepsRecords(sent, n, i, m);
    HandleCounts(n, i, m);
    var n' := HandleAt(n, i, m);
    assert forall k :: 0 <= k < |n'.pending| ==> n'.pending[k] == n.pending[if k < i then k else k + 1];
  }

  lemma ExitKeepsNode(sent: Sent, n: Node, handle: nat)
    requires NodeInv(sent, n)
    ensures NodeInv(sent, n.(table := Exit(n.table, handle)))
  {
    hide TableInv, WasAdmitted, GuardHolds, AnswersFit, LastAbout, StillStands, LaunchSent, WaitingTimes, AnsweredTimes;
    ExitKeeps(n.table, handle);
  }

  lemma NodeTakeKeeps(sent: Sent, n: Node, step: NodeStep)
    requires NodeInv(sent, n) && TableInv(n.table)
    ensures NodeInv(sent, NodeTake(sent, n, step))
    ensures n.attempts <= NodeTake(sent, n, step).attempts && n.answers <= NodeTake(sent, n, step).answers
  {
    hide NodeInv, TableInv, HandleEnvelope, Authorize;
    match step
    case Deliver(e, signed, reading) => DeliverKeeps(sent, n, e, signed, reading);
    case Handle(i, m) =>
      if i < |n.pending| {
        HandleKeeps(sent, n, i, m);
      }
    case ProcessExit(handle) => ExitKeepsNode(sent, n, handle);
  }

  /** Whatever is delivered, repeated, forged and read from the clock. */
  lemma {:induction false} NodeRunKeeps(sent: Sent, n: Node, steps: seq<NodeStep>)
    requires NodeInv(sent, n) && TableInv(n.table)
    ensures NodeInv(sent, NodeRun(sent, n, steps))
    ensures n.attempts <= NodeRun(sent, n, steps).attempts && n.answers <= NodeRun(sent, n, steps).answers
    decreases |steps|
  {
    hide NodeInv, TableInv, NodeTake;
    if steps != [] {
      NodeTakeKeeps(sent, n, steps[0]);
      NodeTakeKeepsTable(sent, n, steps[0]);
      NodeRunKeeps(sent, NodeTake(sent, n, steps[0]), steps[1..]);
    }
  }

  lemma NodeHasTable(sent: Sent, n: Node)
    requires NodeInv(sent, n)
    ensures TableInv(n.table)
  {
    hide TableInv, GuardHolds, QueueIsGenuine, RecordsHold, AnswersCounted;
  }

  /** Sending one more envelope, under a new nonce, disturbs nothing. */
  lemma SendingKeeps(sent: Sent, n: Node, e: Envelope)
    requires NodeInv(sent, n) && e.nonce !in sent
    ensures NodeInv(sent[e.nonce := e], n)
  {
    hide TableInv, CacheAfter, Accepts, WasAdmitted, ReplyFits, RecordsFollow, AnswersName, AnswersCounted, LaunchSent;
    forall c | c in n.table.launched
      ensures LaunchSent(sent[e.nonce := e], c, n.table.launched[c].task)
    {
      LaunchStaysSent(sent, e, c, n.table.launched[c].task);
    }
  }

  lemma LaunchStaysSent(sent: Sent, e: Envelope, c: Uuid, task: Uuid)
    requires LaunchSent(sent, c, task) && e.nonce !in sent
    ensures LaunchSent(sent[e.nonce := e], c, task)
  {
    var nonce :| nonce in sent && sent[nonce].CommandEnvelope? && sent[nonce].command == c && sent[nonce].task == task;
    assert sent[e.nonce := e][nonce] == sent[nonce];
  }

  lemma SendingKeepsUnique(sent: Sent, e: Envelope)
    requires UniqueCommands(sent) && e.nonce !in sent
    requires e.CommandEnvelope? ==>
               forall b :: b in sent && sent[b].CommandEnvelope? ==> sent[b].command != e.command
    ensures UniqueCommands(sent[e.nonce := e])
  {
  }

  /* When the last answer about a command was to its launch. */

  /** Which answers stand after one more. */
  lemma StandsAfter(answers: seq<Answer>, a: Answer, command: Uuid)
    ensures forall i :: 0 <= i < |answers| ==>
                          (StillStands(answers + [a], i, command) <==>
                           StillStands(answers, i, command) && !(a.reply.StopReply? && About(a.reply) == command))
    ensures StillStands(answers + [a], |answers|, command) <==> a.reply.LaunchReply? && About(a.reply) == command
  {
    var more := answers + [a];
    assert more[|answers|] == a;
    forall i | 0 <= i < |answers|
      ensures more[i] == answers[i]
    {
    }
  }

  ghost predicate SomeStands(answers: seq<Answer>, command: Uuid) {
    exists i :: 0 <= i < |answers| && StillStands(answers, i, command)
  }

  /** Some launch of the command was answered, and no undo of it was answered after that. */
  lemma {:induction false} LaunchedLastStands(answers: seq<Answer>, command: Uuid)
    ensures LaunchedLast(answers, command) <==> SomeStands(answers, command)
  {
    hide StillStands;
    if answers != [] {
      var front, last := answers[..|answers| - 1], answers[|answers| - 1];
      LaunchedLastStands(front, command);
      assert answers == front + [last];
      StandsAfter(front, last, command);
      if SomeStands(front, command) && !(last.reply.StopReply? && About(last.reply) == command) {
        var i :| 0 <= i < |front| && StillStands(front, i, command);
        assert StillStands(answers, i, command);
      }
    }
  }

  /** There is a last answer about a command exactly when a launch or an undo of it was answered. */
  lemma {:induction false} SomeAnswerIsLast(answers: seq<Answer>, command: Uuid)
    ensures LastAbout(answers, command).Some? <==> LaunchAnswered(answers, command) || StopAnswered(answers, command)
  {
    if answers != [] {
      var front, last := answers[..|answers| - 1], answers[|answers| - 1];
      SomeAnswerIsLast(front, command);
      forall i | 0 <= i < |front|
        ensures answers[i] == front[i]
      {
      }
    }
  }

  lemma {:induction false} AnsweredTwice(answers: seq<Answer>, i: nat, j: nat)
    requires i < j < |answers| && answers[i].nonce == answers[j].nonce
    ensures 2 <= AnsweredTimes(answers, answers[i].nonce)
  {
    var front := answers[..|answers| - 1];
    if j < |front| {
      AnsweredTwice(front, i, j);
    } else {
      AnsweredSome(front, i);
    }
  }

  lemma {:induction false} AnsweredSome(answers: seq<Answer>, i: nat)
    requires i < |answers|
    ensures 1 <= AnsweredTimes(answers, answers[i].nonce)
  {
    if i < |answers| - 1 {
      AnsweredSome(answers[..|answers| - 1], i);
    }
  }

  /** A launch that was admitted once is answered once. */
  lemma LaunchAnsweredOnce(sent: Sent, n: Node, nonce: string, i: nat, j: nat)
    requires NodeInv(sent, n) && UniqueCommands(sent)
    requires nonce in sent && sent[nonce].CommandEnvelope? && Admissions(n.attempts, |n.attempts|, nonce) <= 1
    requires i < j < |n.answers| && n.answers[i].reply.LaunchReply? && n.answers[j].reply.LaunchReply?
    requires About(n.answers[i].reply) == About(n.answers[j].reply)
    ensures About(n.answers[i].reply) != sent[nonce].command
  {
    hide TableInv, GuardHolds, QueueIsGenuine, RecordsFollow, AnswersName, StopsFollow, RecordsGenuine;
    hide WaitingTimes, AnsweredTimes, Admissions;
    if About(n.answers[i].reply) == sent[nonce].command {
      AnsweredTwice(n.answers, i, j);
    }
  }

  /**
   * When a command's launch envelope was admitted once at most, whatever happened to every other envelope: the command
   * is recorded exactly when its launch was answered and no undo of it was.
   */
  lemma AdmittedOnceDecides(sent: Sent, n: Node, nonce: string)
    requires NodeInv(sent, n) && UniqueCommands(sent)
    requires nonce in sent && sent[nonce].CommandEnvelope? && Admissions(n.attempts, |n.attempts|, nonce) <= 1
    ensures var c := sent[nonce].command;
            LaunchedLast(n.answers, c) <==> LaunchAnswered(n.answers, c) && !StopAnswered(n.answers, c)
  {
    hide NodeInv, LastAbout, Admissions;
    var c, answers := sent[nonce].command, n.answers;
    LaunchedLastStands(answers, c);
    UndosFollow(sent, n);
    if LaunchedLast(answers, c) {
      var i :| 0 <= i < |answers| && StillStands(answers, i, c);
      forall j | 0 <= j < |answers| && answers[j].reply.StopReply?
        ensures About(answers[j].reply) != c
      {
        if About(answers[j].reply) == c {
          assert LaunchAnswered(answers[..j], c);
          var k :| 0 <= k < |answers[..j]| && answers[..j][k].reply.LaunchReply? && About(answers[..j][k].reply) == c;
          assert answers[k] == answers[..j][k];
          LaunchAnsweredOnce(sent, n, nonce, k, i);
        }
      }
    }
    if LaunchAnswered(answers, c) && !StopAnswered(answers, c) {
      var i :| 0 <= i < |answers| && answers[i].reply.LaunchReply? && About(answers[i].reply) == c;
      assert StillStands(answers, i, c);
    }
  }

  lemma UndosFollow(sent: Sent, n: Node)
    requires NodeInv(sent, n)
    ensures StopsFollow(n.answers)
  {
    hide TableInv, GuardHolds, QueueIsGenuine, RecordsFollow, AnswersName, StopsFollow, RecordsGenuine, AnswersFit;
    hide AnswersCounted;
  }

  /* When an envelope is admitted twice. */

  lemma {:induction false} AdmittedOnceCounts(attempts: seq<Attempt>, n: nat, nonce: string)
    requires AdmittedOnce(attempts) && n <= |attempts|
    ensures Admissions(attempts, n, nonce) <= 1
    ensures Admissions(attempts, n, nonce) == 1 ==>
              exists i :: 0 <= i < n && Accepts(attempts, i) && attempts[i].nonce == nonce
  {
    hide CacheAfter, Accepts;
    if n > 0 {
      AdmittedOnceCounts(attempts, n - 1, nonce);
    }
  }

  /** With readings that do not go back in lock order, no envelope is. */
  lemma OrderedClockAdmitsOnce(sent: Sent, n: Node)
    requires NodeInv(sent, n) && ClockHolds(n.attempts, |n.attempts|)
    ensures AdmittedOnce(n.attempts)
  {
    hide TableInv, RecordsHold, AnswersCounted, QueueIsGenuine, CacheAfter, Accepts, Attempt.ReachesCache;
    forall i, j | 0 <= i < j < |n.attempts| && Accepts(n.attempts, i) && Accepts(n.attempts, j)
      ensures n.attempts[i].nonce != n.attempts[j].nonce
    {
      if n.attempts[i].nonce == n.attempts[j].nonce {
        EnvelopeIsAcceptedOnce(n.attempts, i, j);
      }
    }
  }

  /** Some request after the given one was checked at a reading at or past an expiry. */
  ghost predicate Overtaken(attempts: seq<Attempt>, i: nat, expiresAt: Instant)
    requires i < |attempts|
  {
    exists m :: i < m < |attempts| && attempts[m].ReachesCache() && expiresAt <= attempts[m].now
  }

  /**
   * For any readings, an envelope that was admitted before is admitted again exactly when it is delivered at a reading
   * within its own time and, since each earlier time it was admitted, some request was checked at a reading past its
   * expiry.
   */
  lemma ReadmissionIsExact(sent: Sent, n: Node, e: Envelope, reading: Instant)
    requires NodeInv(sent, n) && Genuine(sent, e) && WasAdmitted(n.attempts, e.nonce)
    ensures |n.pending| < |DeliverTo(sent, n, e, true, reading).pending| <==>
              && e.issuedAt <= reading < e.expiresAt
              && forall i :: 0 <= i < |n.attempts| && Accepts(n.attempts, i) && n.attempts[i].nonce == e.nonce ==>
                               Overtaken(n.attempts, i, e.expiresAt)
  {
    hide TableInv, RecordsHold, AnswersCounted, QueueIsGenuine, CacheAfter, Accepts, Authorize;
    var attempt := AttemptOf(sent, e, true, reading);
    var attempts, j := n.attempts + [attempt], |n.attempts|;
    GuardTakes(sent, n, e, true, reading);
    assert DeliverTo(sent, n, e, true, reading).attempts == attempts;
    CacheDecides(attempts, j);
    forall i | 0 <= i < j
      ensures attempts[i] == n.attempts[i] && (Accepts(attempts, i) <==> Accepts(n.attempts, i))
    {
      LaterRequestsChangeNothing(n.attempts, [attempt], i);
    }
    forall i | 0 <= i < j && Accepts(n.attempts, i) && n.attempts[i].nonce == e.nonce
      ensures attempts[i].expiresAt == e.expiresAt
      ensures Remembered(attempts, i, j) <==> !Overtaken(n.attempts, i, e.expiresAt)
    {
    }
  }
}
