/**
 * The invariant of the orchestrator: what ties the task map, the receipt ledger, the managed directory
 * and the record of outside calls together. Every operation keeps it, on every exit.
 */
module CoreInvariant {
  import opened StateMachine
  import opened Domain
  import opened Registry
  import opened NoteText
  import opened NoteStore
  import opened Payload
  import opened Planner
  import opened CoreModel
  import opened TaskInvariant

  /* The parts. */

  ghost predicate Indexed(c: Core) {
    && (forall id :: id in c.tasks ==>
                       && c.tasks[id].taskId == id
                       && id == TaskId(c.tasks[id].requestId)
                       && c.tasks[id].requestId in c.requestIndex)
    && (forall r :: r in c.requestIndex ==> c.requestIndex[r] == TaskId(r) && TaskId(r) in c.tasks)
    && (forall i, j :: 0 <= i < j < |c.order| ==> c.order[i] != c.order[j])
    && (forall id :: id in c.order <==> id in c.tasks)
  }

  ghost predicate TasksHold(c: Core) {
    forall id :: id in c.tasks ==> TaskInv(c.tasks[id])
  }

  /** How many receipts a task has at the end of each route. */
  function ReceiptCount(route: Route): nat {
    match route
    case PolicyDenied | Waiting | AutoCompleted | AutoFailed => 1
    case ApprovalDenied | ExecutionFailed | Fulfilled | VerificationFailed => 2
    case Undone | UndoFailed => 3
  }

  /** A later receipt of the same task extends the events and results of an earlier one. */
  ghost predicate Extends(later: Receipt, earlier: Receipt) {
    && earlier.events < later.events
    && earlier.results <= later.results
    && later == earlier.(
                  version := later.version, state := later.state, results := later.results, events := later.events,
                  updatedAt := later.updatedAt, verified := later.verified, reversible := later.reversible)
  }

  /** A task's receipts: versions from 1, each extending the one before, the newest mirroring the task. */
  ghost predicate HistoryHolds(h: seq<Receipt>, t: Task) {
    && |h| == ReceiptCount(RouteOf(t))
    && (forall i :: 0 <= i < |h| ==> h[i].version == i + 1)
    && h[|h| - 1] == ReceiptFor(t, |h|)
    && (forall i :: 0 < i < |h| ==> Extends(h[i], h[i - 1]))
  }

  ghost predicate HistoriesHold(ledger: map<Uuid, seq<Receipt>>, tasks: map<Uuid, Task>) {
    ledger.Keys == tasks.Keys && forall id :: id in tasks ==> HistoryHolds(ledger[id], tasks[id])
  }

  ghost predicate LedgerHolds(c: Core) {
    HistoriesHold(c.ledger, c.tasks)
  }

  /** The completed tasks that created a note; each owns the file its plan names. */
  ghost predicate OwnsFile(t: Task) {
    t.state == Completed && t.plan.steps != [] && t.plan.steps[0].capability == CreateNote
  }

  function PlannedNote(t: Task): PreparedNote
    requires t.plan.steps != []
  {
    RebuiltNote(t.plan.steps[0])
  }

  ghost predicate OwnerOf(c: Core, id: Uuid, filename: string) {
    id in c.tasks && OwnsFile(c.tasks[id]) && PlannedNote(c.tasks[id]).filename == filename
  }

  /**
   * The directory is what it was at first, plus one file for each completed note task, holding the text
   * that was planned; no two of these tasks share a file.
   */
  ghost predicate FilesConserved(initial: Files, c: Core) {
    && (forall f :: f in initial ==> f in c.files && c.files[f] == initial[f])
    && (forall f :: f in c.files && f !in initial ==> exists id :: OwnerOf(c, id, f))
    && (forall id, f :: OwnerOf(c, id, f) ==>
                          f !in initial && f in c.files && c.files[f] == PlannedNote(c.tasks[id]).content)
    && (forall id, id', f :: OwnerOf(c, id, f) && OwnerOf(c, id', f) ==> id == id')
  }

  /* The record of outside calls. */

  predicate IsEffect(e: Entry) {
    e.NoteCreateCall? || e.LaunchCall?
  }

  predicate IsUndo(e: Entry) {
    e.NoteRemoveCall? || e.DeviceRollbackCall?
  }

  function EntryTask(e: Entry): Uuid {
    match e
    case Issued(approval) => approval.taskId
    case _ => e.task
  }

  /** A decision that authorises what an approval, as it was issued, asks for. */
  predicate Authorises(decided: Entry, approval: ApprovalRequest) {
    && decided.Decided?
    && decided.task == approval.taskId
    && decided.decision.decision == Approve
    && decided.decision.approvalId == approval.approvalId
    && Some(decided.decision.token) == approval.token
    && decided.decision.payloadSha256 == approval.payloadSha256
    && decided.channel == approval.channel
    && decided.session.authenticated
    && decided.session.sessionId == approval.sessionId
    && decided.at < approval.expiresAt
  }

  /** The call that carries out a step, and nothing else. */
  ghost predicate CarriesOut(e: Entry, task: Uuid, step: PlanStep) {
    || (step.capability == CreateNote && e == NoteCreateCall(task, RebuiltNote(step)))
    || (step.capability == LaunchNotepad && e == LaunchCall(task, TargetNode(step)))
  }

  /**
   * The call at position i carries out the one step of its task's plan, directly after a decision that
   * authorises the task's approval, which was issued before.
   */
  ghost predicate Authorised(log: seq<Entry>, i: nat, t: Task)
    requires i < |log|
  {
    && 0 < i
    && |t.plan.steps| == 1
    && CarriesOut(log[i], t.taskId, t.plan.steps[0])
    && log[i - 1].Decided?
    && var approval := IssuedApproval(t, log[i - 1].decision.token);
       && Authorises(log[i - 1], approval)
       && Issued(approval) in log[..i - 1]
  }

  predicate WasExecuted(t: Task) {
    t.approval.Some? && t.state in {Completed, Failed, RolledBack}
  }

  predicate WasUndone(t: Task) {
    RouteOf(t) == Undone || RouteOf(t) == UndoFailed
  }

  ghost predicate EffectsAuthorised(c: Core) {
    && (forall i :: 0 <= i < |c.log| && IsEffect(c.log[i]) ==>
                      && EntryTask(c.log[i]) in c.tasks
                      && WasExecuted(c.tasks[EntryTask(c.log[i])])
                      && Authorised(c.log, i, c.tasks[EntryTask(c.log[i])]))
    && (forall i, j :: 0 <= i < j < |c.log| && IsEffect(c.log[i]) && IsEffect(c.log[j]) ==>
                         EntryTask(c.log[i]) != EntryTask(c.log[j]))
  }

  /** Every undo call is for a task that went back, at most one per task, and after its effect. */
  ghost predicate UndosBound(c: Core) {
    && (forall i :: 0 <= i < |c.log| && IsUndo(c.log[i]) ==>
                      && EntryTask(c.log[i]) in c.tasks
                      && WasUndone(c.tasks[EntryTask(c.log[i])]))
    && (forall i, j :: 0 <= i < j < |c.log| && IsUndo(c.log[i]) && IsUndo(c.log[j]) ==>
                         EntryTask(c.log[i]) != EntryTask(c.log[j]))
  }

  /** A task is decided at most once, and waits for a decision only after its approval was issued. */
  ghost predicate DecisionsBound(c: Core) {
    && (forall i :: 0 <= i < |c.log| && c.log[i].Decided? ==>
                      && c.log[i].task in c.tasks
                      && c.tasks[c.log[i].task].state != AwaitingApproval)
    && (forall i, j :: 0 <= i < j < |c.log| && c.log[i].Decided? && c.log[j].Decided? ==>
                         c.log[i].task != c.log[j].task)
    && (forall id :: id in c.tasks && c.tasks[id].state == AwaitingApproval && c.tasks[id].approval.Some? ==>
                       Issued(c.tasks[id].approval.value) in c.log)
  }

  ghost predicate CoreInv(initial: Files, c: Core) {
    && Indexed(c)
    && TasksHold(c)
    && LedgerHolds(c)
    && FilesConserved(initial, c)
    && EffectsAuthorised(c)
    && UndosBound(c)
    && DecisionsBound(c)
  }

  lemma InitialHolds(root: Path, files: Files)
    ensures CoreInv(files, InitialCore(root, files))
  {
  }

  /* Updating one task. */

  /** A task moves on: its events grow, its results grow, and what it was created with stays. */
  ghost predicate MovesOn(t: Task, t': Task) {
    && t.events < t'.events
    && t.results <= t'.results
    && t.state != t'.state
    && t' == t.(state := t'.state, results := t'.results, events := t'.events, approval := t'.approval,
                updatedAt := t'.updatedAt)
    && t.approval.Some? && t'.approval.Some?
    && ReceiptCount(RouteOf(t')) == ReceiptCount(RouteOf(t)) + 1
  }

  lemma HistoryGrows(h: seq<Receipt>, t: Task, t': Task)
    requires HistoryHolds(h, t)
    requires MovesOn(t, t')
    ensures HistoryHolds(h + [ReceiptFor(t', NextVersion(h))], t')
  {
    hide RouteOf;
    var h' := h + [ReceiptFor(t', NextVersion(h))];
    forall i | 0 < i < |h'|
      ensures Extends(h'[i], h'[i - 1])
    {
      if i == |h| {
        assert h'[i - 1] == ReceiptFor(t, |h|);
      } else {
        assert h'[i] == h[i] && h'[i - 1] == h[i - 1];
      }
    }
  }

  /** Storing a task that moved on keeps the indexes, the tasks and the ledger. */
  lemma StoreKeeps(c: Core, t': Task)
    requires Indexed(c) && TasksHold(c) && LedgerHolds(c)
    requires t'.taskId in c.tasks
    requires MovesOn(c.tasks[t'.taskId], t')
    requires TaskInv(t')
    ensures Indexed(Store(c, t')) && TasksHold(Store(c, t')) && LedgerHolds(Store(c, t'))
  {
    hide TaskInv, RecordReceipt, MovesOn, HistoriesHold, Indexed;
    var id := t'.taskId;
    MovingKeepsRequest(c.tasks[id], t');
    IndexStays(c, t');
    LedgerGrows(c.ledger, c.tasks, t', c.tasks[id]);
  }

  lemma IndexStays(c: Core, t': Task)
    requires Indexed(c)
    requires t'.taskId in c.tasks && t'.requestId == c.tasks[t'.taskId].requestId
    ensures Indexed(Store(c, t'))
  {
    hide RecordReceipt;
  }

  lemma MovingKeepsRequest(t: Task, t': Task)
    requires MovesOn(t, t')
    ensures t'.requestId == t.requestId && t'.taskId == t.taskId
  {
    hide RouteOf;
  }

  lemma LedgerGrows(ledger: map<Uuid, seq<Receipt>>, tasks: map<Uuid, Task>, t': Task, t: Task)
    requires HistoriesHold(ledger, tasks)
    requires t'.taskId in tasks && tasks[t'.taskId] == t
    requires MovesOn(t, t')
    ensures HistoriesHold(RecordReceipt(ledger, t'), tasks[t'.taskId := t'])
  {
    hide HistoryHolds, MovesOn, ReceiptFor, NextVersion;
    assert HistoryHolds(ledger[t'.taskId], t);
    HistoryGrows(ledger[t'.taskId], t, t');
  }

  lemma LedgerStarts(ledger: map<Uuid, seq<Receipt>>, tasks: map<Uuid, Task>, t: Task)
    requires HistoriesHold(ledger, tasks)
    requires t.taskId !in tasks
    requires ReceiptCount(RouteOf(t)) == 1
    ensures HistoriesHold(RecordReceipt(ledger, t), tasks[t.taskId := t])
  {
    assert HistoryHolds([ReceiptFor(t, 1)], t) by {
      hide RouteOf;
    }
    assert History(ledger, t.taskId) == [];
    assert [] + [ReceiptFor(t, 1)] == [ReceiptFor(t, 1)];
  }

  lemma NewRequestIsNewTask(c: Core, request: Uuid)
    requires Indexed(c)
    requires request !in c.requestIndex
    ensures TaskId(request) !in c.tasks && TaskId(request) !in c.order
  {
  }

  lemma TaskKeepsItsRequest(t: Task)
    requires TaskInv(t)
    ensures t.taskId == TaskId(t.requestId)
  {
    hide PlanFor, DecisionsFor, Traced, ApprovalKept, ResultsKept;
  }

  /** Storing a new task keeps them too. */
  lemma StoreNewKeeps(c: Core, t: Task)
    requires Indexed(c) && TasksHold(c) && LedgerHolds(c)
    requires TaskInv(t)
    requires t.requestId !in c.requestIndex
    requires ReceiptCount(RouteOf(t)) == 1
    ensures t.taskId == TaskId(t.requestId) && t.taskId !in c.tasks
    ensures var c' := Store(c, t).(
              order := c.order + [t.taskId], requestIndex := c.requestIndex[t.requestId := t.taskId]);
            Indexed(c') && TasksHold(c') && LedgerHolds(c')
  {
    hide TaskInv, RecordReceipt, HistoriesHold, RouteOf;
    TaskKeepsItsRequest(t);
    NewRequestIsNewTask(c, t.requestId);
    IndexGrows(c, t);
    assert HistoriesHold(c.ledger, c.tasks);
    LedgerStarts(c.ledger, c.tasks, t);
  }

  lemma OrderGrows(order: seq<Uuid>, tasks: map<Uuid, Task>, t: Task)
    requires forall i, j :: 0 <= i < j < |order| ==> order[i] != order[j]
    requires forall id :: id in order <==> id in tasks
    requires t.taskId !in tasks
    ensures var order' := order + [t.taskId];
            && (forall i, j :: 0 <= i < j < |order'| ==> order'[i] != order'[j])
            && (forall id :: id in order' <==> id in tasks[t.taskId := t])
  {
    var order' := order + [t.taskId];
    forall i, j | 0 <= i < j < |order'|
      ensures order'[i] != order'[j]
    {
      assert order'[i] in order;
    }
    forall id
      ensures id in order' <==> id in tasks[t.taskId := t]
    {
      assert id in order' <==> id in order || id == t.taskId;
    }
  }

  lemma IndexGrows(c: Core, t: Task)
    requires Indexed(c)
    requires t.requestId !in c.requestIndex
    requires t.taskId == TaskId(t.requestId)
    ensures Indexed(Store(c, t).(
              order := c.order + [t.taskId], requestIndex := c.requestIndex[t.requestId := t.taskId]))
  {
    hide RecordReceipt, States, Numbered;
    NewRequestIsNewTask(c, t.requestId);
    OrderGrows(c.order, c.tasks, t);
  }
}
