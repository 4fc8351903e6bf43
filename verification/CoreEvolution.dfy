/** How the state evolves along a run: what only grows, what never changes, and what repeated requests do. */
module CoreEvolution {
  import opened StateMachine
  import opened Domain
  import opened NoteStore
  import opened Payload
  import opened Planner
  import opened CoreModel
  import opened TaskInvariant
  import opened CoreInvariant
  import opened CoreSteps
  import opened CoreRuns
  import opened CoreTheorems

  /** An approval only ever leaves Pending, and nothing else of it but its token changes. */
  ghost predicate ApprovalEvolves(a: Option<ApprovalRequest>, b: Option<ApprovalRequest>) {
    || a == b
    || (&& a.Some? && b.Some?
        && a.value.status == Pending && b.value.status != Pending
        && b.value == a.value.(status := b.value.status, token := None))
  }

  /** A task keeps its plan and everything else it was created with; its events and results grow. */
  ghost predicate TaskEvolves(t: Task, t': Task) {
    && t.events <= t'.events
    && t.results <= t'.results
    && ApprovalEvolves(t.approval, t'.approval)
    && t' == t.(state := t'.state, results := t'.results, events := t'.events, approval := t'.approval,
                updatedAt := t'.updatedAt)
  }

  /** Tasks, receipts, requests and recorded calls are never lost; what they hold only grows. */
  ghost predicate Evolves(c: Core, c': Core) {
    && (forall id :: id in c.tasks ==> id in c'.tasks && TaskEvolves(c.tasks[id], c'.tasks[id]))
    && (forall id :: id in c.ledger ==> id in c'.ledger && c.ledger[id] <= c'.ledger[id])
    && (forall r :: r in c.requestIndex ==> r in c'.requestIndex && c'.requestIndex[r] == c.requestIndex[r])
    && c.order <= c'.order
    && c.log <= c'.log
  }

  lemma TaskEvolvesIsTransitive(a: Task, b: Task, c: Task)
    requires TaskEvolves(a, b) && TaskEvolves(b, c)
    ensures TaskEvolves(a, c)
  {
  }

  lemma EvolvesIsTransitive(a: Core, b: Core, c: Core)
    requires Evolves(a, b) && Evolves(b, c)
    ensures Evolves(a, c)
  {
    hide TaskEvolves;
    forall id | id in a.tasks
      ensures id in c.tasks && TaskEvolves(a.tasks[id], c.tasks[id])
    {
      TaskEvolvesIsTransitive(a.tasks[id], b.tasks[id], c.tasks[id]);
    }
  }

  lemma EvolvesIsReflexive(c: Core)
    ensures Evolves(c, c)
  {
  }

  /** Storing one task that evolved, and adding to the record, evolves the state. */
  lemma StoreEvolves(c: Core, c': Core, t': Task)
    requires t'.taskId in c.tasks ==> TaskEvolves(c.tasks[t'.taskId], t')
    requires c'.tasks == c.tasks[t'.taskId := t'] && c'.ledger == RecordReceipt(c.ledger, t')
    requires c.log <= c'.log && c.order <= c'.order
    requires forall r :: r in c.requestIndex ==> r in c'.requestIndex && c'.requestIndex[r] == c.requestIndex[r]
    ensures Evolves(c, c')
  {
    hide TaskEvolves, ReceiptFor, NextVersion;
    forall id | id in c.tasks
      ensures id in c'.tasks && TaskEvolves(c.tasks[id], c'.tasks[id])
    {
      if id != t'.taskId {
        TaskEvolvesIsReflexive(c.tasks[id]);
      }
    }
  }

  lemma TaskEvolvesIsReflexive(t: Task)
    ensures TaskEvolves(t, t)
  {
  }

  lemma MovingEvolves(t: Task, t': Task)
    requires MovesOn(t, t')
    requires ApprovalEvolves(t.approval, t'.approval)
    ensures TaskEvolves(t, t')
  {
    hide RouteOf;
  }

  /** One operation evolves the state. */
  lemma PerformEvolves(initial: Files, c: Core, command: Command)
    requires CoreInv(initial, c) && WellFormed(command)
    ensures Evolves(c, Perform(c, command).0)
  {
    hide CoreInv, TaskInv, Store, Spend, GrantedRun, RollbackRunFor, LateRefusal, NewTask, Evolves;
    EvolvesIsReflexive(c);
    match command
    case Create(request, session, intent, token, clock, env) =>
      if request.requestId !in c.requestIndex && SessionMatches(session, request.sessionId) {
        CreateEvolves(initial, c, request, session, intent, token, clock, env);
      }
    case Decide(id, decision, session, channel, clock, env) =>
      if EarlyRefusal(c, id, decision, session, channel).None? {
        TaskUnderItsId(initial, c, id);
        DecideEvolves(c, id, decision, session, channel, clock, env);
      }
    case Rollback(id, session, clock, env) =>
      if RollbackRefusal(c, id, session).None? {
        TaskUnderItsId(initial, c, id);
        UndoEvolves(initial, c, id, session, clock, env);
      }
  }

  lemma CreateEvolves(
    initial: Files, c: Core, request: TaskRequest, session: IdentitySession, intent: Intent, token: string,
    clock: Clock, env: Environment)
    requires CoreInv(initial, c) && intent.Classified()
    requires request.requestId !in c.requestIndex && SessionMatches(session, request.sessionId)
    ensures Evolves(c, CreateTask(c, request, session, intent, token, clock, env).0)
  {
    hide NewTask, TaskInv, RecordReceipt, HistoriesHold, FilesConserved, EffectsAuthorised, UndosBound, DecisionsBound;
    NewRequestIsNewTask(c, request.requestId);
    NewTaskFits(request, session, intent, token, clock, env, c.root, c.files);
    var made := NewTask(request, session, intent, token, clock, env, c.root, c.files);
    var c' := CreateTask(c, request, session, intent, token, clock, env).0;
    StoreEvolves(c, c', made.task);
  }

  lemma SpendEvolves(c: Core, t: Task, status: ApprovalStatus, kind: EventKind, at: Instant, extra: seq<Entry>)
    requires t.taskId in c.tasks && c.tasks[t.taskId] == t && TaskInv(t)
    requires t.state == AwaitingApproval && t.approval.Some? && SpentAs(status, kind)
    ensures Evolves(c, Store(c.(log := c.log + extra), Spend(t, status, Denied, kind, at)))
  {
    hide TaskInv, AddEvent, MovesOn, TaskEvolves, ReceiptFor, Evolves;
    PendingTask(t);
    SpentMovesOn(t, status, kind, at);
    var t' := Spend(t, status, Denied, kind, at);
    MovingEvolves(t, t');
    StoreEvolves(c, Store(c.(log := c.log + extra), t'), t');
  }

  lemma GrantEvolves(c: Core, c1: Core, t: Task, clock: Clock, env: Environment)
    requires t.taskId in c.tasks && c.tasks[t.taskId] == t && TaskInv(t)
    requires t.state == AwaitingApproval && t.approval.Some?
    requires c1 == c.(files := c1.files, log := c1.log) && c.log <= c1.log
    ensures Evolves(c, Store(c1, GrantedTask(t, GrantedRun(c, t, clock, env), clock.updated)))
  {
    hide TaskInv, GrantedRun, MovesOn, TaskEvolves, ReceiptFor, Evolves;
    PendingTask(t);
    GrantedMovesOn(c, t, clock, env);
    var t' := GrantedTask(t, GrantedRun(c, t, clock, env), clock.updated);
    MovingEvolves(t, t');
    StoreEvolves(c, Store(c1, t'), t');
  }

  lemma DecideEvolves(
    c: Core, id: Uuid, decision: ApprovalDecision, session: IdentitySession, channel: ApprovalChannel, clock: Clock,
    env: Environment)
    requires EarlyRefusal(c, id, decision, session, channel).None?
    requires c.tasks[id].taskId == id && TaskInv(c.tasks[id])
    ensures Evolves(c, ApproveTask(c, id, decision, session, channel, clock, env).0)
  {
    hide TaskInv, Store, Spend, GrantedRun, LateRefusal, Evolves;
    EvolvesIsReflexive(c);
    var t := c.tasks[id];
    if t.approval.value.expiresAt <= clock.now {
      assert c.log + [] == c.log;
      SpendEvolves(c, t, Expired, ApprovalExpiredEvent, clock.now, []);
    } else if LateRefusal(t.approval.value, decision).None? {
      var decided := Decided(id, decision, session, channel, clock.now);
      if decision.decision == Reject {
        SpendEvolves(c, t, Rejected, ApprovalRejectedEvent, clock.now, [decided]);
      } else {
        var run := GrantedRun(c, t, clock, env);
        GrantEvolves(c, c.(files := run.files, log := c.log + [decided] + run.calls), t, clock, env);
      }
    }
  }

  lemma UndoEvolves(initial: Files, c: Core, id: Uuid, session: IdentitySession, clock: Clock, env: Environment)
    requires CoreInv(initial, c)
    requires RollbackRefusal(c, id, session).None?
    requires c.tasks[id].taskId == id && TaskInv(c.tasks[id])
    ensures Evolves(c, RollbackTask(c, id, session, clock, env).0)
  {
    hide CoreInv, TaskInv, RecordReceipt, RollbackRunFor, AddEvent, Evolves, TaskEvolves, MovesOn, UndoFits;
    hide PlannedNote;
    var t := c.tasks[id];
    OnlyApprovedTasksAreReversible(t);
    UndoDoes(initial, c, t, clock, env);
    var run := RollbackRunFor(c, t, t.results[0], clock, env);
    UndoneTaskFits(t, run, clock);
    var t' := UndoneTask(t, run, clock);
    MovingEvolves(t, t');
    StoreEvolves(c, RollbackTask(c, id, session, clock, env).0, t');
  }

  lemma {:induction false} RunContinues(c: Core, earlier: seq<Command>, later: seq<Command>)
    ensures Run(c, earlier + later) == Run(Run(c, earlier), later)
  {
    hide Perform;
    if later == [] {
      assert earlier + later == earlier;
    } else {
      var all := earlier + later;
      assert all[..|all| - 1] == earlier + later[..|later| - 1];
      RunContinues(c, earlier, later[..|later| - 1]);
    }
  }

  /**
   * Along every run, from every reachable state: plans, hashes and origins of tasks never change, approvals leave
   * Pending at most once, and events, results, receipt histories and the record of calls only grow.
   */
  lemma {:induction false} RunEvolves(root: Path, initial: Files, earlier: seq<Command>, later: seq<Command>)
    requires AllWellFormed(earlier) && AllWellFormed(later)
    ensures var c := Run(InitialCore(root, initial), earlier);
            Evolves(c, Run(c, later))
    decreases later
  {
    hide CoreInv, Perform, Evolves;
    var c := Run(InitialCore(root, initial), earlier);
    if later == [] {
      EvolvesIsReflexive(c);
    } else {
      var before, last := later[..|later| - 1], later[|later| - 1];
      RunEvolves(root, initial, earlier, before);
      RunContinues(InitialCore(root, initial), earlier, before);
      RunKeeps(root, initial, earlier + before);
      PerformEvolves(initial, Run(c, before), last);
      EvolvesIsTransitive(c, Run(c, before), Run(c, later));
    }
  }

  /* Repeated requests. */

  /** The run's commands without the creates whose request had been accepted before them. */
  function WithoutRepeats(c: Core, commands: seq<Command>): seq<Command> {
    if commands == [] then []
    else
      var before := commands[..|commands| - 1];
      var last := commands[|commands| - 1];
      if last.Create? && last.request.requestId in Run(c, before).requestIndex then WithoutRepeats(c, before)
      else WithoutRepeats(c, before) + [last]
  }

  /** Leaving out the repeated creates leaves tasks, ledger, directory and calls of the whole run unchanged. */
  lemma {:induction false} RepeatsChangeNothing(c: Core, commands: seq<Command>)
    ensures Run(c, WithoutRepeats(c, commands)) == Run(c, commands)
  {
    hide ApproveTask, RollbackTask, NewTask, Store;
    if commands != [] {
      var before := commands[..|commands| - 1];
      var last := commands[|commands| - 1];
      RepeatsChangeNothing(c, before);
      if !(last.Create? && last.request.requestId in Run(c, before).requestIndex) {
        var kept := WithoutRepeats(c, before) + [last];
        assert kept[..|kept| - 1] == WithoutRepeats(c, before);
      }
    }
  }

  /** A repeated create answers with the task as it now stands, whoever sends it. */
  lemma RepeatAnswersStoredTask(
    root: Path, initial: Files, c: Core, request: TaskRequest, session: IdentitySession, intent: Intent, token: string,
    clock: Clock, env: Environment)
    requires ReachedFrom(root, initial, c)
    requires request.requestId in c.requestIndex
    ensures TaskId(request.requestId) in c.tasks
    ensures CreateTask(c, request, session, intent, token, clock, env)
            == (c, Success(c.tasks[TaskId(request.requestId)]))
  {
    hide ReachedFrom, TasksHold, LedgerHolds, FilesConserved, EffectsAuthorised, UndosBound, DecisionsBound;
    ReachedHolds(root, initial, c);
    assert Indexed(c);
  }

  /* The pending list. */

  ghost predicate SortedByExpiry(s: seq<ApprovalSummary>) {
    forall i, j :: 0 <= i < j < |s| ==> s[i].expiresAt <= s[j].expiresAt
  }

  lemma {:induction false} InsertionSorts(s: ApprovalSummary, sorted: seq<ApprovalSummary>)
    requires SortedByExpiry(sorted)
    ensures SortedByExpiry(InsertByExpiry(s, sorted))
    ensures forall x :: x in InsertByExpiry(s, sorted) ==> x == s || x in sorted
  {
    if sorted != [] && s.expiresAt < sorted[|sorted| - 1].expiresAt {
      var front, last := sorted[..|sorted| - 1], sorted[|sorted| - 1];
      InsertionSorts(s, front);
      AppendSorted(InsertByExpiry(s, front), last);
    } else {
      AppendSorted(sorted, s);
    }
  }

  lemma AppendSorted(front: seq<ApprovalSummary>, last: ApprovalSummary)
    requires SortedByExpiry(front)
    requires forall x :: x in front ==> x.expiresAt <= last.expiresAt
    ensures SortedByExpiry(front + [last])
  {
    var all := front + [last];
    forall i, j | 0 <= i < j < |all|
      ensures all[i].expiresAt <= all[j].expiresAt
    {
      assert all[i] in front;
    }
  }

  lemma {:induction false} InsertionKeeps(s: ApprovalSummary, sorted: seq<ApprovalSummary>)
    ensures multiset(InsertByExpiry(s, sorted)) == multiset(sorted) + multiset{s}
  {
    if sorted != [] && s.expiresAt < sorted[|sorted| - 1].expiresAt {
      var front, last := sorted[..|sorted| - 1], sorted[|sorted| - 1];
      assert sorted == front + [last];
      InsertionKeeps(s, front);
    }
  }

  /** Sorting gives a sorted list of the same summaries. */
  lemma {:induction false} SortingSorts(s: seq<ApprovalSummary>)
    ensures SortedByExpiry(SortByExpiry(s))
    ensures multiset(SortByExpiry(s)) == multiset(s)
  {
    if s != [] {
      var front, last := s[..|s| - 1], s[|s| - 1];
      assert s == front + [last];
      SortingSorts(front);
      InsertionSorts(last, SortByExpiry(front));
      InsertionKeeps(last, SortByExpiry(front));
    }
  }

  /** The summaries with one expiry, in their order. */
  function WithExpiry(s: seq<ApprovalSummary>, at: Instant): seq<ApprovalSummary> {
    if s == [] then []
    else
      var before, last := WithExpiry(s[..|s| - 1], at), s[|s| - 1];
      if last.expiresAt == at then before + [last] else before
  }

  lemma WithExpiryGrows(s: seq<ApprovalSummary>, last: ApprovalSummary, at: Instant)
    ensures WithExpiry(s + [last], at) ==
            if last.expiresAt == at then WithExpiry(s, at) + [last] else WithExpiry(s, at)
  {
    assert (s + [last])[..|s|] == s;
  }

  lemma {:induction false} InsertionIsStable(s: ApprovalSummary, sorted: seq<ApprovalSummary>, at: Instant)
    requires SortedByExpiry(sorted)
    ensures WithExpiry(InsertByExpiry(s, sorted), at) == WithExpiry(sorted + [s], at)
  {
    hide WithExpiry;
    if sorted != [] && s.expiresAt < sorted[|sorted| - 1].expiresAt {
      var front, last := sorted[..|sorted| - 1], sorted[|sorted| - 1];
      assert sorted == front + [last];
      InsertionIsStable(s, front, at);
      WithExpiryGrows(InsertByExpiry(s, front), last, at);
      WithExpiryGrows(front, s, at);
      WithExpiryGrows(front, last, at);
      WithExpiryGrows(sorted, s, at);
    } else {
      assert InsertByExpiry(s, sorted) == sorted + [s];
    }
  }

  /** Sorting keeps the order of the summaries that expire at the same instant, in every list. */
  lemma {:induction false} SortingIsStable(s: seq<ApprovalSummary>, at: Instant)
    ensures WithExpiry(SortByExpiry(s), at) == WithExpiry(s, at)
  {
    hide WithExpiry;
    if s != [] {
      var front, last := s[..|s| - 1], s[|s| - 1];
      assert s == front + [last];
      SortingIsStable(front, at);
      SortingSorts(front);
      InsertionIsStable(last, SortByExpiry(front), at);
      WithExpiryGrows(front, last, at);
      WithExpiryGrows(SortByExpiry(front), last, at);
    }
  }

  /** A list that is sorted already is left as it is. */
  lemma {:induction false} SortedListStays(s: seq<ApprovalSummary>)
    requires SortedByExpiry(s)
    ensures SortByExpiry(s) == s
  {
    if s != [] {
      SortedListStays(s[..|s| - 1]);
      assert s == s[..|s| - 1] + [s[|s| - 1]];
    }
  }

  /** The task waits for a decision of its session on the phone channel. */
  ghost predicate WaitsForPhone(t: Task, session: Uuid) {
    && t.sessionId == session
    && t.state == AwaitingApproval
    && t.approval.Some?
    && t.approval.value.channel == Phone
  }

  /** What the phone is shown of a task's approval. */
  ghost predicate Shows(s: ApprovalSummary, t: Task) {
    && t.approval.Some?
    && var a := t.approval.value;
       && s.taskId == t.taskId
       && s.approvalId == a.approvalId
       && Some(s.token) == a.token
       && s.payloadSha256 == a.payloadSha256
       && s.preview == a.preview
       && s.risk == a.risk
       && s.reversible == a.reversible
       && s.expiresAt == a.expiresAt
  }

  /** In a reachable state the list's own test is whether the task waits for the phone, and it shows the approval. */
  lemma ListedIsShown(t: Task, session: Uuid, s: ApprovalSummary)
    requires TaskInv(t)
    ensures IsPendingPhone(t, session) <==> WaitsForPhone(t, session)
    ensures IsPendingPhone(t, session) ==> (s == SummaryOf(t) <==> Shows(s, t))
  {
    hide TaskInv;
    if t.approval.Some? {
      PendingTask(t);
    }
  }

  /** Exactly the session's waiting phone approvals are listed. */
  lemma {:induction false} ListedIsPending(
    initial: Files, c: Core, order: seq<Uuid>, session: Uuid, s: ApprovalSummary)
    requires CoreInv(initial, c)
    ensures s in PendingInOrder(order, c.tasks, session) <==>
              exists id :: id in order && id in c.tasks && WaitsForPhone(c.tasks[id], session) && Shows(s, c.tasks[id])
  {
    hide IsPendingPhone, WaitsForPhone, SummaryOf, Shows, CoreInv;
    if order != [] {
      var front, last := order[..|order| - 1], order[|order| - 1];
      ListedIsPending(initial, c, front, session, s);
      assert order == front + [last];
      if last in c.tasks {
        TaskUnderItsId(initial, c, last);
        ListedIsShown(c.tasks[last], session, s);
      }
    }
  }

  /** One task comes before another. */
  ghost predicate Precedes(order: seq<Uuid>, a: Uuid, b: Uuid) {
    exists p, q :: 0 <= p < q < |order| && order[p] == a && order[q] == b
  }

  /** The summaries come in the order of their tasks, one for each. */
  ghost predicate InOrderOf(order: seq<Uuid>, listed: seq<ApprovalSummary>) {
    && (forall i :: 0 <= i < |listed| ==> listed[i].taskId in order)
    && forall i, j :: 0 <= i < j < |listed| ==> Precedes(order, listed[i].taskId, listed[j].taskId)
  }

  lemma {:induction false} PendingFollowsOrder(initial: Files, c: Core, order: seq<Uuid>, session: Uuid)
    requires CoreInv(initial, c)
    ensures InOrderOf(order, PendingInOrder(order, c.tasks, session))
  {
    hide CoreInv, TaskInv, IsPendingPhone;
    if order != [] {
      var front, last := order[..|order| - 1], order[|order| - 1];
      PendingFollowsOrder(initial, c, front, session);
      var before := PendingInOrder(front, c.tasks, session);
      OrderLonger(front, last, before);
      assert order == front + [last];
      if last in c.tasks && IsPendingPhone(c.tasks[last], session) {
        TaskUnderItsId(initial, c, last);
        PendingHasToken(c.tasks[last], session);
        OneMoreInOrder(front, last, before, SummaryOf(c.tasks[last]));
      }
    }
  }

  lemma PendingHasToken(t: Task, session: Uuid)
    requires IsPendingPhone(t, session)
    ensures t.approval.Some? && t.approval.value.token.Some?
  {
  }

  lemma PrecedesStill(order: seq<Uuid>, last: Uuid, a: Uuid, b: Uuid)
    requires Precedes(order, a, b)
    ensures Precedes(order + [last], a, b)
  {
    var p, q :| 0 <= p < q < |order| && order[p] == a && order[q] == b;
    assert (order + [last])[p] == a && (order + [last])[q] == b;
  }

  lemma PrecedesLast(order: seq<Uuid>, last: Uuid, a: Uuid)
    requires a in order
    ensures Precedes(order + [last], a, last)
  {
    var p :| 0 <= p < |order| && order[p] == a;
    assert (order + [last])[p] == a && (order + [last])[|order|] == last;
  }

  lemma OrderLonger(front: seq<Uuid>, last: Uuid, listed: seq<ApprovalSummary>)
    requires InOrderOf(front, listed)
    ensures InOrderOf(front + [last], listed)
  {
    hide Precedes;
    forall i, j | 0 <= i < j < |listed|
      ensures Precedes(front + [last], listed[i].taskId, listed[j].taskId)
    {
      PrecedesStill(front, last, listed[i].taskId, listed[j].taskId);
    }
  }

  lemma OneMoreInOrder(front: seq<Uuid>, last: Uuid, listed: seq<ApprovalSummary>, s: ApprovalSummary)
    requires InOrderOf(front, listed) && InOrderOf(front + [last], listed) && s.taskId == last
    ensures InOrderOf(front + [last], listed + [s])
  {
    hide Precedes;
    var order, more := front + [last], listed + [s];
    assert order[|front|] == last;
    forall i | 0 <= i < |more|
      ensures more[i].taskId in order
    {
      if i < |listed| {
        assert more[i] == listed[i];
      }
    }
    forall i, j | 0 <= i < j < |more|
      ensures Precedes(order, more[i].taskId, more[j].taskId)
    {
      assert more[i] == listed[i];
      if j == |listed| {
        PrecedesLast(front, last, listed[i].taskId);
      } else {
        assert more[j] == listed[j];
      }
    }
  }

  /** In a list that follows an order without repetitions no summary comes twice. */
  lemma ListedOnce(order: seq<Uuid>, listed: seq<ApprovalSummary>, s: ApprovalSummary)
    requires InOrderOf(order, listed)
    requires forall i, j :: 0 <= i < j < |order| ==> order[i] != order[j]
    ensures multiset(listed)[s] <= 1
  {
    forall i, j | 0 <= i < j < |listed|
      ensures listed[i] != listed[j]
    {
      assert Precedes(order, listed[i].taskId, listed[j].taskId);
    }
    DistinctOnce(listed, s);
  }

  lemma {:induction false} DistinctOnce(listed: seq<ApprovalSummary>, s: ApprovalSummary)
    requires forall i, j :: 0 <= i < j < |listed| ==> listed[i] != listed[j]
    ensures multiset(listed)[s] <= 1
    ensures s !in listed ==> multiset(listed)[s] == 0
  {
    if listed != [] {
      var front, last := listed[..|listed| - 1], listed[|listed| - 1];
      DistinctOnce(front, s);
      assert listed == front + [last];
    }
  }

  /** The tasks were created at nondecreasing instants, in the order in which they are stored. */
  ghost predicate CreatedInOrder(c: Core) {
    && (forall i :: 0 <= i < |c.order| ==> c.order[i] in c.tasks)
    && forall i, j :: 0 <= i < j < |c.order| ==> c.tasks[c.order[i]].createdAt <= c.tasks[c.order[j]].createdAt
  }

  /** The creates of a run read a clock that does not go back. */
  ghost predicate CreatesAscend(commands: seq<Command>) {
    forall i, j :: 0 <= i < j < |commands| && commands[i].Create? && commands[j].Create? ==>
                     commands[i].clock.now <= commands[j].clock.now
  }

  ghost predicate CreatedBy(c: Core, commands: seq<Command>) {
    forall id :: id in c.tasks ==>
      exists i :: 0 <= i < |commands| && commands[i].Create? && commands[i].clock.now == c.tasks[id].createdAt
  }

  /** What a command does to the order of tasks: nothing, or one new task at the end. */
  ghost predicate OrderGrowsBy(c: Core, c': Core, command: Command) {
    || (c'.order == c.order && c'.tasks.Keys == c.tasks.Keys)
    || (&& command.Create?
        && var id := TaskId(command.request.requestId);
           && id !in c.tasks
           && c'.order == c.order + [id]
           && c'.tasks.Keys == c.tasks.Keys + {id}
           && c'.tasks[id].createdAt == command.clock.now)
  }

  /** What a command does to the order of tasks: nothing, or one new task at the end. */
  lemma OrderStep(initial: Files, c: Core, command: Command)
    requires CoreInv(initial, c) && WellFormed(command)
    ensures OrderGrowsBy(c, Perform(c, command).0, command)
  {
    hide CoreInv, TaskInv, RecordReceipt, GrantedRun, RollbackRunFor, LateRefusal, AddEvent, NewTask;
    match command
    case Create(request, session, intent, token, clock, env) =>
      if request.requestId !in c.requestIndex {
        FreshIsNew(initial, c, request.requestId);
        NewTaskIsDated(request, session, intent, token, clock, env, c.root, c.files);
      }
    case Decide(id, _, _, _, _, _) =>
      if id in c.tasks {
        TaskUnderItsId(initial, c, id);
      }
    case Rollback(id, _, _, _) =>
      if id in c.tasks {
        TaskUnderItsId(initial, c, id);
      }
  }

  lemma FreshIsNew(initial: Files, c: Core, request: Uuid)
    requires CoreInv(initial, c) && request !in c.requestIndex
    ensures TaskId(request) !in c.tasks
  {
    hide TasksHold, LedgerHolds, FilesConserved, EffectsAuthorised, UndosBound, DecisionsBound;
    NewRequestIsNewTask(c, request);
  }

  lemma NewTaskIsDated(
    request: TaskRequest, session: IdentitySession, intent: Intent, token: string, clock: Clock, env: Environment,
    root: Path, files: Files)
    ensures var t := NewTask(request, session, intent, token, clock, env, root, files).task;
            t.taskId == TaskId(request.requestId) && t.createdAt == clock.now
  {
    hide PlanFor, DecisionsFor, VerdictOn, ExecuteAuthorizedSteps, AddEvent, ApprovalFor;
  }

  lemma {:induction false} RunCreatesInOrder(root: Path, initial: Files, commands: seq<Command>)
    requires AllWellFormed(commands) && CreatesAscend(commands)
    ensures CreatedInOrder(Run(InitialCore(root, initial), commands))
    ensures CreatedBy(Run(InitialCore(root, initial), commands), commands)
  {
    hide CoreInv, Perform;
    if commands != [] {
      var before, last := commands[..|commands| - 1], commands[|commands| - 1];
      RunCreatesInOrder(root, initial, before);
      RunKeeps(root, initial, before);
      var c := Run(InitialCore(root, initial), before);
      OrderStep(initial, c, last);
      PerformEvolves(initial, c, last);
      CreationTimesStay(c, Perform(c, last).0, commands);
    }
  }

  lemma CreationTimesStay(c: Core, c': Core, commands: seq<Command>)
    requires commands != [] && CreatesAscend(commands)
    requires CreatedInOrder(c) && CreatedBy(c, commands[..|commands| - 1])
    requires Evolves(c, c')
    requires OrderGrowsBy(c, c', commands[|commands| - 1])
    ensures CreatedInOrder(c') && CreatedBy(c', commands)
  {
    hide ApprovalEvolves;
    var before, last := commands[..|commands| - 1], commands[|commands| - 1];
    forall id | id in c.tasks
      ensures c'.tasks[id].createdAt == c.tasks[id].createdAt
      ensures exists i :: && 0 <= i < |commands| && commands[i].Create?
                          && commands[i].clock.now == c'.tasks[id].createdAt
      ensures last.Create? ==> c.tasks[id].createdAt <= last.clock.now
    {
      assert TaskEvolves(c.tasks[id], c'.tasks[id]);
      var i :| 0 <= i < |before| && before[i].Create? && before[i].clock.now == c.tasks[id].createdAt;
      assert commands[i] == before[i];
    }
    forall i, j | 0 <= i < j < |c'.order|
      ensures c'.tasks[c'.order[i]].createdAt <= c'.tasks[c'.order[j]].createdAt
    {
      assert c'.order[i] == c.order[i];
      if j < |c.order| {
        assert c'.order[j] == c.order[j];
      }
    }
  }

  lemma {:induction false} PendingAscends(initial: Files, c: Core, order: seq<Uuid>, session: Uuid)
    requires CoreInv(initial, c) && order <= c.order && CreatedInOrder(c)
    ensures SortedByExpiry(PendingInOrder(order, c.tasks, session))
    ensures order != [] ==>
              forall s :: s in PendingInOrder(order, c.tasks, session) ==>
                            s.expiresAt <= c.tasks[order[|order| - 1]].createdAt + APPROVAL_LIFETIME
  {
    hide CoreInv, IsPendingPhone, TaskInv;
    if order != [] {
      var front, last := order[..|order| - 1], order[|order| - 1];
      PendingAscends(initial, c, front, session);
      assert last == c.order[|order| - 1];
      if front != [] {
        assert front[|front| - 1] == c.order[|front| - 1];
      }
      if IsPendingPhone(c.tasks[last], session) {
        TaskUnderItsId(initial, c, last);
        ExpiresAfterLifetime(c.tasks[last], session);
      }
    }
  }

  lemma ExpiresAfterLifetime(t: Task, session: Uuid)
    requires TaskInv(t) && IsPendingPhone(t, session)
    ensures SummaryOf(t).expiresAt == t.createdAt + APPROVAL_LIFETIME
  {
    hide TaskInv, PayloadSha256, NotepadPreview, TargetNode, TextOr;
    KeptAsIssued(t);
  }

  /**
   * The pending list is sorted by expiry, holds each of the session's waiting phone approvals once and nothing else,
   * and shows every field of it; when the creates of the run read a clock that does not go back, it lists them in the
   * order in which their tasks were created.
   */
  lemma PendingListIsExact(root: Path, initial: Files, commands: seq<Command>, session: Uuid, s: ApprovalSummary)
    requires AllWellFormed(commands)
    ensures var c := Run(InitialCore(root, initial), commands);
            var listed := ListPendingPhoneApprovals(c, session);
            && SortedByExpiry(listed)
            && multiset(listed)[s] <= 1
            && (s in listed <==>
                  exists id :: id in c.tasks && WaitsForPhone(c.tasks[id], session) && Shows(s, c.tasks[id]))
            && (CreatesAscend(commands) ==> InOrderOf(c.order, listed))
  {
    hide CoreInv, Run, WaitsForPhone, Shows, AllWellFormed, CreatesAscend, InOrderOf;
    var c := Run(InitialCore(root, initial), commands);
    RunKeeps(root, initial, commands);
    var pending := PendingInOrder(c.order, c.tasks, session);
    SortingSorts(pending);
    ListedIsPending(initial, c, c.order, session, s);
    PendingFollowsOrder(initial, c, c.order, session);
    assert s in SortByExpiry(pending) <==> s in multiset(SortByExpiry(pending));
    OrderHoldsTasks(initial, c);
    ListedOnce(c.order, pending, s);
    if CreatesAscend(commands) {
      RunCreatesInOrder(root, initial, commands);
      PendingAscends(initial, c, c.order, session);
      SortedListStays(pending);
    }
  }

  lemma OrderHoldsTasks(initial: Files, c: Core)
    requires CoreInv(initial, c)
    ensures forall id :: id in c.order <==> id in c.tasks
    ensures forall i, j :: 0 <= i < j < |c.order| ==> c.order[i] != c.order[j]
  {
    hide TaskInv, LedgerHolds, FilesConserved, EffectsAuthorised, UndosBound, DecisionsBound;
  }

  /** A listed approval is that of a task that waits for the phone. */
  lemma ListedWaits(root: Path, initial: Files, c: Core, session: Uuid, shown: ApprovalSummary)
    requires ReachedFrom(root, initial, c) && shown in ListPendingPhoneApprovals(c, session)
    ensures shown.taskId in c.tasks
    ensures WaitsForPhone(c.tasks[shown.taskId], session) && Shows(shown, c.tasks[shown.taskId])
  {
    hide ReachedFrom, CoreInv, TaskInv, WaitsForPhone;
    ReachedHolds(root, initial, c);
    SortingSorts(PendingInOrder(c.order, c.tasks, session));
    assert shown in multiset(ListPendingPhoneApprovals(c, session));
    assert shown in PendingInOrder(c.order, c.tasks, session);
    ListedIsPending(initial, c, c.order, session, shown);
    var id :| id in c.order && id in c.tasks && WaitsForPhone(c.tasks[id], session) && Shows(shown, c.tasks[id]);
    TaskUnderItsId(initial, c, id);
  }

  /** What is listed, sent back as it is shown on the phone channel, is accepted exactly until it expires. */
  lemma ListedApprovalIsAccepted(
    root: Path, initial: Files, c: Core, session: Uuid, s: ApprovalSummary, clock: Clock, env: Environment)
    requires ReachedFrom(root, initial, c)
    requires s in ListPendingPhoneApprovals(c, session)
    ensures var decision := ApprovalDecision(s.approvalId, s.token, s.payloadSha256, Approve);
            var outcome := ApproveTask(c, s.taskId, decision, IdentitySession(session, true), Phone, clock, env).1;
            outcome.Success? <==> clock.now < s.expiresAt
  {
    hide CoreInv, TaskInv, ReachedFrom, Run, ApproveTask, ListPendingPhoneApprovals;
    ListedWaits(root, initial, c, session, s);
    ReachedHolds(root, initial, c);
    TaskUnderItsId(initial, c, s.taskId);
    PendingTask(c.tasks[s.taskId]);
    ApprovalIsExact(
      root, initial, c, s.taskId, ApprovalDecision(s.approvalId, s.token, s.payloadSha256, Approve),
      IdentitySession(session, true), Phone, clock, env);
  }
}
