/**
 * The orchestrator as the source writes it: dictionaries that are reassigned, event lists that are appended to in
 * place, and copies handed out. Every method is verified against its function in CoreModel, keeps the invariant, and
 * keeps what it hands out apart from what it stores.
 */
module Service {
  import opened StateMachine
  import opened Domain
  import opened Registry
  import opened NoteText
  import opened NoteStore
  import opened Payload
  import opened Planner
  import opened CoreModel
  import opened TaskInvariant
  import opened CoreInvariant
  import opened CoreSteps
  import opened CoreRuns
  import opened CoreTheorems
  import opened CoreEvolution
  import opened Ledger

  /** A task that appends to a live list made for it alone, and its value. */
  ghost predicate TaskMatches(t: TaskView, value: Task, id: Uuid, live: set<EventList>)
    reads live
  {
    OwnsList(t, id, live) && TaskValue(t) == value
  }

  ghost predicate OwnsList(t: TaskView, id: Uuid, live: set<EventList>) {
    t.events in live && t.events.role == Live(id)
  }

  /** The value of what a method returns. */
  ghost function OutcomeValue(r: Result<TaskView, ServiceError>): Outcome
    reads if r.Success? then {r.value.events} else {}
  {
    match r
    case Success(view) => Success(TaskValue(view))
    case Failure(error) => Failure(error)
  }

  lemma LastEvent(task: Uuid, events: seq<Event>, state: TaskState, kind: EventKind, at: Instant)
    ensures var longer := AddEvent(task, events, state, kind, at);
            longer != [] && longer[|longer| - 1].state == state
  {
  }

  /** In every state the invariant allows, the next version is the one the ledger expects. */
  lemma VersionsFit(initial: Files, c: Core, id: Uuid)
    requires CoreInv(initial, c)
    ensures NextVersion(History(c.ledger, id)) == |History(c.ledger, id)| + 1
  {
    hide CoreInv;
    LedgerOf(initial, c, id);
    if id in c.tasks {
      HistoryFacts(c.ledger[id], c.tasks[id]);
    }
  }

  lemma IndexLeadsToTask(initial: Files, c: Core, request: Uuid)
    requires CoreInv(initial, c) && request in c.requestIndex
    ensures c.requestIndex[request] in c.tasks
  {
    hide TaskInv, LedgerHolds, FilesConserved, EffectsAuthorised, UndosBound, DecisionsBound;
  }

  /** Storing a task ties it, and keeps the others tied. */
  lemma StoringTies(tasks: map<Uuid, TaskView>, values: map<Uuid, Task>, live: set<EventList>, task: TaskView)
    requires tasks.Keys == values.Keys && task.events.role == Live(task.taskId)
    requires forall id :: id in tasks && id != task.taskId ==> TaskMatches(tasks[id], values[id], id, live)
    ensures var tasks', values' := tasks[task.taskId := task], values[task.taskId := TaskValue(task)];
            forall id :: id in tasks' ==> TaskMatches(tasks'[id], values'[id], id, live + {task.events})
  {
    hide TaskValue;
  }

  /** An undone task, field by field. */
  lemma UndoneByParts(t: Task, run: RollbackRun, clock: Clock)
    ensures var rolling := AddEvent(t.taskId, t.events, RollingBack, RollbackStarted, clock.now);
            var state := if run.result.Success? then RolledBack else Failed;
            var kind := if run.result.Success? then RollbackVerified else RollbackFailed;
            UndoneTask(t, run, clock) ==
            t.(state := state,
               events := AddEvent(t.taskId, rolling, state, kind, clock.executed),
               results := if run.result.Success? then t.results + [run.result.value] else t.results,
               updatedAt := clock.updated)
  {
  }

  class CoreSimulatorService {
    const ledger: InMemoryActionLedger
    const notes: ManagedNoteStore
    ghost const initial: Files
    var tasks: map<Uuid, TaskView>
    var order: seq<Uuid>
    var requestIndex: map<Uuid, Uuid>
    /** The tasks as values, the lists they append to, and the record of what was done outside. */
    ghost var values: map<Uuid, Task>
    ghost var live: set<EventList>
    ghost var log: seq<Entry>

    ghost function Abs(): Core
      reads this, ledger, notes
    {
      Core(notes.root, notes.files, values, order, requestIndex, ledger.contents, log)
    }

    /** Every task but an open one, whose list has grown and which is about to be stored, is worth its value. */
    ghost predicate Tied(open: Option<Uuid>)
      reads `tasks, `values, `live, live
    {
      && (forall l :: l in live ==> l.role.Live?)
      && tasks.Keys == values.Keys
      && (forall id :: id in tasks ==>
                         if open == Some(id) then OwnsList(tasks[id], id, live)
                         else TaskMatches(tasks[id], values[id], id, live))
    }

    ghost predicate Valid()
      reads this, ledger, ledger.archive, notes, live
    {
      Tied(None) && ledger.Valid() && CoreInv(initial, Abs())
    }

    constructor (notes: ManagedNoteStore)
      ensures Valid()
      ensures Abs() == InitialCore(notes.root, notes.files)
      ensures this.notes == notes && initial == notes.files && fresh(ledger) && live == {}
    {
      this.notes := notes;
      initial := notes.files;
      ledger := new InMemoryActionLedger();
      tasks, order, requestIndex := map[], [], map[];
      values, live, log := map[], {}, [];
      new;
      InitialHolds(notes.root, notes.files);
    }

    static method AppendEvent(task: Uuid, events: EventList, state: TaskState, kind: EventKind, at: Instant)
      modifies events
      ensures events.items == AddEvent(task, old(events.items), state, kind, at)
    {
      events.Append(NextEvent(task, events.items, state, kind, at));
    }

    /** A copy that shares nothing with the stored task. */
    static method DeepCopy(t: TaskView) returns (copy: TaskView)
      ensures fresh(copy.events) && copy.events.role == HandedOut && TaskValue(copy) == TaskValue(t)
    {
      var events := new EventList(t.events.items, HandedOut);
      copy := t.With(events);
    }

    /** Hands the ledger a receipt that still shares the task's list; the ledger never refuses it. */
    method RecordReceipt(task: TaskView)
      requires ledger.Valid()
      requires NextVersion(History(ledger.contents, task.taskId)) == |History(ledger.contents, task.taskId)| + 1
      modifies ledger
      ensures ledger.Valid() && fresh(ledger.archive - old(ledger.archive))
      ensures ledger.contents == CoreModel.RecordReceipt(old(ledger.contents), old(TaskValue(task)))
    {
      ghost var value := TaskValue(task);
      var previous := ledger.Get(task.taskId);
      var version := if previous.None? then 1 else previous.value.version + 1;
      var receipt := ReceiptFor(task, version);
      assert version == NextVersion(History(ledger.contents, task.taskId));
      assert ReceiptValue(receipt) == ReceiptFor(value, version);
      var recorded := ledger.Append(receipt);
      assert recorded.Success?;
    }

    /** One step; only creating a note touches the store, and only two capabilities call outside. */
    method ExecuteStep(step: PlanStep, task: Uuid, now: Instant, env: Environment)
      returns (r: Result<CapabilityResult, NoteError>, ghost calls: seq<Entry>)
      requires this as object != notes
      modifies notes, `log
      ensures StepRun(r, notes.files, calls)
              == CoreModel.ExecuteStep(step, task, now, env, notes.root, old(notes.files))
      ensures log == old(log) + calls
    {
      calls := [];
      match step.capability
      case CreateNote =>
        var note := RebuiltNote(step);
        calls := [NoteCreateCall(task, note)];
        log := log + calls;
        var created := notes.Create(note, env.openFails);
        if created.Failure? {
          return Failure(created.error), calls;
        }
        var file := created.value;
        r := Success(VerifiedResult(step, NoteEvidence(now, file.filename, file.byteCount, file.sha256)));
      case LaunchNotepad =>
        calls := [LaunchCall(task, TargetNode(step))];
        log := log + calls;
        r := Success(LaunchResult(step, now, env.launchReply));
      case AssistantRespond =>
        if TextOr(step.parameters, "response", "") == "" {
          return Success(FailedResult(step, AssistantResponseMissing)), calls;
        }
        r := Success(VerifiedResult(step, PlainEvidence(now)));
      case ReadWorkspaceStatus =>
        if !env.workspaceReadable {
          return Success(FailedResult(step, LocalWorkspaceEvidenceUnavailable)), calls;
        }
        r := Success(VerifiedResult(step, PlainEvidence(now)));
      case _ =>
        if !Simulates(step.capability) {
          return Success(FailedResult(step, SimulatorCapabilityNotFound)), calls;
        }
        r := Success(VerifiedResult(step, PlainEvidence(now)));
    }

    /** What a run over all steps gives, when the first ones have given these results and calls. */
    static ghost function After(results: seq<CapabilityResult>, calls: seq<Entry>, rest: StepsRun): StepsRun {
      StepsRun(results + rest.results, rest.error, rest.files, calls + rest.calls)
    }

    /** The loop over the steps, up to the first that raises. */
    method ExecuteEach(task: Uuid, steps: seq<PlanStep>, now: Instant, env: Environment)
      returns (results: seq<CapabilityResult>, error: Option<NoteError>, ghost calls: seq<Entry>)
      requires this as object != notes
      modifies notes, `log
      ensures StepsRun(results, error, notes.files, calls)
              == ExecuteSteps(steps, task, now, env, notes.root, old(notes.files))
      ensures log == old(log) + calls
    {
      hide CoreModel.ExecuteStep, ExecuteSteps, After;
      ghost var run := ExecuteSteps(steps, task, now, env, notes.root, notes.files);
      results, calls := [], [];
      assert steps[0..] == steps;
      AfterNothing(run);
      for i := 0 to |steps|
        invariant log == old(log) + calls
        invariant run == After(results, calls, ExecuteSteps(steps[i..], task, now, env, notes.root, notes.files))
      {
        StepsUnfold(steps, i, task, now, env, notes.root, notes.files);
        var result, made := ExecuteStep(steps[i], task, now, env);
        if result.Failure? {
          AfterFailure(results, calls, result.error, notes.files, made);
          return results, Some(result.error), calls + made;
        }
        ghost var rest := ExecuteSteps(steps[i + 1..], task, now, env, notes.root, notes.files);
        AfterOne(results, calls, result.value, made, rest);
        results, calls := results + [result.value], calls + made;
      }
      StepsEnd(steps, task, now, env, notes.root, notes.files, results, calls);
      error := None;
    }

    static lemma AfterNothing(run: StepsRun)
      ensures After([], [], run) == run
    {
    }

    static lemma AfterFailure(
      results: seq<CapabilityResult>, calls: seq<Entry>, error: NoteError, files: Files, made: seq<Entry>)
      ensures After(results, calls, StepsRun([], Some(error), files, made))
              == StepsRun(results, Some(error), files, calls + made)
    {
      assert results + [] == results;
    }

    static lemma StepsUnfold(
      steps: seq<PlanStep>, i: nat, task: Uuid, now: Instant, env: Environment, root: Path, files: Files)
      requires i < |steps|
      ensures var first := CoreModel.ExecuteStep(steps[i], task, now, env, root, files);
              ExecuteSteps(steps[i..], task, now, env, root, files)
              == match first.result
                 case Failure(error) => StepsRun([], Some(error), first.files, first.calls)
                 case Success(result) =>
                   After([result], first.calls, ExecuteSteps(steps[i + 1..], task, now, env, root, first.files))
    {
      hide CoreModel.ExecuteStep;
      assert steps[i..][0] == steps[i] && steps[i..][1..] == steps[i + 1..];
    }

    static lemma StepsEnd(
      steps: seq<PlanStep>, task: Uuid, now: Instant, env: Environment, root: Path, files: Files,
      results: seq<CapabilityResult>, calls: seq<Entry>)
      ensures After(results, calls, ExecuteSteps(steps[|steps|..], task, now, env, root, files))
              == StepsRun(results, None, files, calls)
    {
      assert steps[|steps|..] == [];
      assert results + [] == results && calls + [] == calls;
    }

    method ExecuteAuthorizedSteps(task: Uuid, plan: TaskPlan, events: EventList, clock: Clock, env: Environment)
      returns (state: TaskState, results: seq<CapabilityResult>, ghost calls: seq<Entry>)
      requires this as object != notes
      requires events.items != [] && ValidTransition(events.items[|events.items| - 1].state, Executing)
      modifies events, notes, `log
      ensures PlanRun(state, results, events.items, notes.files, calls)
              == CoreModel.ExecuteAuthorizedSteps(
                   task, plan, old(events.items), clock, env, notes.root, old(notes.files))
      ensures log == old(log) + calls
    {
      hide ExecuteSteps, AddEvent, AllVerified;
      AppendEvent(task, events, Executing, ExecutionStarted, clock.now);
      var error;
      results, error, calls := ExecuteEach(task, plan.steps, clock.now, env);
      if error.Some? {
        assert ValidTransition(Executing, Failed);
        AppendEvent(task, events, Failed, ExecutionFailedEvent, clock.executed);
        return Failed, results, calls;
      }
      assert ValidTransition(Executing, Verifying);
      AppendEvent(task, events, Verifying, VerificationStarted, clock.executed);
      var verified := AllVerified(results);
      state := if verified then Completed else Failed;
      assert ValidTransition(Verifying, state);
      AppendEvent(
        task, events, state, if verified then VerificationCompleted else VerificationFailedEvent, clock.verified);
    }

    static lemma AfterOne(
      results: seq<CapabilityResult>, calls: seq<Entry>, result: CapabilityResult, made: seq<Entry>, rest: StepsRun)
      ensures After(results, calls, After([result], made, rest)) == After(results + [result], calls + made, rest)
    {
      assert results + ([result] + rest.results) == results + [result] + rest.results;
      assert calls + (made + rest.calls) == calls + made + rest.calls;
    }

    /**
     * Stores a task, new or under the list it already appends to, and records its receipt. The source does these two
     * together at the end of every operation.
     */
    method StoreTask(task: TaskView)
      requires Tied(Some(task.taskId)) && ledger.Valid() && task.events.role == Live(task.taskId)
      requires NextVersion(History(ledger.contents, task.taskId)) == |History(ledger.contents, task.taskId)| + 1
      modifies `tasks, `values, `live, ledger
      ensures Tied(None) && ledger.Valid() && fresh(ledger.archive - old(ledger.archive))
      ensures live == old(live) + {task.events}
      ensures tasks == old(tasks)[task.taskId := task]
      ensures values == old(values[task.taskId := TaskValue(task)])
      ensures ledger.contents == CoreModel.RecordReceipt(old(ledger.contents), old(TaskValue(task)))
    {
      hide CoreModel.RecordReceipt, NextVersion, TaskValue, TaskMatches, InMemoryActionLedger.Valid;
      StoringTies(tasks, values, live, task);
      tasks := tasks[task.taskId := task];
      values := values[task.taskId := TaskValue(task)];
      live := live + {task.events};
      assert Tied(None);
      RecordReceipt(task);
    }

    /** Appends to a live task's list; no other task, no receipt and nothing handed out is touched. */
    method AppendToLive(task: TaskView, state: TaskState, kind: EventKind, at: Instant)
      requires Tied(Some(task.taskId)) && ledger.Valid() && OwnsList(task, task.taskId, live)
      modifies task.events
      ensures Tied(Some(task.taskId)) && ledger.Valid()
      ensures task.events.items == AddEvent(task.taskId, old(task.events.items), state, kind, at)
    {
      hide TaskValue, AddEvent;
      AppendEvent(task.taskId, task.events, state, kind, at);
    }

    /** Executes the plan of a live task; only its own list, the note store and the record change. */
    method ExecuteLive(task: TaskView, clock: Clock, env: Environment)
      returns (state: TaskState, results: seq<CapabilityResult>, ghost calls: seq<Entry>)
      requires Tied(Some(task.taskId)) && ledger.Valid() && OwnsList(task, task.taskId, live)
      requires task.events.items != []
      requires ValidTransition(task.events.items[|task.events.items| - 1].state, Executing)
      modifies task.events, notes, `log
      ensures Tied(Some(task.taskId)) && ledger.Valid()
      ensures PlanRun(state, results, task.events.items, notes.files, calls)
              == CoreModel.ExecuteAuthorizedSteps(
                   task.taskId, task.plan, old(task.events.items), clock, env, notes.root, old(notes.files))
      ensures log == old(log) + calls
    {
      hide TaskValue, CoreModel.ExecuteAuthorizedSteps;
      state, results, calls := ExecuteAuthorizedSteps(task.taskId, task.plan, task.events, clock, env);
    }

    /** Appends the event that leads to the next form of a live task, and stores that form. */
    method Advance(next: TaskView, kind: EventKind, at: Instant)
      requires Tied(Some(next.taskId)) && ledger.Valid() && OwnsList(next, next.taskId, live)
      requires NextVersion(History(ledger.contents, next.taskId)) == |History(ledger.contents, next.taskId)| + 1
      modifies `tasks, `values, `live, ledger, next.events
      ensures Tied(None) && ledger.Valid() && fresh(ledger.archive - old(ledger.archive)) && live == old(live)
      ensures tasks == old(tasks)[next.taskId := next]
      ensures TaskValue(next)
              == old(TaskValue(next)).(events := AddEvent(next.taskId, old(next.events.items), next.state, kind, at))
      ensures values == old(values)[next.taskId := TaskValue(next)]
      ensures ledger.contents == CoreModel.RecordReceipt(old(ledger.contents), TaskValue(next))
    {
      hide CoreModel.RecordReceipt, NextVersion, AddEvent, Tied, InMemoryActionLedger.Valid;
      AppendToLive(next, next.state, kind, at);
      StoreTask(next);
    }

    lemma OpenNew(id: Uuid)
      requires Tied(None) && id !in tasks
      ensures Tied(Some(id))
    {
      hide TaskValue, TaskMatches;
    }

    /** A stored task is worth its value, and its list may be appended to. */
    lemma Open(id: Uuid)
      requires Tied(None)
      ensures id in tasks <==> id in values
      ensures id in tasks ==>
                && Tied(Some(id)) && OwnsList(tasks[id], id, live)
                && TaskValue(tasks[id]) == values[id]
    {
      hide TaskValue;
      if id in tasks {
        assert TaskMatches(tasks[id], values[id], id, live);
      }
    }

    /** Denies a waiting task: its approval is spent with the given status and one receipt is added. */
    method DenyApproval(
      task: TaskView, status: ApprovalStatus, kind: EventKind, at: Instant, ghost entries: seq<Entry>)
      returns (denied: TaskView)
      requires Tied(None) && ledger.Valid()
      requires task.taskId in tasks && tasks[task.taskId] == task
      requires task.state == AwaitingApproval && task.approval.Some?
      requires NextVersion(History(ledger.contents, task.taskId)) == |History(ledger.contents, task.taskId)| + 1
      modifies `tasks, `values, `live, `log, ledger, task.events
      ensures Tied(None) && ledger.Valid() && fresh(ledger.archive - old(ledger.archive)) && live == old(live)
      ensures denied.events == task.events
      ensures TaskValue(denied) == Spend(old(TaskValue(task)), status, Denied, kind, at)
      ensures Abs() == Store(old(Abs()).(log := old(log) + entries), TaskValue(denied))
    {
      hide CoreModel.RecordReceipt, NextVersion, AddEvent;
      hide Tied, InMemoryActionLedger.Valid;
      Open(task.taskId);
      assert ValidTransition(task.state, Denied);
      denied := task.(
        state := Denied,
        approval := Some(task.approval.value.(status := status, token := None)),
        updatedAt := at);
      Advance(denied, kind, at);
      log := log + entries;
    }

    /** Grants a waiting task's approval and executes its plan, which goes as the given run. */
    method GrantApproval(task: TaskView, clock: Clock, env: Environment, ghost decided: Entry, ghost run: PlanRun)
      returns (done: TaskView)
      requires Tied(None) && ledger.Valid()
      requires task.taskId in tasks && tasks[task.taskId] == task
      requires task.state == AwaitingApproval && task.approval.Some?
      requires NextVersion(History(ledger.contents, task.taskId)) == |History(ledger.contents, task.taskId)| + 1
      requires run == GrantedRun(Abs(), TaskValue(task), clock, env)
      modifies this, ledger, notes, task.events
      ensures Tied(None) && ledger.Valid() && fresh(ledger.archive - old(ledger.archive)) && live == old(live)
      ensures done.events == task.events
      ensures TaskValue(done) == GrantedTask(old(TaskValue(task)), run, clock.updated)
      ensures Abs() == Store(
                         old(Abs()).(files := run.files, log := old(log) + [decided] + run.calls), TaskValue(done))
    {
      hide CoreModel.RecordReceipt, NextVersion, AddEvent, CoreModel.ExecuteAuthorizedSteps;
      hide Tied, InMemoryActionLedger.Valid;
      Open(task.taskId);
      ghost var t := TaskValue(task);
      log := log + [decided];
      assert ValidTransition(task.state, Approved);
      AppendToLive(task, Approved, ApprovalGranted, clock.now);
      LastEvent(task.taskId, t.events, Approved, ApprovalGranted, clock.now);
      var state, results, calls := ExecuteLive(task, clock, env);
      assert PlanRun(state, results, task.events.items, notes.files, calls) == run;
      done := task.(
        state := state,
        results := results,
        approval := Some(task.approval.value.(status := Consumed, token := None)),
        updatedAt := clock.updated);
      assert TaskValue(done) == GrantedTask(t, run, clock.updated);
      StoreTask(done);
    }

    /** Carries out a decision that nothing refuses. */
    method Settle(
      task: TaskView, decision: ApprovalDecision, session: IdentitySession, channel: ApprovalChannel, clock: Clock,
      env: Environment) returns (stored: TaskView)
      requires Tied(None) && ledger.Valid()
      requires task.taskId in tasks && tasks[task.taskId] == task
      requires EarlyRefusalOf(task, decision, session, channel).None?
      requires clock.now < task.approval.value.expiresAt
      requires LateRefusal(task.approval.value, decision).None?
      requires NextVersion(History(ledger.contents, task.taskId)) == |History(ledger.contents, task.taskId)| + 1
      modifies this, ledger, notes, task.events
      ensures Tied(None) && ledger.Valid() && fresh(ledger.archive - old(ledger.archive)) && live == old(live)
      ensures stored.events == task.events
      ensures (Abs(), Success(TaskValue(stored)))
              == CoreModel.ApproveTask(old(Abs()), task.taskId, decision, session, channel, clock, env)
    {
      hide Store, Spend, GrantedRun, LateRefusal, NextVersion;
      hide Tied, InMemoryActionLedger.Valid;
      Open(task.taskId);
      ghost var decided := Decided(task.taskId, decision, session, channel, clock.now);
      if decision.decision == Reject {
        stored := DenyApproval(task, Rejected, ApprovalRejectedEvent, clock.now, [decided]);
      } else {
        stored := GrantApproval(task, clock, env, decided, GrantedRun(Abs(), TaskValue(task), clock, env));
      }
    }

    /**
     * Decides a waiting approval. Every exit, including each refusal, ends in the state the specification gives, and
     * the task that is returned shares nothing with the state.
     */
    method ApproveTask(
      id: Uuid, decision: ApprovalDecision, session: IdentitySession, channel: ApprovalChannel, clock: Clock,
      env: Environment) returns (r: Result<TaskView, ServiceError>)
      requires Valid()
      modifies this, ledger, notes, live
      ensures Valid() && live == old(live)
      ensures (Abs(), OutcomeValue(r)) == CoreModel.ApproveTask(old(Abs()), id, decision, session, channel, clock, env)
      ensures r.Success? ==> fresh(r.value.events) && r.value.events.role == HandedOut
    {
      hide CoreInv, Store, Spend, GrantedRun, TaskInv, LateRefusal, NextVersion, Tied, InMemoryActionLedger.Valid;
      ghost var c := Abs();
      ApproveKeeps(initial, c, id, decision, session, channel, clock, env);
      Open(id);
      if id !in tasks {
        return Failure(TaskNotFound);
      }
      var task := tasks[id];
      TaskUnderItsId(initial, c, id);
      var early := EarlyRefusalOf(task, decision, session, channel);
      if early.Some? {
        return Failure(early.value);
      }
      VersionsFit(initial, c, id);
      var approval := task.approval.value;
      if approval.expiresAt <= clock.now {
        assert c.log + [] == c.log;
        var expired := DenyApproval(task, Expired, ApprovalExpiredEvent, clock.now, []);
        return Failure(ApprovalHasExpired);
      }
      var late := LateRefusal(approval, decision);
      if late.Some? {
        return Failure(late.value);
      }
      var stored := Settle(task, decision, session, channel, clock, env);
      var copy := DeepCopy(stored);
      r := Success(copy);
    }

    /** Undoes the reversible result of a completed task in the note store, or takes the device's answer. */
    method Undo(task: TaskView, source: CapabilityResult, clock: Clock, env: Environment)
      returns (result: Result<CapabilityResult, RollbackFailure>, ghost calls: seq<Entry>)
      requires source.evidence != []
      requires this as object != notes
      modifies notes, `log
      ensures RollbackRun(result, notes.files, calls)
              == if source.capability == CreateNote
                 then RollbackNote(source, task.taskId, clock.now, notes.root, old(notes.files))
                 else RollbackDeviceCommand(source, task.taskId, clock.now, env.rollbackReply, old(notes.files))
      ensures log == old(log) + calls
    {
      var evidence := source.evidence[0];
      if source.capability == CreateNote {
        var filename := if evidence.NoteEvidence? then evidence.filename else "";
        var expectedSha256 := if evidence.NoteEvidence? then evidence.sha256 else "";
        calls := [NoteRemoveCall(task.taskId, filename, expectedSha256)];
        log := log + calls;
        var removed := notes.Rollback(filename, expectedSha256);
        if removed.Failure? {
          return Failure(NoteFailure(removed.error)), calls;
        }
        result := Success(CapabilityResult(
                            source.stepId, RollbackCreateNote, StepRolledBack,
                            [NoteRemoved(clock.now, filename, expectedSha256)], None));
      } else {
        if !evidence.DeviceEvidence? {
          return Failure(MalformedCommandId), [];
        }
        calls := [DeviceRollbackCall(task.taskId, evidence.launch.commandId, evidence.launch.nodeId)];
        log := log + calls;
        if env.rollbackReply.None? {
          return Failure(DeviceFailure), calls;
        }
        var stop := env.rollbackReply.value;
        if !stop.verifiedAbsent {
          return Failure(DeviceRollbackNotVerified), calls;
        }
        result := Success(CapabilityResult(
                            source.stepId, RollbackLaunchNotepad, StepRolledBack,
                            [DeviceStopped(clock.now, stop)], None));
      }
    }

    /** Rolls a completed task back, whatever the outcome of the undo, which goes as the given run. */
    method RollBack(
      task: TaskView, source: CapabilityResult, clock: Clock, env: Environment, ghost run: RollbackRun)
      returns (stored: TaskView, result: Result<CapabilityResult, RollbackFailure>)
      requires Tied(None) && ledger.Valid()
      requires task.taskId in tasks && tasks[task.taskId] == task
      requires task.state == Completed && source.evidence != []
      requires NextVersion(History(ledger.contents, task.taskId)) == |History(ledger.contents, task.taskId)| + 1
      requires run == RollbackRunFor(Abs(), TaskValue(task), source, clock, env)
      modifies this, ledger, notes, task.events
      ensures Tied(None) && ledger.Valid() && fresh(ledger.archive - old(ledger.archive)) && live == old(live)
      ensures stored.events == task.events
      ensures result == run.result
      ensures TaskValue(stored) == UndoneTask(old(TaskValue(task)), run, clock)
      ensures Abs() == Store(old(Abs()).(files := run.files, log := old(log) + run.calls), TaskValue(stored))
    {
      hide CoreModel.RecordReceipt, NextVersion, AddEvent, RollbackNote, RollbackDeviceCommand, UndoneTask;
      hide Tied, InMemoryActionLedger.Valid;
      Open(task.taskId);
      ghost var t := TaskValue(task);
      UndoneByParts(t, run, clock);
      assert ValidTransition(task.state, RollingBack);
      AppendToLive(task, RollingBack, RollbackStarted, clock.now);
      ghost var calls;
      result, calls := Undo(task, source, clock, env);
      assert RollbackRun(result, notes.files, calls) == run;
      var state := if result.Success? then RolledBack else Failed;
      assert ValidTransition(RollingBack, state);
      stored := task.(
        state := state,
        results := if result.Success? then task.results + [result.value] else task.results,
        updatedAt := clock.updated);
      Advance(stored, if result.Success? then RollbackVerified else RollbackFailed, clock.executed);
      assert TaskValue(stored) == UndoneTask(t, run, clock);
    }

    method RollbackTask(id: Uuid, session: IdentitySession, clock: Clock, env: Environment)
      returns (r: Result<TaskView, ServiceError>)
      requires Valid()
      modifies this, ledger, notes, live
      ensures Valid() && live == old(live)
      ensures (Abs(), OutcomeValue(r)) == CoreModel.RollbackTask(old(Abs()), id, session, clock, env)
      ensures r.Success? ==> fresh(r.value.events) && r.value.events.role == HandedOut
    {
      hide CoreInv, Store, RollbackRunFor, TaskInv, NextVersion, ReversibleResult, Tied, InMemoryActionLedger.Valid;
      ghost var c := Abs();
      RollbackKeeps(initial, c, id, session, clock, env);
      Open(id);
      if id !in tasks {
        return Failure(TaskNotFound);
      }
      var task := tasks[id];
      TaskUnderItsId(initial, c, id);
      var refusal := RollbackRefusalOf(task, session);
      if refusal.Some? {
        return Failure(refusal.value);
      }
      ReversibleResultHasEvidence(task.results);
      VersionsFit(initial, c, id);
      var source := ReversibleResult(task.results).value;
      var stored, result := RollBack(task, source, clock, env, RollbackRunFor(c, c.tasks[id], source, clock, env));
      if result.Failure? {
        return Failure(RollbackRefused(result.error));
      }
      var copy := DeepCopy(stored);
      r := Success(copy);
    }

    /** Accepts a request once; a repeated request gets a copy of its task as it now stands. */
    method CreateTask(
      request: TaskRequest, session: IdentitySession, intent: Intent, token: string, clock: Clock, env: Environment)
      returns (r: Result<TaskView, ServiceError>)
      requires Valid()
      requires intent.Classified()
      modifies this, ledger, notes
      ensures Valid() && fresh(live - old(live))
      ensures (Abs(), OutcomeValue(r))
              == CoreModel.CreateTask(old(Abs()), request, session, intent, token, clock, env)
      ensures r.Success? ==> fresh(r.value.events) && r.value.events.role == HandedOut
    {
      hide CoreInv, NewTask, TaskInv, NextVersion, CoreModel.RecordReceipt, Tied, InMemoryActionLedger.Valid;
      ghost var c := Abs();
      CreateKeeps(initial, c, request, session, intent, token, clock, env);
      if request.requestId in requestIndex {
        IndexLeadsToTask(initial, c, request.requestId);
        var id := requestIndex[request.requestId];
        Open(id);
        var existing := DeepCopy(tasks[id]);
        return Success(existing);
      }
      if !SessionMatches(session, request.sessionId) {
        return Failure(InvalidSession);
      }
      VersionsFit(initial, c, TaskId(request.requestId));
      FreshIsNew(initial, c, request.requestId);
      Open(TaskId(request.requestId));
      var stored := Accept(request, session, intent, token, clock, env);
      var copy := DeepCopy(stored);
      r := Success(copy);
    }

    /** Plans a new request, checks policy, and executes it, asks for approval or denies it. */
    method Accept(
      request: TaskRequest, session: IdentitySession, intent: Intent, token: string, clock: Clock, env: Environment)
      returns (stored: TaskView)
      requires Tied(None) && ledger.Valid() && TaskId(request.requestId) !in tasks
      requires NextVersion(History(ledger.contents, TaskId(request.requestId)))
               == |History(ledger.contents, TaskId(request.requestId))| + 1
      modifies this, ledger, notes
      ensures Tied(None) && ledger.Valid() && fresh(ledger.archive - old(ledger.archive)) && fresh(live - old(live))
      ensures stored.taskId == TaskId(request.requestId) && stored.events in live
      ensures var made := NewTask(request, session, intent, token, clock, env, notes.root, old(notes.files));
              && TaskValue(stored) == made.task
              && notes.files == made.files
              && log == old(log) + made.entries
      ensures order == old(order) + [stored.taskId]
      ensures requestIndex == old(requestIndex)[request.requestId := stored.taskId]
      ensures values == old(values)[stored.taskId := TaskValue(stored)]
      ensures ledger.contents == CoreModel.RecordReceipt(old(ledger.contents), TaskValue(stored))
    {
      hide CoreModel.RecordReceipt, NextVersion, NewTask, Tied, InMemoryActionLedger.Valid, TaskMatches, OwnsList;
      stored := Prepare(request, session, intent, token, clock, env);
      NewTaskIsDated(request, session, intent, token, clock, env, notes.root, old(notes.files));
      OpenNew(stored.taskId);
      order := order + [stored.taskId];
      requestIndex := requestIndex[request.requestId := stored.taskId];
      StoreTask(stored);
    }

    /** Builds the task of a new request, with a list of its own. */
    method Prepare(
      request: TaskRequest, session: IdentitySession, intent: Intent, token: string, clock: Clock, env: Environment)
      returns (task: TaskView)
      requires this as object != notes
      modifies notes, `log
      ensures fresh(task.events) && task.events.role == Live(TaskId(request.requestId))
      ensures var made := NewTask(request, session, intent, token, clock, env, notes.root, old(notes.files));
              && TaskValue(task) == made.task
              && notes.files == made.files
              && log == old(log) + made.entries
    {
      hide AddEvent, CoreModel.ExecuteAuthorizedSteps, PlanFor, DecisionsFor, VerdictOn, ApprovalFor;
      var id := TaskId(request.requestId);
      var now := clock.now;
      var events := new EventList([], Live(id));
      AppendEvent(id, events, Received, RequestReceived, now);
      var plan := PlanFor(id, intent);
      assert ValidTransition(Received, Planned);
      AppendEvent(id, events, Planned, PlanGenerated, now);
      assert events.items == PlannedEvents(id, now);
      assert events.items != [] && events.items[|events.items| - 1].state == Planned by {
        LastEvent(id, AddEvent(id, [], Received, RequestReceived, now), Planned, PlanGenerated, now);
      }
      var decisions := DecisionsFor(id, intent);
      var base := TaskOf(
        id, request.requestId, request.sessionId, Planned, intent, plan, decisions, [], events, None, now,
        clock.updated);
      match VerdictOn(decisions)
      case Refused =>
        assert ValidTransition(Planned, Denied);
        AppendEvent(id, events, Denied, PolicyDeniedEvent, now);
        task := base.(state := Denied);
      case NeedsApproval =>
        if plan.steps == [] {
          return base;
        }
        assert ValidTransition(Planned, AwaitingApproval);
        var approval := ApprovalFor(id, session.sessionId, plan.steps[0], token, now);
        AppendEvent(id, events, AwaitingApproval, ApprovalRequested, now);
        log := log + [Issued(approval)];
        task := base.(state := AwaitingApproval, approval := Some(approval));
      case RunsAtOnce =>
        var state, results, calls := ExecuteAuthorizedSteps(id, plan, events, clock, env);
        task := base.(state := state, results := results);
    }

    lemma PendingAgrees(id: Uuid, session: Uuid)
      requires Valid() && id in order
      ensures id in tasks && id in values
      ensures IsPendingPhone(tasks[id], session) <==> IsPendingPhone(values[id], session)
      ensures IsPendingPhone(tasks[id], session) ==>
                && tasks[id].approval.Some? && tasks[id].approval.value.token.Some?
                && values[id].approval.Some? && values[id].approval.value.token.Some?
                && SummaryOf(tasks[id]) == SummaryOf(values[id])
    {
      hide CoreInv, TaskInv, InMemoryActionLedger.Valid;
      OrderHoldsTasks(initial, Abs());
      assert TaskMatches(tasks[id], values[id], id, live);
    }

    /** The session's waiting phone approvals, oldest expiry first. */
    method ListPendingPhoneApprovals(session: Uuid) returns (listed: seq<ApprovalSummary>)
      requires Valid()
      ensures listed == CoreModel.ListPendingPhoneApprovals(Abs(), session)
    {
      hide Valid, SortByExpiry, IsPendingPhone;
      var summaries: seq<ApprovalSummary> := [];
      for i := 0 to |order|
        invariant summaries == PendingInOrder(order[..i], values, session)
      {
        PendingAgrees(order[i], session);
        var task := tasks[order[i]];
        assert order[..i + 1][..i] == order[..i];
        if IsPendingPhone(task, session) {
          summaries := summaries + [SummaryOf(task)];
        }
      }
      assert order[..|order|] == order;
      listed := SortByExpiry(summaries);
    }

    method GetTask(id: Uuid) returns (r: Result<TaskView, ServiceError>)
      requires Valid()
      ensures r.Success? <==> id in Abs().tasks
      ensures r.Success? ==> fresh(r.value.events) && r.value.events.role == HandedOut
      ensures r.Success? ==> TaskValue(r.value) == Abs().tasks[id]
      ensures r.Failure? ==> r.error == TaskNotFound
    {
      hide CoreInv;
      if id !in tasks {
        return Failure(TaskNotFound);
      }
      assert TaskMatches(tasks[id], values[id], id, live);
      var copy := DeepCopy(tasks[id]);
      r := Success(copy);
    }

    method GetReceipt(id: Uuid) returns (r: Result<StoredReceipt, ServiceError>)
      requires Valid()
      ensures r.Success? <==> id in Abs().tasks
      ensures r.Success? ==> fresh(r.value.events) && r.value.events.role == HandedOut
      ensures r.Success? ==>
                var h := History(Abs().ledger, id);
                h != [] && ReceiptValue(r.value) == h[|h| - 1]
      ensures r.Failure? ==> r.error == TaskNotFound
    {
      hide CoreInv, Tied, HistoryHolds;
      LedgerOf(initial, Abs(), id);
      if id in values {
        HistoryFacts(ledger.contents[id], values[id]);
      }
      var receipt := ledger.Get(id);
      if receipt.None? {
        return Failure(TaskNotFound);
      }
      r := Success(receipt.value);
    }

    method GetReceiptHistory(id: Uuid) returns (r: Result<seq<StoredReceipt>, ServiceError>)
      requires Valid()
      ensures r.Success? <==> id in Abs().tasks
      ensures r.Success? ==>
                && |r.value| == |History(Abs().ledger, id)|
                && forall i :: 0 <= i < |r.value| ==>
                                 && fresh(r.value[i].events) && r.value[i].events.role == HandedOut
                                 && ReceiptValue(r.value[i]) == History(Abs().ledger, id)[i]
      ensures r.Failure? ==> r.error == TaskNotFound
    {
      hide CoreInv;
      LedgerOf(initial, Abs(), id);
      if id in values {
        HistoryFacts(ledger.contents[id], values[id]);
      }
      var history := ledger.GetHistory(id);
      if history == [] {
        return Failure(TaskNotFound);
      }
      r := Success(history);
    }
  }

  /**
   * Whatever a caller does to the event list of a view or receipt it was given, the service and its receipts stay as
   * they are. The other parts of a view are values here, so that only the list could be shared.
   */
  method CallerRewrites(service: CoreSimulatorService, given: EventList, events: seq<Event>)
    requires service.Valid() && given.role == HandedOut
    modifies given
    ensures service.Valid() && service.Abs() == old(service.Abs())
    ensures given.items == events
  {
    hide CoreInv;
    given.items := events;
    assert service.Tied(None);
  }

  /**
   * And the other way round: a view and a receipt that were handed out earlier stay as they were handed out, whatever
   * calls the service serves from then on; it serves them as specified.
   */
  method ViewsStay(
    service: CoreSimulatorService, view: TaskView, receipt: StoredReceipt, commands: seq<Command>)
    requires service.Valid() && view.events.role == HandedOut && receipt.events.role == HandedOut
    requires AllWellFormed(commands)
    modifies service, service.ledger, service.notes, service.live
    ensures service.Valid()
    ensures service.Abs() == Run(old(service.Abs()), commands)
    ensures TaskValue(view) == old(TaskValue(view)) && ReceiptValue(receipt) == old(ReceiptValue(receipt))
  {
    hide CoreInv, CoreSimulatorService.Valid, CoreModel.CreateTask, CoreModel.ApproveTask, CoreModel.RollbackTask;
    ghost var c := service.Abs();
    assert commands[..0] == [];
    HandedOutIsNotLive(service, view.events);
    HandedOutIsNotLive(service, receipt.events);
    for i := 0 to |commands|
      invariant service.Valid() && service.Abs() == Run(c, commands[..i])
      invariant fresh(service.live - old(service.live))
      invariant view.events !in service.live && receipt.events !in service.live
      invariant TaskValue(view) == old(TaskValue(view)) && ReceiptValue(receipt) == old(ReceiptValue(receipt))
    {
      assert commands[..i + 1][..i] == commands[..i] && commands[..i + 1][i] == commands[i];
      Serve(service, commands[i]);
      HandedOutIsNotLive(service, view.events);
      HandedOutIsNotLive(service, receipt.events);
    }
    assert commands[..|commands|] == commands;
  }

  lemma HandedOutIsNotLive(service: CoreSimulatorService, given: EventList)
    requires service.Valid() && given.role == HandedOut
    ensures given !in service.live
  {
    hide CoreInv;
    assert service.Tied(None);
  }

  /** One call of the service. */
  method Serve(service: CoreSimulatorService, command: Command)
    requires service.Valid() && WellFormed(command)
    modifies service, service.ledger, service.notes, service.live
    ensures service.Valid() && fresh(service.live - old(service.live))
    ensures service.Abs() == Perform(old(service.Abs()), command).0
  {
    hide CoreInv, CoreSimulatorService.Valid, CoreModel.CreateTask, CoreModel.ApproveTask, CoreModel.RollbackTask;
    match command
    case Create(request, session, intent, token, clock, env) =>
      var r := service.CreateTask(request, session, intent, token, clock, env);
    case Decide(id, decision, session, channel, clock, env) =>
      var r := service.ApproveTask(id, decision, session, channel, clock, env);
    case Rollback(id, session, clock, env) =>
      var r := service.RollbackTask(id, session, clock, env);
  }
}
