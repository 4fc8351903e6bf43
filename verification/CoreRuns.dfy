/** The invariant over whole runs. */
module CoreRuns {
  import opened StateMachine
  import opened Domain
  import opened Registry
  import opened NoteText
  import opened NoteStore
  import opened Payload
  import opened Planner
  import opened CoreModel
  import opened TaskInvariant
  import opened CoreInvariant
  import opened CoreSteps

  /** A task that moved on is stored, the directory has changed and the record has grown: all parts hold. */
  lemma UpdateKeeps(initial: Files, c: Core, c1: Core, t': Task, extra: seq<Entry>)
    requires CoreInv(initial, c)
    requires t'.taskId in c.tasks && MovesOn(c.tasks[t'.taskId], t') && TaskInv(t')
    requires c1 == c.(files := c1.files, log := c.log + extra)
    requires FilesConserved(initial, Store(c1, t'))
    requires EffectsAuthorised(Store(c1, t')) && UndosBound(Store(c1, t')) && DecisionsBound(Store(c1, t'))
    ensures CoreInv(initial, Store(c1, t'))
  {
    hide FilesConserved, EffectsAuthorised, UndosBound, DecisionsBound, RecordReceipt, TaskInv, MovesOn;
    hide HistoriesHold;
    StoreKeeps(c, t');
    StoreIgnoresRecord(c, c1, t');
  }

  lemma StoreIgnoresRecord(c: Core, c1: Core, t': Task)
    requires c1 == c.(files := c1.files, log := c1.log)
    requires Indexed(Store(c, t')) && TasksHold(Store(c, t')) && LedgerHolds(Store(c, t'))
    ensures Indexed(Store(c1, t')) && TasksHold(Store(c1, t')) && LedgerHolds(Store(c1, t'))
  {
    hide RecordReceipt, TaskInv, HistoriesHold;
  }

  lemma CreateKeeps(
    initial: Files, c: Core, request: TaskRequest, session: IdentitySession, intent: Intent, token: string,
    clock: Clock, env: Environment)
    requires CoreInv(initial, c)
    requires intent.Classified()
    ensures CoreInv(initial, CreateTask(c, request, session, intent, token, clock, env).0)
  {
    hide NewTask, TaskInv, RecordReceipt, HistoriesHold, FilesConserved;
    if request.requestId !in c.requestIndex && SessionMatches(session, request.sessionId) {
      var made := NewTask(request, session, intent, token, clock, env, c.root, c.files);
      NewTaskFits(request, session, intent, token, clock, env, c.root, c.files);
      var t := made.task;
      NewTaskIsFirst(t);
      NewRequestIsNewTask(c, request.requestId);
      StoreNewKeeps(c, t);
      var c' := CreateTask(c, request, session, intent, token, clock, env).0;
      FilesKeep(initial, c, c', t);
      assert Updates(c, c', t, made.entries);
      EffectsKeep(c, c', t, made.entries);
      UndosKeep(c, c', t, made.entries);
      DecisionsKeep(c, c', t, made.entries);
      CreatedIndexes(c, c', t);
    }
  }

  /** A new task has one receipt and owns no file. */
  lemma NewTaskIsFirst(t: Task)
    requires TaskInv(t)
    requires t.state in {Denied, AwaitingApproval, Completed, Failed}
    requires t.approval.Some? <==> t.state == AwaitingApproval
    ensures ReceiptCount(RouteOf(t)) == 1
    ensures !OwnsFile(t)
  {
    hide PlanFor, DecisionsFor, VerdictOn, Traced, ApprovalFor, EvidenceBinds;
    if t.state == Completed {
      OnlyApprovedTasksAreReversible(t);
      if t.plan.steps != [] && t.plan.steps[0].capability == CreateNote {
        assert ResultFor(t.results[0], t.plan.steps[0]);
        FirstIsReversible(t.results);
      }
    }
  }

  lemma FirstIsReversible(results: seq<CapabilityResult>)
    requires AllVerified(results)
    requires IsReversibleCapability(results[0].capability)
    ensures ReversibleResult(results) == Some(results[0])
  {
  }

  lemma CreatedIndexes(c: Core, c': Core, t: Task)
    requires c' == Store(c, t).(
                     files := c'.files, order := c.order + [t.taskId],
                     requestIndex := c.requestIndex[t.requestId := t.taskId], log := c'.log)
    requires var d := Store(c, t).(
               order := c.order + [t.taskId], requestIndex := c.requestIndex[t.requestId := t.taskId]);
             Indexed(d) && TasksHold(d) && LedgerHolds(d)
    ensures Indexed(c') && TasksHold(c') && LedgerHolds(c')
  {
    hide RecordReceipt, TaskInv, HistoriesHold;
  }

  /** An approval that is spent without being granted. */
  lemma SpendKeeps(
    initial: Files, c: Core, t: Task, status: ApprovalStatus, kind: EventKind, at: Instant, extra: seq<Entry>)
    requires CoreInv(initial, c)
    requires t.taskId in c.tasks && c.tasks[t.taskId] == t && t.state == AwaitingApproval && t.approval.Some?
    requires SpentAs(status, kind)
    requires extra == [] || (|extra| == 1 && extra[0].Decided? && extra[0].task == t.taskId)
    ensures CoreInv(initial, Store(c.(log := c.log + extra), Spend(t, status, Denied, kind, at)))
  {
    hide TaskInv, RecordReceipt, HistoriesHold, FilesConserved, MovesOn;
    hide Spend, WasExecuted, WasUndone, OwnsFile, SameOrigin, Indexed, TasksHold;
    assert TaskInv(t) by {
      assert TasksHold(c);
      TaskUnderItsId(initial, c, t.taskId);
    }
    SpentFacts(t, status, kind, at);
    var t' := Spend(t, status, Denied, kind, at);
    var c1 := c.(log := c.log + extra);
    var c' := Store(c1, t');
    FilesKeep(initial, c, c', t');
    EffectsKeep(c, c', t', extra);
    UndosKeep(c, c', t', extra);
    DecisionsKeep(c, c', t', extra);
    UpdateKeeps(initial, c, c1, t', extra);
  }

  lemma SpentFacts(t: Task, status: ApprovalStatus, kind: EventKind, at: Instant)
    requires TaskInv(t) && t.state == AwaitingApproval && t.approval.Some?
    requires SpentAs(status, kind)
    ensures var t' := Spend(t, status, Denied, kind, at);
            && TaskInv(t') && MovesOn(t, t') && SameOrigin(t, t')
            && t'.taskId == t.taskId && t'.state == Denied
            && !WasExecuted(t) && !WasUndone(t) && !OwnsFile(t) && !OwnsFile(t')
  {
    hide TaskInv, MovesOn, AddEvent;
    SpendFits(t, status, kind, at);
    SpentMovesOn(t, status, kind, at);
  }

  /** The one effect of a grant is authorised by the decision just before it. */
  lemma GrantIsAuthorised(
    initial: Files, c: Core, t: Task, decision: ApprovalDecision, session: IdentitySession, channel: ApprovalChannel,
    clock: Clock, env: Environment)
    requires CoreInv(initial, c)
    requires t.taskId in c.tasks && c.tasks[t.taskId] == t
    requires EarlyRefusal(c, t.taskId, decision, session, channel).None?
    requires clock.now < t.approval.value.expiresAt
    requires LateRefusal(t.approval.value, decision).None?
    requires decision.decision == Approve
    ensures |GrantedRun(c, t, clock, env).calls| == 1
    ensures |t.plan.steps| == 1
    ensures var call := GrantedRun(c, t, clock, env).calls[0];
            && CarriesOut(call, t.taskId, t.plan.steps[0])
            && var extra := [Decided(t.taskId, decision, session, channel, clock.now), call];
               forall t' :: SameOrigin(t, t') ==> Authorised(c.log + extra, |c.log| + 1, t')
  {
    hide GrantedRun, IsNoteStep, IsNotepadStep, RebuiltNote, TargetNode, ApprovalFor;
    hide Traced, PlanKept, ResultsKept, FilesConserved, EffectsAuthorised, UndosBound, LedgerHolds, Indexed;
    assert TaskInv(t);
    WaitingPlan(t);
    NoteStepCreates(t.plan.steps[0]);
    if IsNoteStep(t.plan.steps[0]) {
      GrantedNote(c, t, clock, env);
    } else {
      GrantedLaunch(c, t, clock, env);
    }
    var call := GrantedRun(c, t, clock, env).calls[0];
    var extra := [Decided(t.taskId, decision, session, channel, clock.now), call];
    var log := c.log + extra;
    assert log[..|c.log|] == c.log && log[|c.log|] == extra[0] && log[|c.log| + 1] == call;
    PendingIsIssued(t, decision.token);
    assert Authorises(extra[0], t.approval.value) by {
      IssuedNames(t, decision.token);
    }
    forall t' | SameOrigin(t, t')
      ensures Authorised(log, |c.log| + 1, t')
    {
      IssuedDependsOnOrigin(t, t', decision.token);
    }
  }

  lemma IssuedDependsOnOrigin(t: Task, t': Task, token: string)
    requires SameOrigin(t, t') && t.plan.steps != []
    ensures IssuedApproval(t, token) == IssuedApproval(t', token)
  {
    hide ApprovalFor;
  }

  /** A pending approval is the issued one. */
  lemma PendingIsIssued(t: Task, token: string)
    requires TaskInv(t) && t.approval.Some? && t.state == AwaitingApproval
    requires token == Presented(t.approval.value.token)
    ensures t.plan.steps != [] && t.approval.value == IssuedApproval(t, token)
  {
    hide PlanFor, DecisionsFor, VerdictOn, Traced, ResultsKept;
    hide PayloadSha256, NotepadPreview, TargetNode, TextOr;
  }

  lemma IssuedNames(t: Task, token: string)
    requires t.plan.steps != []
    ensures IssuedApproval(t, token).taskId == t.taskId
    ensures IssuedApproval(t, token).sessionId == t.sessionId
    ensures IssuedApproval(t, token).token == Some(token)
  {
    hide PayloadSha256, NotepadPreview, TargetNode, TextOr;
  }

  lemma GrantKeeps(
    initial: Files, c: Core, t: Task, decision: ApprovalDecision, session: IdentitySession, channel: ApprovalChannel,
    clock: Clock, env: Environment)
    requires CoreInv(initial, c)
    requires t.taskId in c.tasks && c.tasks[t.taskId] == t
    requires EarlyRefusal(c, t.taskId, decision, session, channel).None?
    requires clock.now < t.approval.value.expiresAt
    requires LateRefusal(t.approval.value, decision).None?
    requires decision.decision == Approve
    ensures var run := GrantedRun(c, t, clock, env);
            CoreInv(
              initial,
              Store(c.(files := run.files,
                       log := c.log + [Decided(t.taskId, decision, session, channel, clock.now)] + run.calls),
                    GrantedTask(t, run, clock.updated)))
  {
    hide GrantedRun, TaskInv, RecordReceipt, HistoriesHold, FilesConserved, MovesOn, Authorised, CarriesOut;
    hide LateRefusal, ApprovalFor, GrantedTask, WasExecuted, WasUndone, OwnsFile, SameOrigin, Indexed, TasksHold;
    TaskUnderItsId(initial, c, t.taskId);
    var run := GrantedRun(c, t, clock, env);
    GrantIsAuthorised(initial, c, t, decision, session, channel, clock, env);
    var decided := Decided(t.taskId, decision, session, channel, clock.now);
    var extra := [decided, run.calls[0]];
    assert c.log + [decided] + run.calls == c.log + extra;
    GrantedFacts(c, t, clock, env);
    var t' := GrantedTask(t, run, clock.updated);
    var c1 := c.(files := run.files, log := c.log + extra);
    var c' := Store(c1, t');
    CallIsEffect(run.calls[0], t.taskId, t.plan.steps[0]);
    GrantKeepsFiles(initial, c, c', t, t', clock, env);
    assert NewEffects(c, t', extra);
    EffectsKeep(c, c', t', extra);
    UndosKeep(c, c', t', extra);
    DecisionsKeep(c, c', t', extra);
    UpdateKeeps(initial, c, c1, t', extra);
  }

  lemma GrantedFacts(c: Core, t: Task, clock: Clock, env: Environment)
    requires TaskInv(t) && t.state == AwaitingApproval && t.approval.Some?
    ensures var t' := GrantedTask(t, GrantedRun(c, t, clock, env), clock.updated);
            && TaskInv(t') && MovesOn(t, t') && SameOrigin(t, t')
            && t'.taskId == t.taskId && t'.state != AwaitingApproval
            && WasExecuted(t') && !WasExecuted(t) && !WasUndone(t)
  {
    hide GrantedRun, TaskInv, MovesOn;
    GrantFits(c, t, clock, env);
    GrantedMovesOn(c, t, clock, env);
  }

  lemma CallIsEffect(call: Entry, task: Uuid, step: PlanStep)
    requires CarriesOut(call, task, step)
    ensures IsEffect(call) && !IsUndo(call) && EntryTask(call) == task && !call.Decided?
  {
  }

  lemma GrantKeepsFiles(initial: Files, c: Core, c': Core, t: Task, t': Task, clock: Clock, env: Environment)
    requires FilesConserved(initial, c)
    requires TaskInv(t) && t.state == AwaitingApproval && t.approval.Some?
    requires t.taskId in c.tasks && c.tasks[t.taskId] == t
    requires t' == GrantedTask(t, GrantedRun(c, t, clock, env), clock.updated)
    requires c'.tasks == c.tasks[t.taskId := t'] && c'.files == GrantedRun(c, t, clock, env).files
    ensures FilesConserved(initial, c')
  {
    hide GrantedRun, IsNoteStep, IsNotepadStep, RebuiltNote, TargetNode, FilesConserved, TaskInv;
    WaitingPlan(t);
    NoteStepCreates(t.plan.steps[0]);
    if IsNoteStep(t.plan.steps[0]) {
      GrantedNote(c, t, clock, env);
      if t'.state == Completed {
        FileIsAdded(initial, c, c', t', PlannedNote(t'));
      } else {
        FilesKeep(initial, c, c', t');
      }
    } else {
      GrantedLaunch(c, t, clock, env);
      FilesKeep(initial, c, c', t');
    }
  }

  lemma ApproveKeeps(
    initial: Files, c: Core, id: Uuid, decision: ApprovalDecision, session: IdentitySession, channel: ApprovalChannel,
    clock: Clock, env: Environment)
    requires CoreInv(initial, c)
    ensures CoreInv(initial, ApproveTask(c, id, decision, session, channel, clock, env).0)
  {
    hide CoreInv, Store, Spend, GrantedRun, LateRefusal;
    if EarlyRefusal(c, id, decision, session, channel).None? {
      var t := c.tasks[id];
      assert t.taskId == id by {
        TaskUnderItsId(initial, c, id);
      }
      if t.approval.value.expiresAt <= clock.now {
        SpendKeeps(initial, c, t, Expired, ApprovalExpiredEvent, clock.now, []);
        assert c.log + [] == c.log;
      } else if LateRefusal(t.approval.value, decision).None? {
        if decision.decision == Reject {
          SpendKeeps(
            initial, c, t, Rejected, ApprovalRejectedEvent, clock.now,
            [Decided(id, decision, session, channel, clock.now)]);
        } else {
          GrantKeeps(initial, c, t, decision, session, channel, clock, env);
        }
      }
    }
  }

  lemma TaskUnderItsId(initial: Files, c: Core, id: Uuid)
    requires CoreInv(initial, c) && id in c.tasks
    ensures c.tasks[id].taskId == id && TaskInv(c.tasks[id])
  {
    hide TaskInv, LedgerHolds, FilesConserved, EffectsAuthorised, UndosBound, DecisionsBound;
  }

  /** In every reachable state, undoing a completed note goes through and removes exactly its file. */
  lemma NoteFileIsThere(initial: Files, c: Core, id: Uuid)
    requires CoreInv(initial, c) && id in c.tasks && OwnsFile(c.tasks[id])
    ensures var note := PlannedNote(c.tasks[id]);
            note.filename in c.files && c.files[note.filename] == note.content
  {
    hide TaskInv, LedgerHolds, Indexed, EffectsAuthorised, UndosBound, DecisionsBound, RebuiltNote;
    assert OwnerOf(c, id, PlannedNote(c.tasks[id]).filename);
  }

  /** What one undo does: to the directory, to the record, and to the task. */
  lemma UndoDoes(initial: Files, c: Core, t: Task, clock: Clock, env: Environment)
    requires CoreInv(initial, c)
    requires t.taskId in c.tasks && c.tasks[t.taskId] == t && t.state == Completed && t.approval.Some?
    ensures t.results != [] && t.results[0].evidence != [] && |t.plan.steps| == 1
    ensures var run := RollbackRunFor(c, t, t.results[0], clock, env);
            && |run.calls| == 1
            && IsUndo(run.calls[0])
            && EntryTask(run.calls[0]) == t.taskId
            && UndoFits(run, t)
            && if OwnsFile(t) then run.result.Success? && run.files == c.files - {PlannedNote(t).filename}
               else run.files == c.files
  {
    hide CoreInv, RollbackRunFor, RebuiltNote, IsNoteStep, IsNotepadStep, TaskInv;
    TaskUnderItsId(initial, c, t.taskId);
    CompletedEvidence(t);
    NoteStepCreates(t.plan.steps[0]);
    if IsNoteStep(t.plan.steps[0]) {
      NoteFileIsThere(initial, c, t.taskId);
      UndoneNote(c, t, clock, env);
    } else {
      UndoneLaunch(c, t, clock, env);
    }
  }

  lemma UndoKeeps(initial: Files, c: Core, t: Task, clock: Clock, env: Environment)
    requires CoreInv(initial, c)
    requires t.taskId in c.tasks && c.tasks[t.taskId] == t && t.state == Completed && t.approval.Some?
    requires t.results != [] && t.results[0].evidence != []
    ensures var run := RollbackRunFor(c, t, t.results[0], clock, env);
            CoreInv(initial, Store(c.(files := run.files, log := c.log + run.calls), UndoneTask(t, run, clock)))
  {
    hide RollbackRunFor, TaskInv, RecordReceipt, HistoriesHold, FilesConserved, MovesOn, PlannedNote;
    hide UndoneTask, WasExecuted, WasUndone, OwnsFile, SameOrigin, Indexed, TasksHold, UndoFits;
    TaskUnderItsId(initial, c, t.taskId);
    UndoDoes(initial, c, t, clock, env);
    var run := RollbackRunFor(c, t, t.results[0], clock, env);
    UndoneFacts(t, run, clock);
    var t' := UndoneTask(t, run, clock);
    var c1 := c.(files := run.files, log := c.log + run.calls);
    var c' := Store(c1, t');
    if OwnsFile(t) {
      FileIsRemoved(initial, c, c', t');
    } else {
      FilesKeep(initial, c, c', t');
    }
    EffectsKeep(c, c', t', run.calls);
    UndosKeep(c, c', t', run.calls);
    DecisionsKeep(c, c', t', run.calls);
    UpdateKeeps(initial, c, c1, t', run.calls);
  }

  lemma UndoneFacts(t: Task, run: RollbackRun, clock: Clock)
    requires TaskInv(t) && t.state == Completed && t.approval.Some?
    requires |t.plan.steps| == 1 && UndoFits(run, t)
    ensures var t' := UndoneTask(t, run, clock);
            && TaskInv(t') && MovesOn(t, t') && SameOrigin(t, t')
            && t'.taskId == t.taskId && t'.state != AwaitingApproval
            && WasExecuted(t') && WasUndone(t') && !WasUndone(t) && !OwnsFile(t')
  {
    hide TaskInv, MovesOn, AddEvent, UndoFits;
    UndoneTaskFits(t, run, clock);
  }

  lemma RollbackKeeps(
    initial: Files, c: Core, id: Uuid, session: IdentitySession, clock: Clock, env: Environment)
    requires CoreInv(initial, c)
    ensures CoreInv(initial, RollbackTask(c, id, session, clock, env).0)
  {
    hide CoreInv, Store, RollbackRunFor, TaskInv;
    if RollbackRefusal(c, id, session).None? {
      var t := c.tasks[id];
      TaskUnderItsId(initial, c, id);
      OnlyApprovedTasksAreReversible(t);
      UndoDoes(initial, c, t, clock, env);
      UndoKeeps(initial, c, t, clock, env);
    }
  }

  lemma PerformKeeps(initial: Files, c: Core, command: Command)
    requires CoreInv(initial, c)
    requires WellFormed(command)
    ensures CoreInv(initial, Perform(c, command).0)
  {
    hide CoreInv;
    match command
    case Create(request, session, intent, token, clock, env) =>
      CreateKeeps(initial, c, request, session, intent, token, clock, env);
    case Decide(id, decision, session, channel, clock, env) =>
      ApproveKeeps(initial, c, id, decision, session, channel, clock, env);
    case Rollback(id, session, clock, env) => RollbackKeeps(initial, c, id, session, clock, env);
  }

  ghost predicate AllWellFormed(commands: seq<Command>) {
    forall i :: 0 <= i < |commands| ==> WellFormed(commands[i])
  }

  /** Every run of the orchestrator, from any initial directory, stays in the invariant. */
  lemma {:induction false} RunKeeps(root: Path, files: Files, commands: seq<Command>)
    requires AllWellFormed(commands)
    ensures CoreInv(files, Run(InitialCore(root, files), commands))
    ensures Run(InitialCore(root, files), commands).root == root
  {
    hide CoreInv, Perform;
    if commands == [] {
      InitialHolds(root, files);
    } else {
      var earlier := commands[..|commands| - 1];
      RunKeeps(root, files, earlier);
      PerformKeeps(files, Run(InitialCore(root, files), earlier), commands[|commands| - 1]);
      RootStays(Run(InitialCore(root, files), earlier), commands[|commands| - 1]);
    }
  }

  lemma RootStays(c: Core, command: Command)
    ensures Perform(c, command).0.root == c.root
  {
    hide NewTask, RecordReceipt, RollbackRunFor, GrantedRun, LateRefusal, EarlyRefusal;
  }
}
