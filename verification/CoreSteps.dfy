/** Every operation keeps the orchestrator's invariant, on every exit. */
module CoreSteps {
  import opened StateMachine
  import opened Domain
  import opened Registry
  import opened NoteText
  import opened NoteStore
  import opened Payload
  import opened Planner
  import opened CoreModel
  import opened TaskInvariant
  import opened CoreInvariant

  /* What one grant does outside. */

  /** The step that a waiting task will carry out if it is approved. */
  lemma WaitingPlan(t: Task)
    requires TaskInv(t) && t.approval.Some?
    ensures |t.plan.steps| == 1
    ensures IsNoteStep(t.plan.steps[0]) || IsNotepadStep(t.plan.steps[0])
  {
    hide PlanFor, DecisionsFor, VerdictOn, Traced, ResultsKept, IsNoteStep, IsNotepadStep;
    PlansByVerdict(t.taskId, t.intent);
  }

  /** The executor rebuilds from a note step the note that was prepared, with the hash of its text. */
  lemma RebuiltNoteIsPlanned(step: PlanStep, root: Path)
    requires IsNoteStep(step)
    ensures var note := RebuiltNote(step);
            && note.contentSha256 == Sha256(note.content)
            && note.filename == note.title + ".md"
            && NormalTitle(note.title)
            && NormalContent(note.content)
            && TargetName(root, note.filename) == Some(note.filename)
  {
    hide NormalContent, TargetName, Lookup;
    var content := TextOr(step.parameters, "content", "");
    var note := PreparedNote(
      TextOr(step.parameters, "title", ""), TextOr(step.parameters, "filename", ""), content, Sha256(content));
    NoteLookups(note);
    NoteFilenameIsInside(root, note.title);
  }

  lemma SingleStepRun(step: PlanStep, task: Uuid, now: Instant, env: Environment, root: Path, files: Files)
    ensures var one, run := ExecuteStep(step, task, now, env, root, files),
                            ExecuteSteps([step], task, now, env, root, files);
            && run.files == one.files
            && run.calls == one.calls
            && (if one.result.Success? then run.error.None? && run.results == [one.result.value]
                else run.error == Some(one.result.error) && run.results == [])
  {
    hide ExecuteStep;
    var one := ExecuteStep(step, task, now, env, root, files);
    assert [step][1..] == [];
    assert ExecuteSteps([], task, now, env, root, one.files) == StepsRun([], None, one.files, []);
    assert one.calls + [] == one.calls;
  }

  /** A granted note: the one call, and a new file exactly when the task completes. */
  lemma GrantedNote(c: Core, t: Task, clock: Clock, env: Environment)
    requires TaskInv(t) && t.approval.Some? && |t.plan.steps| == 1 && IsNoteStep(t.plan.steps[0])
    ensures var run, note := GrantedRun(c, t, clock, env), RebuiltNote(t.plan.steps[0]);
            && run.calls == [NoteCreateCall(t.taskId, note)]
            && (run.state == Completed <==> !env.openFails && note.filename !in c.files)
            && run.files == (if run.state == Completed then c.files[note.filename := note.content] else c.files)
  {
    hide RebuiltNote, TargetName, Traced, PlanKept, ApprovalKept, ResultsKept, AddEvent, IsNoteStep;
    var step := t.plan.steps[0];
    assert step.capability == CreateNote by {
      NoteStepCreates(step);
    }
    RebuiltNoteIsPlanned(step, c.root);
    SingleStepRun(step, t.taskId, clock.now, env, c.root, c.files);
    assert t.plan.steps == [step];
  }

  lemma NoteStepCreates(step: PlanStep)
    ensures IsNoteStep(step) ==> step.capability == CreateNote
    ensures IsNotepadStep(step) ==> step.capability == LaunchNotepad
  {
  }

  /** A granted launch: the one call, no file touched, and completion exactly on a running process. */
  lemma GrantedLaunch(c: Core, t: Task, clock: Clock, env: Environment)
    requires TaskInv(t) && t.approval.Some? && |t.plan.steps| == 1 && IsNotepadStep(t.plan.steps[0])
    ensures var run := GrantedRun(c, t, clock, env);
            && run.calls == [LaunchCall(t.taskId, TargetNode(t.plan.steps[0]))]
            && run.files == c.files
            && (run.state == Completed <==> env.launchReply.Some? && env.launchReply.value.verifiedRunning)
            && (run.state == Completed ==>
                  && |run.results| == 1
                  && run.results[0].evidence == [DeviceEvidence(clock.now, env.launchReply.value)])
  {
    hide TargetNode, Traced, PlanKept, ApprovalKept, ResultsKept, AddEvent, IsNotepadStep;
    var step := t.plan.steps[0];
    NoteStepCreates(step);
    SingleStepRun(step, t.taskId, clock.now, env, c.root, c.files);
    assert t.plan.steps == [step];
    var result := LaunchResult(step, clock.now, env.launchReply);
    var results := [result];
    assert results[0] == result;
    assert AllVerified(results) <==> result.status == StepVerified && result.evidence != [];
  }

  /* What one undo does outside. */

  lemma CompletedEvidence(t: Task)
    requires TaskInv(t) && t.state == Completed && t.approval.Some?
    ensures |t.plan.steps| == 1 && t.results != [] && t.results[0].evidence != []
    ensures ResultFor(t.results[0], t.plan.steps[0])
    ensures EvidenceBinds(t.results[0], t.plan.steps[0])
    ensures ReversibleResult(t.results) == Some(t.results[0])
    ensures IsNoteStep(t.plan.steps[0]) || IsNotepadStep(t.plan.steps[0])
  {
    hide EvidenceBinds, IsNoteStep, IsNotepadStep;
    OnlyApprovedTasksAreReversible(t);
  }

  /** Undoing a note whose file is still as written: the one call, and the file is gone. */
  lemma UndoneNote(c: Core, t: Task, clock: Clock, env: Environment)
    requires TaskInv(t) && t.state == Completed && t.approval.Some?
    requires |t.plan.steps| == 1 && IsNoteStep(t.plan.steps[0])
    requires var note := RebuiltNote(t.plan.steps[0]);
             note.filename in c.files && c.files[note.filename] == note.content
    ensures t.results != [] && t.results[0].evidence != []
    ensures var note, run := RebuiltNote(t.plan.steps[0]), RollbackRunFor(c, t, t.results[0], clock, env);
            && run.result.Success?
            && run.result.value == CapabilityResult(
                                     t.results[0].stepId, RollbackCreateNote, StepRolledBack,
                                     [NoteRemoved(clock.now, note.filename, Sha256(note.content))], None)
            && run.files == c.files - {note.filename}
            && run.calls == [NoteRemoveCall(t.taskId, note.filename, Sha256(note.content))]
  {
    hide RebuiltNote, TargetName, TaskInv, IsNoteStep;
    CompletedEvidence(t);
    RebuiltNoteIsPlanned(t.plan.steps[0], c.root);
    NoteStepCreates(t.plan.steps[0]);
  }

  lemma UndoneLaunch(c: Core, t: Task, clock: Clock, env: Environment)
    requires TaskInv(t) && t.state == Completed && t.approval.Some?
    requires |t.plan.steps| == 1 && IsNotepadStep(t.plan.steps[0])
    ensures t.results != [] && |t.results[0].evidence| == 1 && t.results[0].evidence[0].DeviceEvidence?
    ensures var run, launch := RollbackRunFor(c, t, t.results[0], clock, env), t.results[0].evidence[0].launch;
            && run.files == c.files
            && run.calls == [DeviceRollbackCall(t.taskId, launch.commandId, launch.nodeId)]
            && (run.result.Success? <==> env.rollbackReply.Some? && env.rollbackReply.value.verifiedAbsent)
            && (run.result.Success? ==>
                  run.result.value == CapabilityResult(
                                        t.results[0].stepId, RollbackLaunchNotepad, StepRolledBack,
                                        [DeviceStopped(clock.now, env.rollbackReply.value)], None))
  {
    hide TaskInv, IsNotepadStep;
    CompletedEvidence(t);
    NoteStepCreates(t.plan.steps[0]);
  }

  /** The task after an undo that went through, and after one that did not. */
  function UndoneTask(t: Task, run: RollbackRun, clock: Clock): Task {
    var rolling := AddEvent(t.taskId, t.events, RollingBack, RollbackStarted, clock.now);
    match run.result
    case Failure(_) =>
      t.(state := Failed, events := AddEvent(t.taskId, rolling, Failed, RollbackFailed, clock.executed),
         updatedAt := clock.updated)
    case Success(result) =>
      t.(state := RolledBack, events := AddEvent(t.taskId, rolling, RolledBack, RollbackVerified, clock.executed),
         results := t.results + [result], updatedAt := clock.updated)
  }

  /** The result of an undo names the undone step. */
  ghost predicate UndoFits(run: RollbackRun, t: Task)
    requires t.plan.steps != []
  {
    run.result.Success? ==>
      && run.result.value.status == StepRolledBack
      && run.result.value.stepId == t.plan.steps[0].stepId
      && run.result.value.capability == UndoOf(t.plan.steps[0].capability)
      && run.result.value.evidence != []
  }

  lemma UndoneEventsFit(t: Task, run: RollbackRun, clock: Clock)
    requires Traced(t) && t.state == Completed && t.approval.Some? && t.approval.value.status != Expired
    ensures var t' := UndoneTask(t, run, clock);
            && Traced(t') && t.events < t'.events && |t.events| == 7
            && RouteOf(t') == if run.result.Success? then Undone else UndoFailed
  {
    hide AddEvent, Numbered;
    var rolling := AddEvent(t.taskId, t.events, RollingBack, RollbackStarted, clock.now);
    AddEventExtends(t.taskId, t.events, RollingBack, RollbackStarted, clock.now);
    AddEventExtends(t.taskId, rolling, Failed, RollbackFailed, clock.executed);
    AddEventExtends(t.taskId, rolling, RolledBack, RollbackVerified, clock.executed);
    var t' := UndoneTask(t, run, clock);
    assert |States(t.events)| == |t.events| && |States(t'.events)| == |t'.events|;
    var route := if run.result.Success? then Undone else UndoFailed;
    assert States(t'.events) == Word(route) && Kinds(t'.events) == KindsOf(route, false);
  }

  lemma UndoneTaskFits(t: Task, run: RollbackRun, clock: Clock)
    requires TaskInv(t) && t.state == Completed && t.approval.Some?
    requires |t.plan.steps| == 1 && UndoFits(run, t)
    ensures TaskInv(UndoneTask(t, run, clock))
    ensures MovesOn(t, UndoneTask(t, run, clock))
    ensures WasUndone(UndoneTask(t, run, clock))
  {
    hide PlanFor, DecisionsFor, VerdictOn, ApprovalFor, AddEvent, Traced, EvidenceBinds;
    UndoneEventsFit(t, run, clock);
    if run.result.Success? {
      assert UndoneTask(t, run, clock).results[..1] == t.results;
    }
  }

  lemma SpentMovesOn(t: Task, status: ApprovalStatus, kind: EventKind, at: Instant)
    requires TaskInv(t) && t.state == AwaitingApproval && t.approval.Some?
    ensures MovesOn(t, Spend(t, status, Denied, kind, at))
  {
    hide PlanFor, DecisionsFor, VerdictOn, ApprovalFor;
  }

  lemma GrantedMovesOn(c: Core, t: Task, clock: Clock, env: Environment)
    requires TaskInv(t) && t.state == AwaitingApproval && t.approval.Some?
    ensures MovesOn(t, GrantedTask(t, GrantedRun(c, t, clock, env), clock.updated))
  {
    hide PlanFor, DecisionsFor, VerdictOn, ApprovalFor, GrantedRun, Traced;
    GrantFits(c, t, clock, env);
  }

  /* Keeping the record of calls. */

  /** One task is stored anew and the record grows. */
  ghost predicate Updates(c: Core, c': Core, t': Task, extra: seq<Entry>) {
    && c'.tasks == c.tasks[t'.taskId := t']
    && c'.log == c.log + extra
    && (t'.taskId in c.tasks ==> SameOrigin(c.tasks[t'.taskId], t'))
  }

  /** What an update leaves of a task. */
  ghost predicate SameOrigin(t: Task, t': Task) {
    t.taskId == t'.taskId && t.sessionId == t'.sessionId && t.plan == t'.plan && t.createdAt == t'.createdAt
  }

  /** Each entry of the longer record is an old one or a new one. */
  lemma LogSplits(c: Core, c': Core, extra: seq<Entry>)
    requires c'.log == c.log + extra
    ensures forall i :: 0 <= i < |c.log| ==> c'.log[i] == c.log[i]
    ensures forall i :: |c.log| <= i < |c'.log| ==> c'.log[i] == extra[i - |c.log|]
  {
  }

  lemma AuthorisedStays(log: seq<Entry>, extra: seq<Entry>, i: nat, t: Task, t': Task)
    requires i < |log|
    requires Authorised(log, i, t)
    requires SameOrigin(t, t')
    ensures Authorised(log + extra, i, t')
  {
    hide ApprovalFor, CarriesOut, Authorises;
    assert (log + extra)[..i - 1] == log[..i - 1];
  }

  /** The new entries hold at most one effect, which the updated task had not caused before. */
  ghost predicate NewEffects(c: Core, t': Task, extra: seq<Entry>) {
    forall j :: 0 <= j < |extra| && IsEffect(extra[j]) ==>
                  && j == |extra| - 1
                  && EntryTask(extra[j]) == t'.taskId
                  && WasExecuted(t')
                  && (t'.taskId in c.tasks ==> !WasExecuted(c.tasks[t'.taskId]))
                  && Authorised(c.log + extra, |c.log| + j, t')
  }

  lemma EffectsKeep(c: Core, c': Core, t': Task, extra: seq<Entry>)
    requires EffectsAuthorised(c)
    requires Updates(c, c', t', extra)
    requires t'.taskId in c.tasks && WasExecuted(c.tasks[t'.taskId]) ==> WasExecuted(t')
    requires NewEffects(c, t', extra)
    ensures EffectsAuthorised(c')
  {
    hide Authorised, WasExecuted, SameOrigin;
    forall i | 0 <= i < |c'.log| && IsEffect(c'.log[i])
      ensures EntryTask(c'.log[i]) in c'.tasks
      ensures WasExecuted(c'.tasks[EntryTask(c'.log[i])])
      ensures Authorised(c'.log, i, c'.tasks[EntryTask(c'.log[i])])
    {
      if i < |c.log| {
        assert c'.log[i] == c.log[i];
        var id := EntryTask(c.log[i]);
        if id == t'.taskId {
          AuthorisedStays(c.log, extra, i, c.tasks[id], t');
        } else {
          AuthorisedStays(c.log, extra, i, c.tasks[id], c.tasks[id]) by {
            SameOriginIsReflexive(c.tasks[id]);
          }
        }
      } else {
        assert c'.log[i] == extra[i - |c.log|];
      }
    }
    forall i, j | 0 <= i < j < |c'.log| && IsEffect(c'.log[i]) && IsEffect(c'.log[j])
      ensures EntryTask(c'.log[i]) != EntryTask(c'.log[j])
    {
      LogSplits(c, c', extra);
    }
  }

  lemma SameOriginIsReflexive(t: Task)
    ensures SameOrigin(t, t)
  {
  }

  lemma UndosKeep(c: Core, c': Core, t': Task, extra: seq<Entry>)
    requires UndosBound(c)
    requires Updates(c, c', t', extra)
    requires t'.taskId in c.tasks && WasUndone(c.tasks[t'.taskId]) ==> WasUndone(t')
    requires forall j :: 0 <= j < |extra| && IsUndo(extra[j]) ==>
                           && j == |extra| - 1
                           && EntryTask(extra[j]) == t'.taskId
                           && WasUndone(t')
                           && (t'.taskId in c.tasks ==> !WasUndone(c.tasks[t'.taskId]))
    ensures UndosBound(c')
  {
    hide WasUndone, SameOrigin;
    forall i | 0 <= i < |c'.log| && IsUndo(c'.log[i])
      ensures EntryTask(c'.log[i]) in c'.tasks
      ensures WasUndone(c'.tasks[EntryTask(c'.log[i])])
    {
      LogSplits(c, c', extra);
    }
    forall i, j | 0 <= i < j < |c'.log| && IsUndo(c'.log[i]) && IsUndo(c'.log[j])
      ensures EntryTask(c'.log[i]) != EntryTask(c'.log[j])
    {
      LogSplits(c, c', extra);
    }
  }

  lemma DecisionsKeep(c: Core, c': Core, t': Task, extra: seq<Entry>)
    requires DecisionsBound(c)
    requires Updates(c, c', t', extra)
    requires t'.taskId in c.tasks ==> t'.state != AwaitingApproval
    requires t'.state == AwaitingApproval && t'.approval.Some? ==> Issued(t'.approval.value) in extra
    requires forall j :: 0 <= j < |extra| && extra[j].Decided? ==>
                           && j == 0
                           && extra[j].task == t'.taskId
                           && t'.taskId in c.tasks
                           && c.tasks[t'.taskId].state == AwaitingApproval
    ensures DecisionsBound(c')
  {
    hide SameOrigin;
    forall i | 0 <= i < |c'.log| && c'.log[i].Decided?
      ensures c'.log[i].task in c'.tasks
      ensures c'.tasks[c'.log[i].task].state != AwaitingApproval
    {
      LogSplits(c, c', extra);
    }
    forall i, j | 0 <= i < j < |c'.log| && c'.log[i].Decided? && c'.log[j].Decided?
      ensures c'.log[i].task != c'.log[j].task
    {
      LogSplits(c, c', extra);
    }
    forall id | id in c'.tasks && c'.tasks[id].state == AwaitingApproval && c'.tasks[id].approval.Some?
      ensures Issued(c'.tasks[id].approval.value) in c'.log
    {
      if id == t'.taskId {
        assert Issued(t'.approval.value) in extra;
      } else {
        assert Issued(c.tasks[id].approval.value) in c.log;
      }
    }
  }

  /* Keeping the directory. */

  lemma FilesKeep(initial: Files, c: Core, c': Core, t': Task)
    requires FilesConserved(initial, c)
    requires c'.tasks == c.tasks[t'.taskId := t'] && c'.files == c.files
    requires t'.taskId in c.tasks ==> !OwnsFile(c.tasks[t'.taskId])
    requires !OwnsFile(t')
    ensures FilesConserved(initial, c')
  {
    hide PlannedNote, OwnsFile;
    assert forall id, f :: OwnerOf(c', id, f) <==> OwnerOf(c, id, f);
  }

  lemma FileIsAdded(initial: Files, c: Core, c': Core, t': Task, note: PreparedNote)
    requires FilesConserved(initial, c)
    requires c'.tasks == c.tasks[t'.taskId := t']
    requires t'.taskId in c.tasks ==> !OwnsFile(c.tasks[t'.taskId])
    requires OwnsFile(t') && PlannedNote(t') == note
    requires note.filename !in c.files && c'.files == c.files[note.filename := note.content]
    ensures FilesConserved(initial, c')
  {
    hide PlannedNote, OwnsFile;
    assert OwnerOf(c', t'.taskId, note.filename);
    assert forall id, f :: id != t'.taskId ==> (OwnerOf(c', id, f) <==> OwnerOf(c, id, f));
  }

  lemma OwnerHasPlan(t: Task)
    requires OwnsFile(t)
    ensures t.plan.steps != []
  {
  }

  lemma FileIsRemoved(initial: Files, c: Core, c': Core, t': Task)
    requires FilesConserved(initial, c)
    requires t'.taskId in c.tasks && OwnsFile(c.tasks[t'.taskId])
    requires c'.tasks == c.tasks[t'.taskId := t']
    requires !OwnsFile(t')
    requires c'.files == c.files - {PlannedNote(c.tasks[t'.taskId]).filename}
    ensures FilesConserved(initial, c')
  {
    hide PlannedNote, OwnsFile;
    OwnerHasPlan(c.tasks[t'.taskId]);
    var name := PlannedNote(c.tasks[t'.taskId]).filename;
    assert OwnerOf(c, t'.taskId, name);
    assert forall id, f :: id != t'.taskId ==> (OwnerOf(c', id, f) <==> OwnerOf(c, id, f));
  }
}
