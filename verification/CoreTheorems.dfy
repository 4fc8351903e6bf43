/** What the invariant means: the promises of the orchestrator, for every run. */
module CoreTheorems {
  import opened StateMachine
  import opened Domain
  import opened Registry
  import opened NoteText
  import opened NoteStore
  import opened Payload
  import opened Planner
  import opened CoreModel
  import opened TaskInvariant
  import opened CoreInvariant
  import opened CoreSteps
  import opened CoreRuns

  /** The states that some run reaches from an initial directory. */
  ghost predicate ReachedFrom(root: Path, initial: Files, c: Core) {
    exists commands :: AllWellFormed(commands) && c == Run(InitialCore(root, initial), commands)
  }

  lemma ReachedHolds(root: Path, initial: Files, c: Core)
    requires ReachedFrom(root, initial, c)
    ensures CoreInv(initial, c)
    ensures c.root == root
  {
    hide CoreInv, Run;
    var commands :| AllWellFormed(commands) && c == Run(InitialCore(root, initial), commands);
    RunKeeps(root, initial, commands);
  }

  lemma StartIsReached(root: Path, initial: Files)
    ensures ReachedFrom(root, initial, InitialCore(root, initial))
  {
    assert AllWellFormed([]) && Run(InitialCore(root, initial), []) == InitialCore(root, initial);
  }

  lemma NextIsReached(root: Path, initial: Files, c: Core, command: Command)
    requires ReachedFrom(root, initial, c) && WellFormed(command)
    ensures ReachedFrom(root, initial, Perform(c, command).0)
  {
    hide Perform, WellFormed;
    var commands :| AllWellFormed(commands) && c == Run(InitialCore(root, initial), commands);
    var more := commands + [command];
    assert more[..|more| - 1] == commands;
    assert AllWellFormed(more) && Run(InitialCore(root, initial), more) == Perform(c, command).0;
  }

  /* Lifecycle traces. */

  /**
   * The events of every task are numbered 1 to n, their states spell one of the ten words and their kinds are those of
   * its route; they follow the transition table and end in the stored state. A task that ever rolled back was approved
   * earlier.
   */
  lemma LifecycleTrace(root: Path, initial: Files, c: Core, id: Uuid)
    requires ReachedFrom(root, initial, c) && id in c.tasks
    ensures var t := c.tasks[id];
            && (forall i :: 0 <= i < |t.events| ==> t.events[i].sequence == i + 1)
            && (exists route :: States(t.events) == Word(route) && Kinds(t.events) == KindsOf(route, HasExpired(t)))
            && Accepted(States(t.events))
            && 3 <= |t.events| <= 9
            && t.events[|t.events| - 1].state == t.state
            && (forall i :: 0 <= i < |t.events| && t.events[i].state == RollingBack ==>
                              exists j :: 0 <= j < i && t.events[j].state == Approved)
  {
    hide CoreInv, TaskInv, ReachedFrom, Run;
    ReachedHolds(root, initial, c);
    TaskUnderItsId(initial, c, id);
    TraceOf(c.tasks[id]);
  }

  lemma TraceOf(t: Task)
    requires TaskInv(t)
    ensures forall i :: 0 <= i < |t.events| ==> t.events[i].sequence == i + 1
    ensures exists route :: States(t.events) == Word(route) && Kinds(t.events) == KindsOf(route, HasExpired(t))
    ensures Accepted(States(t.events))
    ensures 3 <= |t.events| <= 9
    ensures t.events[|t.events| - 1].state == t.state
    ensures forall i :: 0 <= i < |t.events| && t.events[i].state == RollingBack ==>
                          exists j :: 0 <= j < i && t.events[j].state == Approved
  {
    hide PlanKept, ApprovalKept, ResultsKept, RouteOf, Accepted;
    var word := Word(RouteOf(t));
    WordsAreAccepted(RouteOf(t));
    AcceptedTraceIsShort(word);
    assert |word| == |t.events|;
    assert States(t.events)[|word| - 1] == t.events[|word| - 1].state;
    forall i | 0 <= i < |t.events| && t.events[i].state == RollingBack
      ensures exists j :: 0 <= j < i && t.events[j].state == Approved
    {
      assert word[i] == RollingBack;
      assert word[3] == t.events[3].state;
      assert 3 < i && t.events[3].state == Approved;
    }
  }

  /** Distinct events of one task have distinct ids. */
  lemma EventIdsAreDistinct(root: Path, initial: Files, c: Core, id: Uuid, i: nat, j: nat)
    requires ReachedFrom(root, initial, c) && id in c.tasks
    requires i < j < |c.tasks[id].events|
    ensures c.tasks[id].events[i].eventId != c.tasks[id].events[j].eventId
  {
    ReachedHolds(root, initial, c);
    TaskUnderItsId(initial, c, id);
  }

  /* Authorised effects. */

  /**
   * Each call that creates a note or launches a process carries out the only step of its task's plan. The
   * entry before it is the decision to approve, given by the task's authenticated session on the channel the
   * registry demands, matching the issued approval's id, token and payload hash, before it expires, five
   * minutes after it was issued; and the approval was issued before that.
   */
  lemma EffectsAreAuthorised(root: Path, initial: Files, c: Core, i: nat)
    requires ReachedFrom(root, initial, c)
    requires i < |c.log| && IsEffect(c.log[i])
    ensures 0 < i && EntryTask(c.log[i]) in c.tasks
    ensures var t := c.tasks[EntryTask(c.log[i])];
            && |t.plan.steps| == 1
            && CarriesOut(c.log[i], t.taskId, t.plan.steps[0])
            && c.log[i - 1].Decided?
            && var d := c.log[i - 1];
               && d.task == t.taskId
               && d.decision.decision == Approve
               && d.session == IdentitySession(t.sessionId, true)
               && GetCapability(t.plan.steps[0].capability).Some?
               && d.channel == GetCapability(t.plan.steps[0].capability).value.channel
               && d.at < t.createdAt + 5 * MINUTE
               && d.decision.payloadSha256 == PayloadSha256(t.plan.steps[0])
               && (exists k :: && 0 <= k < i - 1
                               && c.log[k].Issued?
                               && Authorises(d, c.log[k].approval)
                               && c.log[k].approval.taskId == t.taskId)
  {
    hide CoreInv, TaskInv, ReachedFrom, Run;
    ReachedHolds(root, initial, c);
    EffectIsBound(initial, c, i);
    var t := c.tasks[EntryTask(c.log[i])];
    TaskUnderItsId(initial, c, EntryTask(c.log[i]));
    AuthorisedFields(c.log, i, t);
  }

  lemma EffectIsBound(initial: Files, c: Core, i: nat)
    requires CoreInv(initial, c)
    requires i < |c.log| && IsEffect(c.log[i])
    ensures EntryTask(c.log[i]) in c.tasks && Authorised(c.log, i, c.tasks[EntryTask(c.log[i])])
  {
    hide TaskInv, Indexed, LedgerHolds, FilesConserved, UndosBound, DecisionsBound, Authorised, WasExecuted;
    assert EffectsAuthorised(c);
  }

  lemma AuthorisedFields(log: seq<Entry>, i: nat, t: Task)
    requires i < |log| && Authorised(log, i, t)
    ensures 0 < i && |t.plan.steps| == 1 && log[i - 1].Decided?
    ensures CarriesOut(log[i], t.taskId, t.plan.steps[0])
    ensures var d := log[i - 1];
            && d.task == t.taskId
            && d.decision.decision == Approve
            && d.session == IdentitySession(t.sessionId, true)
            && GetCapability(t.plan.steps[0].capability).Some?
            && d.channel == GetCapability(t.plan.steps[0].capability).value.channel
            && d.at < t.createdAt + 5 * MINUTE
            && d.decision.payloadSha256 == PayloadSha256(t.plan.steps[0])
            && (exists k :: && 0 <= k < i - 1
                            && log[k].Issued?
                            && Authorises(d, log[k].approval)
                            && log[k].approval.taskId == t.taskId)
  {
    hide IssuedApproval, PayloadSha256, RebuiltNote, TargetNode;
    var approval := IssuedApproval(t, log[i - 1].decision.token);
    IssuedFields(t, log[i - 1].decision.token);
    assert Issued(approval) in log[..i - 1];
    var k :| 0 <= k < i - 1 && log[..i - 1][k] == Issued(approval);
    assert log[k] == Issued(approval);
  }

  lemma IssuedFields(t: Task, token: string)
    requires |t.plan.steps| == 1
    ensures var a := IssuedApproval(t, token);
            && a.taskId == t.taskId
            && a.sessionId == t.sessionId
            && a.payloadSha256 == PayloadSha256(t.plan.steps[0])
            && a.expiresAt == t.createdAt + 5 * MINUTE
            && a.capability == t.plan.steps[0].capability
            && (HasOutsideEffect(t.plan.steps[0].capability) ==>
                  && GetCapability(t.plan.steps[0].capability).Some?
                  && a.channel == GetCapability(t.plan.steps[0].capability).value.channel)
  {
    hide PayloadSha256, NotepadPreview, TargetNode, TextOr;
  }

  /** A task causes at most one effect in a run, and none unless it was approved. */
  lemma OneEffectPerTask(root: Path, initial: Files, c: Core, i: nat, j: nat)
    requires ReachedFrom(root, initial, c)
    requires i < |c.log| && j < |c.log| && IsEffect(c.log[i]) && IsEffect(c.log[j])
    requires EntryTask(c.log[i]) == EntryTask(c.log[j])
    ensures i == j
  {
    ReachedHolds(root, initial, c);
  }

  /** A task with any denied step has no result and never causes a call outside. */
  lemma DeniedTasksDoNothing(root: Path, initial: Files, c: Core, id: Uuid)
    requires ReachedFrom(root, initial, c) && id in c.tasks
    requires HasOutcome(c.tasks[id].decisions, Deny)
    ensures c.tasks[id].state == Denied && c.tasks[id].results == []
    ensures forall i :: 0 <= i < |c.log| && EntryTask(c.log[i]) == id ==> c.log[i].Issued? || c.log[i].Decided?
  {
    hide CoreInv, TaskInv, ReachedFrom, Run;
    ReachedHolds(root, initial, c);
    TaskUnderItsId(initial, c, id);
    RefusedTask(c.tasks[id]);
    forall i | 0 <= i < |c.log| && EntryTask(c.log[i]) == id
      ensures c.log[i].Issued? || c.log[i].Decided?
    {
      CallsBelongToExecuted(initial, c, i);
    }
  }

  lemma RefusedTask(t: Task)
    requires TaskInv(t) && HasOutcome(t.decisions, Deny)
    ensures t.state == Denied && t.results == [] && t.approval.None?
  {
    hide Traced, PlanKept, IssuedApproval;
    assert VerdictOf(t) == Refused;
  }

  lemma CallsBelongToExecuted(initial: Files, c: Core, i: nat)
    requires CoreInv(initial, c) && i < |c.log|
    ensures IsEffect(c.log[i]) ==> EntryTask(c.log[i]) in c.tasks && c.tasks[EntryTask(c.log[i])].state != Denied
    ensures IsUndo(c.log[i]) ==> EntryTask(c.log[i]) in c.tasks && c.tasks[EntryTask(c.log[i])].state != Denied
  {
    hide TaskInv, Indexed, LedgerHolds, FilesConserved, DecisionsBound, Authorised;
    assert EffectsAuthorised(c) && UndosBound(c);
  }

  /**
   * An undo call is made at most once per task, only for a task that was executed, and the task then leaves COMPLETED.
   */
  lemma OneUndoPerTask(root: Path, initial: Files, c: Core, i: nat)
    requires ReachedFrom(root, initial, c)
    requires i < |c.log| && IsUndo(c.log[i])
    ensures EntryTask(c.log[i]) in c.tasks
    ensures c.tasks[EntryTask(c.log[i])].state in {RolledBack, Failed}
    ensures forall j :: 0 <= j < |c.log| && IsUndo(c.log[j]) && EntryTask(c.log[j]) == EntryTask(c.log[i]) ==> j == i
  {
    ReachedHolds(root, initial, c);
    assert UndosBound(c);
  }

  /* What is approved is what runs. */

  /**
   * A task that has or had an approval has exactly one step. The approval's hash is the hash of that step, and any
   * step with the same hash asks for the same capability, parameters, reversibility and risk. Its channel is the
   * registry's, and its risk and reversibility are the step's. What was previewed for a note is the text that is
   * written; what was previewed for a launch names the capability, the executable and the very node that is called.
   */
  lemma ApprovalBindsPlan(root: Path, initial: Files, c: Core, id: Uuid, other: PlanStep)
    requires ReachedFrom(root, initial, c) && id in c.tasks && c.tasks[id].approval.Some?
    requires DistinctNames(other.parameters)
    ensures var t := c.tasks[id];
            && |t.plan.steps| == 1
            && var step, a := t.plan.steps[0], t.approval.value;
               && a.capability == step.capability
               && a.payloadSha256 == PayloadSha256(step)
               && (a.payloadSha256 == PayloadSha256(other) <==> BoundOf(other) == BoundOf(step))
               && GetCapability(step.capability).Some?
               && a.channel == GetCapability(step.capability).value.channel
               && GetCapability(step.capability).value.approvalPolicy == Explicit
               && a.risk == step.risk && a.reversible == step.reversible
               && (step.capability == CreateNote ==>
                     && a.preview == PlannedNote(t).content
                     && forall i :: 0 <= i < |c.log| && c.log[i].NoteCreateCall? && c.log[i].task == id ==>
                                      c.log[i].note.content == a.preview)
               && (step.capability == LaunchNotepad ==>
                     forall i :: 0 <= i < |c.log| && c.log[i].LaunchCall? && c.log[i].task == id ==>
                                   a.preview == LaunchPreview(c.log[i].target))
  {
    hide CoreInv, TaskInv, ReachedFrom, Run, LaunchPreview, PayloadSha256, BoundOf, TargetNode, RebuiltNote, Authorised;
    ReachedHolds(root, initial, c);
    TaskUnderItsId(initial, c, id);
    BoundApproval(c.tasks[id], other);
    forall i | 0 <= i < |c.log| && IsEffect(c.log[i]) && EntryTask(c.log[i]) == id
      ensures CarriesOut(c.log[i], id, c.tasks[id].plan.steps[0])
    {
      EffectIsBound(initial, c, i);
      AuthorisedFields(c.log, i, c.tasks[id]);
    }
  }

  /** What the user is shown before a launch. */
  function LaunchPreview(target: string): string {
    "Capability: device.launch_notepad\nTarget node: " + target +
    "\nExecutable: C:\\Windows\\System32\\notepad.exe\nShell: disabled\nArguments: none"
  }

  lemma BoundApproval(t: Task, other: PlanStep)
    requires TaskInv(t) && t.approval.Some? && DistinctNames(other.parameters)
    ensures |t.plan.steps| == 1
    ensures var step, a := t.plan.steps[0], t.approval.value;
            && a.capability == step.capability
            && a.payloadSha256 == PayloadSha256(step)
            && (a.payloadSha256 == PayloadSha256(other) <==> BoundOf(other) == BoundOf(step))
            && GetCapability(step.capability).Some?
            && a.channel == GetCapability(step.capability).value.channel
            && GetCapability(step.capability).value.approvalPolicy == Explicit
            && a.risk == step.risk && a.reversible == step.reversible
            && (step.capability == CreateNote ==> a.preview == PlannedNote(t).content)
            && (step.capability == LaunchNotepad ==> a.preview == LaunchPreview(TargetNode(step)))
  {
    hide TaskInv, PayloadSha256, BoundOf, IsNoteStep, IsNotepadStep, DistinctNames, RebuiltNote, IssuedApproval, TextOr;
    hide LaunchPreview, TargetNode;
    WaitingPlan(t);
    var step := t.plan.steps[0];
    NoteStepCreates(step);
    IssuedFields(t, "");
    KeptAsIssued(t);
    PlannedParametersAreDistinct(step);
    HashBindsPayload(step, other);
    IssuedPreview(t);
    if step.capability == CreateNote {
      PreviewIsContent(step);
    }
  }

  lemma PreviewIsSpelt(target: string)
    ensures NotepadPreview(target) == LaunchPreview(target)
  {
  }

  lemma KeptAsIssued(t: Task)
    requires TaskInv(t) && t.approval.Some?
    ensures t.plan.steps != []
    ensures var a := t.approval.value;
            a == IssuedApproval(t, "").(status := a.status, token := a.token)
  {
    hide Traced, PlanKept, ResultsKept, IssuedApproval;
  }

  lemma IssuedPreview(t: Task)
    requires t.plan.steps != []
    ensures var step, a := t.plan.steps[0], IssuedApproval(t, "");
            && a.risk == step.risk && a.reversible == step.reversible
            && (step.capability == CreateNote ==>
                  a.preview == TextOr(step.parameters, "content", "No content preview available."))
            && (step.capability == LaunchNotepad ==> a.preview == LaunchPreview(TargetNode(step)))
  {
    hide PayloadSha256, NotepadPreview, LaunchPreview, TargetNode, TextOr;
    PreviewIsSpelt(TargetNode(t.plan.steps[0]));
  }

  lemma PlannedParametersAreDistinct(step: PlanStep)
    requires IsNoteStep(step) || IsNotepadStep(step)
    ensures DistinctNames(step.parameters)
  {
    hide NormalContent, NormalTitle, DistinctNames;
    if IsNoteStep(step) {
      var content := TextOr(step.parameters, "content", "");
      NoteLookups(PreparedNote(
        TextOr(step.parameters, "title", ""), TextOr(step.parameters, "filename", ""), content, Sha256(content)));
    } else {
      var target :| step.parameters == NotepadParameters(target);
      NotepadLookups(target);
    }
  }

  lemma PreviewIsContent(step: PlanStep)
    requires IsNoteStep(step)
    ensures TextOr(step.parameters, "content", "No content preview available.") == RebuiltNote(step).content
  {
    hide NormalContent, NormalTitle, Lookup;
    var content := TextOr(step.parameters, "content", "");
    NoteLookups(PreparedNote(
      TextOr(step.parameters, "title", ""), TextOr(step.parameters, "filename", ""), content, Sha256(content)));
    assert content != "" by {
      assert NormalContent(content);
      ContentIsNotEmpty(content);
    }
  }

  lemma ContentIsNotEmpty(content: string)
    requires NormalContent(content)
    ensures content != ""
  {
  }

  /* Receipts. */

  /**
   * The ledger is a faithful history: versions are positions, so the next one is always the one the ledger expects;
   * every receipt extends the one before; the newest has every field of the stored task, is verified exactly when the
   * task is completed or rolled back, and reversible exactly when it was approved and is completed; there are at most
   * three.
   */
  lemma LedgerIsFaithful(root: Path, initial: Files, c: Core, id: Uuid)
    requires ReachedFrom(root, initial, c)
    ensures id in c.tasks <==> id in c.ledger
    ensures NextVersion(History(c.ledger, id)) == |History(c.ledger, id)| + 1
    ensures id in c.tasks ==>
              var h, t := c.ledger[id], c.tasks[id];
              && 1 <= |h| <= 3
              && (forall i :: 0 <= i < |h| ==> h[i].version == i + 1)
              && (forall i :: 0 < i < |h| ==> h[i - 1].events < h[i].events && h[i - 1].results <= h[i].results)
              && h[|h| - 1] == ReceiptOf(
                                 ReceiptId(id), |h|, id, t.requestId, t.state, t.intent, t.plan.planId, t.decisions,
                                 t.results, t.events, t.createdAt, t.updatedAt,
                                 t.state == Completed || t.state == RolledBack,
                                 t.state == Completed && t.approval.Some?)
  {
    hide CoreInv, TaskInv, ReachedFrom, Run;
    ReachedHolds(root, initial, c);
    LedgerOf(initial, c, id);
    if id in c.tasks {
      TaskUnderItsId(initial, c, id);
      HistoryFacts(c.ledger[id], c.tasks[id]);
      FlagsOf(c.tasks[id]);
      if c.tasks[id].state == Completed {
        OnlyApprovedTasksAreReversible(c.tasks[id]);
      }
    }
  }

  lemma LedgerOf(initial: Files, c: Core, id: Uuid)
    requires CoreInv(initial, c)
    ensures id in c.tasks <==> id in c.ledger
    ensures id in c.tasks ==> HistoryHolds(c.ledger[id], c.tasks[id])
  {
    hide TasksHold, Indexed, FilesConserved, EffectsAuthorised, UndosBound, DecisionsBound, HistoryHolds;
  }

  lemma HistoryFacts(h: seq<Receipt>, t: Task)
    requires HistoryHolds(h, t)
    ensures 1 <= |h| <= 3
    ensures forall i :: 0 <= i < |h| ==> h[i].version == i + 1
    ensures forall i :: 0 < i < |h| ==> h[i - 1].events < h[i].events && h[i - 1].results <= h[i].results
    ensures var newest := h[|h| - 1];
            && newest.state == t.state && newest.events == t.events && newest.results == t.results
            && newest.updatedAt == t.updatedAt
            && newest == ReceiptFor(t, |h|)
  {
    hide RouteOf;
  }

  /**
   * The newest receipt's flags are exact. It is reversible exactly when an undo by the owning session would
   * start; it is verified exactly when the task is completed or rolled back.
   */
  lemma ReceiptFlagsAreExact(root: Path, initial: Files, c: Core, id: Uuid, clock: Clock, env: Environment)
    requires ReachedFrom(root, initial, c) && id in c.tasks
    ensures id in c.ledger && c.ledger[id] != []
    ensures var t, newest := c.tasks[id], c.ledger[id][|c.ledger[id]| - 1];
            var undone := RollbackTask(c, id, IdentitySession(t.sessionId, true), clock, env).0;
            && id in undone.tasks
            && (newest.reversible <==>
                  |t.events| < |undone.tasks[id].events| && undone.tasks[id].events[|t.events|].state == RollingBack)
            && (newest.verified <==> t.state == Completed || t.state == RolledBack)
  {
    ReachedHolds(root, initial, c);
    TaskUnderItsId(initial, c, id);
    var t := c.tasks[id];
    assert HistoryHolds(c.ledger[id], t);
    FlagsOf(t);
    RollingStarts(c, id, clock, env);
  }

  lemma FlagsOf(t: Task)
    requires TaskInv(t)
    ensures ReceiptFor(t, 1).reversible <==> t.state == Completed && ReversibleResult(t.results).Some?
    ensures ReceiptFor(t, 1).verified <==> t.state == Completed || t.state == RolledBack
  {
    hide Traced, PlanFor, DecisionsFor, VerdictOn, ApprovalFor, EvidenceBinds;
    if t.state == Completed {
      SomeReversible(t.results);
    }
  }

  lemma {:induction false} SomeReversible(results: seq<CapabilityResult>)
    requires forall i :: 0 <= i < |results| ==> results[i].status == StepVerified && results[i].evidence != []
    ensures ReversibleResult(results).Some? <==>
              exists i :: && 0 <= i < |results|
                          && IsReversibleCapability(results[i].capability)
                          && results[i].status == StepVerified
  {
    if results != [] {
      SomeReversible(results[1..]);
      if ReversibleResult(results[1..]).Some? {
        var i :| 0 <= i < |results[1..]| && IsReversibleCapability(results[1..][i].capability);
        assert results[i + 1] == results[1..][i];
      }
      if i :| 0 < i < |results| && IsReversibleCapability(results[i].capability) {
        assert results[1..][i - 1] == results[i];
      }
    }
  }

  lemma RollingStarts(c: Core, id: Uuid, clock: Clock, env: Environment)
    requires id in c.tasks && c.tasks[id].taskId == id
    ensures var t := c.tasks[id];
            var undone := RollbackTask(c, id, IdentitySession(t.sessionId, true), clock, env).0;
            && id in undone.tasks
            && (t.state == Completed && ReversibleResult(t.results).Some? <==>
                  |t.events| < |undone.tasks[id].events| && undone.tasks[id].events[|t.events|].state == RollingBack)
  {
    hide RecordReceipt, RollbackRunFor;
  }

  /** A completed or rolled back task has a verified result with evidence for every step, and an undo's result last. */
  lemma VerifiedResultsMatchPlan(root: Path, initial: Files, c: Core, id: Uuid)
    requires ReachedFrom(root, initial, c) && id in c.tasks
    requires c.tasks[id].state == Completed || c.tasks[id].state == RolledBack
    ensures var t := c.tasks[id];
            && |t.results| == |t.plan.steps| + (if t.state == RolledBack then 1 else 0)
            && (forall i :: 0 <= i < |t.plan.steps| ==>
                              && t.results[i].stepId == t.plan.steps[i].stepId
                              && t.results[i].capability == t.plan.steps[i].capability
                              && t.results[i].status == StepVerified
                              && t.results[i].evidence != [])
            && (t.state == RolledBack ==>
                  && |t.plan.steps| == 1
                  && t.results[1].status == StepRolledBack
                  && t.results[1].stepId == t.plan.steps[0].stepId
                  && t.results[1].capability == UndoOf(t.plan.steps[0].capability))
  {
    hide CoreInv, TaskInv, ReachedFrom, Run;
    ReachedHolds(root, initial, c);
    TaskUnderItsId(initial, c, id);
    VerifiedResults(c.tasks[id]);
  }

  lemma VerifiedResults(t: Task)
    requires TaskInv(t) && (t.state == Completed || t.state == RolledBack)
    ensures |t.results| == |t.plan.steps| + (if t.state == RolledBack then 1 else 0)
    ensures forall i :: 0 <= i < |t.plan.steps| ==>
                          && t.results[i].stepId == t.plan.steps[i].stepId
                          && t.results[i].capability == t.plan.steps[i].capability
                          && t.results[i].status == StepVerified
                          && t.results[i].evidence != []
    ensures t.state == RolledBack ==>
              && |t.plan.steps| == 1
              && t.results[1].status == StepRolledBack
              && t.results[1].stepId == t.plan.steps[0].stepId
              && t.results[1].capability == UndoOf(t.plan.steps[0].capability)
  {
    hide Traced, PlanKept, ApprovalKept, EvidenceBinds;
    var verified := if t.state == RolledBack then t.results[..1] else t.results;
    forall i | 0 <= i < |t.plan.steps|
      ensures ResultFor(t.results[i], t.plan.steps[i])
      ensures t.results[i].status == StepVerified && t.results[i].evidence != []
    {
      assert verified[i] == t.results[i];
    }
  }

  /* Files. */

  /**
   * The directory is the initial one plus exactly one file per completed note task, holding its planned text, under
   * a name no other completed note task has.
   */
  lemma DirectoryIsConserved(root: Path, initial: Files, c: Core)
    requires ReachedFrom(root, initial, c)
    ensures FilesConserved(initial, c)
  {
    ReachedHolds(root, initial, c);
  }

  /** Undoing a completed note by its session always succeeds, removes exactly its file and leaves the others. */
  lemma NoteUndoSucceeds(root: Path, initial: Files, c: Core, id: Uuid, clock: Clock, env: Environment)
    requires ReachedFrom(root, initial, c) && id in c.tasks && OwnsFile(c.tasks[id])
    ensures var t := c.tasks[id];
            var (after, outcome) := RollbackTask(c, id, IdentitySession(t.sessionId, true), clock, env);
            && outcome.Success?
            && outcome.value.state == RolledBack
            && after.files == c.files - {PlannedNote(t).filename}
            && PlannedNote(t).filename in c.files
            && PlannedNote(t).filename !in initial
            && after.tasks == c.tasks[id := outcome.value]
  {
    ReachedHolds(root, initial, c);
    TaskUnderItsId(initial, c, id);
    var t := c.tasks[id];
    CompletedNotesWereApproved(t);
    OnlyApprovedTasksAreReversible(t);
    UndoDoes(initial, c, t, clock, env);
    NoteFileIsThere(initial, c, id);
    NoteFileIsNew(initial, c, id);
  }

  lemma NoteFileIsNew(initial: Files, c: Core, id: Uuid)
    requires CoreInv(initial, c) && id in c.tasks && OwnsFile(c.tasks[id])
    ensures PlannedNote(c.tasks[id]).filename !in initial
  {
    hide TaskInv, LedgerHolds, Indexed, EffectsAuthorised, UndosBound, DecisionsBound, RebuiltNote;
    assert OwnerOf(c, id, PlannedNote(c.tasks[id]).filename);
  }

  lemma CompletedNotesWereApproved(t: Task)
    requires TaskInv(t) && OwnsFile(t)
    ensures t.approval.Some?
  {
    hide Traced, PlanFor, DecisionsFor, VerdictOn, ApprovalFor, EvidenceBinds;
    OnlyApprovedTasksAreReversible(t);
    assert ResultFor(t.results[0], t.plan.steps[0]);
    FirstIsReversible(t.results);
  }

  /* Approvals. */

  /** An approval has a token exactly while it is pending, and is pending exactly while its task waits. */
  lemma PendingIsWaiting(root: Path, initial: Files, c: Core, id: Uuid)
    requires ReachedFrom(root, initial, c) && id in c.tasks && c.tasks[id].approval.Some?
    ensures var t := c.tasks[id];
            && (t.approval.value.token.Some? <==> t.approval.value.status == Pending)
            && (t.approval.value.status == Pending <==> t.state == AwaitingApproval)
  {
    hide CoreInv, TaskInv, ReachedFrom, Run;
    ReachedHolds(root, initial, c);
    TaskUnderItsId(initial, c, id);
    PendingTask(c.tasks[id]);
  }

  lemma PendingTask(t: Task)
    requires TaskInv(t) && t.approval.Some?
    ensures t.approval.value.token.Some? <==> t.approval.value.status == Pending
    ensures t.approval.value.status == Pending <==> t.state == AwaitingApproval
    ensures t.approval.value.taskId == t.taskId && t.approval.value.sessionId == t.sessionId
  {
    hide Traced, PlanKept, ResultsKept, PayloadSha256, NotepadPreview, TargetNode, TextOr;
  }

  /** The guard against a consumed approval is never what refuses a decision. */
  lemma ConsumedGuardIsUnreachable(
    root: Path, initial: Files, c: Core, id: Uuid, decision: ApprovalDecision, session: IdentitySession,
    channel: ApprovalChannel, clock: Clock, env: Environment)
    requires ReachedFrom(root, initial, c)
    ensures ApproveTask(c, id, decision, session, channel, clock, env).1 != Failure(ApprovalAlreadyConsumed)
  {
    hide CoreInv, TaskInv, ReachedFrom, Run, GrantedRun, Store, Spend, SessionMatches;
    ReachedHolds(root, initial, c);
    if id in c.tasks && c.tasks[id].approval.Some? {
      TaskUnderItsId(initial, c, id);
      PendingTask(c.tasks[id]);
    }
  }

  /** A refused decision changes nothing, except that one that comes too late denies the task and adds one receipt. */
  lemma RefusedDecisionsChangeNothing(
    c: Core, id: Uuid, decision: ApprovalDecision, session: IdentitySession, channel: ApprovalChannel, clock: Clock,
    env: Environment)
    ensures var (after, outcome) := ApproveTask(c, id, decision, session, channel, clock, env);
            && (outcome.Failure? && outcome.error != ApprovalHasExpired ==> after == c)
            && (outcome == Failure(ApprovalHasExpired) ==>
                  && id in c.tasks
                  && var t := c.tasks[id];
                     && t.approval.Some?
                     && t.approval.value.expiresAt <= clock.now
                     && after == Store(c, Spend(t, Expired, Denied, ApprovalExpiredEvent, clock.now))
                     && t.taskId in after.tasks
                     && after.tasks[t.taskId].approval == Some(t.approval.value.(status := Expired, token := None))
                     && after.files == c.files && after.log == c.log
                     && |History(after.ledger, t.taskId)| == |History(c.ledger, t.taskId)| + 1)
  {
    hide GrantedRun, ReceiptFor, NextVersion, AddEvent, SessionMatches;
  }

  /** A decision to approve is carried out exactly when it authorises the waiting approval in time. */
  lemma ApprovalIsExact(
    root: Path, initial: Files, c: Core, id: Uuid, decision: ApprovalDecision, session: IdentitySession,
    channel: ApprovalChannel, clock: Clock, env: Environment)
    requires ReachedFrom(root, initial, c)
    requires decision.decision == Approve
    ensures ApproveTask(c, id, decision, session, channel, clock, env).1.Success? <==>
              && id in c.tasks
              && c.tasks[id].state == AwaitingApproval
              && c.tasks[id].approval.Some?
              && Authorises(Decided(id, decision, session, channel, clock.now), c.tasks[id].approval.value)
  {
    hide CoreInv, TaskInv, ReachedFrom, Run, GrantedRun, Store, Spend;
    ReachedHolds(root, initial, c);
    if id in c.tasks && c.tasks[id].approval.Some? {
      TaskUnderItsId(initial, c, id);
      PendingTask(c.tasks[id]);
    }
  }

  /**
   * A rejection is accepted exactly when an approval on the right channel would be; it may come on either channel. It
   * leaves the approval Rejected, and the one event more says so.
   */
  lemma RejectionIsExact(
    root: Path, initial: Files, c: Core, id: Uuid, decision: ApprovalDecision, session: IdentitySession,
    channel: ApprovalChannel, clock: Clock, env: Environment)
    requires ReachedFrom(root, initial, c)
    requires decision.decision == Reject
    ensures var (after, outcome) := ApproveTask(c, id, decision, session, channel, clock, env);
            && (outcome.Success? <==>
                  && id in c.tasks
                  && c.tasks[id].state == AwaitingApproval
                  && c.tasks[id].approval.Some?
                  && var approval := c.tasks[id].approval.value;
                     Authorises(
                       Decided(id, decision.(decision := Approve), session, approval.channel, clock.now), approval))
            && (outcome.Success? ==>
                  && outcome.value.state == Denied && outcome.value.results == [] && after.files == c.files
                  && outcome.value.approval ==
                     Some(c.tasks[id].approval.value.(status := Rejected, token := None))
                  && |outcome.value.events| == |c.tasks[id].events| + 1
                  && outcome.value.events[|c.tasks[id].events|].kind == ApprovalRejectedEvent)
  {
    hide CoreInv, TaskInv, ReachedFrom, Run, GrantedRun, RecordReceipt;
    ReachedHolds(root, initial, c);
    if id in c.tasks && c.tasks[id].approval.Some? {
      TaskUnderItsId(initial, c, id);
      PendingTask(c.tasks[id]);
      WaitingHasNoResults(c.tasks[id]);
    }
  }

  lemma WaitingHasNoResults(t: Task)
    requires TaskInv(t)
    ensures t.state == AwaitingApproval ==> t.results == []
  {
    hide Traced, PlanKept, ApprovalKept;
  }
}
