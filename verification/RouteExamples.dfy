/** Each of the ten routes through the lifecycle is taken by some run of the orchestrator. */
module RouteExamples {
  import opened StateMachine
  import opened Domain
  import opened Registry
  import opened NoteText
  import opened NoteStore
  import opened Payload
  import opened Planner
  import opened CoreModel
  import opened TaskInvariant
  import opened CoreInvariant
  import opened CoreSteps
  import opened CoreRuns
  import opened CoreTheorems
  import opened CoreEvolution
  import opened DeviceNode
  import opened DeviceSystem
  import opened DeviceTheorems
  import opened DeviceExamples

  const REQUEST: TaskRequest := TaskRequest(External(0), External(1))

  function AskFor(intent: Intent, env: Environment): Command {
    Create(REQUEST, OWNER, intent, "t", AT_ONCE, env)
  }

  function NewTaskFor(root: Path, files: Files, intent: Intent, env: Environment): Task {
    NewTask(REQUEST, OWNER, intent, "t", AT_ONCE, env, root, files).task
  }

  /** A run that ends with the task on the route. */
  ghost predicate Takes(root: Path, initial: Files, c: Core, route: Route) {
    && ReachedFrom(root, initial, c)
    && TASK in c.tasks && RouteOf(c.tasks[TASK]) == route
  }

  lemma FirstTask(root: Path, initial: Files, intent: Intent, env: Environment)
    requires intent.Classified()
    ensures var c := Perform(InitialCore(root, initial), AskFor(intent, env)).0;
            && ReachedFrom(root, initial, c)
            && TASK in c.tasks && c.tasks[TASK] == NewTaskFor(root, initial, intent, env)
  {
    hide ReachedFrom, NewTask, RecordReceipt, TaskInv;
    StartIsReached(root, initial);
    NextIsReached(root, initial, InitialCore(root, initial), AskFor(intent, env));
    NewTaskFits(REQUEST, OWNER, intent, "t", AT_ONCE, env, root, initial);
  }

  lemma RefusedRoute(root: Path, initial: Files)
    ensures RouteOf(NewTaskFor(root, initial, PlainIntent(Unknown), NOTHING)) == PolicyDenied
  {
    hide AddEvent;
    assert DecisionsFor(TASK, PlainIntent(Unknown))[0].outcome == Deny;
  }

  const STATUS: Intent := PlainIntent(LocalWorkspaceStatus)
  const STATUS_STEP: PlanStep := StepOf(TASK, 1, StepSpec(ReadWorkspaceStatus, Low, [], false))

  lemma StatusPlan()
    ensures PlanFor(TASK, STATUS).steps == [STATUS_STEP]
    ensures VerdictOn(DecisionsFor(TASK, STATUS)) == RunsAtOnce
  {
    assert PlanFor(TASK, STATUS).steps == [STATUS_STEP];
    var decisions := DecisionsFor(TASK, STATUS);
    assert decisions == [EvaluateStep(STATUS_STEP)];
    assert EvaluateStep(STATUS_STEP).outcome == Allow;
    assert forall i :: 0 <= i < |decisions| ==> decisions[i].outcome == Allow;
  }

  lemma StatusRuns(plan: TaskPlan, events: seq<Event>, env: Environment, root: Path, files: Files)
    requires plan.steps == [STATUS_STEP]
    ensures ExecuteAuthorizedSteps(TASK, plan, events, AT_ONCE, env, root, files).state ==
            if env.workspaceReadable then Completed else Failed
  {
    hide AddEvent, ExecuteSteps;
    SingleStepRun(STATUS_STEP, TASK, 0, env, root, files);
    var one := ExecuteStep(STATUS_STEP, TASK, 0, env, root, files).result.value;
    assert [one][0] == one;
  }

  /** A plan of one step that needs no approval runs at once. */
  lemma AutomaticRoute(root: Path, initial: Files, env: Environment)
    ensures RouteOf(NewTaskFor(root, initial, STATUS, env)) ==
            if env.workspaceReadable then AutoCompleted else AutoFailed
  {
    hide AddEvent, ExecuteAuthorizedSteps, PlanFor, DecisionsFor, VerdictOn;
    StatusPlan();
    StatusRuns(PlanFor(TASK, STATUS), PlannedEvents(TASK, 0), env, root, initial);
  }

  /* After the launch was asked for. */

  lemma AskedTask(root: Path, initial: Files)
    ensures var c := Perform(InitialCore(root, initial), Ask()).0;
            ReachedFrom(root, initial, c) && AwaitsLaunch(c)
  {
    hide ReachedFrom, NewTask, Perform;
    FirstTask(root, initial, NotepadIntent(None), NOTHING);
    NewLaunchTask(root, initial);
  }

  function Refusal(c: Core): Command
    requires TASK in c.tasks && c.tasks[TASK].approval.Some?
  {
    Decide(TASK, Granted(c).(decision := Reject), OWNER, Desktop, AT_ONCE, NOTHING)
  }

  lemma RejectedRoute(root: Path, initial: Files, c: Core)
    requires ReachedFrom(root, initial, c) && AwaitsLaunch(c)
    ensures Takes(root, initial, Perform(c, Refusal(c)).0, ApprovalDenied)
  {
    hide ReachedFrom, RecordReceipt, AddEvent;
    NextIsReached(root, initial, c, Refusal(c));
  }

  /** Executing a launch adds three events, whatever the answer. */
  lemma LaunchEvents(c: Core, t: Task, env: Environment)
    requires IsDeviceTask(t) && |t.events| == 3
    ensures |GrantedRun(c, t, AT_ONCE, env).events| == 7
  {
    hide ExecuteSteps, AllVerified, TargetNode;
    var step := t.plan.steps[0];
    SingleStepRun(step, t.taskId, 0, env, c.root, c.files);
    assert t.plan.steps == [step];
  }

  lemma WaitingEvents(initial: Files, c: Core)
    requires CoreInv(initial, c) && AwaitsLaunch(c)
    ensures TaskInv(c.tasks[TASK]) && |c.tasks[TASK].events| == 3
  {
    hide CoreInv, PlanKept, ApprovalKept, ResultsKept, TargetNode;
    TaskUnderItsId(initial, c, TASK);
    assert |States(c.tasks[TASK].events)| == |c.tasks[TASK].events|;
  }

  lemma LaunchedEvents(initial: Files, c: Core, env: Environment)
    requires CoreInv(initial, c) && AwaitsLaunch(c)
    ensures var answered := Decide(TASK, Granted(c), OWNER, Phone, AT_ONCE, env);
            && TASK in Perform(c, answered).0.tasks
            && var t := Perform(c, answered).0.tasks[TASK];
               |t.events| == 7 && t.approval.Some?
  {
    hide CoreInv, RecordReceipt, GrantedRun, TaskInv, TargetNode;
    WaitingEvents(initial, c);
    LaunchEvents(c, c.tasks[TASK], env);
  }

  function LaunchAnswer(received: bool): Option<Reply> {
    if received then Some(LaunchReply(EVIDENCE)) else None
  }

  lemma LaunchedRoute(root: Path, initial: Files, c: Core, received: bool)
    requires ReachedFrom(root, initial, c) && AwaitsLaunch(c)
    ensures var c' := Perform(c, WithReply(Approval(c), LaunchAnswer(received))).0;
            && Takes(root, initial, c', if received then Fulfilled else VerificationFailed)
            && ReportsLaunch(c', received)
  {
    hide ReachedFrom, CoreInv, Perform, AwaitsLaunch;
    ReachedHolds(root, initial, c);
    ApprovalWaits(c);
    var answered := WithReply(Approval(c), LaunchAnswer(received));
    CoreLaunches(initial, c, received);
    LaunchedEvents(initial, c, answered.env);
    NextIsReached(root, initial, c, answered);
  }

  lemma UndoneRoute(root: Path, initial: Files, c: Core, received: bool)
    requires ReachedFrom(root, initial, c) && ReportsLaunch(c, true)
    ensures Takes(
              root, initial, Perform(c, WithReply(Undo(), if received then Some(StopReply(STOPPED)) else None)).0,
              if received then Undone else UndoFailed)
  {
    hide ReachedFrom, CoreInv, Perform, Stops, TargetNode, RouteOf;
    ReachedHolds(root, initial, c);
    var answered := WithReply(Undo(), if received then Some(StopReply(STOPPED)) else None);
    CoreStops(initial, c, received);
    LaunchCanBeUndone(initial, c);
    UndoneByCommand(initial, c, answered.env);
    NextIsReached(root, initial, c, answered);
    RouteByState(Perform(c, answered).0.tasks[TASK]);
  }

  lemma UndoneByCommand(initial: Files, c: Core, env: Environment)
    requires CoreInv(initial, c) && ReportsLaunch(c, true) && Stops(c, TASK, OWNER)
    ensures var c' := Perform(c, Rollback(TASK, OWNER, AT_ONCE, env)).0;
            TASK in c'.tasks && WasUndone(c'.tasks[TASK])
  {
    hide CoreInv, RollbackTask, Stops, WasUndone, TargetNode;
    UndoneDeviceTask(initial, c, TASK, OWNER, AT_ONCE, env);
  }

  lemma RouteByState(t: Task)
    requires WasUndone(t)
    ensures t.state == RolledBack ==> RouteOf(t) == Undone
    ensures t.state == Failed ==> RouteOf(t) == UndoFailed
  {
  }

  /* A note that cannot be opened. */

  const NOTE: Intent := NoteIntent("a", "b\n")

  lemma ShortNoteIsPrepared()
    ensures PrepareNote("a", "b\n").Success?
  {
    ShortTitleIsNormal();
    ShortContentIsNormal();
    PreparedFixedPoints("a", "b\n");
  }

  lemma ShortTitleIsNormal()
    ensures NormalTitle("a")
  {
  }

  lemma ShortContentIsNormal()
    ensures NormalContent("b\n")
  {
  }

  ghost predicate AwaitsNote(c: Core) {
    && TASK in c.tasks
    && var t := c.tasks[TASK];
       && |t.plan.steps| == 1 && IsNoteStep(t.plan.steps[0])
       && t.taskId == TASK && t.sessionId == External(1) && t.state == AwaitingApproval
       && t.approval.Some? && t.approval.value.status == Pending && t.approval.value.token == Some("t")
       && t.approval.value.channel == Desktop && t.approval.value.expiresAt == APPROVAL_LIFETIME
  }

  lemma NewNoteTask(root: Path, initial: Files)
    ensures var t := NewTaskFor(root, initial, NOTE, NOTHING);
            && |t.plan.steps| == 1 && IsNoteStep(t.plan.steps[0])
            && t.taskId == TASK && t.sessionId == External(1) && t.state == AwaitingApproval
            && t.approval.Some? && t.approval.value.status == Pending && t.approval.value.token == Some("t")
            && t.approval.value.channel == Desktop && t.approval.value.expiresAt == APPROVAL_LIFETIME
  {
    hide PrepareNote, PayloadSha256, AddEvent, TextOr, IsNoteStep, IsNotepadStep, NotepadPreview;
    ShortNoteIsPrepared();
    PlansByVerdict(TASK, NOTE);
    assert DecisionsFor(TASK, NOTE)[0].outcome == RequireApproval;
    NoteStepCreates(PlanFor(TASK, NOTE).steps[0]);
  }

  lemma NoteTask(root: Path, initial: Files)
    ensures var c := Perform(InitialCore(root, initial), AskFor(NOTE, NOTHING)).0;
            ReachedFrom(root, initial, c) && AwaitsNote(c)
  {
    hide ReachedFrom, NewTask, Perform, NewTaskFor, IsNoteStep;
    FirstTask(root, initial, NOTE, NOTHING);
    NewNoteTask(root, initial);
  }

  const UNOPENED: Environment := Environment(true, true, None, None)

  function NoteApproval(c: Core): Command
    requires TASK in c.tasks && c.tasks[TASK].approval.Some?
  {
    Decide(TASK, Granted(c), OWNER, Desktop, AT_ONCE, UNOPENED)
  }

  /** When the file cannot be opened, executing raises and adds two events. */
  lemma UnopenedEvents(c: Core, t: Task)
    requires |t.plan.steps| == 1 && IsNoteStep(t.plan.steps[0]) && |t.events| == 3
    ensures |GrantedRun(c, t, AT_ONCE, UNOPENED).events| == 6
    ensures GrantedRun(c, t, AT_ONCE, UNOPENED).state == Failed
  {
    hide ExecuteSteps, IsNoteStep, RebuiltNote, TargetName;
    var step := t.plan.steps[0];
    NoteStepCreates(step);
    RebuiltNoteIsPlanned(step, c.root);
    SingleStepRun(step, t.taskId, 0, UNOPENED, c.root, c.files);
    assert t.plan.steps == [step];
  }

  lemma NoteEvents(initial: Files, c: Core)
    requires CoreInv(initial, c) && AwaitsNote(c)
    ensures |c.tasks[TASK].events| == 3
  {
    hide CoreInv, PlanKept, ApprovalKept, ResultsKept, IsNoteStep;
    TaskUnderItsId(initial, c, TASK);
    assert |States(c.tasks[TASK].events)| == |c.tasks[TASK].events|;
  }

  lemma UnopenedRoute(root: Path, initial: Files, c: Core)
    requires ReachedFrom(root, initial, c) && AwaitsNote(c)
    ensures Takes(root, initial, Perform(c, NoteApproval(c)).0, ExecutionFailed)
  {
    hide ReachedFrom, CoreInv, RecordReceipt, GrantedRun, IsNoteStep;
    ReachedHolds(root, initial, c);
    NoteEvents(initial, c);
    UnopenedEvents(c, c.tasks[TASK]);
    NextIsReached(root, initial, c, NoteApproval(c));
  }

  lemma SpellsWord(root: Path, initial: Files, c: Core, route: Route)
    requires Takes(root, initial, c, route)
    ensures States(c.tasks[TASK].events) == Word(route)
  {
    hide ReachedFrom, CoreInv, PlanKept, ApprovalKept, ResultsKept;
    ReachedHolds(root, initial, c);
    TaskUnderItsId(initial, c, TASK);
  }

  lemma SomeRunTakes(root: Path, initial: Files, route: Route) returns (c: Core)
    ensures Takes(root, initial, c, route)
  {
    hide ReachedFrom, Perform, NewTask, RouteOf, AwaitsNote, NewTaskFor;
    var start := InitialCore(root, initial);
    if route == PolicyDenied {
      FirstTask(root, initial, PlainIntent(Unknown), NOTHING);
      RefusedRoute(root, initial);
      c := Perform(start, AskFor(PlainIntent(Unknown), NOTHING)).0;
    } else if route == AutoCompleted || route == AutoFailed {
      var env := Environment(false, route == AutoCompleted, None, None);
      FirstTask(root, initial, STATUS, env);
      AutomaticRoute(root, initial, env);
      c := Perform(start, AskFor(STATUS, env)).0;
    } else if route == ExecutionFailed {
      NoteTask(root, initial);
      var asked := Perform(start, AskFor(NOTE, NOTHING)).0;
      NoteWaits(asked);
      UnopenedRoute(root, initial, asked);
      c := Perform(asked, NoteApproval(asked)).0;
    } else {
      c := SomeLaunchTakes(root, initial, route);
    }
  }

  lemma SomeLaunchTakes(root: Path, initial: Files, route: Route) returns (c: Core)
    requires route !in {PolicyDenied, AutoCompleted, AutoFailed, ExecutionFailed}
    ensures Takes(root, initial, c, route)
  {
    hide ReachedFrom, Perform, RouteOf, AwaitsLaunch, ReportsLaunch, WithReply, Granted;
    var asked := Perform(InitialCore(root, initial), Ask()).0;
    AskedTask(root, initial);
    ApprovalWaits(asked);
    if route == Waiting {
      WaitingRoute(asked);
      c := asked;
    } else if route == ApprovalDenied {
      RejectedRoute(root, initial, asked);
      c := Perform(asked, Refusal(asked)).0;
    } else {
      var received := route != VerificationFailed;
      LaunchedRoute(root, initial, asked, received);
      var launched := Perform(asked, WithReply(Approval(asked), LaunchAnswer(received))).0;
      if route == VerificationFailed || route == Fulfilled {
        c := launched;
      } else {
        UndoneRoute(root, initial, launched, route == Undone);
        c := Perform(launched, WithReply(Undo(), if route == Undone then Some(StopReply(STOPPED)) else None)).0;
      }
    }
  }

  lemma NoteWaits(c: Core)
    requires AwaitsNote(c)
    ensures TASK in c.tasks && c.tasks[TASK].approval.Some?
  {
  }

  lemma WaitingRoute(c: Core)
    requires AwaitsLaunch(c)
    ensures RouteOf(c.tasks[TASK]) == Waiting
  {
  }

  /** Every route is taken: from any directory, some run of the service leaves a task whose events spell its word. */
  lemma EveryRouteIsTaken(root: Path, initial: Files, route: Route)
    ensures exists c: Core ::
              && ReachedFrom(root, initial, c)
              && TASK in c.tasks && States(c.tasks[TASK].events) == Word(route)
  {
    hide ReachedFrom, RouteOf;
    var c := SomeRunTakes(root, initial, route);
    SpellsWord(root, initial, c, route);
  }
}
