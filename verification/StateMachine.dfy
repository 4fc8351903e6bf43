/** The task lifecycle: its states, the transition table, and the traces the table accepts. */
module StateMachine {

  datatype TaskState =
    | Received
    | Planned
    | AwaitingApproval
    | Approved
    | Executing
    | Verifying
    | Completed
    | PartiallyCompleted
    | Denied
    | Failed
    | RollingBack
    | RolledBack

  /** The states the table lets a task move to. */
  function AllowedTransitions(current: TaskState): set<TaskState> {
    match current
    case Received => {Planned, Failed}
    case Planned => {AwaitingApproval, Executing, Denied, Failed}
    case AwaitingApproval => {Approved, Denied, Failed}
    case Approved => {Executing, Failed}
    case Executing => {Verifying, Failed, PartiallyCompleted}
    case Verifying => {Completed, Failed, PartiallyCompleted}
    case Completed => {RollingBack}
    case RollingBack => {RolledBack, Failed}
    case PartiallyCompleted => {RollingBack}
    case Denied => {}
    case Failed => {}
    case RolledBack => {}
  }

  /** True when the source's transition check does not raise. */
  predicate ValidTransition(current: TaskState, target: TaskState) {
    target in AllowedTransitions(current)
  }

  /** A trace accepted by the table: it starts at Received and every step is allowed. */
  ghost predicate Accepted(trace: seq<TaskState>) {
    && 0 < |trace|
    && trace[0] == Received
    && forall i :: 0 < i < |trace| ==> ValidTransition(trace[i - 1], trace[i])
  }

  /** How deep in the lifecycle a state lies; every allowed transition goes deeper. */
  function Depth(s: TaskState): nat {
    match s
    case Received => 0
    case Planned => 1
    case AwaitingApproval => 2
    case Approved => 3
    case Executing => 4
    case Verifying => 5
    case Completed => 6
    case PartiallyCompleted => 6
    case RollingBack => 7
    case Denied => 8
    case Failed => 8
    case RolledBack => 8
  }

  lemma {:induction false} TraceClimbs(trace: seq<TaskState>, i: nat)
    requires Accepted(trace)
    requires i < |trace|
    ensures i <= Depth(trace[i])
  {
    if 0 < i {
      TraceClimbs(trace, i - 1);
      assert ValidTransition(trace[i - 1], trace[i]);
    }
  }

  /** No accepted trace is longer than nine states, and no state repeats in one. */
  lemma AcceptedTraceIsShort(trace: seq<TaskState>)
    requires Accepted(trace)
    ensures |trace| <= 9
    ensures forall i, j :: 0 <= i < j < |trace| ==> trace[i] != trace[j]
  {
    TraceClimbs(trace, |trace| - 1);
    forall i, j | 0 <= i < j < |trace|
      ensures trace[i] != trace[j]
    {
      DepthIncreases(trace, i, j);
    }
  }

  lemma {:induction false} DepthIncreases(trace: seq<TaskState>, i: nat, j: nat)
    requires Accepted(trace)
    requires i < j < |trace|
    ensures Depth(trace[i]) < Depth(trace[j])
    decreases j
  {
    assert ValidTransition(trace[j - 1], trace[j]);
    if i < j - 1 {
      DepthIncreases(trace, i, j - 1);
    }
  }

  /**
   * The ten routes a stored task can have taken. Each one is named after the way it ended;
   * the automatic routes belong to plans that need no approval.
   */
  datatype Route =
    | PolicyDenied
    | Waiting
    | AutoCompleted
    | AutoFailed
    | ApprovalDenied
    | ExecutionFailed
    | Fulfilled
    | VerificationFailed
    | Undone
    | UndoFailed

  /** The word of states along a route. */
  function Word(route: Route): seq<TaskState> {
    match route
    case PolicyDenied => [Received, Planned, Denied]
    case Waiting => [Received, Planned, AwaitingApproval]
    case AutoCompleted => [Received, Planned, Executing, Verifying, Completed]
    case AutoFailed => [Received, Planned, Executing, Verifying, Failed]
    case ApprovalDenied => [Received, Planned, AwaitingApproval, Denied]
    case ExecutionFailed => [Received, Planned, AwaitingApproval, Approved, Executing, Failed]
    case Fulfilled => [Received, Planned, AwaitingApproval, Approved, Executing, Verifying, Completed]
    case VerificationFailed => [Received, Planned, AwaitingApproval, Approved, Executing, Verifying, Failed]
    case Undone =>
      [Received, Planned, AwaitingApproval, Approved, Executing, Verifying, Completed, RollingBack, RolledBack]
    case UndoFailed =>
      [Received, Planned, AwaitingApproval, Approved, Executing, Verifying, Completed, RollingBack, Failed]
  }

  /** Every route follows the table, and different routes spell different words. */
  lemma WordsAreAccepted(route: Route)
    ensures Accepted(Word(route))
  {
    var w := Word(route);
    forall i | 0 < i < |w|
      ensures ValidTransition(w[i - 1], w[i])
    {
      match i {
        case 1 =>
        case 2 =>
        case 3 =>
        case 4 =>
        case 5 =>
        case 6 =>
        case 7 =>
        case _ =>
      }
    }
  }

  lemma WordsAreDistinct(a: Route, b: Route)
    requires Word(a) == Word(b)
    ensures a == b
  {
    assert |Word(a)| == |Word(b)|;
    var n := |Word(a)|;
    assert Word(a)[n - 1] == Word(b)[n - 1];
    assert Word(a)[2] == Word(b)[2];
  }

  /** The bound of nine is reached. */
  lemma NineIsReached()
    ensures Accepted(Word(Undone)) && |Word(Undone)| == 9
  {
    WordsAreAccepted(Undone);
  }

  /**
   * In every accepted trace a task that waits for approval executes only after it was approved, only a completed task
   * rolls back, what is completed was verified just before, and nothing follows an end.
   */
  lemma TableOrders(trace: seq<TaskState>, i: nat, j: nat)
    requires Accepted(trace) && i < j < |trace|
    ensures trace[i] == AwaitingApproval && trace[j] == Executing ==>
              exists k :: i < k < j && trace[k] == Approved
    ensures trace[j] == RollingBack ==> trace[j - 1] == Completed || trace[j - 1] == PartiallyCompleted
    ensures trace[j] == RolledBack ==> trace[j - 1] == RollingBack
    ensures trace[j] == Completed ==> trace[j - 1] == Verifying
    ensures trace[i] != Denied && trace[i] != Failed && trace[i] != RolledBack
  {
    assert ValidTransition(trace[j - 1], trace[j]);
    assert ValidTransition(trace[i], trace[i + 1]);
    if trace[i] == AwaitingApproval && trace[j] == Executing {
      DepthIncreases(trace, i, j);
      if i < j - 1 {
        DepthIncreases(trace, i, j - 1);
      }
    }
  }
}
