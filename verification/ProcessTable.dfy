/** The device node's process table: one Notepad per command, started once and stopped only for its own task. */
module ProcessTable {
  import opened Domain

  datatype NodeError =
    | TargetNodeIdMismatch
    | DeviceProcessIdInvalid
    | ReceiptBoundCommandNotFound
    | ReceiptBoundTaskMismatch
    | DeviceProcessTerminationTimeout

  /** A started process: its handle, as the position at which it was started, and its process id. */
  datatype LaunchedProcess = LaunchedProcess(
    task: Uuid,
    command: Uuid,
    handle: nat,
    processId: int,
    startedAt: Instant)

  /**
   * The node's state. `alive` tells for every process ever started whether it still runs; `latest` is the last process
   * recorded for a command, also after it has been rolled back.
   */
  datatype Table = Table(
    nodeId: string,
    launched: map<Uuid, LaunchedProcess>,
    alive: seq<bool>,
    latest: map<Uuid, nat>)

  function EmptyTable(nodeId: string): Table {
    Table(nodeId, map[], [], map[])
  }

  /**
   * What the operating system does during one call: the id and state of a new process, and whether waiting times out.
   */
  datatype Machine = Machine(processId: int, alive: bool, startedAt: Instant, timesOut: bool)

  /** A record names its command and a process that was started for it. */
  ghost predicate RecordFits(command: Uuid, record: LaunchedProcess, alive: seq<bool>, latest: map<Uuid, nat>) {
    && record.command == command
    && record.handle < |alive|
    && 0 < record.processId
    && command in latest && latest[command] == record.handle
  }

  ghost predicate RecordsFit(launched: map<Uuid, LaunchedProcess>, alive: seq<bool>, latest: map<Uuid, nat>) {
    forall c :: c in launched ==> RecordFits(c, launched[c], alive, latest)
  }

  /** Commands have processes of their own, and the process of a command that is not recorded any more is dead. */
  ghost predicate ProcessesFit(launched: map<Uuid, LaunchedProcess>, alive: seq<bool>, latest: map<Uuid, nat>) {
    && (forall c :: c in latest ==> latest[c] < |alive| && (c in launched || !alive[latest[c]]))
    && (forall c, d :: c in latest && d in latest && latest[c] == latest[d] ==> c == d)
  }

  ghost predicate TableInv(t: Table) {
    && RecordsFit(t.launched, t.alive, t.latest)
    && ProcessesFit(t.launched, t.alive, t.latest)
  }

  function EvidenceOf(t: Table, record: LaunchedProcess): LaunchEvidence
    requires record.handle < |t.alive|
  {
    LaunchEvidence(record.command, t.nodeId, record.processId, record.startedAt, t.alive[record.handle])
  }

  function LaunchOn(t: Table, task: Uuid, command: Uuid, target: string, m: Machine)
    : (Result<LaunchEvidence, NodeError>, Table)
    requires TableInv(t)
  {
    if target != t.nodeId then (Failure(TargetNodeIdMismatch), t)
    else if command in t.launched then (Success(EvidenceOf(t, t.launched[command])), t)
    else
      var handle := |t.alive|;
      var started := t.(alive := t.alive + [m.alive]);
      if m.processId <= 0 then (Failure(DeviceProcessIdInvalid), started)
      else
        var record := LaunchedProcess(task, command, handle, m.processId, m.startedAt);
        var recorded := started.(
          launched := t.launched[command := record],
          latest := t.latest[command := handle]);
        (Success(EvidenceOf(recorded, record)), recorded)
  }

  function RollbackOn(t: Table, rollback: Uuid, task: Uuid, command: Uuid, target: string, m: Machine)
    : (Result<RollbackEvidence, NodeError>, Table)
    requires TableInv(t)
  {
    if target != t.nodeId then (Failure(TargetNodeIdMismatch), t)
    else if command !in t.launched then (Failure(ReceiptBoundCommandNotFound), t)
    else
      var record := t.launched[command];
      if record.task != task then (Failure(ReceiptBoundTaskMismatch), t)
      else
        var wasRunning := t.alive[record.handle];
        if wasRunning && m.timesOut then (Failure(DeviceProcessTerminationTimeout), t)
        else
          var stopped := t.(
            alive := t.alive[record.handle := false],
            launched := t.launched - {command});
          (Success(RollbackEvidence(rollback, command, t.nodeId, record.processId, wasRunning, true)), stopped)
  }

  /** A process ends on its own. */
  function Exit(t: Table, handle: nat): Table {
    if handle < |t.alive| then t.(alive := t.alive[handle := false]) else t
  }

  lemma MapGrows<K, V>(m: map<K, V>, k: K, v: V)
    requires k !in m
    ensures |m[k := v]| == |m| + 1
  {
    assert m[k := v].Keys == m.Keys + {k};
    assert |m.Keys| == |m| && |m[k := v].Keys| == |m[k := v]|;
  }

  lemma MapShrinks<K, V>(m: map<K, V>, k: K)
    requires k in m
    ensures |m - {k}| == |m| - 1
  {
    assert (m - {k}).Keys == m.Keys - {k};
    assert |m.Keys| == |m| && |(m - {k}).Keys| == |m - {k}|;
  }

  /** Starting a process. */
  lemma StartingFits(launched: map<Uuid, LaunchedProcess>, alive: seq<bool>, latest: map<Uuid, nat>, b: bool)
    requires RecordsFit(launched, alive, latest) && ProcessesFit(launched, alive, latest)
    ensures RecordsFit(launched, alive + [b], latest) && ProcessesFit(launched, alive + [b], latest)
  {
  }

  /** Recording the process that was started last. */
  lemma RecordingFits(
    launched: map<Uuid, LaunchedProcess>, alive: seq<bool>, latest: map<Uuid, nat>, b: bool, command: Uuid,
    record: LaunchedProcess)
    requires RecordsFit(launched, alive, latest) && ProcessesFit(launched, alive, latest)
    requires command !in launched && record.command == command && record.handle == |alive| && 0 < record.processId
    ensures RecordsFit(launched[command := record], alive + [b], latest[command := |alive|])
    ensures ProcessesFit(launched[command := record], alive + [b], latest[command := |alive|])
  {
    var launched', alive', latest' := launched[command := record], alive + [b], latest[command := |alive|];
    forall c | c in launched'
      ensures RecordFits(c, launched'[c], alive', latest')
    {
      assert c != command ==> RecordFits(c, launched[c], alive, latest);
    }
  }

  lemma LaunchKeepsInv(t: Table, task: Uuid, command: Uuid, target: string, m: Machine)
    requires TableInv(t)
    ensures TableInv(LaunchOn(t, task, command, target, m).1)
  {
    hide RecordsFit, ProcessesFit;
    StartingFits(t.launched, t.alive, t.latest, m.alive);
    if target == t.nodeId && command !in t.launched && 0 < m.processId {
      var record := LaunchedProcess(task, command, |t.alive|, m.processId, m.startedAt);
      RecordingFits(t.launched, t.alive, t.latest, m.alive, command, record);
    }
  }

  /** A process ends; its command may be forgotten then. */
  lemma StoppingFits(launched: map<Uuid, LaunchedProcess>, alive: seq<bool>, latest: map<Uuid, nat>, handle: nat)
    requires RecordsFit(launched, alive, latest) && ProcessesFit(launched, alive, latest)
    requires handle < |alive|
    ensures RecordsFit(launched, alive[handle := false], latest)
    ensures ProcessesFit(launched, alive[handle := false], latest)
  {
  }

  lemma ForgettingFits(launched: map<Uuid, LaunchedProcess>, alive: seq<bool>, latest: map<Uuid, nat>, command: Uuid)
    requires RecordsFit(launched, alive, latest) && ProcessesFit(launched, alive, latest)
    requires command in latest && !alive[latest[command]]
    ensures RecordsFit(launched - {command}, alive, latest) && ProcessesFit(launched - {command}, alive, latest)
  {
  }

  lemma RollbackKeepsInv(t: Table, rollback: Uuid, task: Uuid, command: Uuid, target: string, m: Machine)
    requires TableInv(t)
    ensures TableInv(RollbackOn(t, rollback, task, command, target, m).1)
  {
    hide RecordsFit, ProcessesFit;
    if command in t.launched {
      RecordedProcess(t, command);
      var handle := t.launched[command].handle;
      StoppingFits(t.launched, t.alive, t.latest, handle);
      ForgettingFits(t.launched, t.alive[handle := false], t.latest, command);
    }
  }

  lemma RecordedProcess(t: Table, command: Uuid)
    requires TableInv(t) && command in t.launched
    ensures command in t.latest && t.latest[command] == t.launched[command].handle
    ensures t.launched[command].handle < |t.alive| && t.launched[command].command == command
  {
    hide ProcessesFit;
    assert RecordFits(command, t.launched[command], t.alive, t.latest);
  }

  /** Whether the last process recorded for a command runs. */
  predicate IsRunning(t: Table, command: Uuid) {
    command in t.latest && t.latest[command] < |t.alive| && t.alive[t.latest[command]]
  }

  /**
   * A launch keeps the table's invariant, and succeeds exactly on the node it names, for a command that is stored
   * already or a process that gets a valid id. If the command is stored already, nothing is started and the answer
   * names the same process and start time; otherwise one process is started, and no other record or process is
   * touched. The answer reports the process of the command as running exactly when it runs then.
   */
  lemma LaunchKeeps(t: Table, task: Uuid, command: Uuid, target: string, m: Machine)
    requires TableInv(t)
    ensures var (r, t') := LaunchOn(t, task, command, target, m);
            && TableInv(t')
            && t'.nodeId == t.nodeId
            && (r.Success? <==> target == t.nodeId && (command in t.launched || 0 < m.processId))
            && (r.Failure? ==>
                  && r.error == (if target != t.nodeId then TargetNodeIdMismatch else DeviceProcessIdInvalid)
                  && t'.launched == t.launched && t'.latest == t.latest)
            && t'.alive == t.alive + (if target != t.nodeId || command in t.launched then [] else [m.alive])
            && (command in t.launched ==> t' == t)
            && (r.Success? ==>
                  && command in t'.launched
                  && t'.launched[command].handle < |t'.alive|
                  && r.value.commandId == command
                  && r.value.nodeId == t.nodeId
                  && r.value.processId == t'.launched[command].processId
                  && r.value.startedAt == t'.launched[command].startedAt
                  && (r.value.verifiedRunning <==> t'.alive[t'.launched[command].handle])
                  && (r.value.verifiedRunning <==> IsRunning(t', command)))
            && (r.Success? && command !in t.launched ==>
                  && t'.launched == t.launched[command := LaunchedProcess(
                                                            task, command, |t.alive|, m.processId, m.startedAt)]
                  && t'.latest == t.latest[command := |t.alive|])
  {
    hide RecordsFit, ProcessesFit;
    LaunchKeepsInv(t, task, command, target, m);
    if command in t.launched {
      RecordedProcess(t, command);
    }
  }

  /**
   * A rollback succeeds exactly on the node it names, for a stored command of its own task whose process does not run
   * or ends in time. It then removes that record, the process is dead, and the answer says whether it ran before; it
   * is always reported absent. No other record or process is touched, and a refused rollback changes nothing.
   */
  lemma RollbackKeeps(t: Table, rollback: Uuid, task: Uuid, command: Uuid, target: string, m: Machine)
    requires TableInv(t)
    ensures var (r, t') := RollbackOn(t, rollback, task, command, target, m);
            && TableInv(t')
            && (r.Success? <==>
                  && target == t.nodeId && command in t.launched && t.launched[command].task == task
                  && !(IsRunning(t, command) && m.timesOut))
            && (r.Failure? ==>
                  && t' == t
                  && r.error == (if target != t.nodeId then TargetNodeIdMismatch
                                 else if command !in t.launched then ReceiptBoundCommandNotFound
                                 else if t.launched[command].task != task then ReceiptBoundTaskMismatch
                                 else DeviceProcessTerminationTimeout))
            && (r.Success? ==>
                  && r.value == RollbackEvidence(
                                  rollback, command, t.nodeId, t.launched[command].processId, IsRunning(t, command),
                                  true)
                  && t.launched[command].handle < |t.alive|
                  && t' == t.(launched := t.launched - {command},
                              alive := t.alive[t.launched[command].handle := false])
                  && !IsRunning(t', command))
  {
    hide RecordsFit, ProcessesFit;
    RollbackKeepsInv(t, rollback, task, command, target, m);
    if command in t.launched {
      RecordedProcess(t, command);
    }
  }

  /** A process that ends by itself takes no other with it, and no record. */
  lemma ExitKeeps(t: Table, handle: nat)
    requires TableInv(t)
    ensures TableInv(Exit(t, handle))
    ensures Exit(t, handle) == t.(alive := seq(|t.alive|, i requires 0 <= i < |t.alive| => i != handle && t.alive[i]))
  {
    hide RecordsFit, ProcessesFit;
    if handle < |t.alive| {
      StoppingFits(t.launched, t.alive, t.latest, handle);
    }
  }

  /* Whole runs. */

  datatype Step =
    | DoLaunch(task: Uuid, command: Uuid, target: string, m: Machine)
    | DoRollback(rollback: Uuid, task: Uuid, command: Uuid, target: string, m: Machine)
    | DoExit(handle: nat)

  ghost function Take(t: Table, step: Step): Table
    requires TableInv(t)
  {
    match step
    case DoLaunch(task, command, target, m) => LaunchOn(t, task, command, target, m).1
    case DoRollback(rollback, task, command, target, m) => RollbackOn(t, rollback, task, command, target, m).1
    case DoExit(handle) => Exit(t, handle)
  }

  lemma StepKeeps(t: Table, step: Step)
    requires TableInv(t)
    ensures var t' := Take(t, step);
            && TableInv(t')
            && |t.alive| <= |t'.alive|
            && forall h :: 0 <= h < |t.alive| && !t.alive[h] ==> !t'.alive[h]
  {
    match step
    case DoLaunch(task, command, target, m) => LaunchKeeps(t, task, command, target, m);
    case DoRollback(rollback, task, command, target, m) => RollbackKeeps(t, rollback, task, command, target, m);
    case DoExit(handle) => ExitKeeps(t, handle);
  }

  ghost function Run(t: Table, steps: seq<Step>): (t': Table)
    requires TableInv(t)
    ensures TableInv(t')
    decreases |steps|
  {
    if steps == [] then t
    else
      StepKeeps(t, steps[0]);
      Run(Take(t, steps[0]), steps[1..])
  }

  /** The step starts a process that has a valid id. */
  ghost predicate StartsValid(t: Table, step: Step)
    requires TableInv(t)
  {
    && step.DoLaunch?
    && LaunchOn(t, step.task, step.command, step.target, step.m).0.Success?
    && |t.alive| < |Take(t, step).alive|
  }

  /** The step is a rollback that is reported verified absent. */
  ghost predicate ReportsAbsent(t: Table, step: Step)
    requires TableInv(t)
  {
    && step.DoRollback?
    && var r := RollbackOn(t, step.rollback, step.task, step.command, step.target, step.m).0;
       r.Success? && r.value.verifiedAbsent
  }

  /** How many of the steps start a process with a valid id. */
  ghost function ValidStarts(t: Table, steps: seq<Step>): nat
    requires TableInv(t)
    decreases |steps|
  {
    if steps == [] then 0
    else
      StepKeeps(t, steps[0]);
      (if StartsValid(t, steps[0]) then 1 else 0) + ValidStarts(Take(t, steps[0]), steps[1..])
  }

  /** How many are rollbacks that are reported verified absent. */
  ghost function ReportedRollbacks(t: Table, steps: seq<Step>): nat
    requires TableInv(t)
    decreases |steps|
  {
    if steps == [] then 0
    else
      StepKeeps(t, steps[0]);
      (if ReportsAbsent(t, steps[0]) then 1 else 0) + ReportedRollbacks(Take(t, steps[0]), steps[1..])
  }

  lemma StepCounts(t: Table, step: Step)
    requires TableInv(t)
    ensures |Take(t, step).launched| + (if ReportsAbsent(t, step) then 1 else 0) ==
            |t.launched| + (if StartsValid(t, step) then 1 else 0)
  {
    hide TableInv;
    match step
    case DoLaunch(task, command, target, m) =>
      if target == t.nodeId && command !in t.launched && 0 < m.processId {
        MapGrows(t.launched, command, LaunchedProcess(task, command, |t.alive|, m.processId, m.startedAt));
      }
    case DoRollback(_, _, command, _, _) =>
      if command in t.launched {
        MapShrinks(t.launched, command);
      }
    case DoExit(_) =>
  }

  /**
   * Over any mix of launches, rollbacks and exits, the valid starts are the records that are left plus the rollbacks
   * that were reported, the process of a command that is not recorded any more is dead, and dead processes stay dead.
   */
  lemma {:induction false} StartsAreConserved(t: Table, steps: seq<Step>)
    requires TableInv(t)
    ensures |t.launched| + ValidStarts(t, steps) == |Run(t, steps).launched| + ReportedRollbacks(t, steps)
    ensures var t' := Run(t, steps);
            && (forall c :: c in t'.latest && c !in t'.launched ==> !t'.alive[t'.latest[c]])
            && |t.alive| <= |t'.alive|
            && forall h :: 0 <= h < |t.alive| && !t.alive[h] ==> !t'.alive[h]
    decreases |steps|
  {
    hide StartsValid, ReportsAbsent, Take;
    if steps != [] {
      StepKeeps(t, steps[0]);
      StepCounts(t, steps[0]);
      StartsAreConserved(Take(t, steps[0]), steps[1..]);
    }
  }

  /* The table as the source keeps it, over process objects. */

  class ProcessHandle {
    ghost const index: nat
    const processId: int
    var running: bool

    constructor (ghost index: nat, processId: int, running: bool)
      ensures this.index == index && this.processId == processId && this.running == running
    {
      this.index := index;
      this.processId := processId;
      this.running := running;
    }
  }

  datatype Launched = Launched(task: Uuid, command: Uuid, process: ProcessHandle, startedAt: Instant)

  /** A record with its process object, and the same record with the position of that process. */
  ghost predicate Stands(l: Launched, record: LaunchedProcess, spawned: seq<ProcessHandle>) {
    && record.handle < |spawned|
    && l.process == spawned[record.handle]
    && record == LaunchedProcess(l.task, l.command, record.handle, l.process.processId, l.startedAt)
  }

  ghost predicate RecordsStand(
    launched: map<Uuid, Launched>, records: map<Uuid, LaunchedProcess>, spawned: seq<ProcessHandle>)
  {
    && launched.Keys == records.Keys
    && forall c :: c in launched ==> Stands(launched[c], records[c], spawned)
  }

  lemma OneStands(
    launched: map<Uuid, Launched>, records: map<Uuid, LaunchedProcess>, spawned: seq<ProcessHandle>, command: Uuid)
    requires RecordsStand(launched, records, spawned)
    ensures command in launched <==> command in records
    ensures command in launched ==> Stands(launched[command], records[command], spawned)
  {
    hide Stands;
  }

  lemma StandLonger(
    launched: map<Uuid, Launched>, records: map<Uuid, LaunchedProcess>, spawned: seq<ProcessHandle>, p: ProcessHandle)
    requires RecordsStand(launched, records, spawned)
    ensures RecordsStand(launched, records, spawned + [p])
  {
  }

  lemma StandWith(
    launched: map<Uuid, Launched>, records: map<Uuid, LaunchedProcess>, spawned: seq<ProcessHandle>, command: Uuid,
    l: Launched, record: LaunchedProcess)
    requires RecordsStand(launched, records, spawned) && Stands(l, record, spawned)
    ensures RecordsStand(launched[command := l], records[command := record], spawned)
  {
    hide Stands;
  }

  lemma StandWithout(
    launched: map<Uuid, Launched>, records: map<Uuid, LaunchedProcess>, spawned: seq<ProcessHandle>, command: Uuid)
    requires RecordsStand(launched, records, spawned)
    ensures RecordsStand(launched - {command}, records - {command}, spawned)
  {
    hide Stands;
  }

  /** The processes run exactly as the table says. */
  ghost predicate RunAs(spawned: seq<ProcessHandle>, alive: seq<bool>)
    reads spawned
  {
    && |spawned| == |alive|
    && forall i :: 0 <= i < |spawned| ==> spawned[i].index == i && spawned[i].running == alive[i]
  }

  class WindowsNotepadExecutor {
    const nodeId: string
    var launched: map<Uuid, Launched>
    /** Every process ever started, and the table as a value. */
    ghost var spawned: seq<ProcessHandle>
    ghost var table: Table

    ghost predicate Valid()
      reads this, spawned
    {
      && TableInv(table)
      && table.nodeId == nodeId
      && RunAs(spawned, table.alive)
      && RecordsStand(launched, table.launched, spawned)
    }

    constructor (nodeId: string)
      ensures Valid() && table == EmptyTable(nodeId) && spawned == []
    {
      this.nodeId := nodeId;
      launched, spawned, table := map[], [], EmptyTable(nodeId);
    }

    method Launch(task: Uuid, command: Uuid, target: string, m: Machine) returns (r: Result<LaunchEvidence, NodeError>)
      requires Valid()
      modifies this
      ensures Valid() && fresh(set p | p in spawned && p !in old(spawned))
      ensures (r, table) == LaunchOn(old(table), task, command, target, m)
      ensures r.Success? ==>
                && command in launched
                && var record := launched[command];
                   r.value == LaunchEvidence(
                                command, nodeId, record.process.processId, record.startedAt, record.process.running)
    {
      hide TableInv, RecordsStand;
      LaunchKeepsInv(table, task, command, target, m);
      if command in table.launched {
        RecordedProcess(table, command);
      }
      OneStands(launched, table.launched, spawned, command);
      if target != nodeId {
        return Failure(TargetNodeIdMismatch);
      }
      if command in launched {
        var existing := launched[command];
        return Success(LaunchEvidence(
                         existing.command, nodeId, existing.process.processId, existing.startedAt,
                         existing.process.running));
      }
      var process := new ProcessHandle(|spawned|, m.processId, m.alive);
      StandLonger(launched, table.launched, spawned, process);
      spawned := spawned + [process];
      table := LaunchOn(table, task, command, target, m).1;
      if process.processId <= 0 {
        return Failure(DeviceProcessIdInvalid);
      }
      var record := Launched(task, command, process, m.startedAt);
      StandWith(launched, old(table.launched), spawned, command, record, table.launched[command]);
      launched := launched[command := record];
      r := Success(LaunchEvidence(command, nodeId, process.processId, m.startedAt, process.running));
    }

    method Rollback(rollback: Uuid, task: Uuid, command: Uuid, target: string, m: Machine)
      returns (r: Result<RollbackEvidence, NodeError>)
      requires Valid()
      modifies this, spawned
      ensures Valid() && spawned == old(spawned)
      ensures (r, table) == RollbackOn(old(table), rollback, task, command, target, m)
      ensures r.Success? ==>
                && command in old(launched) && command !in launched
                && var process := old(launched)[command].process;
                   && !process.running
                   && r.value == RollbackEvidence(
                                   rollback, command, nodeId, process.processId, old(process.running), true)
    {
      hide TableInv, RecordsStand;
      RollbackKeepsInv(table, rollback, task, command, target, m);
      OneStands(launched, table.launched, spawned, command);
      StandWithout(launched, table.launched, spawned, command);
      if target != nodeId {
        return Failure(TargetNodeIdMismatch);
      }
      if command !in launched {
        return Failure(ReceiptBoundCommandNotFound);
      }
      var record := launched[command];
      if record.task != task {
        return Failure(ReceiptBoundTaskMismatch);
      }
      var wasRunning := record.process.running;
      if wasRunning {
        if m.timesOut {
          return Failure(DeviceProcessTerminationTimeout);
        }
        record.process.running := false;
      }
      var verifiedAbsent := !record.process.running;
      if verifiedAbsent {
        launched := launched - {command};
      }
      ghost var handle := table.launched[command].handle;
      table := RollbackOn(table, rollback, task, command, target, m).1;
      assert forall i :: 0 <= i < |spawned| && i != handle ==> spawned[i] != record.process;
      r := Success(RollbackEvidence(rollback, command, nodeId, record.process.processId, wasRunning, verifiedAbsent));
    }

    /** A process ends on its own. */
    method ProcessExits(process: ProcessHandle)
      requires Valid() && process in spawned
      modifies process, `table
      ensures Valid() && table == Exit(old(table), process.index) && spawned == old(spawned)
    {
      hide TableInv, RecordsStand;
      ExitKeeps(table, process.index);
      process.running := false;
      table := Exit(table, process.index);
    }
  }
}
