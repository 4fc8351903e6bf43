/**
 * The HTTP surface, as far as it joins the phone gateway to the orchestrator: local calls decide on the desktop
 * channel, and a decision on the phone channel needs a paired phone.
 */
module Api {
  import opened StateMachine
  import opened Domain
  import opened NoteStore
  import opened CoreModel
  import opened CoreInvariant
  import opened CoreSteps
  import opened CoreRuns
  import opened CoreTheorems
  import opened CoreEvolution
  import opened Planner
  import opened Registry
  import opened TaskInvariant
  import G = PairingGateway
  import R = RateLimit

  /** A phone's request that was authenticated and still waits for the orchestrator. */
  datatype PhoneRequest = PhoneRequest(identity: IdentitySession, id: Uuid, decision: ApprovalDecision)

  datatype Surface = Surface(gateway: G.State, deques: R.Deques, core: Core, waiting: seq<PhoneRequest>)

  datatype Call =
    /** A call to a local endpoint; the session is what its headers say. */
    | LocalCreate(
        request: TaskRequest, session: IdentitySession, intent: Intent, token: string, clock: Clock, env: Environment)
    | LocalDecide(id: Uuid, decision: ApprovalDecision, session: IdentitySession, clock: Clock, env: Environment)
    | LocalRollback(id: Uuid, session: IdentitySession, clock: Clock, env: Environment)
    | LocalPairing(session: IdentitySession, draws: seq<nat>, now: Instant)
    /** A phone pairs: first past the limiter, then at the gateway, at readings of their own. */
    | PhonePair(
        client: string, attempted: Instant, code: string, deviceLabel: string, deviceToken: string, now: Instant)
    /** A phone asks what waits for it. */
    | PhonePending(device: Uuid, deviceToken: string, now: Instant)
    /**
     * A phone decides, under two locks: the gateway authenticates it, and later the orchestrator takes the decision.
     */
    | PhoneIdentify(device: Uuid, deviceToken: string, now: Instant, id: Uuid, decision: ApprovalDecision)
    | PhoneDecide(index: nat, clock: Clock, env: Environment)

  /** The session that a phone's headers stand for, if the gateway accepts them. */
  function MobileIdentity(g: G.State, device: Uuid, token: string, now: Instant): (Option<IdentitySession>, G.State) {
    var after := G.Take(g, G.DoAuthenticate(device, token, now));
    match G.Authenticate(g.gateway, device, token, now).0
    case Failure(_) => (None, after)
    case Success(session) => (Some(IdentitySession(session, true)), after)
  }

  /** What a call asks of the orchestrator, if it gets that far. */
  function CommandFor(s: Surface, call: Call): Option<Command> {
    match call
    case LocalCreate(request, session, intent, token, clock, env) =>
      Some(Create(request, session, intent, token, clock, env))
    case LocalDecide(id, decision, session, clock, env) => Some(Decide(id, decision, session, Desktop, clock, env))
    case LocalRollback(id, session, clock, env) => Some(Rollback(id, session, clock, env))
    case PhoneDecide(index, clock, env) =>
      if index < |s.waiting| then
        var request := s.waiting[index];
        Some(Decide(request.id, request.decision, request.identity, Phone, clock, env))
      else None
    case _ => None
  }

  function GatewayAfter(s: Surface, call: Call): G.State {
    var g := s.gateway;
    match call
    case LocalPairing(session, draws, now) =>
      if session.authenticated then G.Take(g, G.DoCreate(session.sessionId, draws, now)) else g
    case PhonePair(client, attempted, code, deviceLabel, token, now) =>
      if R.Enforce(s.deques, client, attempted).0.Failure? then g
      else G.Take(g, G.DoPair(code, deviceLabel, token, now))
    case PhonePending(device, token, now) => MobileIdentity(g, device, token, now).1
    case PhoneIdentify(device, token, now, _, _) => MobileIdentity(g, device, token, now).1
    case _ => g
  }

  function DequesAfter(s: Surface, call: Call): R.Deques {
    if call.PhonePair? then R.Enforce(s.deques, call.client, call.attempted).1 else s.deques
  }

  function WaitingAfter(s: Surface, call: Call): seq<PhoneRequest> {
    match call
    case PhoneIdentify(device, token, now, id, decision) =>
      var identity := MobileIdentity(s.gateway, device, token, now).0;
      if identity.None? then s.waiting else s.waiting + [PhoneRequest(identity.value, id, decision)]
    case PhoneDecide(index, _, _) =>
      if index < |s.waiting| then s.waiting[..index] + s.waiting[index + 1..] else s.waiting
    case _ => s.waiting
  }

  function Serve(s: Surface, call: Call): Surface {
    var command := CommandFor(s, call);
    Surface(
      GatewayAfter(s, call), DequesAfter(s, call),
      if command.None? then s.core else Perform(s.core, command.value).0, WaitingAfter(s, call))
  }

  ghost predicate CanServe(s: Surface, call: Call) {
    match call
    case LocalCreate(_, _, intent, _, _, _) => intent.Classified()
    case LocalPairing(_, draws, _) => G.GoodDraws(draws)
    case PhonePair(_, _, code, deviceLabel, token, now) =>
      G.CanTake(s.gateway, G.DoPair(code, deviceLabel, token, now))
    case _ => true
  }

  function Opened(root: Path, files: Files): Surface {
    Surface(G.EmptyState(), map[], InitialCore(root, files), [])
  }

  function Served(root: Path, files: Files, calls: seq<Call>): Surface {
    if calls == [] then Opened(root, files)
    else Serve(Served(root, files, calls[..|calls| - 1]), calls[|calls| - 1])
  }

  ghost predicate CanServeAll(root: Path, files: Files, calls: seq<Call>) {
    calls == [] ||
    (&& CanServeAll(root, files, calls[..|calls| - 1])
     && CanServe(Served(root, files, calls[..|calls| - 1]), calls[|calls| - 1]))
  }

  lemma GatewayKeeps(s: Surface, call: Call)
    requires G.GatewayInv(s.gateway) && CanServe(s, call)
    ensures G.GatewayInv(Serve(s, call).gateway)
  {
    hide G.GatewayInv, G.Take, G.CreatePairing, G.Pair, Perform, CommandFor;
    match call
    case LocalPairing(session, draws, now) => G.TakeKeeps(s.gateway, G.DoCreate(session.sessionId, draws, now));
    case PhonePair(_, _, code, deviceLabel, token, now) =>
      G.TakeKeeps(s.gateway, G.DoPair(code, deviceLabel, token, now));
    case PhonePending(device, token, now) => G.TakeKeeps(s.gateway, G.DoAuthenticate(device, token, now));
    case PhoneIdentify(device, token, now, _, _) => G.TakeKeeps(s.gateway, G.DoAuthenticate(device, token, now));
    case _ =>
  }

  /** Both halves stay in their invariants, and the orchestrator's half is one of its own runs. */
  lemma {:induction false} ServedHolds(root: Path, files: Files, calls: seq<Call>)
    requires CanServeAll(root, files, calls)
    ensures G.GatewayInv(Served(root, files, calls).gateway)
    ensures ReachedFrom(root, files, Served(root, files, calls).core)
  {
    hide G.GatewayInv, ReachedFrom, Perform, GatewayAfter, CommandFor, CanServe;
    if calls == [] {
      G.EmptyHolds();
      StartIsReached(root, files);
    } else {
      var before, last := calls[..|calls| - 1], calls[|calls| - 1];
      ServedHolds(root, files, before);
      var s := Served(root, files, before);
      GatewayKeeps(s, last);
      CommandIsWellFormed(s, last);
      if CommandFor(s, last).Some? {
        NextIsReached(root, files, s.core, CommandFor(s, last).value);
      }
    }
  }

  lemma CommandIsWellFormed(s: Surface, call: Call)
    requires CanServe(s, call)
    ensures CommandFor(s, call).Some? ==> WellFormed(CommandFor(s, call).value)
  {
    hide MobileIdentity;
  }

  /**
   * The call at position k authenticated a phone which, when the call came, was paired to the session from one of the
   * session's challenges, with its own token, and was neither removed nor at the end of its eight hours; and the phone
   * asked for this decision on this task.
   */
  ghost predicate AskedByPhone(root: Path, files: Files, calls: seq<Call>, k: nat, request: PhoneRequest) {
    && k < |calls| && calls[k].PhoneIdentify?
    && request == PhoneRequest(request.identity, calls[k].id, calls[k].decision)
    && request.identity.authenticated
    && G.IsPairedTo(
         Served(root, files, calls[..k]).gateway, calls[k].device, calls[k].deviceToken, calls[k].now,
         request.identity.sessionId)
  }

  ghost predicate AskedByPairedPhone(root: Path, files: Files, calls: seq<Call>, request: PhoneRequest) {
    exists k: nat :: AskedByPhone(root, files, calls, k, request)
  }

  lemma AskedEarlier(root: Path, files: Files, calls: seq<Call>, request: PhoneRequest)
    requires calls != [] && AskedByPairedPhone(root, files, calls[..|calls| - 1], request)
    ensures AskedByPairedPhone(root, files, calls, request)
  {
    hide Served, G.IsPairedTo;
    var before := calls[..|calls| - 1];
    var k: nat :| AskedByPhone(root, files, before, k, request);
    assert before[..k] == calls[..k];
    assert AskedByPhone(root, files, calls, k, request);
  }

  lemma LastCallAsked(root: Path, files: Files, calls: seq<Call>)
    requires calls != [] && G.GatewayInv(Served(root, files, calls[..|calls| - 1]).gateway)
    requires calls[|calls| - 1].PhoneIdentify?
    ensures var s, last := Served(root, files, calls[..|calls| - 1]), calls[|calls| - 1];
            var identity := MobileIdentity(s.gateway, last.device, last.deviceToken, last.now).0;
            identity.Some? ==>
              AskedByPairedPhone(root, files, calls, PhoneRequest(identity.value, last.id, last.decision))
  {
    hide Served, G.GatewayInv, G.IsPairedTo, G.Authenticate;
    var s, last := Served(root, files, calls[..|calls| - 1]), calls[|calls| - 1];
    var identity := MobileIdentity(s.gateway, last.device, last.deviceToken, last.now).0;
    if identity.Some? {
      G.AuthenticateHolds(s.gateway, last.device, last.deviceToken, last.now, identity.value.sessionId);
      assert AskedByPhone(root, files, calls, |calls| - 1, PhoneRequest(identity.value, last.id, last.decision));
    }
  }

  /** Every request that waits for the orchestrator was authenticated as that of a paired phone. */
  lemma {:induction false} WaitingIsPaired(root: Path, files: Files, calls: seq<Call>, i: nat)
    requires CanServeAll(root, files, calls) && i < |Served(root, files, calls).waiting|
    ensures AskedByPairedPhone(root, files, calls, Served(root, files, calls).waiting[i])
  {
    hide Perform, ReachedFrom, G.GatewayInv, CanServe, GatewayAfter, CommandFor, DequesAfter, MobileIdentity;
    hide AskedByPairedPhone;
    var before, last := calls[..|calls| - 1], calls[|calls| - 1];
    var s := Served(root, files, before);
    ServedHolds(root, files, before);
    if last.PhoneIdentify? {
      LastCallAsked(root, files, calls);
    }
    var position := if last.PhoneDecide? && last.index <= i && last.index < |s.waiting| then i + 1 else i;
    if position < |s.waiting| {
      WaitingIsPaired(root, files, before, position);
      AskedEarlier(root, files, calls, s.waiting[position]);
    }
  }

  /** What one operation adds to the record is at most one decision, on the channel it was given. */
  lemma NewDecisions(initial: Files, c: Core, command: Command, j: nat)
    requires CoreInv(initial, c) && WellFormed(command)
    requires |c.log| <= j < |Perform(c, command).0.log| && Perform(c, command).0.log[j].Decided?
    ensures command.Decide?
    ensures Perform(c, command).0.log[j] ==
            Decided(command.id, command.decision, command.session, command.channel, command.clock.now)
  {
    hide CoreInv, TaskInv, RecordReceipt, NewTask, GrantedRun, RollbackRunFor, LateRefusal, Spend, AddEvent;
    hide MadeWell, CarriesOut, Authorised, IsNoteStep, IsNotepadStep, UndoFits, PlannedNote;
    match command
    case Create(request, session, intent, token, clock, env) =>
      NewEntriesAreIssued(c, command);
    case Decide(id, decision, session, channel, clock, env) =>
      if EarlyRefusal(c, id, decision, session, channel).None? {
        TaskUnderItsId(initial, c, id);
        GrantedCall(c, c.tasks[id], clock, env);
      }
    case Rollback(id, session, clock, env) =>
      if RollbackRefusal(c, id, session).None? {
        TaskUnderItsId(initial, c, id);
        OnlyApprovedTasksAreReversible(c.tasks[id]);
        UndoDoes(initial, c, c.tasks[id], clock, env);
      }
  }

  lemma NewEntriesAreIssued(c: Core, command: Command)
    requires command.Create? && WellFormed(command)
    ensures forall j :: |c.log| <= j < |Perform(c, command).0.log| ==> Perform(c, command).0.log[j].Issued?
  {
    hide NewTask, TaskInv, RecordReceipt;
    if command.request.requestId !in c.requestIndex && SessionMatches(command.session, command.request.sessionId) {
      NewTaskFits(
        command.request, command.session, command.intent, command.token, command.clock, command.env, c.root, c.files);
    }
  }

  lemma GrantedCall(c: Core, t: Task, clock: Clock, env: Environment)
    requires TaskInv(t) && t.state == AwaitingApproval && t.approval.Some?
    ensures |GrantedRun(c, t, clock, env).calls| == 1 && !GrantedRun(c, t, clock, env).calls[0].Decided?
  {
    hide GrantedRun, TaskInv, IsNoteStep, IsNotepadStep, RebuiltNote, TargetNode;
    WaitingPlan(t);
    NoteStepCreates(t.plan.steps[0]);
    if IsNoteStep(t.plan.steps[0]) {
      GrantedNote(c, t, clock, env);
    } else {
      GrantedLaunch(c, t, clock, env);
    }
  }

  /** A decision on the phone channel, and the request that a paired phone made for it. */
  ghost predicate ByPairedPhone(root: Path, files: Files, calls: seq<Call>, e: Entry) {
    && e.Decided? && e.channel == Phone
    && AskedByPairedPhone(root, files, calls, PhoneRequest(e.session, e.task, e.decision))
  }

  /**
   * Every decision on the phone channel was asked for by a phone that was paired to the deciding session when it was
   * authenticated; between that and the decision other calls may come.
   */
  lemma {:induction false} PhoneDecisionsArePaired(root: Path, files: Files, calls: seq<Call>, j: nat)
    requires CanServeAll(root, files, calls)
    requires var log := Served(root, files, calls).core.log;
             j < |log| && log[j].Decided? && log[j].channel == Phone
    ensures ByPairedPhone(root, files, calls, Served(root, files, calls).core.log[j])
  {
    hide Perform, ReachedFrom, CoreInv, G.GatewayInv, CanServe, GatewayAfter, DequesAfter, WaitingAfter;
    hide AskedByPairedPhone;
    var before, last := calls[..|calls| - 1], calls[|calls| - 1];
    var s := Served(root, files, before);
    ServedHolds(root, files, before);
    ReachedHolds(root, files, s.core);
    CommandIsWellFormed(s, last);
    var command := CommandFor(s, last);
    if command.Some? {
      PerformEvolves(files, s.core, command.value);
    }
    if j < |s.core.log| {
      var e := s.core.log[j];
      assert Served(root, files, calls).core.log[j] == e;
      PhoneDecisionsArePaired(root, files, before, j);
      AskedEarlier(root, files, calls, PhoneRequest(e.session, e.task, e.decision));
    } else {
      NewDecisions(files, s.core, command.value, j);
      WaitingIsPaired(root, files, before, last.index);
      AskedEarlier(root, files, calls, s.waiting[last.index]);
    }
  }

  /**
   * Every process that is launched was approved from a phone: the entry before the launch is the decision that a phone
   * asked for which was paired to the task's own session when it was authenticated.
   */
  lemma LaunchesNeedPairedPhone(root: Path, files: Files, calls: seq<Call>, i: nat)
    requires CanServeAll(root, files, calls)
    requires i < |Served(root, files, calls).core.log| && Served(root, files, calls).core.log[i].LaunchCall?
    ensures var c := Served(root, files, calls).core;
            && 0 < i && c.log[i].task in c.tasks
            && c.log[i - 1].Decided?
            && c.log[i - 1].task == c.log[i].task
            && c.log[i - 1].session.sessionId == c.tasks[c.log[i].task].sessionId
            && c.log[i - 1].decision.decision == Approve
            && ByPairedPhone(root, files, calls, c.log[i - 1])
  {
    hide Served, CanServeAll, ReachedFrom, ByPairedPhone, CoreInv, TaskInv;
    ServedHolds(root, files, calls);
    var c := Served(root, files, calls).core;
    EffectsAreAuthorised(root, files, c, i);
    ReachedHolds(root, files, c);
    TaskUnderItsId(files, c, c.log[i].task);
    PhoneDecisionsArePaired(root, files, calls, i - 1);
  }

  /* What a paired phone can do. */

  /** The decision that sends back what is listed. */
  function Approving(shown: ApprovalSummary): ApprovalDecision {
    ApprovalDecision(shown.approvalId, shown.token, shown.payloadSha256, Approve)
  }

  /**
   * A phone that is paired to a session is let in, and what is listed for the session can be approved from it: when it
   * sends back what it was shown, the task is executed if that comes before the expiry, and is denied otherwise.
   * Nothing else of the surface but the phone's own call changes.
   */
  lemma PairedPhoneApproves(
    root: Path, files: Files, calls: seq<Call>, device: Uuid, deviceToken: string, now: Instant, session: Uuid,
    shown: ApprovalSummary, clock: Clock, env: Environment)
    requires CanServeAll(root, files, calls)
    requires G.IsPairedTo(Served(root, files, calls).gateway, device, deviceToken, now, session)
    requires shown in ListPendingPhoneApprovals(Served(root, files, calls).core, session)
    ensures var s := Served(root, files, calls);
            var identified := Serve(s, PhoneIdentify(device, deviceToken, now, shown.taskId, Approving(shown)));
            var decided := Serve(identified, PhoneDecide(|s.waiting|, clock, env));
            && MobileIdentity(s.gateway, device, deviceToken, now).0 == Some(IdentitySession(session, true))
            && identified.core == s.core && |identified.waiting| == |s.waiting| + 1
            && decided.waiting == s.waiting && decided.gateway == identified.gateway
            && shown.taskId in decided.core.tasks && decided.core.tasks[shown.taskId].approval.Some?
            && var t := decided.core.tasks[shown.taskId];
               if clock.now < shown.expiresAt then
                 t.approval.value.status == Consumed && (t.state == Completed || t.state == Failed)
               else t.approval.value.status == Expired && t.state == Denied
  {
    hide Served, CanServeAll, ReachedFrom, G.GatewayInv, G.IsPairedTo, ApproveTask, G.Take, G.Authenticate;
    hide ListPendingPhoneApprovals, CoreInv;
    ServedHolds(root, files, calls);
    var s := Served(root, files, calls);
    G.AuthenticateHolds(s.gateway, device, deviceToken, now, session);
    assert G.Authenticate(s.gateway.gateway, device, deviceToken, now).0 == Success(session);
    var identified := Serve(s, PhoneIdentify(device, deviceToken, now, shown.taskId, Approving(shown)));
    assert identified.waiting ==
           s.waiting + [PhoneRequest(IdentitySession(session, true), shown.taskId, Approving(shown))];
    ApprovingListed(root, files, s.core, session, shown, clock, env);
  }

  /** What comes of approving what is listed. */
  lemma ApprovingListed(
    root: Path, initial: Files, c: Core, session: Uuid, shown: ApprovalSummary, clock: Clock, env: Environment)
    requires ReachedFrom(root, initial, c) && shown in ListPendingPhoneApprovals(c, session)
    ensures var after := ApproveTask(
                           c, shown.taskId, Approving(shown), IdentitySession(session, true), Phone, clock, env).0;
            && shown.taskId in after.tasks && after.tasks[shown.taskId].approval.Some?
            && var t := after.tasks[shown.taskId];
               if clock.now < shown.expiresAt then
                 t.approval.value.status == Consumed && (t.state == Completed || t.state == Failed)
               else t.approval.value.status == Expired && t.state == Denied
  {
    hide ReachedFrom, CoreInv, ListPendingPhoneApprovals, TaskInv, RecordReceipt, GrantedRun, AddEvent, LateRefusal;
    ListedApprovalIsAccepted(root, initial, c, session, shown, clock, env);
    ListedWaits(root, initial, c, session, shown);
    ReachedHolds(root, initial, c);
    TaskUnderItsId(initial, c, shown.taskId);
    GrantFits(c, c.tasks[shown.taskId], clock, env);
  }

  /* What the limiter lets through. */

  /** The pairing attempts among the calls. */
  function PairAttempts(calls: seq<Call>): seq<R.PairAttempt> {
    if calls == [] then []
    else
      var before, last := PairAttempts(calls[..|calls| - 1]), calls[|calls| - 1];
      if last.PhonePair? then before + [R.PairAttempt(last.client, last.attempted)] else before
  }

  lemma {:induction false} DequesFollowAttempts(root: Path, files: Files, calls: seq<Call>)
    ensures Served(root, files, calls).deques == R.DequesAfter(PairAttempts(calls))
  {
    hide Perform, GatewayAfter, CommandFor, WaitingAfter;
    if calls != [] {
      var before, last := calls[..|calls| - 1], calls[|calls| - 1];
      DequesFollowAttempts(root, files, before);
      if last.PhonePair? {
        var attempts := PairAttempts(before);
        assert PairAttempts(calls)[..|attempts|] == attempts;
      }
    }
  }

  /**
   * A call to pair reaches the gateway exactly when, of the client's own earlier attempts at whatever readings, fewer
   * than five passed or the fifth last of them has left its five minutes. What reaches the gateway is answered by it;
   * what does not leaves everything but the limiter's deque as it is.
   */
  lemma PairingIsLimited(root: Path, files: Files, calls: seq<Call>, call: Call)
    requires call.PhonePair?
    ensures var s := Served(root, files, calls);
            var after := Serve(s, call);
            var times := R.TimesOf(PairAttempts(calls), R.HostKey(call.client));
            var count := |R.Accepted(times)|;
            && after.core == s.core && after.waiting == s.waiting
            && after.gateway ==
               if 5 <= count && !R.Gone(times + [call.attempted], count - 5) then s.gateway
               else G.Take(s.gateway, G.DoPair(call.code, call.deviceLabel, call.deviceToken, call.now))
  {
    hide Served, G.Take, R.Gone, R.Accepted, R.TimesOf, R.Attempt, PairAttempts;
    DequesFollowAttempts(root, files, calls);
    var host := R.HostKey(call.client);
    R.HostsAreApart(PairAttempts(calls), host);
    R.LimiterIsExact(R.TimesOf(PairAttempts(calls), host), call.attempted);
  }
}
