/** Deterministic planning: which steps an intent becomes. */
module Planner {
  import opened Domain
  import opened NoteText
  import opened Payload
  import opened Registry

  /** The assistant's replies; only that they are not empty matters. */
  function AssistantReply(kind: IntentKind): string {
    match kind
    case AssistantIdentity => "identity"
    case AssistantCapabilities => "capabilities"
    case _ => "help"
  }

  const DEFAULT_NODE: string := "windows-primary"

  datatype StepSpec = StepSpec(
    capability: Capability,
    risk: RiskTier,
    parameters: Parameters,
    reversible: bool)

  function NoteParameters(note: PreparedNote): Parameters {
    [
      ("title", Str(note.title)),
      ("filename", Str(note.filename)),
      ("content", Str(note.content)),
      ("content_sha256", Str(note.contentSha256)),
      ("byte_count", Num(|note.content|))
    ]
  }

  function NotepadParameters(target: Option<string>): Parameters {
    [
      ("target_node_id", Str(if target.Some? then target.value else DEFAULT_NODE)),
      ("application", Str("notepad"))
    ]
  }

  /** The specs of the kinds that carry no entities. */
  function PlainSpecs(kind: IntentKind): seq<StepSpec> {
    match kind
    case AssistantIdentity | AssistantCapabilities | AssistantHelp =>
      [StepSpec(AssistantRespond, Informational, [("response", Str(AssistantReply(kind)))], false)]
    case DailyBriefing =>
      [
        StepSpec(ReadCalendar, Low, [], false),
        StepSpec(ReadEmail, Low, [], false),
        StepSpec(ReadGithub, Low, [], false),
        StepSpec(ReadAtsHealth, Low, [], false)
      ]
    case SystemHealth => [StepSpec(ReadNexussHealth, Low, [], false)]
    case LocalWorkspaceStatus => [StepSpec(ReadWorkspaceStatus, Low, [], false)]
    case PrepareWorkspace => [StepSpec(DeviceWorkspacePrepare, Medium, [], true)]
    case PlayMedia => [StepSpec(PreparePlayback, Low, [], false)]
    case AtsRead => [StepSpec(ReadAtsIntelligence, Low, [], false)]
    case AtsWrite => [StepSpec(AtsWriteOrder, Critical, [], false)]
    case FinancialTransfer => [StepSpec(FinanceTransfer, Critical, [], false)]
    case SocialPublish => [StepSpec(PublishSocial, High, [], false)]
    case Unknown => [StepSpec(Unsupported, High, [], false)]
    case CreateNoteIntent | LaunchNotepadIntent => []
  }

  function Specs(intent: Intent): Result<seq<StepSpec>, NoteError> {
    match intent
    case NoteIntent(title, content) =>
      (match PrepareNote(title, content)
       case Failure(error) => Failure(error)
       case Success(note) => Success([StepSpec(CreateNote, Medium, NoteParameters(note), true)]))
    case NotepadIntent(target) =>
      Success([StepSpec(LaunchNotepad, High, NotepadParameters(target), true)])
    case PlainIntent(kind) => Success(PlainSpecs(kind))
  }

  function StepOf(task: Uuid, order: nat, spec: StepSpec): PlanStep {
    PlanStep(StepId(task, order, spec.capability), order, spec.capability, spec.risk, spec.parameters, spec.reversible)
  }

  function Steps(task: Uuid, specs: seq<StepSpec>): seq<PlanStep> {
    seq(|specs|, i requires 0 <= i < |specs| => StepOf(task, i + 1, specs[i]))
  }

  function BuildPlan(task: Uuid, intent: Intent): Result<TaskPlan, NoteError> {
    match Specs(intent)
    case Failure(error) => Failure(error)
    case Success(specs) =>
      Success(TaskPlan(PlanId(task, intent.Kind(), false), task, intent, Steps(task, specs)))
  }

  /** The code under which a note error is reported. */
  function NoteErrorCode(error: NoteError): string {
    match error
    case TitleLengthInvalid => "NOTE_TITLE_LENGTH_INVALID"
    case TitlePathSyntaxRejected => "NOTE_TITLE_PATH_SYNTAX_REJECTED"
    case TitleEmptyAfterSanitization => "NOTE_TITLE_EMPTY_AFTER_SANITIZATION"
    case TitleReserved => "NOTE_TITLE_RESERVED"
    case ContentNullByteRejected => "NOTE_CONTENT_NULL_BYTE_REJECTED"
    case ContentEmpty => "NOTE_CONTENT_EMPTY"
    case ContentTooLarge => "NOTE_CONTENT_TOO_LARGE"
    case PathOutsideManagedWorkspace => "NOTE_PATH_OUTSIDE_MANAGED_WORKSPACE"
    case NoteAlreadyExists => "NOTE_ALREADY_EXISTS"
    case NoteCreateFailed => "NOTE_CREATE_FAILED"
    case PostWriteVerificationFailed => "NOTE_POST_WRITE_VERIFICATION_FAILED"
    case RollbackTargetMissing => "ROLLBACK_TARGET_MISSING"
    case RollbackHashMismatch => "ROLLBACK_HASH_MISMATCH"
    case RollbackDeleteVerificationFailed => "ROLLBACK_DELETE_VERIFICATION_FAILED"
  }

  /** The plan recorded for a note that cannot be prepared. */
  function InvalidNotePlan(task: Uuid, intent: Intent, error: NoteError): TaskPlan {
    TaskPlan(
      PlanId(task, intent.Kind(), true),
      task,
      intent,
      [PlanStep(
         StepId(task, 1, CreateNote), 1, CreateNote, Medium,
         [("validation_error", Str(NoteErrorCode(error)))], false)])
  }

  /** The plan a task gets, and the policy's decisions on it. */
  function PlanFor(task: Uuid, intent: Intent): TaskPlan {
    match BuildPlan(task, intent)
    case Success(plan) => plan
    case Failure(error) => InvalidNotePlan(task, intent, error)
  }

  function DecisionsFor(task: Uuid, intent: Intent): seq<PolicyDecision> {
    var plan := PlanFor(task, intent);
    if BuildPlan(task, intent).Failure? && plan.steps != [] then
      [PolicyDecision(plan.steps[0].stepId, plan.steps[0].capability, Deny, InvalidManagedNoteRequest)]
    else
      seq(|plan.steps|, i requires 0 <= i < |plan.steps| => EvaluateStep(plan.steps[i]))
  }

  predicate HasOutcome(decisions: seq<PolicyDecision>, outcome: PolicyOutcome) {
    exists i :: 0 <= i < |decisions| && decisions[i].outcome == outcome
  }

  /** What the policy makes of a plan as a whole. */
  datatype Verdict = Refused | NeedsApproval | RunsAtOnce

  function VerdictOn(decisions: seq<PolicyDecision>): Verdict {
    if HasOutcome(decisions, Deny) then Refused
    else if HasOutcome(decisions, RequireApproval) then NeedsApproval
    else RunsAtOnce
  }

  /** The note step: what it will write is the prepared note, with the hash of its own content. */
  ghost predicate IsNoteStep(step: PlanStep) {
    && step.capability == CreateNote
    && step.reversible
    && var filename := TextOr(step.parameters, "filename", "");
       var content := TextOr(step.parameters, "content", "");
       var title := TextOr(step.parameters, "title", "");
       && step.parameters == NoteParameters(PreparedNote(title, filename, content, Sha256(content)))
       && NormalTitle(title)
       && filename == title + ".md"
       && NormalContent(content)
  }

  ghost predicate IsNotepadStep(step: PlanStep) {
    && step.capability == LaunchNotepad
    && step.reversible
    && exists target :: step.parameters == NotepadParameters(target)
  }

  lemma {:induction false} NameIsAbsent(p: Parameters, name: string)
    requires forall i :: 0 <= i < |p| ==> p[i].0 != name
    ensures name !in ParameterMap(p)
  {
    if p != [] {
      NameIsAbsent(p[1..], name);
    }
  }

  /** A dictionary display with different names: every name finds its own value. */
  lemma {:induction false} DisplayLookups(p: Parameters)
    requires forall i, j :: 0 <= i < j < |p| ==> p[i].0 != p[j].0
    ensures DistinctNames(p)
    ensures forall i :: 0 <= i < |p| ==> Lookup(p, p[i].0) == Some(p[i].1)
  {
    if p != [] {
      DisplayLookups(p[1..]);
      NameIsAbsent(p[1..], p[0].0);
      forall i | 0 < i < |p|
        ensures Lookup(p, p[i].0) == Some(p[i].1)
      {
        assert p[i] == p[1..][i - 1];
        assert Lookup(p[1..], p[1..][i - 1].0) == Some(p[1..][i - 1].1);
      }
    }
  }

  lemma NoteLookups(note: PreparedNote)
    ensures var p := NoteParameters(note);
            && Lookup(p, "title") == Some(Str(note.title))
            && Lookup(p, "filename") == Some(Str(note.filename))
            && Lookup(p, "content") == Some(Str(note.content))
            && Lookup(p, "content_sha256") == Some(Str(note.contentSha256))
            && Lookup(p, "byte_count") == Some(Num(|note.content|))
            && DistinctNames(p)
  {
    var p := NoteParameters(note);
    assert |p[0].0| == 5 && |p[1].0| == 8 && |p[2].0| == 7 && |p[3].0| == 14 && |p[4].0| == 10;
    DisplayLookups(p);
    assert Lookup(p, p[0].0) == Some(p[0].1) && Lookup(p, p[1].0) == Some(p[1].1);
    assert Lookup(p, p[2].0) == Some(p[2].1) && Lookup(p, p[3].0) == Some(p[3].1);
    assert Lookup(p, p[4].0) == Some(p[4].1);
  }

  lemma NotepadLookups(target: Option<string>)
    ensures var p := NotepadParameters(target);
            && Lookup(p, "target_node_id") == Some(Str(if target.Some? then target.value else DEFAULT_NODE))
            && Lookup(p, "application") == Some(Str("notepad"))
            && DistinctNames(p)
  {
    var p := NotepadParameters(target);
    assert |p[0].0| == 14 && |p[1].0| == 11;
    DisplayLookups(p);
    assert Lookup(p, p[0].0) == Some(p[0].1) && Lookup(p, p[1].0) == Some(p[1].1);
  }

  lemma NotePlan(task: Uuid, title: string, content: string)
    ensures var intent := NoteIntent(title, content);
            var plan, decisions := PlanFor(task, intent), DecisionsFor(task, intent);
            && |plan.steps| == 1
            && |decisions| == 1
            && if PrepareNote(title, content).Success?
               then decisions[0].outcome == RequireApproval && IsNoteStep(plan.steps[0])
               else decisions[0].outcome == Deny
  {
    hide PrepareNote, IsNoteStep, NoteParameters;
    if PrepareNote(title, content).Success? {
      PreparedNoteStep(title, content);
      assert PlanFor(task, NoteIntent(title, content)).steps ==
             [StepOf(task, 1, StepSpec(CreateNote, Medium, NoteParameters(PrepareNote(title, content).value), true))];
    }
  }

  /** The step for a prepared note is a note step. */
  lemma PreparedNoteStep(title: string, content: string)
    requires PrepareNote(title, content).Success?
    ensures forall task: Uuid ::
              IsNoteStep(
                StepOf(task, 1, StepSpec(CreateNote, Medium, NoteParameters(PrepareNote(title, content).value), true)))
  {
    hide PrepareNote, Lookup, NoteParameters, NormalTitle, NormalContent;
    var note := PrepareNote(title, content).value;
    NoteLookups(note);
    PreparedNoteIsNormal(title, content);
    assert note == PreparedNote(note.title, note.filename, note.content, Sha256(note.content));
  }

  lemma PlainPlan(task: Uuid, kind: IntentKind)
    requires kind != CreateNoteIntent && kind != LaunchNotepadIntent
    ensures var plan, decisions := PlanFor(task, PlainIntent(kind)), DecisionsFor(task, PlainIntent(kind));
            && 1 <= |plan.steps|
            && !HasOutcome(decisions, RequireApproval)
            && forall i :: 0 <= i < |plan.steps| ==> !HasOutsideEffect(plan.steps[i].capability)
  {
    var plan, decisions := PlanFor(task, PlainIntent(kind)), DecisionsFor(task, PlainIntent(kind));
    forall i | 0 <= i < |decisions|
      ensures decisions[i].outcome != RequireApproval
      ensures !HasOutsideEffect(plan.steps[i].capability)
    {
      assert plan.steps[i] == StepOf(task, i + 1, PlainSpecs(kind)[i]);
    }
  }

  /** Two kinds are refused for lack of a manifest, although the simulator could answer for their capabilities. */
  lemma UnregisteredPlansAreRefused(task: Uuid, kind: IntentKind)
    requires kind == SystemHealth || kind == PlayMedia
    ensures VerdictOn(DecisionsFor(task, PlainIntent(kind))) == Refused
    ensures DecisionsFor(task, PlainIntent(kind))[0].reason == CapabilityNotRegistered
  {
    assert DecisionsFor(task, PlainIntent(kind))[0].outcome == Deny;
  }

  /**
   * The plans that can need approval have exactly one step, which creates a note or launches Notepad;
   * every plan that runs at once is free of outside effects.
   */
  lemma PlansByVerdict(task: Uuid, intent: Intent)
    requires intent.Classified()
    ensures var plan, verdict := PlanFor(task, intent), VerdictOn(DecisionsFor(task, intent));
            && 1 <= |plan.steps|
            && (verdict == NeedsApproval ==>
                  |plan.steps| == 1 && (IsNoteStep(plan.steps[0]) || IsNotepadStep(plan.steps[0])))
            && (verdict == RunsAtOnce ==>
                  forall i :: 0 <= i < |plan.steps| ==> !HasOutsideEffect(plan.steps[i].capability))
  {
    match intent
    case NoteIntent(title, content) => NotePlan(task, title, content);
    case NotepadIntent(target) =>
      assert PlanFor(task, intent).steps[0].parameters == NotepadParameters(target);
      assert DecisionsFor(task, intent)[0].outcome == RequireApproval;
    case PlainIntent(kind) => PlainPlan(task, kind);
  }

  /* What each intent's plan asks for. */

  /** The steps' capabilities, in order. */
  function Capabilities(plan: TaskPlan): seq<Capability> {
    seq(|plan.steps|, i requires 0 <= i < |plan.steps| => plan.steps[i].capability)
  }

  /** The steps are numbered from one and carry ids of their own task. */
  ghost predicate StepsNumbered(task: Uuid, plan: TaskPlan) {
    forall i :: 0 <= i < |plan.steps| ==>
      && plan.steps[i].order == i + 1
      && plan.steps[i].stepId == StepId(task, i + 1, plan.steps[i].capability)
  }

  /** A note that can be prepared is planned as one step, with every field of the note prepared from the intent. */
  lemma NotePlanIsPrepared(task: Uuid, title: string, content: string)
    requires PrepareNote(title, content).Success?
    ensures var plan, note := PlanFor(task, NoteIntent(title, content)), PrepareNote(title, content).value;
            && |plan.steps| == 1
            && var step := plan.steps[0];
               && step.risk == Medium && step.reversible
               && Lookup(step.parameters, "title") == Some(Str(note.title))
               && Lookup(step.parameters, "filename") == Some(Str(note.filename))
               && Lookup(step.parameters, "content") == Some(Str(note.content))
               && Lookup(step.parameters, "content_sha256") == Some(Str(Sha256(note.content)))
               && Lookup(step.parameters, "byte_count") == Some(Num(|note.content|))
  {
    hide PrepareNote, NoteParameters;
    NoteLookups(PrepareNote(title, content).value);
    PreparedNoteIsNormal(title, content);
  }

  /** A launch is planned for the target that was asked for, or for the default one. */
  lemma NotepadPlanIsAsked(task: Uuid, target: Option<string>)
    ensures var plan := PlanFor(task, NotepadIntent(target));
            && |plan.steps| == 1
            && var step := plan.steps[0];
               && step.risk == High && step.reversible
               && Lookup(step.parameters, "target_node_id") ==
                  Some(Str(if target.Some? then target.value else "windows-primary"))
               && Lookup(step.parameters, "application") == Some(Str("notepad"))
  {
    hide NotepadParameters;
    NotepadLookups(target);
  }

  /** A note that cannot be prepared is planned as one step that names the error, and denied for it. */
  lemma InvalidNoteIsDenied(task: Uuid, title: string, content: string)
    requires PrepareNote(title, content).Failure?
    ensures var intent := NoteIntent(title, content);
            var plan, decisions := PlanFor(task, intent), DecisionsFor(task, intent);
            && |plan.steps| == 1
            && !plan.steps[0].reversible && plan.steps[0].risk == Medium
            && plan.steps[0].parameters ==
               [("validation_error", Str(NoteErrorCode(PrepareNote(title, content).error)))]
            && decisions == [PolicyDecision(StepId(task, 1, CreateNote), CreateNote, Deny, InvalidManagedNoteRequest)]
  {
    hide PrepareNote;
  }

  /** The capabilities that each kind of request asks for, in order. */
  function AskedFor(kind: IntentKind): seq<Capability> {
    match kind
    case AssistantIdentity | AssistantCapabilities | AssistantHelp => [AssistantRespond]
    case DailyBriefing => [ReadCalendar, ReadEmail, ReadGithub, ReadAtsHealth]
    case SystemHealth => [ReadNexussHealth]
    case LocalWorkspaceStatus => [ReadWorkspaceStatus]
    case CreateNoteIntent => [CreateNote]
    case LaunchNotepadIntent => [LaunchNotepad]
    case PrepareWorkspace => [DeviceWorkspacePrepare]
    case PlayMedia => [PreparePlayback]
    case AtsRead => [ReadAtsIntelligence]
    case AtsWrite => [AtsWriteOrder]
    case FinancialTransfer => [FinanceTransfer]
    case SocialPublish => [PublishSocial]
    case Unknown => [Unsupported]
  }

  /**
   * Every plan asks for the capabilities of its intent's kind, in order, in numbered steps of its own task. It is
   * recorded as invalid exactly for a note that cannot be prepared.
   */
  lemma PlansAsAsked(task: Uuid, intent: Intent)
    requires intent.Classified()
    ensures var plan := PlanFor(task, intent);
            && plan.taskId == task && plan.intent == intent
            && Capabilities(plan) == AskedFor(intent.Kind())
            && StepsNumbered(task, plan)
            && var invalid := intent.NoteIntent? && PrepareNote(intent.title, intent.content).Failure?;
               plan.planId == PlanId(task, intent.Kind(), invalid)
  {
    hide PrepareNote, NoteParameters, NotepadParameters, AskedFor, PlainSpecs, Steps;
    var asked := AskedFor(intent.Kind());
    match Specs(intent)
    case Failure(_) => InvalidIsAsked(task, intent);
    case Success(specs) =>
      SpecsAreAsked(intent, specs);
      StepsAreNumbered(task, specs, asked);
      assert Capabilities(PlanFor(task, intent)) == asked;
  }

  lemma InvalidIsAsked(task: Uuid, intent: Intent)
    requires Specs(intent).Failure?
    ensures Capabilities(PlanFor(task, intent)) == AskedFor(intent.Kind())
    ensures StepsNumbered(task, PlanFor(task, intent))
  {
    hide PrepareNote;
  }

  lemma StepsAreNumbered(task: Uuid, specs: seq<StepSpec>, asked: seq<Capability>)
    requires |specs| == |asked| && forall i :: 0 <= i < |asked| ==> specs[i].capability == asked[i]
    ensures |Steps(task, specs)| == |asked|
    ensures forall i :: 0 <= i < |asked| ==>
              && Steps(task, specs)[i].order == i + 1
              && Steps(task, specs)[i].capability == asked[i]
              && Steps(task, specs)[i].stepId == StepId(task, i + 1, asked[i])
  {
  }

  lemma SpecsAreAsked(intent: Intent, specs: seq<StepSpec>)
    requires intent.Classified() && Specs(intent) == Success(specs)
    ensures |specs| == |AskedFor(intent.Kind())|
    ensures forall i :: 0 <= i < |specs| ==> specs[i].capability == AskedFor(intent.Kind())[i]
  {
    hide PrepareNote, NoteParameters, NotepadParameters, PlainSpecs;
    if intent.PlainIntent? {
      PlainSpecsAreAsked(intent.plain);
    }
  }

  lemma PlainSpecsAreAsked(kind: IntentKind)
    requires kind != CreateNoteIntent && kind != LaunchNotepadIntent
    ensures |PlainSpecs(kind)| == |AskedFor(kind)|
    ensures forall i :: 0 <= i < |AskedFor(kind)| ==> PlainSpecs(kind)[i].capability == AskedFor(kind)[i]
  {
  }

  /** The kinds whose plans the policy refuses: what they ask for is prohibited, or has no manifest. */
  predicate IsRefusedKind(kind: IntentKind) {
    kind in {SystemHealth, PrepareWorkspace, PlayMedia, AtsWrite, FinancialTransfer, SocialPublish, Unknown}
  }

  /** The policy's decisions name the steps they are on, and refuse a plain kind or let it run at once. */
  lemma PlainDecisions(task: Uuid, kind: IntentKind)
    requires kind != CreateNoteIntent && kind != LaunchNotepadIntent
    ensures var plan, decisions := PlanFor(task, PlainIntent(kind)), DecisionsFor(task, PlainIntent(kind));
            && |decisions| == |plan.steps|
            && (forall i :: 0 <= i < |decisions| ==>
                              && decisions[i].stepId == plan.steps[i].stepId
                              && decisions[i].capability == plan.steps[i].capability
                              && (decisions[i].outcome == if IsRefusedKind(kind) then Deny else Allow))
            && (VerdictOn(decisions) == if IsRefusedKind(kind) then Refused else RunsAtOnce)
  {
    hide PlanFor, EvaluateStep, AskedFor, IsRefusedKind;
    var plan, decisions := PlanFor(task, PlainIntent(kind)), DecisionsFor(task, PlainIntent(kind));
    PlansAsAsked(task, PlainIntent(kind));
    SomethingIsAsked(kind);
    forall i | 0 <= i < |plan.steps|
      ensures plan.steps[i].capability in AskedFor(kind)
    {
      assert plan.steps[i].capability == Capabilities(plan)[i];
    }
    PlainIsPlanned(task, kind);
    forall i | 0 <= i < |decisions|
      ensures decisions[i] == EvaluateStep(plan.steps[i])
      ensures decisions[i].outcome == if IsRefusedKind(kind) then Deny else Allow
      ensures decisions[i].stepId == plan.steps[i].stepId && decisions[i].capability == plan.steps[i].capability
    {
      PlainOutcome(plan.steps[i], kind);
    }
    assert decisions[0].outcome == if IsRefusedKind(kind) then Deny else Allow;
  }

  lemma PlainIsPlanned(task: Uuid, kind: IntentKind)
    ensures BuildPlan(task, PlainIntent(kind)).Success?
  {
  }

  lemma SomethingIsAsked(kind: IntentKind)
    ensures AskedFor(kind) != []
  {
  }

  lemma PlainOutcome(step: PlanStep, kind: IntentKind)
    requires kind != CreateNoteIntent && kind != LaunchNotepadIntent && step.capability in AskedFor(kind)
    ensures EvaluateStep(step).outcome == if IsRefusedKind(kind) then Deny else Allow
    ensures EvaluateStep(step).stepId == step.stepId && EvaluateStep(step).capability == step.capability
  {
  }

  lemma LaunchNeedsApproval(task: Uuid, target: Option<string>)
    ensures VerdictOn(DecisionsFor(task, NotepadIntent(target))) == NeedsApproval
  {
    assert DecisionsFor(task, NotepadIntent(target))[0].outcome == RequireApproval;
  }
}
