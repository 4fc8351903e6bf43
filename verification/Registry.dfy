/** The capability registry and the fail-closed policy that reads it. */
module Registry {
  import opened Domain

  datatype CapabilityStatus = Active | Simulated | ProhibitedStatus

  datatype ApprovalPolicy = NoApproval | Explicit | ProhibitedPolicy

  datatype CapabilityManifest = CapabilityManifest(
    risk: RiskTier,
    approvalPolicy: ApprovalPolicy,
    reversible: bool,
    deterministicLocal: bool,
    status: CapabilityStatus,
    channel: ApprovalChannel)

  function GetCapability(capability: Capability): Option<CapabilityManifest> {
    match capability
    case AssistantRespond => Some(CapabilityManifest(Informational, NoApproval, false, true, Active, Desktop))
    case ReadWorkspaceStatus => Some(CapabilityManifest(Low, NoApproval, false, false, Active, Desktop))
    case CreateNote => Some(CapabilityManifest(Medium, Explicit, true, false, Active, Desktop))
    case RollbackCreateNote => Some(CapabilityManifest(Medium, Explicit, false, false, Active, Desktop))
    case LaunchNotepad => Some(CapabilityManifest(High, Explicit, true, false, Active, Phone))
    case RollbackLaunchNotepad => Some(CapabilityManifest(High, Explicit, false, false, Active, Phone))
    case ReadCalendar => Some(CapabilityManifest(Low, NoApproval, false, false, Simulated, Desktop))
    case ReadEmail => Some(CapabilityManifest(Low, NoApproval, false, false, Simulated, Desktop))
    case ReadGithub => Some(CapabilityManifest(Low, NoApproval, false, false, Simulated, Desktop))
    case ReadAtsHealth => Some(CapabilityManifest(Low, NoApproval, false, false, Simulated, Desktop))
    case ReadAtsIntelligence => Some(CapabilityManifest(Low, NoApproval, false, false, Simulated, Desktop))
    case _ => None
  }

  const PROHIBITED_CAPABILITIES: set<Capability> :=
    {AtsWriteOrder, FinanceTransfer, PublishSocial, Unsupported, DeviceWorkspacePrepare}

  function EvaluateStep(step: PlanStep): PolicyDecision {
    var capability := step.capability;
    if capability in PROHIBITED_CAPABILITIES then
      PolicyDecision(step.stepId, capability, Deny, CapabilityProhibitedInP3)
    else
      match GetCapability(capability)
      case None => PolicyDecision(step.stepId, capability, Deny, CapabilityNotRegistered)
      case Some(manifest) =>
        if manifest.status == ProhibitedStatus then
          PolicyDecision(step.stepId, capability, Deny, CapabilityRegistryProhibited)
        else if manifest.approvalPolicy == Explicit then
          PolicyDecision(
            step.stepId, capability, RequireApproval,
            if manifest.channel == Phone then TrustedPhoneApprovalRequired else ExplicitUserApprovalRequired)
        else if manifest.approvalPolicy == NoApproval then
          PolicyDecision(
            step.stepId, capability, Allow,
            if manifest.deterministicLocal then InformationalNoSideEffect else RegisteredReadOnlyOrSimulated)
        else
          PolicyDecision(step.stepId, capability, Deny, FailClosedPolicyConfiguration)
  }

  /** The capabilities that act outside the process, and so must never run without approval. */
  predicate HasOutsideEffect(capability: Capability) {
    capability == CreateNote || capability == LaunchNotepad
  }

  /**
   * Fail closed: a step is allowed only if a registered manifest asks for no approval, and every
   * capability with an outside effect needs approval on its manifest's channel.
   */
  lemma PolicyFailsClosed(step: PlanStep)
    ensures EvaluateStep(step).outcome == Allow ==>
              && GetCapability(step.capability).Some?
              && GetCapability(step.capability).value.approvalPolicy == NoApproval
              && !HasOutsideEffect(step.capability)
    ensures HasOutsideEffect(step.capability) ==> EvaluateStep(step).outcome == RequireApproval
    ensures GetCapability(step.capability).None? ==> EvaluateStep(step).outcome == Deny
  {
  }

  /** What the policy answers for each capability, and why; the answer names the step it is on. */
  lemma PolicyIsExact(step: PlanStep)
    ensures var d, c := EvaluateStep(step), step.capability;
            && d.stepId == step.stepId && d.capability == c
            && (d.outcome == Allow <==>
                  c in {AssistantRespond, ReadWorkspaceStatus, ReadCalendar, ReadEmail, ReadGithub, ReadAtsHealth,
                        ReadAtsIntelligence})
            && (d.outcome == RequireApproval <==>
                  c in {CreateNote, RollbackCreateNote, LaunchNotepad, RollbackLaunchNotepad})
            && (d.reason == CapabilityProhibitedInP3 <==>
                  c in {AtsWriteOrder, FinanceTransfer, PublishSocial, Unsupported, DeviceWorkspacePrepare})
            && (d.reason == CapabilityNotRegistered <==> c in {ReadNexussHealth, PreparePlayback})
            && (d.reason == TrustedPhoneApprovalRequired <==> c in {LaunchNotepad, RollbackLaunchNotepad})
            && (d.reason == ExplicitUserApprovalRequired <==> c in {CreateNote, RollbackCreateNote})
            && (d.reason == InformationalNoSideEffect <==> c == AssistantRespond)
            && (d.reason == RegisteredReadOnlyOrSimulated <==> d.outcome == Allow && c != AssistantRespond)
  {
    match step.capability
    case CreateNote =>
    case _ =>
  }
}
