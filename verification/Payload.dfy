/** The text and the hash that bind an approval to one exact step. */
module Payload {
  import opened Domain
  import opened CanonicalJson

  function CapabilityName(c: Capability): string {
    match c
    case AssistantRespond => "assistant.respond"
    case ReadWorkspaceStatus => "workspace.read_status"
    case CreateNote => "workspace.create_note"
    case RollbackCreateNote => "workspace.rollback_create_note"
    case LaunchNotepad => "device.launch_notepad"
    case RollbackLaunchNotepad => "device.rollback_launch_notepad"
    case ReadCalendar => "calendar.read_summary"
    case ReadEmail => "email.read_summary"
    case ReadGithub => "github.read_summary"
    case ReadAtsHealth => "ats.read_health"
    case ReadAtsIntelligence => "ats.read_intelligence"
    case ReadNexussHealth => "nexuss.read_health"
    case PreparePlayback => "media.prepare_playback"
    case DeviceWorkspacePrepare => "device.workspace.prepare"
    case AtsWriteOrder => "ats.write_order"
    case FinanceTransfer => "finance.transfer"
    case PublishSocial => "social.publish"
    case Unsupported => "nexuss.unsupported"
  }

  function RiskName(r: RiskTier): string {
    match r
    case Informational => "informational"
    case Low => "low"
    case Medium => "medium"
    case High => "high"
    case Critical => "critical"
  }


  lemma CapabilityNamesAreDistinct(a: Capability, b: Capability)
    requires CapabilityName(a) == CapabilityName(b)
    ensures a == b
  {
    var s, t := CapabilityName(a), CapabilityName(b);
    assert |s| == |t| && 14 <= |s|;
    assert s[0] == t[0] && s[4] == t[4] && s[7] == t[7] && s[10] == t[10];
  }

  ghost function CapabilityNamed(name: string): Option<Capability> {
    if c: Capability :| CapabilityName(c) == name then Some(c) else None
  }

  function RiskNamed(name: string): Option<RiskTier> {
    if name == "informational" then Some(Informational)
    else if name == "low" then Some(Low)
    else if name == "medium" then Some(Medium)
    else if name == "high" then Some(High)
    else if name == "critical" then Some(Critical)
    else None
  }

  lemma CapabilityNameRoundTrip(c: Capability)
    ensures CapabilityNamed(CapabilityName(c)) == Some(c)
  {
    forall d: Capability | CapabilityName(d) == CapabilityName(c)
      ensures d == c
    {
      CapabilityNamesAreDistinct(d, c);
    }
  }

  lemma RiskNameRoundTrip(r: RiskTier)
    ensures RiskNamed(RiskName(r)) == Some(r)
  {
  }

  /* The payload of a step. */

  function ToJson(v: Value): Json {
    match v
    case Str(s) => Text(s)
    case Num(n) => Number(n)
  }

  function ParameterMembers(parameters: Parameters): Members {
    if parameters == [] then End
    else Member(parameters[0].0, ToJson(parameters[0].1), ParameterMembers(parameters[1..]))
  }

  /** The dictionary that the parameters list in some order. */
  function ParameterMap(parameters: Parameters): map<string, Value> {
    if parameters == [] then map[] else ParameterMap(parameters[1..])[parameters[0].0 := parameters[0].1]
  }

  ghost predicate DistinctNames(parameters: Parameters) {
    parameters == [] || (parameters[0].0 !in ParameterMap(parameters[1..]) && DistinctNames(parameters[1..]))
  }

  function PayloadJson(step: PlanStep): Json {
    Object(
      Member("capability_id", Text(CapabilityName(step.capability)),
      Member("parameters", Object(ParameterMembers(step.parameters)),
      Member("reversible", Truth(step.reversible),
      Member("risk_tier", Text(RiskName(step.risk)), End)))))
  }

  function PayloadText(step: PlanStep): string {
    Encode(PayloadJson(step))
  }

  function PayloadSha256(step: PlanStep): string {
    Sha256(PayloadText(step))
  }

  /** What an approval binds: everything about a step but its id and its place in the plan. */
  datatype Bound = Bound(
    capability: Capability,
    parameters: map<string, Value>,
    reversible: bool,
    risk: RiskTier)

  function BoundOf(step: PlanStep): Bound {
    Bound(step.capability, ParameterMap(step.parameters), step.reversible, step.risk)
  }

  function ValuesOf(m: Members): map<string, Value> {
    ValuesIn(Entries(m))
  }

  function ValuesIn(entries: map<string, Json>): map<string, Value> {
    map k | k in entries && (entries[k].Text? || entries[k].Number?) ::
      match entries[k] {
        case Text(s) => Str(s)
        case Number(n) => Num(n)
        case _ => Num(0)
      }
  }

  /** Reads a payload text back. */
  ghost function Recover(text: string): Option<Bound> {
    match Decode(text)
    case Some(Object(Member(_, Text(c), Member(_, Object(p), Member(_, Truth(b), Member(_, Text(r), End)))))) =>
      if CapabilityNamed(c).Some? && RiskNamed(r).Some? then
        Some(Bound(CapabilityNamed(c).value, ValuesOf(p), b, RiskNamed(r).value))
      else None
    case _ => None
  }

  lemma {:induction false} ParameterEntries(p: Parameters)
    requires DistinctNames(p)
    ensures DistinctKeys(ParameterMembers(p))
    ensures Entries(ParameterMembers(p)).Keys == ParameterMap(p).Keys
    ensures CanonicalEntries(ParameterMembers(p)) == map k | k in ParameterMap(p) :: ToJson(ParameterMap(p)[k])
  {
    if p != [] {
      ParameterEntries(p[1..]);
    }
  }

  lemma PayloadKeysAreInOrder(step: PlanStep)
    ensures SortKeys(PayloadJson(step)) ==
              Object(
                Member("capability_id", Text(CapabilityName(step.capability)),
                Member("parameters", Object(SortMembers(ParameterMembers(step.parameters))),
                Member("reversible", Truth(step.reversible),
                Member("risk_tier", Text(RiskName(step.risk)), End)))))
  {
    assert Before("capability_id", "parameters") && !Before("parameters", "capability_id");
    assert Before("parameters", "reversible") && !Before("reversible", "parameters");
    assert "risk_tier"[1..][0] == 'i' && "reversible"[1..][0] == 'e';
    assert !Before("risk_tier", "reversible");
    var risk := Member("risk_tier", Text(RiskName(step.risk)), End);
    var reversible := Member("reversible", Truth(step.reversible), risk);
    var sorted := Object(SortMembers(ParameterMembers(step.parameters)));
    assert SortMembers(risk) == risk;
    assert SortMembers(reversible) == reversible;
    var parameters := Member("parameters", Object(ParameterMembers(step.parameters)), reversible);
    assert SortMembers(parameters) == Member("parameters", sorted, reversible);
    var name := Text(CapabilityName(step.capability));
    assert SortMembers(Member("capability_id", name, parameters))
        == Insert("capability_id", name, Member("parameters", sorted, reversible));
  }

  lemma ValuesComeBack(values: map<string, Value>)
    ensures ValuesIn(map k | k in values :: ToJson(values[k])) == values
  {
  }

  lemma SortedParameterValues(p: Parameters)
    requires DistinctNames(p)
    ensures ValuesOf(SortMembers(ParameterMembers(p))) == ParameterMap(p)
  {
    hide ValuesIn, ToJson, Ascending;
    ValuesComeBack(ParameterMap(p));
    ParameterEntries(p);
    SortingKeepsEntries(ParameterMembers(p));
  }

  /** A payload text gives back the capability, parameters, reversibility and risk it was made from. */
  lemma PayloadRoundTrip(step: PlanStep)
    requires DistinctNames(step.parameters)
    ensures Recover(PayloadText(step)) == Some(BoundOf(step))
  {
    DecodeEncode(PayloadJson(step));
    PayloadKeysAreInOrder(step);
    CapabilityNameRoundTrip(step.capability);
    RiskNameRoundTrip(step.risk);
    SortedParameterValues(step.parameters);
  }

  /** Hashes agree exactly when the bound parts agree; the order of the parameters does not matter. */
  lemma HashBindsPayload(a: PlanStep, b: PlanStep)
    requires DistinctNames(a.parameters) && DistinctNames(b.parameters)
    ensures PayloadSha256(a) == PayloadSha256(b) <==> BoundOf(a) == BoundOf(b)
  {
    if PayloadSha256(a) == PayloadSha256(b) {
      Sha256IsInjective(PayloadText(a), PayloadText(b));
      PayloadRoundTrip(a);
      PayloadRoundTrip(b);
    }
    if BoundOf(a) == BoundOf(b) {
      ParameterEntries(a.parameters);
      ParameterEntries(b.parameters);
      SameTextSameEntries(ParameterMembers(a.parameters), ParameterMembers(b.parameters));
      DecodeEncode(Object(ParameterMembers(a.parameters)));
      DecodeEncode(Object(ParameterMembers(b.parameters)));
      PayloadKeysAreInOrder(a);
      PayloadKeysAreInOrder(b);
    }
  }
}
