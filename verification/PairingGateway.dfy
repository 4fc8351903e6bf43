/** Phone pairing: one-time codes that expire, paired devices with a token and a session that ends. */
module PairingGateway {
  import opened Domain
  import opened NoteText
  import opened CanonicalJson

  const PAIRING_LIFETIME: int := 10 * MINUTE
  const DEVICE_SESSION_LIFETIME: int := 8 * 60 * MINUTE
  const CODE_ATTEMPTS: nat := 20
  const CODE_COUNT: nat := 100_000_000

  datatype PairingError =
    | PairingCodeGenerationFailed
    | PairingCodeInvalid
    | PairingCodeAlreadyUsed
    | PairingCodeExpired
    | MobileDeviceNotPaired
    | MobileDeviceSessionExpired
    | MobileDeviceTokenInvalid

  datatype PairingRecord = PairingRecord(
    pairingId: Uuid,
    code: string,
    session: Uuid,
    expiresAt: Instant,
    consumed: bool)

  datatype DeviceRecord = DeviceRecord(
    deviceId: Uuid,
    deviceLabel: string,
    session: Uuid,
    tokenSha256: string,
    expiresAt: Instant)

  datatype PairingChallenge = PairingChallenge(pairingId: Uuid, code: string, expiresAt: Instant)

  datatype DeviceSession = DeviceSession(deviceId: Uuid, deviceLabel: string, token: string, expiresAt: Instant)

  datatype Gateway = Gateway(pairings: map<string, PairingRecord>, devices: map<Uuid, DeviceRecord>)

  /* Codes. */

  function ZeroPad(s: string, width: nat): string
    decreases width - |s|
  {
    if width <= |s| then s else ZeroPad("0" + s, width)
  }

  /** The eight-digit code of a drawn number. */
  function CodeOf(n: nat): string {
    ZeroPad(Digits(n), 8)
  }

  predicate IsCode(code: string) {
    |code| == 8 && forall i :: 0 <= i < 8 ==> IsDigit(code[i])
  }

  function Pow10(k: nat): nat {
    if k == 0 then 1 else 10 * Pow10(k - 1)
  }

  lemma {:induction false} DigitsFit(n: nat, k: nat)
    requires 0 < k && n < Pow10(k)
    ensures |Digits(n)| <= k
    ensures forall i :: 0 <= i < |Digits(n)| ==> IsDigit(Digits(n)[i])
  {
    if n >= 10 {
      assert k > 1 by {
        assert Pow10(1) == 10;
      }
      DigitsFit(n / 10, k - 1);
    }
  }

  lemma {:induction false} PaddingFills(s: string, width: nat)
    requires |s| <= width
    requires forall i :: 0 <= i < |s| ==> IsDigit(s[i])
    ensures |ZeroPad(s, width)| == width
    ensures forall i :: 0 <= i < width ==> IsDigit(ZeroPad(s, width)[i])
    ensures ReadDigits(ZeroPad(s, width), 0) == ReadDigits(s, 0)
    decreases width - |s|
  {
    if |s| < width {
      PaddingFills("0" + s, width);
      assert ("0" + s)[1..] == s;
    }
  }

  /** A drawn number gives a code of eight digits, from which the number can be read back. */
  lemma CodeRoundTrip(n: nat)
    requires n < CODE_COUNT
    ensures IsCode(CodeOf(n))
    ensures ReadDigits(CodeOf(n), 0) == (n, "")
  {
    assert Pow10(8) == CODE_COUNT by {
      assert Pow10(4) == 10000;
    }
    DigitsFit(n, 8);
    PaddingFills(Digits(n), 8);
    DigitsRoundTrip(n, "");
    assert Digits(n) + "" == Digits(n);
  }

  /** The code of the first drawn number that is not in use. */
  function FirstUnused(draws: seq<nat>, used: set<string>): Option<string> {
    if draws == [] then None
    else if CodeOf(draws[0]) !in used then Some(CodeOf(draws[0]))
    else FirstUnused(draws[1..], used)
  }

  /* The operations. */

  /** The challenges that have not expired. */
  function Unexpired(pairings: map<string, PairingRecord>, now: Instant): map<string, PairingRecord> {
    map code | code in pairings && now < pairings[code].expiresAt :: pairings[code]
  }

  /** The draws are what the random source gives, as many as the loop can use. */
  predicate GoodDraws(draws: seq<nat>) {
    |draws| == CODE_ATTEMPTS && forall i :: 0 <= i < |draws| ==> draws[i] < CODE_COUNT
  }

  function CreatePairing(g: Gateway, session: Uuid, draws: seq<nat>, now: Instant)
    : (Result<PairingChallenge, PairingError>, Gateway)
  {
    var pairings := Unexpired(g.pairings, now);
    match FirstUnused(draws, pairings.Keys)
    case None => (Failure(PairingCodeGenerationFailed), g.(pairings := pairings))
    case Some(code) =>
      var record := PairingRecord(PairingId(session, code, now), code, session, now + PAIRING_LIFETIME, false);
      (Success(PairingChallenge(record.pairingId, code, record.expiresAt)), g.(pairings := pairings[code := record]))
  }

  function Pair(g: Gateway, code: string, deviceLabel: string, token: string, now: Instant)
    : (Result<DeviceSession, PairingError>, Gateway)
  {
    if code !in g.pairings then (Failure(PairingCodeInvalid), g)
    else
      var record := g.pairings[code];
      if record.consumed then (Failure(PairingCodeAlreadyUsed), g)
      else if record.expiresAt <= now then (Failure(PairingCodeExpired), g)
      else
        var id := MobileDeviceId(record.session, deviceLabel, token);
        var device := DeviceRecord(
          id, Strip(deviceLabel, IsSpace), record.session, Sha256(token), now + DEVICE_SESSION_LIFETIME);
        (Success(DeviceSession(id, device.deviceLabel, token, device.expiresAt)),
         Gateway(g.pairings[code := record.(consumed := true)], g.devices[id := device]))
  }

  function Authenticate(g: Gateway, id: Uuid, token: string, now: Instant): (Result<Uuid, PairingError>, Gateway) {
    if id !in g.devices then (Failure(MobileDeviceNotPaired), g)
    else
      var record := g.devices[id];
      if record.expiresAt <= now then (Failure(MobileDeviceSessionExpired), g.(devices := g.devices - {id}))
      else if record.tokenSha256 != Sha256(token) then (Failure(MobileDeviceTokenInvalid), g)
      else (Success(record.session), g)
  }

  function Revoke(g: Gateway, id: Uuid): Gateway {
    g.(devices := g.devices - {id})
  }

  /** The loop of twenty draws finds a code unless all of them are in use. */
  lemma {:induction false} UnusedCode(draws: seq<nat>, used: set<string>)
    requires forall i :: 0 <= i < |draws| ==> draws[i] < CODE_COUNT
    ensures FirstUnused(draws, used).None? <==> forall i :: 0 <= i < |draws| ==> CodeOf(draws[i]) in used
    ensures FirstUnused(draws, used).Some? ==>
              && FirstUnused(draws, used).value !in used && IsCode(FirstUnused(draws, used).value)
              && exists i :: && 0 <= i < |draws| && FirstUnused(draws, used).value == CodeOf(draws[i])
                             && forall j :: 0 <= j < i ==> CodeOf(draws[j]) in used
  {
    if draws != [] {
      CodeRoundTrip(draws[0]);
      UnusedCode(draws[1..], used);
      assert forall i :: 0 < i < |draws| ==> draws[i] == draws[1..][i - 1];
      if CodeOf(draws[0]) in used && FirstUnused(draws[1..], used).Some? {
        var i :| && 0 <= i < |draws[1..]| && FirstUnused(draws[1..], used).value == CodeOf(draws[1..][i])
                 && forall j :: 0 <= j < i ==> CodeOf(draws[1..][j]) in used;
        assert draws[i + 1] == draws[1..][i];
      }
    }
  }

  /**
   * Creating a challenge either stores it, for ten minutes, under the first drawn code that no unexpired challenge has,
   * and answers its id, code and expiry, or fails because all twenty draws are taken by unexpired ones. Either way
   * exactly the expired challenges are gone, and no device changes.
   */
  lemma CreateFindsCode(g: Gateway, session: Uuid, draws: seq<nat>, now: Instant)
    requires GoodDraws(draws)
    ensures var (r, g') := CreatePairing(g, session, draws, now);
            && g'.devices == g.devices
            && (r.Failure? <==> forall i :: 0 <= i < 20 ==> IsTaken(g, CodeOf(draws[i]), now))
            && (r.Failure? ==> r.error == PairingCodeGenerationFailed)
            && (forall code :: code in g.pairings && (r.Success? ==> code != r.value.code) ==>
                                 (code in g'.pairings <==> now < g.pairings[code].expiresAt))
            && (forall code :: code in g.pairings && code in g'.pairings && (r.Success? ==> code != r.value.code) ==>
                                 g'.pairings[code] == g.pairings[code])
            && (r.Success? ==>
                  && IsCode(r.value.code)
                  && (exists i :: && 0 <= i < 20 && r.value.code == CodeOf(draws[i])
                                  && !IsTaken(g, CodeOf(draws[i]), now)
                                  && forall j :: 0 <= j < i ==> IsTaken(g, CodeOf(draws[j]), now))
                  && r.value == PairingChallenge(
                                  PairingId(session, r.value.code, now), r.value.code, now + 600_000_000)
                  && g'.pairings.Keys == Unexpired(g.pairings, now).Keys + {r.value.code}
                  && g'.pairings[r.value.code] == PairingRecord(
                                                    r.value.pairingId, r.value.code, session, r.value.expiresAt,
                                                    false))
  {
    UnusedCode(draws, Unexpired(g.pairings, now).Keys);
    assert forall i :: 0 <= i < 20 ==>
             (IsTaken(g, CodeOf(draws[i]), now) <==> CodeOf(draws[i]) in Unexpired(g.pairings, now).Keys);
  }

  /** A challenge that has not expired has the code. */
  predicate IsTaken(g: Gateway, code: string, now: Instant) {
    code in g.pairings && now < g.pairings[code].expiresAt
  }

  /* Whole runs. */

  /**
   * A challenge that was issued, by the create at a position, and a device that was paired from the challenge at one.
   */
  datatype Issue = Issue(code: string, session: Uuid, at: Instant, create: nat)

  datatype Pairing = Pairing(challenge: nat, device: Uuid, token: string, at: Instant)

  /**
   * The gateway with its history: the readings of all creates, every challenge ever issued and every device ever
   * paired, in order; which devices were ended by a call; the last challenge issued under each code, and the pairing
   * of each device.
   */
  datatype State = State(
    gateway: Gateway,
    creates: seq<Instant>,
    issued: seq<Issue>,
    paired: seq<Pairing>,
    removed: set<Uuid>,
    latest: map<string, nat>,
    source: map<Uuid, nat>)

  function EmptyState(): State {
    State(Gateway(map[], map[]), [], [], [], {}, map[], map[])
  }

  datatype Operation =
    | DoCreate(session: Uuid, draws: seq<nat>, now: Instant)
    | DoPair(code: string, deviceLabel: string, token: string, now: Instant)
    | DoAuthenticate(id: Uuid, token: string, now: Instant)
    | DoRevoke(id: Uuid)

  function Take(s: State, op: Operation): State {
    match op
    case DoCreate(session, draws, now) =>
      var (r, g) := CreatePairing(s.gateway, session, draws, now);
      if r.Failure? then s.(gateway := g, creates := s.creates + [now])
      else
        s.(gateway := g,
           creates := s.creates + [now],
           issued := s.issued + [Issue(r.value.code, session, now, |s.creates|)],
           latest := s.latest[r.value.code := |s.issued|])
    case DoPair(code, deviceLabel, token, now) =>
      var (r, g) := Pair(s.gateway, code, deviceLabel, token, now);
      if r.Failure? || code !in s.latest then s.(gateway := g)
      else
        s.(gateway := g,
           paired := s.paired + [Pairing(s.latest[code], r.value.deviceId, token, now)],
           source := s.source[r.value.deviceId := |s.paired|])
    case DoAuthenticate(id, token, now) =>
      s.(gateway := Authenticate(s.gateway, id, token, now).1,
         removed := if Ends(s.source, s.paired, op, id) then s.removed + {id} else s.removed)
    case DoRevoke(id) =>
      s.(gateway := Revoke(s.gateway, id),
         removed := if Ends(s.source, s.paired, op, id) then s.removed + {id} else s.removed)
  }

  /**
   * The operation ends the device's session, by what is asked and not by what it does: it revokes the paired device,
   * or it authenticates the device at a reading at or past its eight hours.
   */
  predicate Ends(source: map<Uuid, nat>, paired: seq<Pairing>, op: Operation, id: Uuid) {
    && id in source && source[id] < |paired|
    && match op
       case DoRevoke(device) => device == id
       case DoAuthenticate(device, _, now) => device == id && paired[source[id]].at + DEVICE_SESSION_LIFETIME <= now
       case _ => false
  }

  /** Draws come from the random source, and a token that is minted was never minted before. */
  predicate CanTake(s: State, op: Operation) {
    match op
    case DoCreate(_, draws, _) => GoodDraws(draws)
    case DoPair(_, _, token, _) => forall j :: 0 <= j < |s.paired| ==> s.paired[j].token != token
    case _ => true
  }

  ghost predicate Used(paired: seq<Pairing>, challenge: nat) {
    exists j :: 0 <= j < |paired| && paired[j].challenge == challenge
  }

  /** The last challenge under a code is the last one issued with it. */
  ghost predicate LatestHolds(issued: seq<Issue>, latest: map<string, nat>) {
    && (forall code :: code in latest ==> latest[code] < |issued| && issued[latest[code]].code == code)
    && (forall k, code :: 0 <= k < |issued| && issued[k].code == code ==> code in latest && k <= latest[code])
  }

  ghost predicate RecordFits(record: PairingRecord, issue: Issue) {
    record == PairingRecord(
                PairingId(issue.session, issue.code, issue.at), issue.code, issue.session, issue.at + PAIRING_LIFETIME,
                record.consumed)
  }

  /**
   * Stored challenges are the last ones issued under their codes, and are consumed exactly when they paired a device.
   */
  ghost predicate PairingsHold(
    pairings: map<string, PairingRecord>, issued: seq<Issue>, latest: map<string, nat>, paired: seq<Pairing>)
  {
    forall code :: code in pairings ==>
                     && code in latest && latest[code] < |issued|
                     && issued[latest[code]].code == code
                     && RecordFits(pairings[code], issued[latest[code]])
                     && (pairings[code].consumed <==> Used(paired, latest[code]))
  }

  /**
   * Every device was paired from a challenge before it expired, with a token of its own, and no challenge paired two.
   */
  ghost predicate PairedHold(paired: seq<Pairing>, issued: seq<Issue>) {
    && (forall j :: 0 <= j < |paired| ==>
                      && paired[j].challenge < |issued|
                      && paired[j].at < issued[paired[j].challenge].at + PAIRING_LIFETIME
                      && paired[j].device.MobileDeviceId?
                      && paired[j].device.token == paired[j].token)
    && (forall i, j :: 0 <= i < j < |paired| ==>
                         paired[i].challenge != paired[j].challenge && paired[i].token != paired[j].token)
  }

  ghost predicate DeviceFits(record: DeviceRecord, pairing: Pairing, issued: seq<Issue>) {
    && pairing.challenge < |issued|
    && record.session == issued[pairing.challenge].session
    && record.tokenSha256 == Sha256(pairing.token)
    && record.expiresAt == pairing.at + DEVICE_SESSION_LIFETIME
  }

  /** Stored devices are the paired ones that were not removed. */
  ghost predicate DevicesHold(
    devices: map<Uuid, DeviceRecord>, source: map<Uuid, nat>, removed: set<Uuid>, paired: seq<Pairing>,
    issued: seq<Issue>)
  {
    && (forall id :: id in devices <==> id in source && id !in removed)
    && (forall id :: id in source ==> source[id] < |paired| && paired[source[id]].device == id)
    && (forall j, id :: 0 <= j < |paired| && paired[j].device == id ==> id in source && source[id] == j)
    && (forall id :: id in removed ==> id in source)
    && (forall id :: id in devices ==> DeviceFits(devices[id], paired[source[id]], issued))
  }

  ghost predicate GatewayInv(s: State) {
    && LatestHolds(s.issued, s.latest)
    && PairingsHold(s.gateway.pairings, s.issued, s.latest, s.paired)
    && PairedHold(s.paired, s.issued)
    && DevicesHold(s.gateway.devices, s.source, s.removed, s.paired, s.issued)
  }

  lemma EmptyHolds()
    ensures GatewayInv(EmptyState())
  {
    EmptyParts();
  }

  lemma EmptyParts()
    ensures LatestHolds([], map[]) && PairingsHold(map[], [], map[], []) && PairedHold([], [])
    ensures DevicesHold(map[], map[], {}, [], [])
  {
  }

  /* Creating a challenge. */

  lemma IssuingKeepsLatest(issued: seq<Issue>, latest: map<string, nat>, issue: Issue)
    requires LatestHolds(issued, latest)
    ensures LatestHolds(issued + [issue], latest[issue.code := |issued|])
  {
  }

  lemma IssuingKeepsPaired(paired: seq<Pairing>, issued: seq<Issue>, issue: Issue)
    requires PairedHold(paired, issued)
    ensures PairedHold(paired, issued + [issue])
    ensures !Used(paired, |issued|)
  {
  }

  lemma IssuingKeepsDevices(
    devices: map<Uuid, DeviceRecord>, source: map<Uuid, nat>, removed: set<Uuid>, paired: seq<Pairing>,
    issued: seq<Issue>, issue: Issue)
    requires DevicesHold(devices, source, removed, paired, issued)
    ensures DevicesHold(devices, source, removed, paired, issued + [issue])
  {
    forall id | id in devices
      ensures DeviceFits(devices[id], paired[source[id]], issued + [issue])
    {
      assert DeviceFits(devices[id], paired[source[id]], issued);
    }
  }

  lemma PurgingKeepsPairings(
    pairings: map<string, PairingRecord>, issued: seq<Issue>, latest: map<string, nat>, paired: seq<Pairing>,
    now: Instant)
    requires PairingsHold(pairings, issued, latest, paired)
    ensures PairingsHold(Unexpired(pairings, now), issued, latest, paired)
  {
    hide Used, RecordFits;
  }

  lemma IssuingKeepsPairings(
    pairings: map<string, PairingRecord>, issued: seq<Issue>, latest: map<string, nat>, paired: seq<Pairing>,
    record: PairingRecord, issue: Issue)
    requires PairingsHold(pairings, issued, latest, paired)
    requires RecordFits(record, issue) && !record.consumed
    requires !Used(paired, |issued|)
    ensures PairingsHold(pairings[issue.code := record], issued + [issue], latest[issue.code := |issued|], paired)
  {
    hide Used, RecordFits;
  }

  lemma CreateKeeps(s: State, op: Operation)
    requires GatewayInv(s) && op.DoCreate?
    ensures GatewayInv(Take(s, op))
  {
    hide FirstUnused, LatestHolds, PairingsHold, PairedHold, DevicesHold, Unexpired, Used;
    PurgingKeepsPairings(s.gateway.pairings, s.issued, s.latest, s.paired, op.now);
    var (r, g) := CreatePairing(s.gateway, op.session, op.draws, op.now);
    if r.Success? {
      var issue := Issue(r.value.code, op.session, op.now, |s.creates|);
      IssuingKeepsLatest(s.issued, s.latest, issue);
      IssuingKeepsPaired(s.paired, s.issued, issue);
      IssuingKeepsDevices(s.gateway.devices, s.source, s.removed, s.paired, s.issued, issue);
      IssuingKeepsPairings(
        Unexpired(s.gateway.pairings, op.now), s.issued, s.latest, s.paired, g.pairings[r.value.code], issue);
    }
  }

  /* Pairing a device. */

  lemma PairingUses(paired: seq<Pairing>, p: Pairing, k: nat)
    ensures Used(paired + [p], k) <==> Used(paired, k) || k == p.challenge
  {
    var paired' := paired + [p];
    if Used(paired, k) {
      var j :| 0 <= j < |paired| && paired[j].challenge == k;
      assert paired'[j].challenge == k;
    }
    assert paired'[|paired|] == p;
  }

  lemma PairingKeepsPairings(
    pairings: map<string, PairingRecord>, issued: seq<Issue>, latest: map<string, nat>, paired: seq<Pairing>,
    code: string, p: Pairing)
    requires PairingsHold(pairings, issued, latest, paired)
    requires code in pairings && code in latest && latest[code] == p.challenge
    ensures PairingsHold(pairings[code := pairings[code].(consumed := true)], issued, latest, paired + [p])
  {
    hide Used;
    forall c | c in pairings
      ensures c in latest && (Used(paired + [p], latest[c]) <==> Used(paired, latest[c]) || c == code)
    {
      PairingUses(paired, p, latest[c]);
    }
  }

  lemma PairingKeepsPaired(paired: seq<Pairing>, issued: seq<Issue>, p: Pairing)
    requires PairedHold(paired, issued)
    requires p.challenge < |issued| && p.at < issued[p.challenge].at + PAIRING_LIFETIME
    requires p.device.MobileDeviceId? && p.device.token == p.token
    requires !Used(paired, p.challenge)
    requires forall j :: 0 <= j < |paired| ==> paired[j].token != p.token
    ensures PairedHold(paired + [p], issued)
    ensures forall j :: 0 <= j < |paired| ==> paired[j].device != p.device
  {
  }

  lemma PairingKeepsDevices(
    devices: map<Uuid, DeviceRecord>, source: map<Uuid, nat>, removed: set<Uuid>, paired: seq<Pairing>,
    issued: seq<Issue>, p: Pairing, record: DeviceRecord)
    requires DevicesHold(devices, source, removed, paired, issued)
    requires DeviceFits(record, p, issued)
    requires forall j :: 0 <= j < |paired| ==> paired[j].device != p.device
    ensures DevicesHold(devices[p.device := record], source[p.device := |paired|], removed, paired + [p], issued)
  {
    hide DeviceFits;
    assert p.device !in source;
  }

  lemma PairKeeps(s: State, op: Operation)
    requires GatewayInv(s) && CanTake(s, op) && op.DoPair?
    ensures GatewayInv(Take(s, op))
  {
    hide LatestHolds, PairedHold, DevicesHold, Strip, Sha256, Used;
    var (r, g) := Pair(s.gateway, op.code, op.deviceLabel, op.token, op.now);
    if r.Success? {
      var p := Pairing(s.latest[op.code], r.value.deviceId, op.token, op.now);
      PairingKeepsPairings(s.gateway.pairings, s.issued, s.latest, s.paired, op.code, p);
      PairingKeepsPaired(s.paired, s.issued, p);
      PairingKeepsDevices(
        s.gateway.devices, s.source, s.removed, s.paired, s.issued, p, g.devices[r.value.deviceId]);
    }
  }

  /* Removing a device. */

  lemma RemovingKeepsDevices(
    devices: map<Uuid, DeviceRecord>, source: map<Uuid, nat>, removed: set<Uuid>, paired: seq<Pairing>,
    issued: seq<Issue>, id: Uuid)
    requires DevicesHold(devices, source, removed, paired, issued)
    ensures DevicesHold(
              devices - {id}, source, if id in source then removed + {id} else removed, paired, issued)
  {
    hide DeviceFits;
  }

  /** A paired device's session has ended exactly when its record says so. */
  lemma EndIsExpiry(
    devices: map<Uuid, DeviceRecord>, source: map<Uuid, nat>, removed: set<Uuid>, paired: seq<Pairing>,
    issued: seq<Issue>, id: Uuid)
    requires DevicesHold(devices, source, removed, paired, issued) && id in devices
    ensures id in source && source[id] < |paired|
    ensures devices[id].expiresAt == paired[source[id]].at + DEVICE_SESSION_LIFETIME
  {
    assert DeviceFits(devices[id], paired[source[id]], issued);
  }

  /** A removed device that is named again: nothing changes. */
  lemma RemovedAlready(
    devices: map<Uuid, DeviceRecord>, source: map<Uuid, nat>, removed: set<Uuid>, paired: seq<Pairing>,
    issued: seq<Issue>, id: Uuid)
    requires DevicesHold(devices, source, removed, paired, issued) && id !in devices
    ensures id in source ==> id in removed && source[id] < |paired|
    ensures id in source ==> removed + {id} == removed
    ensures devices - {id} == devices
  {
    hide DeviceFits;
  }

  lemma RemovalKeeps(s: State, op: Operation)
    requires GatewayInv(s) && (op.DoAuthenticate? || op.DoRevoke?)
    ensures GatewayInv(Take(s, op))
  {
    hide LatestHolds, PairingsHold, PairedHold, DevicesHold, Sha256;
    RemovingKeepsDevices(s.gateway.devices, s.source, s.removed, s.paired, s.issued, op.id);
    if op.id in s.gateway.devices {
      EndIsExpiry(s.gateway.devices, s.source, s.removed, s.paired, s.issued, op.id);
    } else {
      RemovedAlready(s.gateway.devices, s.source, s.removed, s.paired, s.issued, op.id);
    }
  }

  lemma TakeKeeps(s: State, op: Operation)
    requires GatewayInv(s) && CanTake(s, op)
    ensures GatewayInv(Take(s, op))
  {
    hide GatewayInv, CanTake, Take;
    match op
    case DoCreate(_, _, _) => CreateKeeps(s, op);
    case DoPair(_, _, _, _) => PairKeeps(s, op);
    case _ => RemovalKeeps(s, op);
  }

  /* Theorems. */

  function Run(ops: seq<Operation>): State {
    if ops == [] then EmptyState() else Take(Run(ops[..|ops| - 1]), ops[|ops| - 1])
  }

  ghost predicate CanRun(ops: seq<Operation>) {
    ops == [] || (CanRun(ops[..|ops| - 1]) && CanTake(Run(ops[..|ops| - 1]), ops[|ops| - 1]))
  }

  lemma {:induction false} RunHolds(ops: seq<Operation>)
    requires CanRun(ops)
    ensures GatewayInv(Run(ops))
  {
    hide GatewayInv, Take, CanTake;
    if ops == [] {
      EmptyHolds();
    } else {
      RunHolds(ops[..|ops| - 1]);
      TakeKeeps(Run(ops[..|ops| - 1]), ops[|ops| - 1]);
    }
  }

  /**
   * In every run, whatever the clock does, each challenge yields at most one device, paired before the challenge
   * expired.
   */
  lemma OneDevicePerChallenge(ops: seq<Operation>, i: nat, j: nat)
    requires CanRun(ops) && i < |Run(ops).paired| && j < |Run(ops).paired|
    ensures var s := Run(ops);
            && (s.paired[i].challenge == s.paired[j].challenge ==> i == j)
            && (s.paired[i].device == s.paired[j].device ==> i == j)
            && s.paired[i].challenge < |s.issued|
            && s.paired[i].at < s.issued[s.paired[i].challenge].at + PAIRING_LIFETIME
  {
    hide Run, CanRun, LatestHolds, PairingsHold, DevicesHold;
    RunHolds(ops);
  }

  /** Two stored challenges have different codes, and a code names the last challenge that was issued with it. */
  lemma StoredCodesAreDistinct(ops: seq<Operation>, a: string, b: string)
    requires CanRun(ops) && a in Run(ops).gateway.pairings && b in Run(ops).gateway.pairings && a != b
    ensures var s := Run(ops);
            && s.gateway.pairings[a].code == a && s.gateway.pairings[b].code == b
            && s.gateway.pairings[a].pairingId != s.gateway.pairings[b].pairingId
            && a in s.latest && b in s.latest && s.latest[a] != s.latest[b]
            && forall k :: s.latest[a] < k < |s.issued| ==> s.issued[k].code != a
  {
    hide Run, CanRun, PairedHold, DevicesHold, Used;
    RunHolds(ops);
  }

  /**
   * A device was paired from a challenge of a session with this token, has not been removed, and its time is not over.
   */
  ghost predicate IsPairedTo(s: State, id: Uuid, token: string, now: Instant, session: Uuid) {
    exists j :: 0 <= j < |s.paired| && Entitles(s, s.paired[j], id, token, now, session)
  }

  ghost predicate Entitles(s: State, p: Pairing, id: Uuid, token: string, now: Instant, session: Uuid) {
    id !in s.removed && PairedAs(s, p, id, token, now, session)
  }

  ghost predicate PairedAs(s: State, p: Pairing, id: Uuid, token: string, now: Instant, session: Uuid) {
    && p.device == id && p.token == token
    && now < p.at + DEVICE_SESSION_LIFETIME
    && p.challenge < |s.issued| && s.issued[p.challenge].session == session
  }

  /** The call at position k ended the device's session. */
  ghost predicate EndedAt(ops: seq<Operation>, k: nat, id: Uuid)
    requires k < |ops|
  {
    var s := Run(ops[..k]);
    Ends(s.source, s.paired, ops[k], id)
  }

  /**
   * Some call so far revoked the device while it was paired, or authenticated it at a reading at or past its eight
   * hours.
   */
  ghost predicate Ended(ops: seq<Operation>, id: Uuid) {
    exists k :: 0 <= k < |ops| && EndedAt(ops, k, id)
  }

  /** Exactly these calls remove a device. */
  lemma {:induction false} RemovedExactly(ops: seq<Operation>, id: Uuid)
    ensures id in Run(ops).removed <==> Ended(ops, id)
  {
    hide CreatePairing, Pair, Authenticate, Revoke, Ends;
    if ops != [] {
      var before := ops[..|ops| - 1];
      RemovedExactly(before, id);
      forall k | 0 <= k < |before|
        ensures EndedAt(ops, k, id) <==> EndedAt(before, k, id)
      {
        assert ops[..k] == before[..k];
      }
      RemovedByLast(Run(before), ops[|ops| - 1], id);
      assert EndedAt(ops, |before|, id) <==> Ends(Run(before).source, Run(before).paired, ops[|ops| - 1], id);
    }
  }

  lemma RemovedByLast(s: State, op: Operation, id: Uuid)
    ensures id in Take(s, op).removed <==> id in s.removed || Ends(s.source, s.paired, op, id)
  {
    hide CreatePairing, Pair, Authenticate, Revoke;
  }

  /**
   * Authenticating gives a session exactly to a device that was paired from one of the session's challenges, with this
   * token, whose eight hours are not over at the reading, and that no call has revoked or met past its eight hours.
   */
  lemma AuthenticateIsExact(ops: seq<Operation>, id: Uuid, token: string, now: Instant, session: Uuid)
    requires CanRun(ops)
    ensures var s := Run(ops);
            Authenticate(s.gateway, id, token, now).0 == Success(session) <==>
              && !Ended(ops, id)
              && exists j :: 0 <= j < |s.paired| && PairedAs(s, s.paired[j], id, token, now, session)
  {
    hide Run, CanRun, GatewayInv, Authenticate, Ended, PairedAs;
    RunHolds(ops);
    AuthenticateHolds(Run(ops), id, token, now, session);
    RemovedExactly(ops, id);
  }

  lemma AuthenticateHolds(s: State, id: Uuid, token: string, now: Instant, session: Uuid)
    requires GatewayInv(s)
    ensures Authenticate(s.gateway, id, token, now).0 == Success(session) <==> IsPairedTo(s, id, token, now, session)
  {
    hide LatestHolds, PairingsHold, PairedHold, Sha256;
    if id in s.gateway.devices {
      var p := s.paired[s.source[id]];
      assert DeviceFits(s.gateway.devices[id], p, s.issued);
      if Sha256(p.token) == Sha256(token) {
        Sha256IsInjective(p.token, token);
      }
      assert Authenticate(s.gateway, id, token, now).0 == Success(session) <==> Entitles(s, p, id, token, now, session);
    }
  }

  /**
   * What authenticating answers: a device that was never paired, or that a call has ended, is not paired; of any other
   * the session is over after its eight hours, then a token that is not its own is invalid.
   */
  lemma AuthenticateAnswer(ops: seq<Operation>, id: Uuid, token: string, now: Instant)
    requires CanRun(ops)
    ensures var s := Run(ops);
            var (r, g) := Authenticate(s.gateway, id, token, now);
            && g.pairings == s.gateway.pairings
            && (r != Failure(MobileDeviceSessionExpired) ==> g == s.gateway)
            && (Ended(ops, id) || !(exists j :: 0 <= j < |s.paired| && s.paired[j].device == id) ==>
                  r == Failure(MobileDeviceNotPaired))
            && (forall j :: 0 <= j < |s.paired| && s.paired[j].device == id && !Ended(ops, id) ==>
                              && s.paired[j].challenge < |s.issued|
                              && r == if s.paired[j].at + 28_800_000_000 <= now then Failure(MobileDeviceSessionExpired)
                                      else if token != s.paired[j].token then Failure(MobileDeviceTokenInvalid)
                                      else Success(s.issued[s.paired[j].challenge].session))
  {
    hide Run, CanRun, Ended, Sha256, LatestHolds, PairingsHold, PairedHold;
    RunHolds(ops);
    RemovedExactly(ops, id);
    var s := Run(ops);
    forall j | 0 <= j < |s.paired| && s.paired[j].device == id && !Ended(ops, id)
      ensures id in s.gateway.devices && s.source[id] == j && DeviceFits(s.gateway.devices[id], s.paired[j], s.issued)
      ensures Sha256(s.paired[j].token) == Sha256(token) ==> s.paired[j].token == token
    {
      if Sha256(s.paired[j].token) == Sha256(token) {
        Sha256IsInjective(s.paired[j].token, token);
      }
    }
  }

  /** A device that a call revoked, or met past its eight hours, never authenticates again. */
  lemma RemovedStays(ops: seq<Operation>, more: seq<Operation>, id: Uuid)
    requires CanRun(ops + more) && Ended(ops, id)
    ensures Ended(ops + more, id)
    ensures forall token, now ::
              Authenticate(Run(ops + more).gateway, id, token, now).0 == Failure(MobileDeviceNotPaired)
  {
    hide Run, CanRun, GatewayInv, Ended;
    RemovedExactly(ops, id);
    RemovedGrowsAlong(ops, more);
    RemovedExactly(ops + more, id);
    RunHolds(ops + more);
    RemovedIsGone(Run(ops + more), id);
  }

  lemma {:induction false} RemovedGrowsAlong(ops: seq<Operation>, more: seq<Operation>)
    ensures Run(ops).removed <= Run(ops + more).removed
    decreases |more|
  {
    hide Take;
    if more == [] {
      assert ops + more == ops;
    } else {
      assert (ops + more)[..|ops + more| - 1] == ops + more[..|more| - 1];
      RemovedGrowsAlong(ops, more[..|more| - 1]);
      RemovedGrows(Run(ops + more[..|more| - 1]), more[|more| - 1]);
    }
  }

  lemma RemovedGrows(s: State, op: Operation)
    ensures s.removed <= Take(s, op).removed
  {
    hide CreatePairing, Pair, Authenticate;
  }

  lemma RemovedIsGone(s: State, id: Uuid)
    requires GatewayInv(s) && id in s.removed
    ensures id !in s.gateway.devices
  {
    hide LatestHolds, PairingsHold, PairedHold, DeviceFits;
  }

  /* Agreement with a log that forgets nothing. */

  /** No create since read an instant at or past the challenge's expiry. */
  ghost predicate Kept(issue: Issue, creates: seq<Instant>) {
    forall m :: issue.create < m < |creates| ==> creates[m] < issue.at + PAIRING_LIFETIME
  }

  /** What is stored, for any readings: exactly the challenges that no create has purged. */
  ghost predicate StoredExactly(
    pairings: map<string, PairingRecord>, issued: seq<Issue>, latest: map<string, nat>, creates: seq<Instant>)
  {
    && (forall k :: 0 <= k < |issued| ==> issued[k].create < |creates|)
    && (forall k :: 0 <= k < |issued| ==>
                      (IsStored(pairings, latest, issued[k], k) <==> Kept(issued[k], creates)))
  }

  ghost predicate IsStored(
    pairings: map<string, PairingRecord>, latest: map<string, nat>, issue: Issue, k: nat)
  {
    issue.code in pairings && issue.code in latest && latest[issue.code] == k
  }

  ghost predicate StoreHolds(s: State) {
    StoredExactly(s.gateway.pairings, s.issued, s.latest, s.creates)
  }

  lemma ReadingPurges(issue: Issue, creates: seq<Instant>, now: Instant)
    requires issue.create < |creates|
    ensures Kept(issue, creates + [now]) <==> Kept(issue, creates) && now < issue.at + PAIRING_LIFETIME
  {
    var more := creates + [now];
    assert more[|creates|] == now;
    assert forall m :: 0 <= m < |creates| ==> more[m] == creates[m];
  }

  lemma CreatingKeepsStore(s: State, op: Operation)
    requires GatewayInv(s) && CanTake(s, op) && op.DoCreate? && StoreHolds(s)
    ensures StoreHolds(Take(s, op))
  {
    hide LatestHolds, PairedHold, DevicesHold, Used, FirstUnused, Kept, Unexpired;
    CreateFindsCode(s.gateway, op.session, op.draws, op.now);
    var s' := Take(s, op);
    forall k | 0 <= k < |s'.issued|
      ensures s'.issued[k].create < |s'.creates|
      ensures IsStored(s'.gateway.pairings, s'.latest, s'.issued[k], k) <==> Kept(s'.issued[k], s'.creates)
    {
      if k < |s.issued| {
        assert s'.issued[k] == s.issued[k];
        OldChallenge(s, op, k);
      } else {
        NewIsKept(s'.issued[k], s'.creates);
      }
    }
  }

  /** A challenge that was stored stays so exactly when the create's reading does not reach its expiry. */
  lemma OldChallenge(s: State, op: Operation, k: nat)
    requires GatewayInv(s) && CanTake(s, op) && op.DoCreate? && StoreHolds(s) && k < |s.issued|
    ensures var s' := Take(s, op);
            IsStored(s'.gateway.pairings, s'.latest, s.issued[k], k) <==> Kept(s.issued[k], s'.creates)
  {
    hide LatestHolds, PairedHold, DevicesHold, Used, FirstUnused, Kept;
    CreateFindsCode(s.gateway, op.session, op.draws, op.now);
    ReadingPurges(s.issued[k], s.creates, op.now);
    assert IsStored(s.gateway.pairings, s.latest, s.issued[k], k) <==> Kept(s.issued[k], s.creates);
    var code := s.issued[k].code;
    if IsStored(s.gateway.pairings, s.latest, s.issued[k], k) {
      assert RecordFits(s.gateway.pairings[code], s.issued[k]);
    }
  }

  lemma NewIsKept(issue: Issue, creates: seq<Instant>)
    requires issue.create == |creates| - 1
    ensures Kept(issue, creates)
  {
  }

  lemma OthersKeepStore(s: State, op: Operation)
    requires StoreHolds(s) && !op.DoCreate?
    ensures StoreHolds(Take(s, op))
  {
    hide Strip, Sha256, Kept;
  }

  lemma {:induction false} RunKeepsStore(ops: seq<Operation>)
    requires CanRun(ops)
    ensures StoreHolds(Run(ops))
  {
    hide StoreHolds, GatewayInv, Take, CanTake;
    if ops == [] {
      EmptyStore();
    } else {
      var before, last := ops[..|ops| - 1], ops[|ops| - 1];
      RunHolds(before);
      RunKeepsStore(before);
      if last.DoCreate? {
        CreatingKeepsStore(Run(before), last);
      } else {
        OthersKeepStore(Run(before), last);
      }
    }
  }

  lemma EmptyStore()
    ensures StoreHolds(EmptyState())
  {
  }

  /** A challenge with this code that has not expired and has paired nothing. */
  ghost predicate Open(s: State, k: nat, code: string, now: Instant) {
    && k < |s.issued| && s.issued[k].code == code
    && now < s.issued[k].at + PAIRING_LIFETIME
    && !Used(s.paired, k)
  }

  ghost predicate OpenAndKept(s: State, k: nat, code: string, now: Instant) {
    Open(s, k, code, now) && Kept(s.issued[k], s.creates)
  }

  /**
   * For any readings, pairing succeeds exactly with an open challenge that no create has purged, and gives its
   * session.
   */
  lemma PairDecides(ops: seq<Operation>, code: string, deviceLabel: string, token: string, now: Instant)
    requires CanRun(ops)
    ensures var s := Run(ops);
            var (r, g) := Pair(s.gateway, code, deviceLabel, token, now);
            && (r.Success? <==> exists k: nat :: OpenAndKept(s, k, code, now))
            && (forall k: nat, l: nat :: OpenAndKept(s, k, code, now) && OpenAndKept(s, l, code, now) ==> k == l)
            && (forall k: nat :: r.Success? && OpenAndKept(s, k, code, now) ==>
                                   && r.value.deviceId in g.devices
                                   && g.devices[r.value.deviceId].session == s.issued[k].session)
  {
    hide Run, CanRun, LatestHolds, PairedHold, DevicesHold, Used, Strip, Sha256, Kept;
    RunHolds(ops);
    RunKeepsStore(ops);
    var s := Run(ops);
    forall k: nat | OpenAndKept(s, k, code, now)
      ensures code in s.gateway.pairings && code in s.latest && s.latest[code] == k
    {
    }
    if code in s.gateway.pairings {
      var k := s.latest[code];
      assert RecordFits(s.gateway.pairings[code], s.issued[k]);
      assert Kept(s.issued[k], s.creates);
      assert Pair(s.gateway, code, deviceLabel, token, now).0.Success? <==> OpenAndKept(s, k, code, now);
    }
  }

  /** A challenge with this code that no create has purged. */
  ghost predicate IsHeld(s: State, k: nat, code: string) {
    k < |s.issued| && s.issued[k].code == code && Kept(s.issued[k], s.creates)
  }

  lemma HeldIsStored(ops: seq<Operation>, code: string)
    requires CanRun(ops)
    ensures var s := Run(ops);
            && (forall k: nat :: IsHeld(s, k, code) ==>
                                   code in s.gateway.pairings && code in s.latest && s.latest[code] == k)
            && (code in s.gateway.pairings ==>
                  && code in s.latest && IsHeld(s, s.latest[code], code)
                  && RecordFits(s.gateway.pairings[code], s.issued[s.latest[code]])
                  && (s.gateway.pairings[code].consumed <==> Used(s.paired, s.latest[code])))
  {
    hide Run, CanRun, LatestHolds, PairedHold, DevicesHold, Used, Kept;
    RunHolds(ops);
    RunKeepsStore(ops);
  }

  /**
   * What pairing answers, for any readings. A code that no held challenge has is invalid; one whose challenge has
   * paired a device was used; one past its ten minutes has expired; none of these changes anything. Otherwise a device
   * of the challenge's session is paired for eight hours, with the minted token, under the label without the white
   * space around it.
   */
  lemma PairAnswer(ops: seq<Operation>, code: string, deviceLabel: string, token: string, now: Instant)
    requires CanRun(ops)
    ensures var s := Run(ops);
            var (r, g) := Pair(s.gateway, code, deviceLabel, token, now);
            && (r.Failure? ==> g == s.gateway)
            && ((forall k: nat :: !IsHeld(s, k, code)) ==> r == Failure(PairingCodeInvalid))
            && forall k: nat :: IsHeld(s, k, code) ==>
                 var issue := s.issued[k];
                 r == if Used(s.paired, k) then Failure(PairingCodeAlreadyUsed)
                      else if issue.at + 600_000_000 <= now then Failure(PairingCodeExpired)
                      else Success(DeviceSession(
                                     MobileDeviceId(issue.session, deviceLabel, token), Strip(deviceLabel, IsSpace),
                                     token, now + 28_800_000_000))
  {
    hide Run, CanRun, Used, Strip, Sha256, IsHeld;
    HeldIsStored(ops, code);
  }

  /**
   * A device that was just paired authenticates with the token that was answered, and with no other, to the session of
   * its challenge, until its eight hours are over.
   */
  lemma PairedDeviceAuthenticates(
    ops: seq<Operation>, code: string, deviceLabel: string, token: string, now: Instant, k: nat, given: string,
    later: Instant)
    requires CanRun(ops) && OpenAndKept(Run(ops), k, code, now)
    ensures var (r, g) := Pair(Run(ops).gateway, code, deviceLabel, token, now);
            && r.Success?
            && Authenticate(g, r.value.deviceId, given, later).0 ==
               if r.value.expiresAt <= later then Failure(MobileDeviceSessionExpired)
               else if given != r.value.token then Failure(MobileDeviceTokenInvalid)
               else Success(Run(ops).issued[k].session)
  {
    hide Run, CanRun, Used, Strip, Sha256, Kept;
    HeldIsStored(ops, code);
    assert IsHeld(Run(ops), k, code);
    if Sha256(given) == Sha256(token) {
      Sha256IsInjective(given, token);
    }
  }

  /** A create after the challenge's own read an instant at or past its expiry. */
  ghost predicate Purged(issue: Issue, creates: seq<Instant>) {
    exists m :: issue.create < m < |creates| && issue.at + PAIRING_LIFETIME <= creates[m]
  }

  /**
   * For any readings, pairing never accepts what a log of all challenges refuses. It refuses what the log accepts
   * exactly when there are open challenges with the code, and each of them was purged by a create that read a later
   * instant.
   */
  lemma PairDiffersFromLog(ops: seq<Operation>, code: string, deviceLabel: string, token: string, now: Instant)
    requires CanRun(ops)
    ensures var s := Run(ops);
            var r := Pair(s.gateway, code, deviceLabel, token, now).0;
            && (r.Success? ==> exists k: nat :: Open(s, k, code, now))
            && (r.Failure? && (exists k: nat :: Open(s, k, code, now)) <==>
                  && (exists k: nat :: Open(s, k, code, now))
                  && (forall k: nat :: Open(s, k, code, now) ==> Purged(s.issued[k], s.creates)))
  {
    hide Run, CanRun, Used, Pair;
    PairDecides(ops, code, deviceLabel, token, now);
    var s := Run(ops);
    forall k: nat | Open(s, k, code, now)
      ensures OpenAndKept(s, k, code, now) <==> !Purged(s.issued[k], s.creates)
    {
    }
  }

  /**
   * When no create has read a later instant, as with readings that do not go back in lock order, pairing with a code
   * succeeds exactly when, of all the challenges ever issued, one with that code has not expired and has paired no
   * device; there is then only one, and the device gets its session.
   */
  lemma PairRefinesLog(ops: seq<Operation>, code: string, deviceLabel: string, token: string, now: Instant)
    requires CanRun(ops)
    requires forall m :: 0 <= m < |Run(ops).creates| ==> Run(ops).creates[m] <= now
    ensures var s := Run(ops);
            var (r, g) := Pair(s.gateway, code, deviceLabel, token, now);
            && (r.Success? <==> exists k: nat :: Open(s, k, code, now))
            && (forall k: nat, l: nat :: Open(s, k, code, now) && Open(s, l, code, now) ==> k == l)
            && (forall k: nat :: r.Success? && Open(s, k, code, now) ==>
                                   && r.value.deviceId in g.devices
                                   && g.devices[r.value.deviceId].session == s.issued[k].session)
  {
    hide Run, CanRun, Used, Pair;
    PairDecides(ops, code, deviceLabel, token, now);
    var s := Run(ops);
    forall k: nat | Open(s, k, code, now)
      ensures OpenAndKept(s, k, code, now)
    {
    }
  }

  /**
   * With a clock that goes back, a code is refused although its challenge has not expired: another create has purged
   * it.
   */
  lemma BackwardClockLosesChallenge(a: Uuid, b: Uuid, deviceLabel: string, token: string)
    ensures exists ops: seq<Operation>, now: Instant ::
              && CanRun(ops)
              && Open(Run(ops), 0, CodeOf(0), now)
              && Pair(Run(ops).gateway, CodeOf(0), deviceLabel, token, now).0 == Failure(PairingCodeInvalid)
  {
    hide CodeOf, FirstUnused, IsCode;
    var zeros, ones := seq(CODE_ATTEMPTS, _ => 0), seq(CODE_ATTEMPTS, _ => 1);
    var first, second := DoCreate(a, zeros, 0), DoCreate(b, ones, PAIRING_LIFETIME);
    var ops := [first, second];
    assert ops[..1] == [first] && [first][..0] == [];
    var none: map<string, PairingRecord> := map[];
    assert zeros[0] == 0 && ones[0] == 1 && none.Keys == {};
    FirstDrawIsTaken(zeros, {});
    FirstDrawIsTaken(ones, {});
    CodeRoundTrip(0);
    CodeRoundTrip(1);
    assert Unexpired(none, 0) == none;
    assert CanRun([]) && Run([]) == EmptyState();
    assert CanRun([first]) && Run([first]) == Take(EmptyState(), first);
    var s := Run([first]);
    assert s.issued == [Issue(CodeOf(0), a, 0, 0)] && s.creates == [0];
    assert Unexpired(s.gateway.pairings, PAIRING_LIFETIME) == none;
    assert CanRun(ops) && Run(ops) == Take(s, second);
    assert Run(ops).issued[0] == s.issued[0];
    assert Open(Run(ops), 0, CodeOf(0), PAIRING_LIFETIME - 1);
    assert CodeOf(0) !in Run(ops).gateway.pairings;
  }

  lemma FirstDrawIsTaken(draws: seq<nat>, used: set<string>)
    requires draws != [] && CodeOf(draws[0]) !in used
    ensures FirstUnused(draws, used) == Some(CodeOf(draws[0]))
  {
    hide CodeOf;
  }

  /* The gateway as the source keeps it. */

  class MobileApprovalGateway {
    var pairings: map<string, PairingRecord>
    var devices: map<Uuid, DeviceRecord>

    ghost function Abs(): Gateway
      reads this
    {
      Gateway(pairings, devices)
    }

    constructor ()
      ensures Abs() == EmptyState().gateway
    {
      pairings, devices := map[], map[];
    }

    method CreateChallenge(session: Uuid, draws: seq<nat>, now: Instant)
      returns (r: Result<PairingChallenge, PairingError>)
      requires GoodDraws(draws)
      modifies this
      ensures (r, Abs()) == CreatePairing(old(Abs()), session, draws, now)
    {
      var expired := set code | code in pairings && pairings[code].expiresAt <= now;
      ghost var all := expired;
      while expired != {}
        invariant expired <= all
        invariant pairings == map code | code in old(pairings) && code !in all - expired :: old(pairings)[code]
        invariant devices == old(devices)
        decreases expired
      {
        var code :| code in expired;
        pairings := pairings - {code};
        expired := expired - {code};
      }
      assert pairings == Unexpired(old(pairings), now);
      var i := 0;
      while i < CODE_ATTEMPTS && CodeOf(draws[i]) in pairings
        invariant 0 <= i <= CODE_ATTEMPTS
        invariant FirstUnused(draws, pairings.Keys) == FirstUnused(draws[i..], pairings.Keys)
      {
        i := i + 1;
      }
      if i == CODE_ATTEMPTS {
        return Failure(PairingCodeGenerationFailed);
      }
      var code := CodeOf(draws[i]);
      var record := PairingRecord(PairingId(session, code, now), code, session, now + PAIRING_LIFETIME, false);
      pairings := pairings[code := record];
      r := Success(PairingChallenge(record.pairingId, record.code, record.expiresAt));
    }

    method PairDevice(code: string, deviceLabel: string, token: string, now: Instant)
      returns (r: Result<DeviceSession, PairingError>)
      modifies this
      ensures (r, Abs()) == Pair(old(Abs()), code, deviceLabel, token, now)
    {
      if code !in pairings {
        return Failure(PairingCodeInvalid);
      }
      var record := pairings[code];
      if record.consumed {
        return Failure(PairingCodeAlreadyUsed);
      }
      if record.expiresAt <= now {
        return Failure(PairingCodeExpired);
      }
      var id := MobileDeviceId(record.session, deviceLabel, token);
      var device := DeviceRecord(
        id, Strip(deviceLabel, IsSpace), record.session, Sha256(token), now + DEVICE_SESSION_LIFETIME);
      devices := devices[id := device];
      pairings := pairings[code := record.(consumed := true)];
      r := Success(DeviceSession(device.deviceId, device.deviceLabel, token, device.expiresAt));
    }

    method AuthenticateDevice(id: Uuid, token: string, now: Instant) returns (r: Result<Uuid, PairingError>)
      modifies this
      ensures (r, Abs()) == Authenticate(old(Abs()), id, token, now)
    {
      if id !in devices {
        return Failure(MobileDeviceNotPaired);
      }
      var record := devices[id];
      if record.expiresAt <= now {
        devices := devices - {id};
        return Failure(MobileDeviceSessionExpired);
      }
      if record.tokenSha256 != Sha256(token) {
        return Failure(MobileDeviceTokenInvalid);
      }
      r := Success(record.session);
    }

    method RevokeDevice(id: Uuid)
      modifies this
      ensures Abs() == Revoke(old(Abs()), id)
    {
      devices := devices - {id};
    }
  }
}
