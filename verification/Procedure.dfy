/**
 What an A11 message does to the tracked sessions and to the two capabilities exchanges, as functions
 of the part of the table the message names. The table class is proved against these functions.
 */
module Procedure {
  import opened Bytes
  import opened Messages
  import opened Options

  datatype Direction = Outbound | Inbound

  datatype SessionKey = SessionKey(pcfSessionId: U32, mnSessionReferenceId: U16)

  function KeyOfSession(s: Session): (k: SessionKey) {
    SessionKey(s.pcfSessionId, s.mnSessionReferenceId)
  }

  datatype PendingKind =
    | Registration | Refresh | LocalTeardown | RemoteUpdate | LocalSessionUpdate | RemoteSessionUpdate

  datatype Pending = Pending(
    kind: PendingKind, identification: U64, lifetime: U16, homeAgent: Address, careOfAddress: Address, startedAt: U64)

  datatype Committed = Committed(
    identification: U64, lifetime: U16, homeAgent: Address, careOfAddress: Address, expiresAt: nat)

  datatype SessionRecord = SessionRecord(session: Session, committed: Option<Committed>, pending: Option<Pending>)

  datatype FeatureClass = UnknownOrMixed | PdsnFeatures | PcfFeatures

  datatype PendingCapabilities = PendingCapabilities(identification: U64, featureClass: FeatureClass, startedAt: U64)

  datatype ClearReason = LocallyTornDown | RemotelyTornDown | Administrative | LifetimeExpired

  datatype Event =
    | PendingRegistration(key: SessionKey)
    | PendingRefresh(key: SessionKey)
    | Registered(key: SessionKey, expiresAt: nat)
    | Refreshed(key: SessionKey, expiresAt: nat)
    | PendingUpdateAcknowledge(key: SessionKey)
    | PendingTeardown(key: SessionKey)
    | PendingSessionUpdate(key: SessionKey)
    | PendingSessionUpdateAcknowledge(key: SessionKey)
    | SessionParametersUpdated(key: SessionKey)
    | PendingCapabilitiesInfo(identification: U64)
    | PendingCapabilitiesInfoAcknowledge(identification: U64)
    | CapabilitiesInfoCompleted(identification: U64)
    | IgnoredCapabilitiesInfoAcknowledge(identification: U64)
    | SessionUpdateExpired(key: SessionKey)
    | CapabilitiesInfoExpired(identification: U64)
    | Cleared(key: SessionKey, reason: ClearReason)
    | Rejected(key: SessionKey, code: Byte)
    | Expired(key: SessionKey)

  datatype Table = Table(
    sessions: map<SessionKey, SessionRecord>,
    outbound: Option<PendingCapabilities>,
    inbound: Option<PendingCapabilities>)

  const EMPTY: Table := Table(map[], None, None)

  /** What a message leaves behind in the part it names, and what the caller is told. */
  datatype Outcome<S> = Outcome(state: S, result: Result<Event>)

  type Slot = Option<SessionRecord>

  function Refuse<S>(state: S, violation: Violation): (o: Outcome<S>) {
    Outcome(state, Err(ProcedureViolation(violation)))
  }

  // One session

  /** A registration request: opens a registration, a refresh, or a teardown. */
  function RequestStep(now: U64, m: Message, slot: Slot): (o: Outcome<Slot>)
    requires m.RegistrationRequest?
  {
    var key := KeyOfSession(m.session);
    var started := Pending(Registration, m.identification, m.lifetime, m.homeAgent, m.careOfAddress, now);
    if slot.None? then
      if m.lifetime == 0 then Refuse(slot, TeardownOfUnknown)
      else Outcome(Some(SessionRecord(m.session, None, Some(started))), Ok(PendingRegistration(key)))
    else if slot.value.session != m.session then Refuse(slot, SessionMismatch)
    else if slot.value.pending.Some? then Refuse(slot, AlreadyPending)
    else if m.lifetime == 0 then
      Outcome(Some(slot.value.(pending := Some(started.(kind := LocalTeardown)))), Ok(PendingTeardown(key)))
    else Outcome(Some(slot.value.(pending := Some(started.(kind := Refresh)))), Ok(PendingRefresh(key)))
  }

  /** A registration reply: settles whatever is pending under its identification. */
  function ReplyStep(now: U64, m: Message, slot: Slot): (o: Outcome<Slot>)
    requires m.RegistrationReply?
  {
    var key := KeyOfSession(m.session);
    if slot.None? then Refuse(slot, UnknownSession)
    else if slot.value.session != m.session then Refuse(slot, SessionMismatch)
    else if slot.value.pending.None? then Refuse(slot, NoPending)
    else
      var pending := slot.value.pending.value;
      if pending.identification != m.identification then Refuse(slot, IdentificationMismatch)
      else if m.code != 0 then
        Outcome(
          if slot.value.committed.Some? then Some(slot.value.(pending := None)) else None, Ok(Rejected(key, m.code)))
      else if pending.kind == LocalTeardown then
        if m.lifetime != 0 then Refuse(slot, TeardownReplyLifetime)
        else Outcome(None, Ok(Cleared(key, LocallyTornDown)))
      else if m.lifetime == 0 then Refuse(slot, ZeroLifetimeGrant)
      else
        var granted := Committed(
          m.identification, m.lifetime, m.homeAgent, pending.careOfAddress, now as int + m.lifetime);
        Outcome(
          Some(slot.value.(committed := Some(granted), pending := None)),
          Ok(if pending.kind == Refresh then Refreshed(key, granted.expiresAt) else Registered(key, granted.expiresAt)))
  }

  /** A peer's update of an established session: registration update or session update, either direction. */
  function UpdateStep(now: U64, m: Message, kind: PendingKind, event: Event, slot: Slot): (o: Outcome<Slot>)
    requires m.RegistrationUpdate? || m.SessionUpdate?
  {
    if slot.None? then Refuse(slot, UnknownSession)
    else if slot.value.session != m.session then Refuse(slot, SessionMismatch)
    else if slot.value.pending.Some? then Refuse(slot, AlreadyPending)
    else if slot.value.committed.None? then Refuse(slot, NotEstablished)
    else
      var committed := slot.value.committed.value;
      if m.RegistrationUpdate? && committed.identification != m.identification then Refuse(slot, IdentificationMismatch)
      else if committed.homeAgent != m.homeAgent then Refuse(slot, HomeAgentMismatch)
      else
        var started := Pending(kind, m.identification, committed.lifetime, m.homeAgent, committed.careOfAddress, now);
        Outcome(Some(slot.value.(pending := Some(started))), Ok(event))
  }

  /** An acknowledge of such an update. */
  function AcknowledgeStep(m: Message, kind: PendingKind, accepted: Outcome<Slot>, slot: Slot): (o: Outcome<Slot>)
    requires m.RegistrationAcknowledge? || m.SessionUpdateAcknowledge?
  {
    if slot.None? then Refuse(slot, UnknownSession)
    else if slot.value.session != m.session then Refuse(slot, SessionMismatch)
    else if slot.value.pending.None? then Refuse(slot, NoPending)
    else
      var pending := slot.value.pending.value;
      if pending.kind != kind then Refuse(slot, WrongTransaction)
      else if pending.identification != m.identification then Refuse(slot, IdentificationMismatch)
      else if pending.careOfAddress != m.careOfAddress then Refuse(slot, CareOfAddressMismatch)
      else if m.status == 0 then accepted
      else Outcome(Some(slot.value.(pending := None)), Ok(Rejected(KeyOfSession(m.session), m.status)))
  }

  /** The message kinds the table takes in the given direction. */
  predicate DirectionAllowed(d: Direction, m: Message) {
    match m
    case RegistrationRequest(_, _, _, _, _, _, _, _) => d == Outbound
    case RegistrationReply(_, _, _, _, _, _, _) => d == Inbound
    case RegistrationUpdate(_, _, _, _, _, _, _) => d == Inbound
    case RegistrationAcknowledge(_, _, _, _, _, _, _) => d == Outbound
    case _ => true
  }

  function SessionStep(now: U64, d: Direction, m: Message, slot: Slot): (o: Outcome<Slot>)
    requires m.OfSession()
  {
    var key := KeyOfSession(m.session);
    var settled := if slot.Some? then Some(slot.value.(pending := None)) else None;
    if !DirectionAllowed(d, m) then Refuse(slot, WrongDirection)
    else if Validate(m).Err? then Outcome(slot, Err(Validate(m).error))
    else
      match m
      case RegistrationRequest(_, _, _, _, _, _, _, _) => RequestStep(now, m, slot)
      case RegistrationReply(_, _, _, _, _, _, _) => ReplyStep(now, m, slot)
      case RegistrationUpdate(_, _, _, _, _, _, _) => UpdateStep(now, m, RemoteUpdate, PendingTeardown(key), slot)
      case RegistrationAcknowledge(_, _, _, _, _, _, _) =>
        AcknowledgeStep(m, RemoteUpdate, Outcome(None, Ok(Cleared(key, RemotelyTornDown))), slot)
      case SessionUpdate(_, _, _, _, _, _, _) =>
        if d == Outbound then UpdateStep(now, m, LocalSessionUpdate, PendingSessionUpdate(key), slot)
        else UpdateStep(now, m, RemoteSessionUpdate, PendingSessionUpdateAcknowledge(key), slot)
      case SessionUpdateAcknowledge(_, _, _, _, _, _, _) =>
        AcknowledgeStep(
          m, if d == Inbound then LocalSessionUpdate else RemoteSessionUpdate,
          Outcome(settled, Ok(SessionParametersUpdated(key))), slot)
  }

  // Capabilities exchanges

  function ClassOf(nvses: seq<Nvse>): (c: FeatureClass) {
    var hasPdsn := exists n <- nvses :: n.PdsnEnabledFeature();
    var hasPcf := exists n <- nvses :: n.PcfEnabledFeature();
    if hasPdsn && !hasPcf then PdsnFeatures else if hasPcf && !hasPdsn then PcfFeatures else UnknownOrMixed
  }

  /** The answer to one side's features is the other side's features; anything answers the rest. */
  predicate ClassAnswers(requested: FeatureClass, nvses: seq<Nvse>) {
    match requested
    case PdsnFeatures => ClassOf(nvses) == PcfFeatures
    case PcfFeatures => ClassOf(nvses) == PdsnFeatures
    case UnknownOrMixed => true
  }

  function InfoStep(now: U64, d: Direction, m: Message, slot: Option<PendingCapabilities>)
    : (o: Outcome<Option<PendingCapabilities>>)
    requires m.CapabilitiesInfo?
  {
    if Validate(m).Err? then Outcome(slot, Err(Validate(m).error))
    else if slot.Some? then Refuse(slot, CapabilitiesPending)
    else
      Outcome(
        Some(PendingCapabilities(m.identification, ClassOf(m.nvses), now)),
        Ok(if d == Outbound then PendingCapabilitiesInfo(m.identification)
           else PendingCapabilitiesInfoAcknowledge(m.identification)))
  }

  /** An answer with the wrong feature class still ends the exchange. */
  function AnswerStep(d: Direction, m: Message, slot: Option<PendingCapabilities>)
    : (o: Outcome<Option<PendingCapabilities>>)
    requires m.CapabilitiesInfoAcknowledge?
  {
    if Validate(m).Err? then Outcome(slot, Err(Validate(m).error))
    else if slot.None? then
      if d == Inbound then Outcome(slot, Ok(IgnoredCapabilitiesInfoAcknowledge(m.identification)))
      else Refuse(slot, CapabilitiesNotRequested)
    else if slot.value.identification != m.identification then Refuse(slot, IdentificationMismatch)
    else if !ClassAnswers(slot.value.featureClass, m.nvses) then Refuse(None, FeatureClass)
    else Outcome(None, Ok(CapabilitiesInfoCompleted(m.identification)))
  }

  // The whole table

  function Lookup<K, V>(m: map<K, V>, k: K): (v: Option<V>) {
    if k in m then Some(m[k]) else None
  }

  function Store<K(!new), V>(m: map<K, V>, k: K, v: Option<V>): (m': map<K, V>)
    ensures Lookup(m', k) == v
    ensures forall k' | k' != k :: Lookup(m', k') == Lookup(m, k')
  {
    if v.Some? then m[k := v.value] else m - {k}
  }

  function Apply(t: Table, now: U64, d: Direction, m: Message): (o: Outcome<Table>) {
    if m.OfSession() then
      var key := KeyOfSession(m.session);
      var o := SessionStep(now, d, m, Lookup(t.sessions, key));
      Outcome(t.(sessions := Store(t.sessions, key, o.state)), o.result)
    else if m.CapabilitiesInfo? then
      if d == Outbound then
        var o := InfoStep(now, d, m, t.outbound);
        Outcome(t.(outbound := o.state), o.result)
      else
        var o := InfoStep(now, d, m, t.inbound);
        Outcome(t.(inbound := o.state), o.result)
    else
      if d == Inbound then
        var o := AnswerStep(d, m, t.outbound);
        Outcome(t.(outbound := o.state), o.result)
      else
        var o := AnswerStep(d, m, t.inbound);
        Outcome(t.(inbound := o.state), o.result)
  }

  // Timers

  function SaturatingAdd(a: U64, b: U64): (c: U64) {
    if a as int + b as int > U64_MAX then U64_MAX else a + b
  }

  predicate LifetimeOver(r: SessionRecord, now: U64) {
    r.committed.Some? && r.committed.value.expiresAt <= now
  }

  predicate UpdateOverdue(r: SessionRecord, now: U64, tsesupd: U64) {
    && r.pending.Some? && r.pending.value.kind == LocalSessionUpdate
    && SaturatingAdd(r.pending.value.startedAt, tsesupd) <= now
  }

  predicate InfoOverdue(slot: Option<PendingCapabilities>, now: U64, tvers11: U64) {
    slot.Some? && SaturatingAdd(slot.value.startedAt, tvers11) <= now
  }

  function ExpireSessions(t: Table, now: U64): (t': Table) {
    t.(sessions := map k | k in t.sessions && !LifetimeOver(t.sessions[k], now) :: t.sessions[k])
  }

  function SettleOverdue(r: SessionRecord, now: U64, tsesupd: U64): (r': SessionRecord) {
    if UpdateOverdue(r, now, tsesupd) then r.(pending := None) else r
  }

  function ExpireProtocolTimers(t: Table, now: U64, tsesupd: U64, tvers11: U64): (t': Table) {
    t.(sessions := map k | k in t.sessions :: SettleOverdue(t.sessions[k], now, tsesupd),
       outbound := if InfoOverdue(t.outbound, now, tvers11) then None else t.outbound)
  }

  function ClearSession(t: Table, key: SessionKey): (o: Outcome<Table>) {
    if key in t.sessions then Outcome(t.(sessions := t.sessions - {key}), Ok(Cleared(key, Administrative)))
    else Refuse(t, UnknownSession)
  }

  // Snapshots

  datatype SessionState =
    | AwaitingRegistration | Active | AwaitingUpdateAcknowledge | AwaitingTeardown
    | AwaitingSessionUpdateAcknowledge | AwaitingSessionUpdate

  datatype Snapshot = Snapshot(
    key: SessionKey, state: SessionState, protocolType: U16, mnId: seq<Byte>, homeAgent: Address,
    careOfAddress: Address, identification: U64, grantedLifetime: U16, expiresAt: Option<nat>)

  function StateOf(r: SessionRecord): (s: SessionState) {
    if r.pending.None? then Active
    else
      match r.pending.value.kind
      case Registration => AwaitingRegistration
      case Refresh => AwaitingRegistration
      case LocalTeardown => AwaitingTeardown
      case RemoteUpdate => AwaitingTeardown
      case RemoteSessionUpdate => AwaitingSessionUpdateAcknowledge
      case LocalSessionUpdate => AwaitingSessionUpdate
  }

  function SnapshotOf(r: SessionRecord): (s: Snapshot) {
    var base := Snapshot(
      KeyOfSession(r.session), StateOf(r), r.session.protocolType, r.session.mnId,
      [0, 0, 0, 0], [0, 0, 0, 0], 0, 0, None);
    match (r.pending, r.committed)
    case (Some(p), Some(c)) =>
      if p.kind == Registration || p.kind == Refresh then
        base.(homeAgent := p.homeAgent, careOfAddress := p.careOfAddress, identification := p.identification,
              grantedLifetime := c.lifetime, expiresAt := Some(c.expiresAt))
      else
        base.(homeAgent := c.homeAgent, careOfAddress := c.careOfAddress, identification := c.identification,
              grantedLifetime := c.lifetime, expiresAt := Some(c.expiresAt))
    case (Some(p), None) =>
      base.(homeAgent := p.homeAgent, careOfAddress := p.careOfAddress, identification := p.identification,
            grantedLifetime := p.lifetime)
    case (None, Some(c)) =>
      base.(homeAgent := c.homeAgent, careOfAddress := c.careOfAddress, identification := c.identification,
            grantedLifetime := c.lifetime, expiresAt := Some(c.expiresAt))
    case (None, None) => base
  }
}
