/** What the reported events mean for the table, and when messages are accepted. */
module ProcedureEvents {
  import opened Bytes
  import opened Messages
  import opened Options
  import opened Procedure

  function RecordOf(t: Table, s: Session): (slot: Slot) {
    Lookup(t.sessions, KeyOfSession(s))
  }

  /** The transaction a message opens: its own identification, home agent and care-of address, at this time. */
  predicate OpenedBy(p: Pending, kind: PendingKind, m: Message, now: U64) {
    && p.kind == kind && p.identification == m.identification && p.startedAt == now
    && (m.RegistrationRequest? || m.RegistrationUpdate? || m.SessionUpdate? ==> p.homeAgent == m.homeAgent)
    && (m.RegistrationRequest? ==> p.lifetime == m.lifetime && p.careOfAddress == m.careOfAddress)
  }

  /** The kinds of transaction an opening event may stand for. */
  predicate EventOfKind(e: Event, k: SessionKey, kind: PendingKind) {
    match kind
    case Registration => e == PendingRegistration(k)
    case Refresh => e == PendingRefresh(k)
    case LocalTeardown => e == PendingTeardown(k)
    case RemoteUpdate => e == PendingTeardown(k)
    case LocalSessionUpdate => e == PendingSessionUpdate(k)
    case RemoteSessionUpdate => e == PendingSessionUpdateAcknowledge(k)
  }

  predicate Opening(e: Event) {
    || e.PendingRegistration? || e.PendingRefresh? || e.PendingTeardown? || e.PendingSessionUpdate?
    || e.PendingSessionUpdateAcknowledge?
  }

  predicate Settling(e: Event) {
    e.Registered? || e.Refreshed? || e.Rejected? || e.SessionParametersUpdated?
  }

  /** An event that opens a transaction leaves it pending, of the kind the event names, beside what was committed. */
  lemma OpeningLeavesPending(t: Table, now: U64, d: Direction, m: Message)
    requires m.OfSession()
    requires var result := Apply(t, now, d, m).result; result.Ok? && Opening(result.value)
    ensures
      var e, before, after := Apply(t, now, d, m).result.value, RecordOf(t, m.session),
                              RecordOf(Apply(t, now, d, m).state, m.session);
      && after.Some? && after.value.session == m.session && after.value.pending.Some?
      && (before.Some? ==> before.value.pending.None? && before.value.session == m.session)
      && after.value.committed == (if before.Some? then before.value.committed else None)
      && EventOfKind(e, KeyOfSession(m.session), after.value.pending.value.kind)
      && OpenedBy(after.value.pending.value, after.value.pending.value.kind, m, now)
      && (e.PendingRegistration? <==> before.None?)
      && (m.RegistrationRequest? <==> after.value.pending.value.kind in {Registration, Refresh, LocalTeardown})
      && (m.RegistrationUpdate? <==> after.value.pending.value.kind == RemoteUpdate)
      && (m.SessionUpdate? && d == Outbound <==> after.value.pending.value.kind == LocalSessionUpdate)
      && (m.SessionUpdate? && d == Inbound <==> after.value.pending.value.kind == RemoteSessionUpdate)
      && (!m.RegistrationRequest? ==>
            && before.Some? && before.value.committed.Some?
            && after.value.pending.value.lifetime == before.value.committed.value.lifetime
            && after.value.pending.value.careOfAddress == before.value.committed.value.careOfAddress)
  {
    hide Validate;
  }

  /** An event that settles a transaction leaves none pending. A grant commits what the reply says, for the care-of
      address that was asked for; a rejection or an update keeps the commitment; without one, a rejection ends the
      session. */
  lemma SettlingLeavesNone(t: Table, now: U64, d: Direction, m: Message)
    requires m.OfSession()
    requires var result := Apply(t, now, d, m).result; result.Ok? && Settling(result.value)
    ensures
      var e, before, after := Apply(t, now, d, m).result.value, RecordOf(t, m.session),
                              RecordOf(Apply(t, now, d, m).state, m.session);
      && e.key == KeyOfSession(m.session)
      && before.Some? && before.value.session == m.session && before.value.pending.Some?
      && before.value.pending.value.identification == m.identification
      && (after.Some? ==> after.value.pending.None? && after.value.session == m.session)
      && (e.Registered? || e.Refreshed? ==>
            && after.Some? && after.value.committed.Some?
            && var p, c := before.value.pending.value, after.value.committed.value;
               && c.identification == m.identification && c.lifetime == m.lifetime && c.homeAgent == m.homeAgent
               && c.careOfAddress == p.careOfAddress && c.expiresAt == now as int + m.lifetime == e.expiresAt
               && (e.Refreshed? <==> p.kind == Refresh))
      && (e.Rejected? ==>
            && (after.None? <==> m.RegistrationReply? && before.value.committed.None?)
            && (after.Some? ==> after.value.committed == before.value.committed)
            && e.code == (if m.RegistrationReply? then m.code else m.status) != 0)
      && (e.SessionParametersUpdated? ==> after.Some? && after.value.committed == before.value.committed)
  {
    hide Validate;
  }

  /** A session reported as cleared is gone. */
  lemma ClearedIsGone(t: Table, now: U64, d: Direction, m: Message)
    requires m.OfSession()
    requires var result := Apply(t, now, d, m).result; result.Ok? && result.value.Cleared?
    ensures
      var e := Apply(t, now, d, m).result.value;
      && e.key == KeyOfSession(m.session) && RecordOf(Apply(t, now, d, m).state, m.session).None?
      && (e.reason == LocallyTornDown <==> m.RegistrationReply?)
      && (e.reason == RemotelyTornDown <==> m.RegistrationAcknowledge?)
  {
    hide Validate;
  }

  /** A session message that is accepted opens, settles or clears. */
  lemma EventsAreThese(t: Table, now: U64, d: Direction, m: Message)
    requires m.OfSession() && Apply(t, now, d, m).result.Ok?
    ensures var e := Apply(t, now, d, m).result.value; Opening(e) || Settling(e) || e.Cleared?
  {
    hide Validate;
  }

  // When messages are accepted

  /** The session is known, is this one, and has nothing pending. */
  predicate Free(t: Table, s: Session) {
    var slot := RecordOf(t, s);
    slot.Some? && slot.value.session == s && slot.value.pending.None?
  }

  /** The session is known, is this one, and waits under this identification. */
  predicate Waits(t: Table, s: Session, identification: U64) {
    var slot := RecordOf(t, s);
    && slot.Some? && slot.value.session == s && slot.value.pending.Some?
    && slot.value.pending.value.identification == identification
  }

  /** A valid request is accepted for a session with nothing pending, and for a new one unless it asks to end it. */
  lemma RequestAccepted(t: Table, now: U64, d: Direction, m: Message)
    requires m.RegistrationRequest?
    ensures Apply(t, now, d, m).result.Ok?
       <==> && d == Outbound && Validate(m).Ok?
            && (Free(t, m.session) || (RecordOf(t, m.session).None? && m.lifetime > 0))
    ensures var result := Apply(t, now, d, m).result;
            result.Ok? ==> (result.value.PendingTeardown? <==> m.lifetime == 0)
  {
    hide Validate;
  }

  /** A valid reply is accepted if it answers what is pending; one that agrees does so to what was asked: a lifetime,
      or the end of the session. */
  lemma ReplyAccepted(t: Table, now: U64, d: Direction, m: Message)
    requires m.RegistrationReply?
    ensures Apply(t, now, d, m).result.Ok?
       <==> && d == Inbound && Validate(m).Ok? && Waits(t, m.session, m.identification)
            && (m.code != 0 ||
                (m.lifetime == 0 <==> RecordOf(t, m.session).value.pending.value.kind == LocalTeardown))
    ensures var result := Apply(t, now, d, m).result;
            result.Ok? ==> && (result.value.Rejected? <==> m.code != 0)
                           && (result.value.Cleared? <==> m.code == 0 && m.lifetime == 0)
  {
    hide Validate;
  }

  /** A valid update is accepted for an established session with nothing pending, from its home agent, and a
      registration update only under the identification that is committed. */
  lemma UpdateAccepted(t: Table, now: U64, d: Direction, m: Message)
    requires m.RegistrationUpdate? || m.SessionUpdate?
    ensures Apply(t, now, d, m).result.Ok?
       <==> && (m.RegistrationUpdate? ==> d == Inbound) && Validate(m).Ok? && Free(t, m.session)
            && var committed := RecordOf(t, m.session).value.committed;
               && committed.Some? && committed.value.homeAgent == m.homeAgent
               && (m.RegistrationUpdate? ==> committed.value.identification == m.identification)
  {
    hide Validate;
  }

  /** The kind of transaction an acknowledge answers. */
  function Answered(d: Direction, m: Message): (kind: PendingKind) {
    if m.RegistrationAcknowledge? then RemoteUpdate
    else if d == Inbound then LocalSessionUpdate
    else RemoteSessionUpdate
  }

  /** A valid acknowledge is accepted if it answers a pending update of its kind, for the session's care-of address;
      a status other than 0 rejects the update. */
  lemma AcknowledgeAccepted(t: Table, now: U64, d: Direction, m: Message)
    requires m.RegistrationAcknowledge? || m.SessionUpdateAcknowledge?
    ensures Apply(t, now, d, m).result.Ok?
       <==> && (m.RegistrationAcknowledge? ==> d == Outbound) && Validate(m).Ok?
            && Waits(t, m.session, m.identification)
            && var p := RecordOf(t, m.session).value.pending.value;
               p.kind == Answered(d, m) && p.careOfAddress == m.careOfAddress
    ensures var result := Apply(t, now, d, m).result;
            result.Ok? ==> && (result.value.Rejected? <==> m.status != 0)
                           && (result.value.Cleared? <==> m.status == 0 && m.RegistrationAcknowledge?)
  {
    hide Validate;
  }

  /** Capabilities messages: a request is accepted into an empty slot and fills it; an acknowledge of the awaited
      identification and an answering class empties it; an unexpected one that comes in is ignored. */
  lemma CapabilitiesAccepted(t: Table, now: U64, d: Direction, m: Message)
    requires !m.OfSession()
    ensures
      var asking := m.CapabilitiesInfo?;
      var slot := if asking == (d == Outbound) then t.outbound else t.inbound;
      var after := Apply(t, now, d, m).state;
      var slot' := if asking == (d == Outbound) then after.outbound else after.inbound;
      && (asking ==>
            && (Apply(t, now, d, m).result.Ok? <==> Validate(m).Ok? && slot.None?)
            && (Apply(t, now, d, m).result.Ok? ==>
                  slot' == Some(PendingCapabilities(m.identification, ClassOf(m.nvses), now))))
      && (!asking ==>
            && (Apply(t, now, d, m).result.Ok? <==>
                  && Validate(m).Ok?
                  && if slot.None? then d == Inbound
                     else slot.value.identification == m.identification
                          && ClassAnswers(slot.value.featureClass, m.nvses))
            && (Apply(t, now, d, m).result.Ok? ==> slot'.None?)
            && (Apply(t, now, d, m).result.Ok? ==>
                  Apply(t, now, d, m).result.value ==
                  if slot.None? then IgnoredCapabilitiesInfoAcknowledge(m.identification)
                  else CapabilitiesInfoCompleted(m.identification)))
  {
    hide Validate, ClassOf, ClassAnswers;
  }

  predicate Has(nvses: seq<Nvse>, pdsn: bool) {
    exists n <- nvses :: if pdsn then n.FlowControlEnabled? || n.PacketBoundaryEnabled?
                         else n.ShortDataIndicationSupported? || n.GreSegmentationEnabled?
  }

  /** A request about features of one side alone is answered with features of the other side alone; any other request
      with anything. */
  lemma AnswerClass(asked: seq<Nvse>, answer: seq<Nvse>)
    ensures ClassAnswers(ClassOf(asked), answer)
       <==> && (Has(asked, true) && !Has(asked, false) ==> Has(answer, false) && !Has(answer, true))
            && (Has(asked, false) && !Has(asked, true) ==> Has(answer, true) && !Has(answer, false))
  {
  }

  /** A rejected request does not block the session: whatever was pending, the next valid request is accepted, as a
      refresh or teardown of what is committed or, with nothing committed, as a new registration. */
  lemma RejectedThenRequested(t: Table, now: U64, reply: Message, now': U64, request: Message)
    requires reply.RegistrationReply? && Validate(reply).Ok? && reply.code != 0
    requires Waits(t, reply.session, reply.identification)
    requires request.RegistrationRequest? && Validate(request).Ok? && request.session == reply.session
    ensures
      var after := Apply(t, now, Inbound, reply).state;
      var established := RecordOf(t, reply.session).value.committed.Some?;
      && RecordOf(after, reply.session).Some? == established
      && (Apply(after, now', Outbound, request).result.Ok? <==> established || request.lifetime > 0)
  {
    hide Apply, Validate;
    ReplyAccepted(t, now, Inbound, reply);
    SettlingLeavesNone(t, now, Inbound, reply);
    RequestAccepted(Apply(t, now, Inbound, reply).state, now', Outbound, request);
  }

  // Snapshots

  /** A snapshot shows what is being asked for while a registration or refresh is pending, and otherwise what is
      committed; the lifetime and expiry are the committed ones as soon as there are any. */
  lemma SnapshotShows(r: SessionRecord)
    requires r.pending.Some? || r.committed.Some?
    ensures
      var s := SnapshotOf(r);
      && s.key.pcfSessionId == r.session.pcfSessionId && s.key.mnSessionReferenceId == r.session.mnSessionReferenceId
      && s.protocolType == r.session.protocolType && s.mnId == r.session.mnId
      && (if r.pending.Some? && (r.committed.None? || r.pending.value.kind in {Registration, Refresh})
          then && s.homeAgent == r.pending.value.homeAgent && s.careOfAddress == r.pending.value.careOfAddress
               && s.identification == r.pending.value.identification
          else && s.homeAgent == r.committed.value.homeAgent && s.careOfAddress == r.committed.value.careOfAddress
               && s.identification == r.committed.value.identification)
      && (if r.committed.Some?
          then s.grantedLifetime == r.committed.value.lifetime && s.expiresAt == Some(r.committed.value.expiresAt)
          else s.grantedLifetime == r.pending.value.lifetime && s.expiresAt.None?)
    ensures
      var state := SnapshotOf(r).state;
      && (state == Active <==> r.pending.None?)
      && (state == AwaitingRegistration <==> r.pending.Some? && r.pending.value.kind in {Registration, Refresh})
      && (state == AwaitingTeardown <==> r.pending.Some? && r.pending.value.kind in {LocalTeardown, RemoteUpdate})
      && (state == AwaitingSessionUpdate <==> r.pending.Some? && r.pending.value.kind == LocalSessionUpdate)
      && (state == AwaitingSessionUpdateAcknowledge <==>
            r.pending.Some? && r.pending.value.kind == RemoteSessionUpdate)
  {
  }
}
