/** The session procedure table as the nodes keep it: one mutable object, updated message by message. */
module ProcedureTable {
  import opened Bytes
  import opened Messages
  import opened Procedure
  import opened Options

  class SessionProcedureTable {
    var sessions: map<SessionKey, SessionRecord>
    var outboundCapabilities: Option<PendingCapabilities>
    var inboundCapabilities: Option<PendingCapabilities>

    function Contents(): (t: Table)
      reads this
    {
      Table(sessions, outboundCapabilities, inboundCapabilities)
    }

    constructor ()
      ensures Contents() == EMPTY
    {
      sessions := map[];
      outboundCapabilities := None;
      inboundCapabilities := None;
    }

    /** A session message that is refused leaves the table alone. */
    lemma Refused(m: Message, slot: Slot)
      requires m.OfSession() && slot == Lookup(sessions, KeyOfSession(m.session))
      ensures Store(sessions, KeyOfSession(m.session), slot) == sessions
    {
    }

    method ApplyOutboundRequest(now: U64, m: Message) returns (r: Result<Event>)
      requires m.RegistrationRequest?
      modifies this
      ensures Outcome(Contents(), r) == Apply(old(Contents()), now, Outbound, m)
    {
      var key := KeyOfSession(m.session);
      Refused(m, Lookup(sessions, key));
      hide Validate;
      var valid := Validate(m);
      if valid.Err? {
        return Err(valid.error);
      }
      if key !in sessions {
        if m.lifetime == 0 {
          return Err(ProcedureViolation(TeardownOfUnknown));
        }
        sessions := sessions[key := SessionRecord(m.session, None, Some(
          Pending(Registration, m.identification, m.lifetime, m.homeAgent, m.careOfAddress, now)))];
        return Ok(PendingRegistration(key));
      }
      var record := sessions[key];
      if record.session != m.session {
        return Err(ProcedureViolation(SessionMismatch));
      }
      if record.pending.Some? {
        return Err(ProcedureViolation(AlreadyPending));
      }
      var kind := if m.lifetime == 0 then LocalTeardown else Refresh;
      record := record.(pending := Some(
        Pending(kind, m.identification, m.lifetime, m.homeAgent, m.careOfAddress, now)));
      sessions := sessions[key := record];
      return Ok(if m.lifetime == 0 then PendingTeardown(key) else PendingRefresh(key));
    }

    method ApplyInboundReply(now: U64, m: Message) returns (r: Result<Event>)
      requires m.RegistrationReply?
      modifies this
      ensures Outcome(Contents(), r) == Apply(old(Contents()), now, Inbound, m)
    {
      var key := KeyOfSession(m.session);
      Refused(m, Lookup(sessions, key));
      hide Validate;
      var valid := Validate(m);
      if valid.Err? {
        return Err(valid.error);
      }
      if key !in sessions {
        return Err(ProcedureViolation(UnknownSession));
      }
      var record := sessions[key];
      if record.session != m.session {
        return Err(ProcedureViolation(SessionMismatch));
      }
      if record.pending.None? {
        return Err(ProcedureViolation(NoPending));
      }
      var pending := Take(key);
      if pending.identification != m.identification {
        Restore(key, pending, old(sessions));
        return Err(ProcedureViolation(IdentificationMismatch));
      }
      if m.code == 0 {
        if pending.kind == LocalTeardown {
          if m.lifetime != 0 {
            Restore(key, pending, old(sessions));
            return Err(ProcedureViolation(TeardownReplyLifetime));
          }
          sessions := sessions - {key};
          assert sessions == old(sessions) - {key};
          return Ok(Cleared(key, LocallyTornDown));
        }
        if m.lifetime == 0 {
          Restore(key, pending, old(sessions));
          return Err(ProcedureViolation(ZeroLifetimeGrant));
        }
        var expiresAt := now as int + m.lifetime;
        record := sessions[key].(committed := Some(
          Committed(m.identification, m.lifetime, m.homeAgent, pending.careOfAddress, expiresAt)));
        sessions := sessions[key := record];
        assert sessions == old(sessions)[key := record];
        return Ok(if pending.kind == Refresh then Refreshed(key, expiresAt) else Registered(key, expiresAt));
      } else {
        if sessions[key].committed.None? {
          sessions := sessions - {key};
          assert sessions == old(sessions) - {key};
        }
        return Ok(Rejected(key, m.code));
      }
    }

    /** Takes the pending transaction out of a record. */
    method Take(key: SessionKey) returns (pending: Pending)
      requires key in sessions && sessions[key].pending.Some?
      modifies this`sessions
      ensures old(sessions)[key].pending == Some(pending)
      ensures sessions == old(sessions)[key := old(sessions)[key].(pending := None)]
    {
      pending := sessions[key].pending.value;
      sessions := sessions[key := sessions[key].(pending := None)];
    }

    /** Puts it back, which undoes the taking. */
    method Restore(key: SessionKey, pending: Pending, ghost before: map<SessionKey, SessionRecord>)
      requires key in before && before[key].pending == Some(pending)
      requires sessions == before[key := before[key].(pending := None)]
      modifies this`sessions
      ensures sessions == before
    {
      sessions := sessions[key := sessions[key].(pending := Some(pending))];
    }

    method ApplyInboundUpdate(now: U64, m: Message) returns (r: Result<Event>)
      requires m.RegistrationUpdate?
      modifies this
      ensures Outcome(Contents(), r) == Apply(old(Contents()), now, Inbound, m)
    {
      var key := KeyOfSession(m.session);
      Refused(m, Lookup(sessions, key));
      hide Validate;
      var valid := Validate(m);
      if valid.Err? {
        return Err(valid.error);
      }
      if key !in sessions {
        return Err(ProcedureViolation(UnknownSession));
      }
      var record := sessions[key];
      if record.session != m.session {
        return Err(ProcedureViolation(SessionMismatch));
      }
      if record.pending.Some? {
        return Err(ProcedureViolation(AlreadyPending));
      }
      if record.committed.None? {
        return Err(ProcedureViolation(NotEstablished));
      }
      var committed := record.committed.value;
      if committed.identification != m.identification {
        return Err(ProcedureViolation(IdentificationMismatch));
      }
      if committed.homeAgent != m.homeAgent {
        return Err(ProcedureViolation(HomeAgentMismatch));
      }
      sessions := sessions[key := record.(pending := Some(
        Pending(RemoteUpdate, m.identification, committed.lifetime, m.homeAgent, committed.careOfAddress, now)))];
      return Ok(PendingTeardown(key));
    }

    method ApplyOutboundAcknowledge(now: U64, m: Message) returns (r: Result<Event>)
      requires m.RegistrationAcknowledge?
      modifies this
      ensures Outcome(Contents(), r) == Apply(old(Contents()), now, Outbound, m)
    {
      var key := KeyOfSession(m.session);
      Refused(m, Lookup(sessions, key));
      hide Validate;
      var valid := Validate(m);
      if valid.Err? {
        return Err(valid.error);
      }
      if key !in sessions {
        return Err(ProcedureViolation(UnknownSession));
      }
      var record := sessions[key];
      if record.session != m.session {
        return Err(ProcedureViolation(SessionMismatch));
      }
      if record.pending.None? {
        return Err(ProcedureViolation(NoPending));
      }
      var pending := Take(key);
      if pending.kind != RemoteUpdate {
        Restore(key, pending, old(sessions));
        return Err(ProcedureViolation(WrongTransaction));
      }
      if pending.identification != m.identification {
        Restore(key, pending, old(sessions));
        return Err(ProcedureViolation(IdentificationMismatch));
      }
      if pending.careOfAddress != m.careOfAddress {
        Restore(key, pending, old(sessions));
        return Err(ProcedureViolation(CareOfAddressMismatch));
      }
      if m.status == 0 {
        sessions := sessions - {key};
        assert sessions == old(sessions) - {key};
        return Ok(Cleared(key, RemotelyTornDown));
      }
      return Ok(Rejected(key, m.status));
    }

    method ApplySessionUpdate(now: U64, d: Direction, m: Message) returns (r: Result<Event>)
      requires m.SessionUpdate?
      modifies this
      ensures Outcome(Contents(), r) == Apply(old(Contents()), now, d, m)
    {
      var key := KeyOfSession(m.session);
      Refused(m, Lookup(sessions, key));
      hide Validate;
      var valid := Validate(m);
      if valid.Err? {
        return Err(valid.error);
      }
      if key !in sessions {
        return Err(ProcedureViolation(UnknownSession));
      }
      var record := sessions[key];
      if record.session != m.session {
        return Err(ProcedureViolation(SessionMismatch));
      }
      if record.pending.Some? {
        return Err(ProcedureViolation(AlreadyPending));
      }
      if record.committed.None? {
        return Err(ProcedureViolation(NotEstablished));
      }
      var committed := record.committed.value;
      if committed.homeAgent != m.homeAgent {
        return Err(ProcedureViolation(HomeAgentMismatch));
      }
      var kind := if d == Outbound then LocalSessionUpdate else RemoteSessionUpdate;
      sessions := sessions[key := record.(pending := Some(
        Pending(kind, m.identification, committed.lifetime, m.homeAgent, committed.careOfAddress, now)))];
      return Ok(if d == Outbound then PendingSessionUpdate(key) else PendingSessionUpdateAcknowledge(key));
    }

    method ApplySessionUpdateAcknowledge(now: U64, d: Direction, m: Message) returns (r: Result<Event>)
      requires m.SessionUpdateAcknowledge?
      modifies this
      ensures Outcome(Contents(), r) == Apply(old(Contents()), now, d, m)
    {
      var key := KeyOfSession(m.session);
      Refused(m, Lookup(sessions, key));
      hide Validate;
      var valid := Validate(m);
      if valid.Err? {
        return Err(valid.error);
      }
      if key !in sessions {
        return Err(ProcedureViolation(UnknownSession));
      }
      var record := sessions[key];
      if record.session != m.session {
        return Err(ProcedureViolation(SessionMismatch));
      }
      if record.pending.None? {
        return Err(ProcedureViolation(NoPending));
      }
      var pending := Take(key);
      if pending.kind != (if d == Inbound then LocalSessionUpdate else RemoteSessionUpdate) {
        Restore(key, pending, old(sessions));
        return Err(ProcedureViolation(WrongTransaction));
      }
      if pending.identification != m.identification {
        Restore(key, pending, old(sessions));
        return Err(ProcedureViolation(IdentificationMismatch));
      }
      if pending.careOfAddress != m.careOfAddress {
        Restore(key, pending, old(sessions));
        return Err(ProcedureViolation(CareOfAddressMismatch));
      }
      return Ok(if m.status == 0 then SessionParametersUpdated(key) else Rejected(key, m.status));
    }

    method ApplyCapabilitiesInfo(now: U64, d: Direction, m: Message) returns (r: Result<Event>)
      requires m.CapabilitiesInfo?
      modifies this
      ensures Outcome(Contents(), r) == Apply(old(Contents()), now, d, m)
    {
      hide Validate, ClassOf;
      var valid := Validate(m);
      if valid.Err? {
        return Err(valid.error);
      }
      if (if d == Outbound then outboundCapabilities else inboundCapabilities).Some? {
        return Err(ProcedureViolation(CapabilitiesPending));
      }
      var pending := Some(PendingCapabilities(m.identification, ClassOf(m.nvses), now));
      if d == Outbound {
        outboundCapabilities := pending;
        return Ok(PendingCapabilitiesInfo(m.identification));
      }
      inboundCapabilities := pending;
      return Ok(PendingCapabilitiesInfoAcknowledge(m.identification));
    }

    method ApplyInboundCapabilitiesInfoAcknowledge(now: U64, m: Message) returns (r: Result<Event>)
      requires m.CapabilitiesInfoAcknowledge?
      modifies this
      ensures Outcome(Contents(), r) == Apply(old(Contents()), now, Inbound, m)
    {
      hide Validate, ClassAnswers;
      var valid := Validate(m);
      if valid.Err? {
        return Err(valid.error);
      }
      var pending := outboundCapabilities;
      outboundCapabilities := None;
      if pending.None? {
        return Ok(IgnoredCapabilitiesInfoAcknowledge(m.identification));
      }
      if pending.value.identification != m.identification {
        outboundCapabilities := pending;
        return Err(ProcedureViolation(IdentificationMismatch));
      }
      if !ClassAnswers(pending.value.featureClass, m.nvses) {
        return Err(ProcedureViolation(FeatureClass));
      }
      return Ok(CapabilitiesInfoCompleted(m.identification));
    }

    method ApplyOutboundCapabilitiesInfoAcknowledge(now: U64, m: Message) returns (r: Result<Event>)
      requires m.CapabilitiesInfoAcknowledge?
      modifies this
      ensures Outcome(Contents(), r) == Apply(old(Contents()), now, Outbound, m)
    {
      hide Validate, ClassAnswers;
      var valid := Validate(m);
      if valid.Err? {
        return Err(valid.error);
      }
      var pending := inboundCapabilities;
      inboundCapabilities := None;
      if pending.None? {
        return Err(ProcedureViolation(CapabilitiesNotRequested));
      }
      if pending.value.identification != m.identification {
        inboundCapabilities := pending;
        return Err(ProcedureViolation(IdentificationMismatch));
      }
      if !ClassAnswers(pending.value.featureClass, m.nvses) {
        return Err(ProcedureViolation(FeatureClass));
      }
      return Ok(CapabilitiesInfoCompleted(m.identification));
    }

    /** Applies a message as the local node sees it. */
    method ApplyMessage(now: U64, d: Direction, m: Message) returns (r: Result<Event>)
      modifies this
      ensures Outcome(Contents(), r) == Apply(old(Contents()), now, d, m)
    {
      hide Validate;
      match (d, m) {
        case (Outbound, RegistrationRequest(_, _, _, _, _, _, _, _)) => r := ApplyOutboundRequest(now, m);
        case (Inbound, RegistrationReply(_, _, _, _, _, _, _)) => r := ApplyInboundReply(now, m);
        case (Inbound, RegistrationUpdate(_, _, _, _, _, _, _)) => r := ApplyInboundUpdate(now, m);
        case (Outbound, RegistrationAcknowledge(_, _, _, _, _, _, _)) => r := ApplyOutboundAcknowledge(now, m);
        case (_, SessionUpdate(_, _, _, _, _, _, _)) => r := ApplySessionUpdate(now, d, m);
        case (_, SessionUpdateAcknowledge(_, _, _, _, _, _, _)) => r := ApplySessionUpdateAcknowledge(now, d, m);
        case (_, CapabilitiesInfo(_, _, _, _, _, _, _)) => r := ApplyCapabilitiesInfo(now, d, m);
        case (Inbound, CapabilitiesInfoAcknowledge(_, _, _, _, _, _)) =>
          r := ApplyInboundCapabilitiesInfoAcknowledge(now, m);
        case (Outbound, CapabilitiesInfoAcknowledge(_, _, _, _, _, _)) =>
          r := ApplyOutboundCapabilitiesInfoAcknowledge(now, m);
        case _ =>
          Refused(m, Lookup(sessions, KeyOfSession(m.session)));
          r := Err(ProcedureViolation(WrongDirection));
      }
    }

    method ClearSessionNow(key: SessionKey) returns (r: Result<Event>)
      modifies this
      ensures Outcome(Contents(), r) == ClearSession(old(Contents()), key)
    {
      if key in sessions {
        sessions := sessions - {key};
        return Ok(Cleared(key, Administrative));
      }
      return Err(ProcedureViolation(UnknownSession));
    }

    /** Removes every session whose granted lifetime is over, with one event for each. */
    method ExpireSessionsNow(now: U64) returns (events: seq<Event>, ghost order: seq<SessionKey>)
      modifies this
      ensures Contents() == ExpireSessions(old(Contents()), now)
      ensures Enumerates(order, set k | k in old(sessions) && LifetimeOver(old(sessions)[k], now))
      ensures |events| == |order| && forall i | 0 <= i < |order| :: events[i] == Expired(order[i])
    {
      hide LifetimeOver;
      var expired := Enumerate(set k | k in sessions && LifetimeOver(sessions[k], now));
      order := expired;
      events := [];
      for i := 0 to |expired|
        invariant |events| == i && forall j | 0 <= j < i :: events[j] == Expired(expired[j])
        invariant forall k :: k in sessions <==> k in old(sessions) && k !in expired[..i]
        invariant forall k <- sessions :: sessions[k] == old(sessions)[k]
        invariant outboundCapabilities == old(outboundCapabilities) && inboundCapabilities == old(inboundCapabilities)
      {
        assert expired[..i + 1] == expired[..i] + [expired[i]];
        sessions := sessions - {expired[i]};
        events := events + [Expired(expired[i])];
      }
      assert expired[..|expired|] == expired;
      assert sessions == ExpireSessions(old(Contents()), now).sessions;
    }

    /** Gives up the overdue local session updates. */
    method ExpireSessionUpdates(now: U64, tsesupd: U64) returns (events: seq<Event>, ghost order: seq<SessionKey>)
      modifies this`sessions
      ensures sessions == map k | k in old(sessions) :: SettleOverdue(old(sessions)[k], now, tsesupd)
      ensures Enumerates(order, set k | k in old(sessions) && UpdateOverdue(old(sessions)[k], now, tsesupd))
      ensures |events| == |order| && forall i | 0 <= i < |order| :: events[i] == SessionUpdateExpired(order[i])
    {
      hide UpdateOverdue;
      var expired := Enumerate(set k | k in sessions && UpdateOverdue(sessions[k], now, tsesupd));
      order := expired;
      events := [];
      for i := 0 to |expired|
        invariant |events| == i && forall j | 0 <= j < i :: events[j] == SessionUpdateExpired(expired[j])
        invariant sessions.Keys == old(sessions).Keys
        invariant forall k <- sessions ::
          sessions[k] == if k in expired[..i] then old(sessions)[k].(pending := None) else old(sessions)[k]
      {
        assert expired[..i + 1] == expired[..i] + [expired[i]];
        assert expired[i] in expired;
        sessions := sessions[expired[i] := sessions[expired[i]].(pending := None)];
        events := events + [SessionUpdateExpired(expired[i])];
      }
      assert expired[..|expired|] == expired;
    }

    /** Gives up overdue local session updates, then an overdue capabilities exchange. */
    method ExpireProtocolTimersNow(now: U64, tsesupd: U64, tvers11: U64)
      returns (events: seq<Event>, ghost order: seq<SessionKey>)
      modifies this
      ensures Contents() == ExpireProtocolTimers(old(Contents()), now, tsesupd, tvers11)
      ensures Enumerates(order, set k | k in old(sessions) && UpdateOverdue(old(sessions)[k], now, tsesupd))
      ensures |events| == |order| + (if InfoOverdue(old(outboundCapabilities), now, tvers11) then 1 else 0)
      ensures forall i | 0 <= i < |order| :: events[i] == SessionUpdateExpired(order[i])
      ensures InfoOverdue(old(outboundCapabilities), now, tvers11) ==>
        events[|order|] == CapabilitiesInfoExpired(old(outboundCapabilities).value.identification)
    {
      hide UpdateOverdue, SettleOverdue;
      events, order := ExpireSessionUpdates(now, tsesupd);
      if outboundCapabilities.Some? && SaturatingAdd(outboundCapabilities.value.startedAt, tvers11) <= now {
        events := events + [CapabilitiesInfoExpired(outboundCapabilities.value.identification)];
        outboundCapabilities := None;
      }
    }
  }

  /** The sequence lists the set, each element once. */
  ghost predicate Enumerates<T(!new)>(order: seq<T>, elements: set<T>) {
    && (forall x :: x in order <==> x in elements)
    && (forall i, j | 0 <= i < j < |order| :: order[i] != order[j])
  }

  /** Some order of the keys, as iterating a hash map gives one. */
  method Enumerate(keys: set<SessionKey>) returns (order: seq<SessionKey>)
    ensures Enumerates(order, keys)
  {
    order := [];
    var left := keys;
    while left != {}
      invariant left <= keys
      invariant Enumerates(order, keys - left)
    {
      var key :| key in left;
      order := order + [key];
      left := left - {key};
    }
  }
}
