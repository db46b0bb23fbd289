/** Laws of single steps: what a failure leaves alone, which messages commute, how the sweeps compose. */
module ProcedureLaws {
  import opened Bytes
  import opened Messages
  import opened Procedure
  import opened Options

  // Failure

  lemma SessionFailure(now: U64, d: Direction, m: Message, slot: Slot)
    requires m.OfSession()
    ensures SessionStep(now, d, m, slot).result.Err? ==> SessionStep(now, d, m, slot).state == slot
  {
    hide Validate;
  }

  /** The answer to a capabilities exchange was refused because of its feature class. */
  predicate ClassRefused(t: Table, d: Direction, m: Message) {
    var slot := if d == Inbound then t.outbound else t.inbound;
    && m.CapabilitiesInfoAcknowledge? && Validate(m).Ok?
    && slot.Some? && slot.value.identification == m.identification
    && !ClassAnswers(slot.value.featureClass, m.nvses)
  }

  /** A message that fails changes nothing, except that an answer of the wrong feature class empties
      the one slot it answers; and it empties a slot while failing only in that case. */
  lemma FailureAtomic(t: Table, now: U64, d: Direction, m: Message)
    requires Apply(t, now, d, m).result.Err?
    ensures Apply(t, now, d, m).state ==
      if !ClassRefused(t, d, m) then t
      else if d == Inbound then t.(outbound := None)
      else t.(inbound := None)
    ensures ClassRefused(t, d, m) <==> Apply(t, now, d, m).state != t
    ensures ClassRefused(t, d, m) <==> Apply(t, now, d, m).result == Err(ProcedureViolation(FeatureClass))
  {
    if m.OfSession() {
      SessionFailure(now, d, m, Lookup(t.sessions, KeyOfSession(m.session)));
      SessionErrors(now, d, m, Lookup(t.sessions, KeyOfSession(m.session)));
      assert Store(t.sessions, KeyOfSession(m.session), Lookup(t.sessions, KeyOfSession(m.session))) == t.sessions;
    } else {
      ValidationErrors(m);
    }
    hide Validate, SessionStep, ClassAnswers;
  }

  lemma ValidationErrors(m: Message)
    ensures Validate(m).Err? ==> !Validate(m).error.ProcedureViolation?
  {
    if m.WithExtensions() {
      ExtensionErrors(m.extensions, NOTHING_SEEN, MessageType(m));
    } else if m.WithNvses() {
      NvseErrors(m.nvses, {}, MessageType(m));
    }
    if m.OfSession() && 1 <= |m.session.mnId| {
      MsidErrors(m.session.mnId, 1);
    }
    hide ValidateExtensionsFrom, ValidateNvsesFrom, ValidateMsidFrom, CarriesSessionContent, CarriesFeatureContent;
  }

  lemma {:induction false} MsidErrors(msid: seq<Byte>, i: nat)
    requires 1 <= i <= |msid|
    ensures ValidateMsidFrom(msid, i).Err? ==> ValidateMsidFrom(msid, i).error.InvalidValue?
    decreases |msid| - i
  {
    if i < |msid| {
      MsidErrors(msid, i + 1);
    }
  }

  lemma {:induction false} ExtensionErrors(extensions: seq<Extension>, seen: Seen, messageType: Byte)
    ensures
      var r := ValidateExtensionsFrom(extensions, seen, messageType);
      r.Err? ==> !r.error.ProcedureViolation?
  {
    hide NvseAdmissible;
    if extensions != [] && Admit(seen, extensions[0]).Ok? {
      ExtensionErrors(extensions[1..], Admit(seen, extensions[0]).value, messageType);
    }
  }

  lemma {:induction false} NvseErrors(nvses: seq<Nvse>, keys: set<NvseKey>, messageType: Byte)
    ensures
      var r := ValidateNvsesFrom(nvses, keys, messageType);
      r.Err? ==> !r.error.ProcedureViolation?
  {
    hide NvseAdmissible;
    if nvses != [] {
      NvseErrors(nvses[1..], keys + {nvses[0].ApplicationKey()}, messageType);
    }
  }

  lemma SessionErrors(now: U64, d: Direction, m: Message, slot: Slot)
    requires m.OfSession()
    ensures SessionStep(now, d, m, slot).result != Err(ProcedureViolation(FeatureClass))
  {
    ValidationErrors(m);
    hide Validate;
  }

  // Commutation

  /** The part of the table a message can read or change. */
  datatype Part = SessionPart(key: SessionKey) | OutboundPart | InboundPart

  function PartOf(d: Direction, m: Message): (p: Part) {
    if m.OfSession() then SessionPart(KeyOfSession(m.session))
    else if m.CapabilitiesInfo? == (d == Outbound) then OutboundPart
    else InboundPart
  }

  /** Two tables agree on a part. */
  predicate Agree(t: Table, t': Table, p: Part) {
    match p
    case SessionPart(key) => Lookup(t.sessions, key) == Lookup(t'.sessions, key)
    case OutboundPart => t.outbound == t'.outbound
    case InboundPart => t.inbound == t'.inbound
  }

  lemma SameTable(t: Table, t': Table)
    requires forall p :: Agree(t, t', p)
    ensures t == t'
  {
    forall k
      ensures k in t.sessions <==> k in t'.sessions
      ensures k in t.sessions ==> t.sessions[k] == t'.sessions[k]
    {
      assert Agree(t, t', SessionPart(k));
    }
    assert t.sessions == t'.sessions;
    assert Agree(t, t', OutboundPart) && Agree(t, t', InboundPart);
  }

  /** A message leaves every other part alone. */
  lemma TouchesOnly(t: Table, now: U64, d: Direction, m: Message, p: Part)
    requires p != PartOf(d, m)
    ensures Agree(t, Apply(t, now, d, m).state, p)
  {
    hide Validate, SessionStep, InfoStep, AnswerStep;
  }

  /** What a message does depends only on the part it names. */
  lemma DependsOnly(t: Table, t': Table, now: U64, d: Direction, m: Message)
    requires Agree(t, t', PartOf(d, m))
    ensures Apply(t, now, d, m).result == Apply(t', now, d, m).result
    ensures Agree(Apply(t, now, d, m).state, Apply(t', now, d, m).state, PartOf(d, m))
  {
    hide Validate, SessionStep, InfoStep, AnswerStep;
  }

  /** Messages that name different parts, different sessions for instance, can be applied in either
      order: both callers are told the same and the table ends the same. */
  lemma Commute(t: Table, now: U64, d: Direction, m: Message, now': U64, d': Direction, m': Message)
    requires PartOf(d, m) != PartOf(d', m')
    ensures
      var first, first' := Apply(t, now, d, m), Apply(t, now', d', m');
      var second, second' := Apply(first.state, now', d', m'), Apply(first'.state, now, d, m);
      && first.result == second'.result
      && first'.result == second.result
      && second.state == second'.state
  {
    var first, first' := Apply(t, now, d, m), Apply(t, now', d', m');
    var second, second' := Apply(first.state, now', d', m'), Apply(first'.state, now, d, m);
    hide Apply, PartOf, Agree;
    TouchesOnly(t, now, d, m, PartOf(d', m'));
    TouchesOnly(t, now', d', m', PartOf(d, m));
    DependsOnly(t, first'.state, now, d, m);
    DependsOnly(t, first.state, now', d', m');
    forall p ensures Agree(second.state, second'.state, p) {
      if p != PartOf(d', m') {
        TouchesOnly(first.state, now', d', m', p);
      }
      if p != PartOf(d, m) {
        TouchesOnly(first'.state, now, d, m, p);
      }
      if p != PartOf(d, m) && p != PartOf(d', m') {
        TouchesOnly(t, now, d, m, p);
        TouchesOnly(t, now', d', m', p);
        AgreeChain(second.state, first.state, t, p);
        AgreeChain(second'.state, first'.state, t, p);
        AgreeChain(second.state, t, second'.state, p);
      } else if p == PartOf(d, m) {
        AgreeChain(second.state, first.state, second'.state, p);
      } else {
        AgreeChain(second.state, first'.state, second'.state, p);
      }
    }
    SameTable(second.state, second'.state);
  }

  lemma AgreeChain(a: Table, b: Table, c: Table, p: Part)
    requires (Agree(a, b, p) || Agree(b, a, p)) && (Agree(b, c, p) || Agree(c, b, p))
    ensures Agree(a, c, p)
  {
  }

  // Sweeps

  /** Sweeping twice is sweeping once at the later time. */
  lemma ExpiryComposes(t: Table, t1: U64, t2: U64)
    requires t1 <= t2
    ensures ExpireSessions(ExpireSessions(t, t1), t2) == ExpireSessions(t, t2)
    ensures ExpireSessions(ExpireSessions(t, t2), t1) == ExpireSessions(t, t2)
  {
    assert ExpireSessions(ExpireSessions(t, t1), t2).sessions == ExpireSessions(t, t2).sessions;
    assert ExpireSessions(ExpireSessions(t, t2), t1).sessions == ExpireSessions(t, t2).sessions;
  }

  /** A sweep removes exactly the committed sessions whose time has come, and keeps the rest as they are. */
  lemma ExpiryExact(t: Table, now: U64, k: SessionKey)
    ensures Lookup(ExpireSessions(t, now).sessions, k) ==
      if k in t.sessions && t.sessions[k].committed.Some? && t.sessions[k].committed.value.expiresAt <= now
      then None else Lookup(t.sessions, k)
    ensures ExpireSessions(t, now).outbound == t.outbound && ExpireSessions(t, now).inbound == t.inbound
  {
  }

  /** A timer has run out by `now`; the sum is exact, and the end of the clock's range ends every timer. */
  predicate RunOut(start: U64, timer: U64, now: U64) {
    start as int + timer as int <= now || now == U64_MAX
  }

  /** Exactly the local session updates and the outbound capabilities exchange whose timers have run out end. */
  lemma ProtocolTimersExact(t: Table, now: U64, tsesupd: U64, tvers11: U64, k: SessionKey)
    ensures
      var t' := ExpireProtocolTimers(t, now, tsesupd, tvers11);
      && t'.inbound == t.inbound
      && t'.outbound ==
           (if t.outbound.Some? && RunOut(t.outbound.value.startedAt, tvers11, now) then None else t.outbound)
      && t'.sessions.Keys == t.sessions.Keys
      && (k in t.sessions ==>
            var r := t.sessions[k];
            t'.sessions[k] ==
            if && r.pending.Some? && r.pending.value.kind == LocalSessionUpdate
               && RunOut(r.pending.value.startedAt, tsesupd, now)
            then r.(pending := None) else r)
  {
  }

  lemma SweepsCommute(t: Table, now: U64, now': U64, tsesupd: U64, tvers11: U64)
    ensures ExpireSessions(ExpireProtocolTimers(t, now', tsesupd, tvers11), now)
         == ExpireProtocolTimers(ExpireSessions(t, now), now', tsesupd, tvers11)
  {
    hide UpdateOverdue;
    assert ExpireSessions(ExpireProtocolTimers(t, now', tsesupd, tvers11), now).sessions
        == ExpireProtocolTimers(ExpireSessions(t, now), now', tsesupd, tvers11).sessions;
  }

  /** A later sweep of the protocol timers subsumes an earlier one. */
  lemma ProtocolTimersCompose(t: Table, t1: U64, t2: U64, tsesupd: U64, tvers11: U64)
    requires t1 <= t2
    ensures ExpireProtocolTimers(ExpireProtocolTimers(t, t1, tsesupd, tvers11), t2, tsesupd, tvers11)
         == ExpireProtocolTimers(t, t2, tsesupd, tvers11)
  {
    assert ExpireProtocolTimers(ExpireProtocolTimers(t, t1, tsesupd, tvers11), t2, tsesupd, tvers11).sessions
        == ExpireProtocolTimers(t, t2, tsesupd, tvers11).sessions;
  }
}
