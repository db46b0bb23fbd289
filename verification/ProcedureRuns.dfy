/** Whole runs of the table: what every reachable state satisfies and where committed state comes from. */
module ProcedureRuns {
  import opened Bytes
  import opened Messages
  import opened Procedure
  import opened Options

  datatype Op =
    | ApplyOp(now: U64, direction: Direction, message: Message)
    | ExpireSessionsOp(now: U64)
    | ExpireTimersOp(now: U64, tsesupd: U64, tvers11: U64)
    | ClearOp(key: SessionKey)

  function Step(t: Table, op: Op): (t': Table) {
    match op
    case ApplyOp(now, d, m) => Apply(t, now, d, m).state
    case ExpireSessionsOp(now) => ExpireSessions(t, now)
    case ExpireTimersOp(now, tsesupd, tvers11) => ExpireProtocolTimers(t, now, tsesupd, tvers11)
    case ClearOp(key) => ClearSession(t, key).state
  }

  /** The table after a run from the empty one. */
  function Run(ops: seq<Op>): (t: Table) {
    if ops == [] then EMPTY else Step(Run(ops[..|ops| - 1]), ops[|ops| - 1])
  }

  // Invariant

  /** What is pending on an established session agrees with what was committed. */
  predicate PendingAgrees(p: Pending, c: Committed) {
    match p.kind
    case Registration => false
    case Refresh => p.lifetime != 0
    case LocalTeardown => p.lifetime == 0
    case RemoteUpdate =>
      p.homeAgent == c.homeAgent && p.careOfAddress == c.careOfAddress && p.lifetime == c.lifetime
      && p.identification == c.identification
    case _ => p.homeAgent == c.homeAgent && p.careOfAddress == c.careOfAddress && p.lifetime == c.lifetime
  }

  predicate RecordInv(key: SessionKey, r: SessionRecord) {
    && KeyOfSession(r.session) == key
    && SessionWellFormed(r.session)
    && (r.committed.None? ==> r.pending.Some? && r.pending.value.kind == Registration && r.pending.value.lifetime != 0)
    && (r.committed.Some? && r.pending.Some? ==> PendingAgrees(r.pending.value, r.committed.value))
    && (r.committed.Some? ==> 1 <= r.committed.value.lifetime <= 65534)
    && (r.pending.Some? ==> r.pending.value.identification != 0)
  }

  predicate SlotInv(key: SessionKey, slot: Slot) {
    slot.Some? ==> RecordInv(key, slot.value)
  }

  ghost predicate TableInv(t: Table) {
    forall k <- t.sessions :: RecordInv(k, t.sessions[k])
  }

  lemma SessionStepKeepsInv(now: U64, d: Direction, m: Message, slot: Slot)
    requires m.OfSession() && SlotInv(KeyOfSession(m.session), slot)
    ensures SlotInv(KeyOfSession(m.session), SessionStep(now, d, m, slot).state)
  {
    hide Validate, SessionWellFormed;
  }

  lemma StepKeepsInv(t: Table, op: Op)
    requires TableInv(t)
    ensures TableInv(Step(t, op))
  {
    hide Validate, SessionWellFormed, SessionStep, InfoStep, AnswerStep;
    if op.ApplyOp? && op.message.OfSession() {
      var m, key := op.message, KeyOfSession(op.message.session);
      var slot := Lookup(t.sessions, key);
      assert SlotInv(key, slot);
      SessionStepKeepsInv(op.now, op.direction, m, slot);
      var t' := Step(t, op);
      forall k <- t'.sessions ensures RecordInv(k, t'.sessions[k]) {
        assert k != key ==> Lookup(t'.sessions, k) == Lookup(t.sessions, k);
      }
    }
  }

  lemma {:induction false} RunKeepsInv(ops: seq<Op>)
    ensures TableInv(Run(ops))
  {
    if ops != [] {
      RunKeepsInv(ops[..|ops| - 1]);
      StepKeepsInv(Run(ops[..|ops| - 1]), ops[|ops| - 1]);
    }
  }

  /** In every reachable table a session sits under its own key and is valid; it is uncommitted exactly
      while its registration is pending, so it reads as active exactly when it is committed with nothing
      pending, and the snapshot of a record with neither half never arises. */
  lemma ReachableRecord(ops: seq<Op>, key: SessionKey)
    requires key in Run(ops).sessions
    ensures
      var r := Run(ops).sessions[key];
      && KeyOfSession(r.session) == key && SessionWellFormed(r.session)
      && (r.committed.None? <==> r.pending.Some? && r.pending.value.kind == Registration)
      && !(r.committed.None? && r.pending.None?)
      && (SnapshotOf(r).state == Active <==> r.committed.Some? && r.pending.None?)
      && (SnapshotOf(r).expiresAt.Some? <==> r.committed.Some?)
      && SnapshotOf(r).key == key && SnapshotOf(r).state != AwaitingUpdateAcknowledge
      && SnapshotOf(r).grantedLifetime != 0
  {
    hide Run, SessionWellFormed;
    RunKeepsInv(ops);
  }

  /** While a peer's update of a session is pending it repeats what was committed, in every reachable table. */
  lemma ReachablePendingUpdate(ops: seq<Op>, key: SessionKey)
    requires key in Run(ops).sessions && Run(ops).sessions[key].pending.Some?
    requires Run(ops).sessions[key].pending.value.kind in {RemoteUpdate, LocalSessionUpdate, RemoteSessionUpdate}
    ensures
      var r := Run(ops).sessions[key];
      && r.committed.Some?
      && r.pending.value.homeAgent == r.committed.value.homeAgent
      && r.pending.value.careOfAddress == r.committed.value.careOfAddress
      && r.pending.value.lifetime == r.committed.value.lifetime
      && (r.pending.value.kind == RemoteUpdate ==> r.pending.value.identification == r.committed.value.identification)
  {
    hide Run;
    RunKeepsInv(ops);
  }

  // Lifetime of a session

  /** What ends a session, read off the record that ended and the step that ended it. */
  predicate Ends(r: SessionRecord, key: SessionKey, op: Op) {
    match op
    case ExpireSessionsOp(now) => LifetimeOver(r, now)
    case ExpireTimersOp(_, _, _) => false
    case ClearOp(k) => k == key
    case ApplyOp(_, d, m) =>
      && m.OfSession() && m.session == r.session && Validate(m).Ok? && r.pending.Some?
      && r.pending.value.identification == m.identification
      && if m.RegistrationReply? then
           && d == Inbound
           && (if m.code == 0 then r.pending.value.kind == LocalTeardown && m.lifetime == 0 else r.committed.None?)
         else
           && m.RegistrationAcknowledge? && d == Outbound && r.pending.value.kind == RemoteUpdate && m.status == 0
           && r.pending.value.careOfAddress == m.careOfAddress
  }

  lemma SlotEnds(now: U64, d: Direction, m: Message, slot: Slot)
    requires m.OfSession() && slot.Some?
    ensures SessionStep(now, d, m, slot).state.None? <==> Ends(slot.value, KeyOfSession(m.session), ApplyOp(now, d, m))
    ensures var after := SessionStep(now, d, m, slot).state;
            after.Some? ==> after.value.session == slot.value.session
  {
    hide Validate;
  }

  /** A session keeps its identity as long as it stays, and it leaves the table exactly when its lifetime
      is over, it is cleared, its teardown or its peer's teardown completes, or its registration is refused. */
  lemma SessionLeaves(t: Table, op: Op, key: SessionKey)
    requires TableInv(t) && key in t.sessions
    ensures key !in Step(t, op).sessions <==> Ends(t.sessions[key], key, op)
    ensures key in Step(t, op).sessions ==> Step(t, op).sessions[key].session == t.sessions[key].session
  {
    var r := t.sessions[key];
    assert KeyOfSession(r.session) == key;
    hide Validate, SessionStep, InfoStep, AnswerStep, SessionWellFormed;
    if op.ApplyOp? && op.message.OfSession() {
      var m := op.message;
      var k := KeyOfSession(m.session);
      var t' := Step(t, op);
      if k == key {
        SlotEnds(op.now, op.direction, m, Some(r));
        assert Lookup(t'.sessions, key) == SessionStep(op.now, op.direction, m, Some(r)).state;
      } else {
        assert Lookup(t'.sessions, key) == Lookup(t.sessions, key);
      }
    }
  }

  // Provenance

  /** The event of a step that opened a transaction on a session. */
  predicate Opening(e: Event, key: SessionKey) {
    || e == PendingRegistration(key) || e == PendingRefresh(key) || e == PendingTeardown(key)
    || e == PendingSessionUpdate(key) || e == PendingSessionUpdateAcknowledge(key)
  }

  /** Step `i` was an accepted message of session `s` that opened a transaction under `identification`. */
  ghost predicate Opens(ops: seq<Op>, i: nat, s: Session, identification: U64) {
    && i < |ops| && ops[i].ApplyOp? && ops[i].message.OfSession()
    && ops[i].message.session == s && ops[i].message.identification == identification
    && var result := Apply(Run(ops[..i]), ops[i].now, ops[i].direction, ops[i].message).result;
       result.Ok? && Opening(result.value, KeyOfSession(s))
  }

  /** Step `i` was an accepted registration request of session `s` naming this care-of address. */
  ghost predicate Requests(ops: seq<Op>, i: nat, s: Session, careOfAddress: Address) {
    && i < |ops| && ops[i].ApplyOp? && ops[i].direction == Outbound && ops[i].message.RegistrationRequest?
    && ops[i].message.session == s && ops[i].message.careOfAddress == careOfAddress
    && Apply(Run(ops[..i]), ops[i].now, Outbound, ops[i].message).result.Ok?
  }

  /** The reply that grants `c` when it arrives at time `now`. */
  predicate GrantedBy(now: U64, d: Direction, m: Message, s: Session, c: Committed) {
    && d == Inbound && m.RegistrationReply? && m.code == 0 && 1 <= m.lifetime <= 65534
    && m.session == s && m.identification == c.identification && m.lifetime == c.lifetime && m.homeAgent == c.homeAgent
    && c.expiresAt == now as int + m.lifetime
  }

  /** Step `j` was the reply that granted `c` to session `s`. */
  ghost predicate Grants(ops: seq<Op>, j: nat, s: Session, c: Committed) {
    && j < |ops| && ops[j].ApplyOp? && GrantedBy(ops[j].now, ops[j].direction, ops[j].message, s, c)
    && var result := Apply(Run(ops[..j]), ops[j].now, ops[j].direction, ops[j].message).result;
       result == Ok(Registered(KeyOfSession(s), c.expiresAt)) || result == Ok(Refreshed(KeyOfSession(s), c.expiresAt))
  }

  /** The session's record after `n` steps holds this pending transaction. */
  ghost predicate PendingAt(ops: seq<Op>, n: nat, s: Session, p: Pending)
    requires n <= |ops|
  {
    var slot := Lookup(Run(ops[..n]).sessions, KeyOfSession(s));
    slot.Some? && slot.value.session == s && slot.value.pending == Some(p)
  }

  ghost predicate CommittedAt(ops: seq<Op>, n: nat, s: Session, c: Committed)
    requires n <= |ops|
  {
    var slot := Lookup(Run(ops[..n]).sessions, KeyOfSession(s));
    slot.Some? && slot.value.session == s && slot.value.committed == Some(c)
  }

  /** Step `i` opened `p`, for the care-of address of a request made by then, and `p` has been pending ever since,
      up to the table after `n` steps. */
  ghost predicate PendingSince(ops: seq<Op>, i: nat, n: nat, s: Session, p: Pending)
    requires n <= |ops|
  {
    && i < n && Opens(ops, i, s, p.identification) && ops[i].now == p.startedAt
    && (exists h: nat :: h <= i && Requests(ops, h, s, p.careOfAddress))
    && (forall q | i < q <= n :: PendingAt(ops, q, s, p))
  }

  /** Step `j` granted `c` in answer to `p`, which was opened at step `i` and still pending, and `c` has stood
      unchanged since, up to the table after `n` steps. */
  ghost predicate CommittedSince(ops: seq<Op>, i: nat, j: nat, n: nat, s: Session, p: Pending, c: Committed)
    requires n <= |ops|
  {
    && j < n && PendingSince(ops, i, j, s, p) && Grants(ops, j, s, c)
    && p.identification == c.identification && p.careOfAddress == c.careOfAddress
    && (forall q | j < q <= n :: CommittedAt(ops, q, s, c))
  }

  ghost predicate PendingFrom(ops: seq<Op>, s: Session, p: Pending) {
    exists i: nat :: PendingSince(ops, i, |ops|, s, p)
  }

  ghost predicate CommittedFrom(ops: seq<Op>, s: Session, c: Committed) {
    exists i: nat, j: nat, p :: CommittedSince(ops, i, j, |ops|, s, p, c)
  }

  ghost predicate Provenance(ops: seq<Op>, r: SessionRecord) {
    && (r.pending.Some? ==> PendingFrom(ops, r.session, r.pending.value))
    && (r.committed.Some? ==> CommittedFrom(ops, r.session, r.committed.value))
  }

  // Earlier steps keep their meaning as a run goes on

  lemma EarlierSteps(ops: seq<Op>, op: Op, s: Session)
    ensures forall i: nat, id :: Opens(ops, i, s, id) ==> Opens(ops + [op], i, s, id)
    ensures forall i: nat, a :: Requests(ops, i, s, a) ==> Requests(ops + [op], i, s, a)
    ensures forall j: nat, c :: Grants(ops, j, s, c) ==> Grants(ops + [op], j, s, c)
  {
    hide Apply, Run;
    assert forall i | 0 <= i <= |ops| :: (ops + [op])[..i] == ops[..i];
  }

  lemma EarlierTables(ops: seq<Op>, op: Op, s: Session)
    ensures forall n: nat, p | n <= |ops| :: PendingAt(ops, n, s, p) == PendingAt(ops + [op], n, s, p)
    ensures forall n: nat, c | n <= |ops| :: CommittedAt(ops, n, s, c) == CommittedAt(ops + [op], n, s, c)
  {
    hide Run;
    assert forall i | 0 <= i <= |ops| :: (ops + [op])[..i] == ops[..i];
  }

  lemma PendingSinceKept(ops: seq<Op>, op: Op, i: nat, n: nat, s: Session, p: Pending)
    requires n <= |ops| && PendingSince(ops, i, n, s, p)
    ensures PendingSince(ops + [op], i, n, s, p)
  {
    EarlierSteps(ops, op, s);
    EarlierTables(ops, op, s);
    hide Opens, Requests, PendingAt, CommittedAt;
    assert (ops + [op])[i] == ops[i];
  }

  lemma PendingGoesOn(ops: seq<Op>, op: Op, s: Session, p: Pending)
    requires PendingFrom(ops, s, p) && PendingAt(ops + [op], |ops| + 1, s, p)
    ensures PendingFrom(ops + [op], s, p)
  {
    hide Opens, Requests, PendingAt;
    var i: nat :| PendingSince(ops, i, |ops|, s, p);
    PendingSinceKept(ops, op, i, |ops|, s, p);
    assert PendingSince(ops + [op], i, |ops| + 1, s, p);
  }

  lemma CommittedGoesOn(ops: seq<Op>, op: Op, s: Session, c: Committed)
    requires CommittedFrom(ops, s, c) && CommittedAt(ops + [op], |ops| + 1, s, c)
    ensures CommittedFrom(ops + [op], s, c)
  {
    EarlierSteps(ops, op, s);
    EarlierTables(ops, op, s);
    hide Opens, Requests, Grants, PendingAt, CommittedAt;
    var i: nat, j: nat, p :| CommittedSince(ops, i, j, |ops|, s, p, c);
    PendingSinceKept(ops, op, i, j, s, p);
    assert CommittedSince(ops + [op], i, j, |ops| + 1, s, p, c);
  }

  // What one step does to a record

  /** Everything one message can do to a record, with the events it reports. */
  lemma SlotHistory(now: U64, d: Direction, m: Message, slot: Slot)
    requires m.OfSession() && SlotInv(KeyOfSession(m.session), slot)
    requires SessionStep(now, d, m, slot).state.Some?
    ensures
      var o := SessionStep(now, d, m, slot);
      var r' := o.state.value;
      && (r'.pending.Some? && (slot.None? || r'.pending != slot.value.pending) ==>
            && m.session == r'.session && m.identification == r'.pending.value.identification
            && r'.pending.value.startedAt == now && o.result.Ok? && Opening(o.result.value, KeyOfSession(m.session))
            && if m.RegistrationRequest? then d == Outbound && r'.pending.value.careOfAddress == m.careOfAddress
               else && slot.Some? && slot.value.committed.Some?
                    && r'.pending.value.careOfAddress == slot.value.committed.value.careOfAddress)
      && (r'.committed.Some? && (slot.None? || r'.committed != slot.value.committed) ==>
            && slot.Some? && slot.value.pending.Some? && m.session == r'.session
            && slot.value.pending.value.identification == m.identification
            && slot.value.pending.value.careOfAddress == r'.committed.value.careOfAddress
            && GrantedBy(now, d, m, r'.session, r'.committed.value)
            && (o.result == Ok(Registered(KeyOfSession(m.session), r'.committed.value.expiresAt))
                || o.result == Ok(Refreshed(KeyOfSession(m.session), r'.committed.value.expiresAt))))
      && (slot.Some? ==> r'.session == slot.value.session)
  {
    hide Validate, SessionWellFormed;
  }

  /** The step opened what is pending in `r`. */
  ghost predicate Opened(t: Table, op: Op, r: SessionRecord) {
    && op.ApplyOp? && op.message.OfSession() && op.message.session == r.session && r.pending.Some?
    && op.message.identification == r.pending.value.identification && r.pending.value.startedAt == op.now
    && (var result := Apply(t, op.now, op.direction, op.message).result;
        result.Ok? && Opening(result.value, KeyOfSession(r.session)))
    && if op.message.RegistrationRequest?
       then op.direction == Outbound && r.pending.value.careOfAddress == op.message.careOfAddress
       else var slot := Lookup(t.sessions, KeyOfSession(r.session));
            && slot.Some? && slot.value.session == r.session && slot.value.committed.Some?
            && r.pending.value.careOfAddress == slot.value.committed.value.careOfAddress
  }

  /** The step granted what is committed in `r`, in answer to what was pending. */
  ghost predicate Granted(t: Table, op: Op, r: SessionRecord) {
    && op.ApplyOp? && r.committed.Some? && GrantedBy(op.now, op.direction, op.message, r.session, r.committed.value)
    && (var result := Apply(t, op.now, op.direction, op.message).result;
        || result == Ok(Registered(KeyOfSession(r.session), r.committed.value.expiresAt))
        || result == Ok(Refreshed(KeyOfSession(r.session), r.committed.value.expiresAt)))
    && var slot := Lookup(t.sessions, KeyOfSession(r.session));
       && slot.Some? && slot.value.session == r.session && slot.value.pending.Some?
       && slot.value.pending.value.identification == r.committed.value.identification
       && slot.value.pending.value.careOfAddress == r.committed.value.careOfAddress
  }

  /** Whatever a record holds after a step it held before, or the step opened or granted it. */
  ghost predicate Accounted(t: Table, op: Op, slot: Slot, r: SessionRecord) {
    && (r.pending.Some? ==>
          (slot.Some? && slot.value.session == r.session && slot.value.pending == r.pending) || Opened(t, op, r))
    && (r.committed.Some? ==>
          (slot.Some? && slot.value.session == r.session && slot.value.committed == r.committed) || Granted(t, op, r))
  }

  lemma MessageExplains(t: Table, op: Op)
    requires TableInv(t) && op.ApplyOp? && op.message.OfSession()
    ensures
      var slot := Lookup(t.sessions, KeyOfSession(op.message.session));
      var after := SessionStep(op.now, op.direction, op.message, slot).state;
      after.Some? ==> KeyOfSession(after.value.session) == KeyOfSession(op.message.session) ==>
        Accounted(t, op, slot, after.value)
  {
    var m := op.message;
    var slot := Lookup(t.sessions, KeyOfSession(m.session));
    var o := SessionStep(op.now, op.direction, m, slot);
    hide SessionStep, RecordInv, GrantedBy, Opening;
    assert Apply(t, op.now, op.direction, m).result == o.result;
    assert SlotInv(KeyOfSession(m.session), slot);
    if o.state.Some? {
      SlotHistory(op.now, op.direction, m, slot);
      GrantNames(op.now, op.direction, m, o.state.value);
    }
  }

  lemma GrantNames(now: U64, d: Direction, m: Message, r: SessionRecord)
    ensures r.committed.Some? && GrantedBy(now, d, m, r.session, r.committed.value) ==>
              m.RegistrationReply? && m.identification == r.committed.value.identification
  {
  }

  lemma StepExplains(t: Table, op: Op, key: SessionKey)
    requires TableInv(t) && TableInv(Step(t, op)) && key in Step(t, op).sessions
    ensures var r := Step(t, op).sessions[key];
            KeyOfSession(r.session) == key && Accounted(t, op, Lookup(t.sessions, key), r)
  {
    hide PendingAgrees, SessionWellFormed;
    var t' := Step(t, op);
    if op.ApplyOp? && op.message.OfSession() && key == KeyOfSession(op.message.session) {
      MessageExplains(t, op);
      hide SessionStep, Accounted;
      assert Lookup(t'.sessions, key) == SessionStep(op.now, op.direction, op.message, Lookup(t.sessions, key)).state;
    } else {
      hide SessionStep, InfoStep, AnswerStep, Opened, Granted, UpdateOverdue, LifetimeOver;
      assert op.ApplyOp? && op.message.OfSession() ==> Lookup(t'.sessions, key) == Lookup(t.sessions, key);
    }
  }

  // Provenance over runs

  lemma PendingStarts(ops: seq<Op>, op: Op, r: SessionRecord)
    requires r.pending.Some? && Opened(Run(ops), op, r) && PendingAt(ops + [op], |ops| + 1, r.session, r.pending.value)
    requires var slot := Lookup(Run(ops).sessions, KeyOfSession(r.session));
             slot.Some? && slot.value.committed.Some? ==>
               CommittedFrom(ops, slot.value.session, slot.value.committed.value)
    ensures PendingFrom(ops + [op], r.session, r.pending.value)
  {
    hide Run, Opened, CommittedFrom, Opens, Requests, PendingAt;
    var ops', s, p := ops + [op], r.session, r.pending.value;
    OpenedStep(ops, op, r);
    assert exists h: nat :: h <= |ops| && Requests(ops', h, s, p.careOfAddress) by {
      OpenedRequest(ops, op, r);
    }
    assert PendingSince(ops', |ops|, |ops| + 1, s, p);
  }

  lemma OpenedStep(ops: seq<Op>, op: Op, r: SessionRecord)
    requires Opened(Run(ops), op, r)
    ensures Opens(ops + [op], |ops|, r.session, r.pending.value.identification)
    ensures (ops + [op])[|ops|].now == r.pending.value.startedAt
  {
    hide Run, Apply, Opening;
    assert (ops + [op])[..|ops|] == ops && (ops + [op])[|ops|] == op;
  }

  lemma OpenedRequest(ops: seq<Op>, op: Op, r: SessionRecord)
    requires Opened(Run(ops), op, r)
    requires var slot := Lookup(Run(ops).sessions, KeyOfSession(r.session));
             slot.Some? && slot.value.committed.Some? ==>
               CommittedFrom(ops, slot.value.session, slot.value.committed.value)
    ensures exists h: nat :: h <= |ops| && Requests(ops + [op], h, r.session, r.pending.value.careOfAddress)
  {
    hide Run, Apply, Opening, CommittedFrom;
    var s, p := r.session, r.pending.value;
    if op.message.RegistrationRequest? {
      assert (ops + [op])[..|ops|] == ops && (ops + [op])[|ops|] == op;
      assert Requests(ops + [op], |ops|, s, p.careOfAddress);
    } else {
      CommittedRequested(ops, s, Lookup(Run(ops).sessions, KeyOfSession(s)).value.committed.value);
      EarlierSteps(ops, op, s);
      hide Requests;
    }
  }

  lemma CommittedRequested(ops: seq<Op>, s: Session, c: Committed)
    requires CommittedFrom(ops, s, c)
    ensures exists h: nat :: h <= |ops| && Requests(ops, h, s, c.careOfAddress)
  {
    hide Opens, Requests, Grants, PendingAt, CommittedAt;
  }

  lemma CommittedStarts(ops: seq<Op>, op: Op, r: SessionRecord)
    requires r.committed.Some? && Granted(Run(ops), op, r)
    requires CommittedAt(ops + [op], |ops| + 1, r.session, r.committed.value)
    requires var slot := Lookup(Run(ops).sessions, KeyOfSession(r.session));
             slot.Some? && slot.value.pending.Some? && PendingFrom(ops, r.session, slot.value.pending.value)
    ensures CommittedFrom(ops + [op], r.session, r.committed.value)
  {
    hide Run, Opens, Requests, Granted, Grants, PendingAt, CommittedAt;
    var ops', s, c := ops + [op], r.session, r.committed.value;
    GrantedStep(ops, op, r);
    var p := Lookup(Run(ops).sessions, KeyOfSession(s)).value.pending.value;
    var i: nat :| PendingSince(ops, i, |ops|, s, p);
    PendingSinceKept(ops, op, i, |ops|, s, p);
    assert CommittedSince(ops', i, |ops|, |ops| + 1, s, p, c);
  }

  lemma GrantedStep(ops: seq<Op>, op: Op, r: SessionRecord)
    requires Granted(Run(ops), op, r)
    ensures Grants(ops + [op], |ops|, r.session, r.committed.value)
    ensures var p := Lookup(Run(ops).sessions, KeyOfSession(r.session)).value.pending.value;
            p.identification == r.committed.value.identification && p.careOfAddress == r.committed.value.careOfAddress
  {
    hide Run, Apply, GrantedBy;
    assert (ops + [op])[..|ops|] == ops && (ops + [op])[|ops|] == op;
  }

  lemma RecordAt(ops: seq<Op>, r: SessionRecord)
    requires Lookup(Run(ops).sessions, KeyOfSession(r.session)) == Some(r)
    ensures r.pending.Some? ==> PendingAt(ops, |ops|, r.session, r.pending.value)
    ensures r.committed.Some? ==> CommittedAt(ops, |ops|, r.session, r.committed.value)
  {
    hide Run;
    assert ops[..|ops|] == ops;
  }

  lemma StepProvenance(ops: seq<Op>, op: Op, r: SessionRecord)
    requires Lookup(Run(ops + [op]).sessions, KeyOfSession(r.session)) == Some(r)
    requires Accounted(Run(ops), op, Lookup(Run(ops).sessions, KeyOfSession(r.session)), r)
    requires var slot := Lookup(Run(ops).sessions, KeyOfSession(r.session)); slot.Some? ==> Provenance(ops, slot.value)
    ensures Provenance(ops + [op], r)
  {
    hide Run, Opened, Granted, PendingFrom, CommittedFrom, PendingAt, CommittedAt;
    RecordAt(ops + [op], r);
    var slot := Lookup(Run(ops).sessions, KeyOfSession(r.session));
    if r.pending.Some? {
      if Opened(Run(ops), op, r) {
        PendingStarts(ops, op, r);
      } else {
        PendingGoesOn(ops, op, r.session, r.pending.value);
      }
    }
    if r.committed.Some? {
      if Granted(Run(ops), op, r) {
        GrantedPending(Run(ops), op, r);
        CommittedStarts(ops, op, r);
      } else {
        CommittedGoesOn(ops, op, r.session, r.committed.value);
      }
    }
  }

  lemma GrantedPending(t: Table, op: Op, r: SessionRecord)
    requires Granted(t, op, r)
    ensures var slot := Lookup(t.sessions, KeyOfSession(r.session));
            slot.Some? && slot.value.session == r.session && slot.value.pending.Some?
  {
    hide Apply;
  }

  lemma {:induction false} RunProvenance(ops: seq<Op>)
    ensures forall k <- Run(ops).sessions :: Provenance(ops, Run(ops).sessions[k])
  {
    if ops != [] {
      var before, op := ops[..|ops| - 1], ops[|ops| - 1];
      RunProvenance(before);
      RunKeepsInv(before);
      assert ops == before + [op] && Run(ops) == Step(Run(before), op);
      hide Run, Step, Provenance, Accounted;
      forall k <- Run(ops).sessions ensures Provenance(ops, Run(ops).sessions[k]) {
        StepKeepsInv(Run(before), op);
        StepExplains(Run(before), op, k);
        StepProvenance(before, op, Run(ops).sessions[k]);
      }
    }
  }

  /** Committed state never comes from nowhere: in every run it was granted by an accepted reply with code 0, for
      the lifetime and home agent the reply carried, and has stood unchanged since. The reply answered the very
      transaction, still pending then, that an earlier accepted message had opened on the same session under the
      same identification, for the care-of address of a request made by then. */
  lemma CommittedProvenance(ops: seq<Op>, key: SessionKey)
    requires key in Run(ops).sessions && Run(ops).sessions[key].committed.Some?
    ensures CommittedFrom(ops, Run(ops).sessions[key].session, Run(ops).sessions[key].committed.value)
  {
    hide CommittedFrom, PendingFrom;
    RunProvenance(ops);
  }

  predicate Timed(op: Op) {
    !op.ClearOp?
  }

  ghost predicate ClockRuns(ops: seq<Op>) {
    forall i, j | 0 <= i < j < |ops| && Timed(ops[i]) && Timed(ops[j]) :: ops[i].now <= ops[j].now
  }

  /** On a clock that never goes back, no session is committed further ahead than the longest lifetime. */
  lemma ExpiryBounded(ops: seq<Op>, op: Op, key: SessionKey)
    requires Timed(op) && ClockRuns(ops + [op])
    requires key in Run(ops + [op]).sessions && Run(ops + [op]).sessions[key].committed.Some?
    ensures Run(ops + [op]).sessions[key].committed.value.expiresAt <= op.now as int + 65534
  {
    var ops' := ops + [op];
    hide Run, PendingSince, Grants, CommittedAt;
    CommittedProvenance(ops', key);
    var r := Run(ops').sessions[key];
    var i: nat, j: nat, p :| CommittedSince(ops', i, j, |ops'|, r.session, p, r.committed.value);
    GrantTime(ops', j, r.session, r.committed.value);
    assert ops'[|ops|] == op;
  }

  /** Unless a grant comes in the last 65534 seconds of a 64-bit clock, every expiry fits the clock, so that the
      sum of clock and lifetime is the exact one. */
  lemma ExpiryFits(ops: seq<Op>, key: SessionKey)
    requires forall i | 0 <= i < |ops| && Timed(ops[i]) :: ops[i].now <= U64_MAX - 65534
    requires key in Run(ops).sessions && Run(ops).sessions[key].committed.Some?
    ensures Run(ops).sessions[key].committed.value.expiresAt <= U64_MAX
  {
    hide Run, PendingSince, Grants, CommittedAt;
    CommittedProvenance(ops, key);
    var r := Run(ops).sessions[key];
    var i: nat, j: nat, p :| CommittedSince(ops, i, j, |ops|, r.session, p, r.committed.value);
    GrantTime(ops, j, r.session, r.committed.value);
  }

  lemma GrantTime(ops: seq<Op>, j: nat, s: Session, c: Committed)
    requires Grants(ops, j, s, c)
    ensures j < |ops| && Timed(ops[j]) && c.expiresAt <= ops[j].now as int + 65534
  {
  }
}
