/** The feature class check of an initiator holds exactly as long as it keeps one class for each identification. */
module NetworkExact {
  import opened Bytes
  import opened Messages
  import opened Options
  import opened Procedure
  import opened ProcedureRuns
  import opened Network

  function NetOn(w: World, ops: seq<NetOp>): (w': World)
    decreases |ops|
  {
    if ops == [] then w else NetOn(NetStep(w, ops[0]), ops[1..])
  }

  lemma {:induction false} NetRunOn(a: seq<NetOp>, b: seq<NetOp>)
    ensures NetRun(a + b) == NetOn(NetRun(a), b)
    decreases |b|
  {
    hide NetStep;
    if b == [] {
      assert a + b == a;
    } else {
      assert a + b == (a + [b[0]]) + b[1..];
      assert (a + [b[0]])[..|a|] == a;
      NetRunOn(a + [b[0]], b[1..]);
    }
  }

  lemma NextOn(w: World, op: NetOp, ops: seq<NetOp>)
    ensures NetOn(w, [op] + ops) == NetOn(NetStep(w, op), ops)
  {
    hide NetStep;
    assert ([op] + ops)[1..] == ops;
  }

  // What was sent stays in flight

  lemma SentGrows(w: World, op: NetOp, side: Side)
    ensures w.At(side).sent <= NetStep(w, op).At(side).sent
  {
    hide Apply, Step;
  }

  lemma {:induction false} SentStays(ops: seq<NetOp>, i: nat, side: Side)
    requires i <= |ops|
    ensures NetRun(ops[..i]).At(side).sent <= NetRun(ops).At(side).sent
    decreases |ops|
  {
    hide NetStep;
    if i == |ops| {
      assert ops[..i] == ops;
    } else {
      var front := ops[..|ops| - 1];
      assert front[..i] == ops[..i];
      SentStays(front, i, side);
      SentGrows(NetRun(front), ops[|ops| - 1], side);
    }
  }

  /** A request that was sent is still in flight, and valid. */
  lemma InfoInFlight(ops: seq<NetOp>, i: nat, side: Side, id: U64, c: FeatureClass) returns (m: Message, k: nat)
    requires InfoSent(ops, i, side, id, c)
    ensures m.CapabilitiesInfo? && m.identification == id && ClassOf(m.nvses) == c && Validate(m).Ok?
    ensures k < |NetRun(ops).At(side).sent| && NetRun(ops).At(side).sent[k] == m
  {
    hide ClassOf, Validate, NetRun;
    m :| m.CapabilitiesInfo? && m.identification == id && ClassOf(m.nvses) == c
      && Happened(ops, i, side, true, m, PendingCapabilitiesInfo(id));
    var w := NetRun(ops[..i]);
    assert NetRun(ops[..i + 1]) == NetStep(w, ops[i]) by {
      LastStep(ops, i);
    }
    k := |w.At(side).sent|;
    assert NetStep(w, ops[i]).At(side).sent == w.At(side).sent + [m];
    SentStays(ops, i + 1, side);
  }

  lemma LastStep(ops: seq<NetOp>, i: nat)
    requires i < |ops|
    ensures NetRun(ops[..i + 1]) == NetStep(NetRun(ops[..i]), ops[i])
  {
    hide NetStep;
    assert ops[..i + 1][..i] == ops[..i];
  }

  // Six steps to a refusal

  const GIVE_UP: Op := ExpireTimersOp(U64_MAX, 0, 0)

  lemma GivesUp(w: World, side: Side)
    ensures var w' := NetStep(w, Local(side, GIVE_UP));
            && w'.At(side).table.outbound.None? && w'.At(side).sent == w.At(side).sent
            && w'.At(side.Peer()) == w.At(side.Peer())
  {
    hide UpdateOverdue;
  }

  lemma Clears(w: World, side: Side, n: Nvse)
    requires var slot := w.At(side).table.inbound;
             slot.Some? ==> Validate(AnswerWith(n, slot.value.identification)).Ok?
    ensures var w' := NetOn(w, Clearing(w, side, n));
            w'.At(side).table.inbound.None? && w'.At(side.Peer()) == w.At(side.Peer())
  {
    hide Validate, ClassAnswers;
    if w.At(side).table.inbound.Some? {
      var op := Clearing(w, side, n)[0];
      NextOn(w, op, []);
      assert [op] + [] == Clearing(w, side, n);
      assert NetOn(NetStep(w, op), []) == NetStep(w, op);
    }
  }

  /** Any answer, right or wrong, empties the slot of its identification. */
  function Clearing(w: World, side: Side, n: Nvse): (ops: seq<NetOp>) {
    var slot := w.At(side).table.inbound;
    if slot.None? then [] else [Send(side, 0, AnswerWith(n, slot.value.identification))]
  }

  lemma Takes(w: World, side: Side, k: nat, m: Message)
    requires w.At(side).table.inbound.None? && k < |w.At(side.Peer()).sent| && w.At(side.Peer()).sent[k] == m
    requires m.CapabilitiesInfo? && Validate(m).Ok?
    ensures var w' := NetStep(w, Deliver(side, 0, k));
            && w'.At(side).table.inbound == Some(PendingCapabilities(m.identification, ClassOf(m.nvses), 0))
            && w'.At(side.Peer()) == w.At(side.Peer())
  {
    hide Validate, ClassOf;
  }

  lemma Sends(w: World, side: Side, m: Message)
    requires w.At(side).table.outbound.None? && m.CapabilitiesInfo? && Validate(m).Ok?
    ensures var w' := NetStep(w, Send(side, 0, m));
            && w'.At(side).table.outbound == Some(PendingCapabilities(m.identification, ClassOf(m.nvses), 0))
            && w'.At(side.Peer()) == w.At(side.Peer())
  {
    hide Validate, ClassOf;
  }

  lemma Answers(w: World, side: Side, m: Message)
    requires m.CapabilitiesInfoAcknowledge? && Validate(m).Ok?
    requires w.At(side).table.inbound.Some? && w.At(side).table.inbound.value.identification == m.identification
    requires ClassAnswers(w.At(side).table.inbound.value.featureClass, m.nvses)
    ensures var w' := NetStep(w, Send(side, 0, m));
            w'.At(side).sent == w.At(side).sent + [m] && w'.At(side.Peer()) == w.At(side.Peer())
  {
    hide Validate, ClassAnswers;
  }

  lemma Refuses(w: World, side: Side, k: nat, m: Message)
    requires k < |w.At(side.Peer()).sent| && w.At(side.Peer()).sent[k] == m
    requires m.CapabilitiesInfoAcknowledge? && Validate(m).Ok?
    requires w.At(side).table.outbound.Some? && w.At(side).table.outbound.value.identification == m.identification
    requires !ClassAnswers(w.At(side).table.outbound.value.featureClass, m.nvses)
    ensures Answer(w, Deliver(side, 0, k)).result == Err(ProcedureViolation(FeatureClass))
  {
    hide Validate, ClassAnswers;
  }

  lemma {:induction false} OnAppend(w: World, a: seq<NetOp>, b: seq<NetOp>)
    ensures NetOn(w, a + b) == NetOn(NetOn(w, a), b)
    decreases |a|
  {
    hide NetStep;
    if a == [] {
      assert a + b == b;
    } else {
      assert a + b == [a[0]] + (a[1..] + b) && a == [a[0]] + a[1..];
      NextOn(w, a[0], a[1..] + b);
      OnAppend(NetStep(w, a[0]), a[1..], b);
    }
  }

  lemma ThreeOn(w: World, a: NetOp, b: NetOp, c: NetOp)
    ensures NetOn(w, [a, b, c]) == NetStep(NetStep(NetStep(w, a), b), c)
  {
    hide NetStep;
    assert [a, b, c][1..] == [b, c] && [b, c][1..] == [c];
    OneOn(NetStep(NetStep(w, a), b), c);
  }

  lemma OneOn(w: World, a: NetOp)
    ensures NetOn(w, [a]) == NetStep(w, a)
  {
    hide NetStep;
  }

  /** An old request is taken late, its identification is asked under again, and the answer to the old request
      arrives. */
  lemma OldAnswerMeetsNewRequest(w: World, side: Side, k: nat, earlier: Message, again: Message, answer: Message,
                                 n: Nvse)
    returns (more: seq<NetOp>, arrival: NetOp)
    requires k < |w.At(side).sent| && w.At(side).sent[k] == earlier
    requires earlier.CapabilitiesInfo? && again.CapabilitiesInfo? && answer.CapabilitiesInfoAcknowledge?
    requires Validate(earlier).Ok? && Validate(again).Ok? && Validate(answer).Ok?
    requires earlier.identification == again.identification == answer.identification
    requires ClassAnswers(ClassOf(earlier.nvses), answer.nvses) && !ClassAnswers(ClassOf(again.nvses), answer.nvses)
    requires var slot := w.At(side.Peer()).table.inbound;
             slot.Some? ==> Validate(AnswerWith(n, slot.value.identification)).Ok?
    ensures forall op <- more :: op.Send? && op.side == side ==> op.message == again
    ensures arrival.Deliver? && arrival.side == side && Enabled(NetOn(w, more), arrival)
    ensures Answer(NetOn(w, more), arrival).result == Err(ProcedureViolation(FeatureClass))
  {
    hide Validate, ClassOf, ClassAnswers, NetStep, NetOn, Answer;
    var peer := side.Peer();
    var giveUp := [Local(side, GIVE_UP)];
    var w1 := NetStep(w, Local(side, GIVE_UP));
    GivesUp(w, side);
    OneOn(w, Local(side, GIVE_UP));
    var clearing := Clearing(w1, peer, n);
    var w2 := NetOn(w1, clearing);
    Clears(w1, peer, n);
    OnAppend(w, giveUp, clearing);
    var take, ask, send := Deliver(peer, 0, k), Send(side, 0, again), Send(peer, 0, answer);
    var w3 := NetStep(w2, take);
    Takes(w2, peer, k, earlier);
    var w4 := NetStep(w3, ask);
    Sends(w3, side, again);
    Answers(w4, peer, answer);
    ThreeOn(w2, take, ask, send);
    more := giveUp + clearing + [take, ask, send];
    OnAppend(w, giveUp + clearing, [take, ask, send]);
    arrival := Deliver(side, 0, |w4.At(peer).sent|);
    Refuses(NetStep(w4, send), side, |w4.At(peer).sent|, answer);
  }

  lemma InboundNonZero(ops: seq<NetOp>, side: Side)
    ensures var slot := NetRun(ops).At(side).table.inbound; slot.Some? ==> slot.value.identification != 0
  {
    RunWorldInv(ops);
    hide NetRun, Explained;
    var slot := NetRun(ops).At(side).table.inbound;
    if slot.Some? {
      var id, c := slot.value.identification, slot.value.featureClass;
      assert Taken(ops, |ops|, side.Peer(), id, c);
      hide InfoSent, InfoTaken;
      var r: nat :| r < |ops| && InfoTaken(ops, r, side.Peer().Peer(), id) && Asked(ops, r, side.Peer(), id, c);
      var i: nat :| i < r && i < |ops| && InfoSent(ops, i, side.Peer(), id, c);
      var m, k := InfoInFlight(ops, i, side.Peer(), id, c);
      hide Validate;
    }
  }

  // The exact condition

  /** Later requests of `side` use an identification only for a class it has already been used for. */
  ghost predicate Repeats(ops: seq<NetOp>, more: seq<NetOp>, side: Side) {
    forall i: nat, id, c :: InfoSent(ops + more, i, side, id, c) ==> exists j: nat :: InfoSent(ops, j, side, id, c)
  }

  ghost predicate ClassSafe(ops: seq<NetOp>, more: seq<NetOp>, side: Side) {
    forall op: NetOp :: op.Deliver? && op.side == side && Enabled(NetRun(ops + more), op) ==>
      Answer(NetRun(ops + more), op).result != Err(ProcedureViolation(FeatureClass))
  }

  lemma InfoSentBy(ops: seq<NetOp>, more: seq<NetOp>, i: nat, side: Side, id: U64, c: FeatureClass)
    requires InfoSent(ops + more, i, side, id, c)
    ensures i < |ops| ==> InfoSent(ops, i, side, id, c)
    ensures i >= |ops| ==>
      var op := (ops + more)[i];
      op in more && op.Send? && op.side == side && op.message.CapabilitiesInfo?
      && op.message.identification == id && ClassOf(op.message.nvses) == c
  {
    hide NetRun, ClassOf, Answer;
    if i < |ops| {
      assert (ops + more)[..i] == ops[..i];
    }
  }

  lemma OneClassSafe(ops: seq<NetOp>, more: seq<NetOp>, side: Side)
    requires OneClassEach(ops, side) && Repeats(ops, more, side)
    ensures ClassSafe(ops, more, side)
  {
    hide InfoSent, NetRun, Answer;
    assert OneClassEach(ops + more, side);
    hide OneClassEach, Repeats;
    forall op: NetOp | op.Deliver? && op.side == side && Enabled(NetRun(ops + more), op)
      ensures Answer(NetRun(ops + more), op).result != Err(ProcedureViolation(FeatureClass))
    {
      ClassCheckHolds(ops + more, op);
    }
  }

  /** Two classes under one identification: some continuation has an answer refused. */
  lemma TwoClassesFail(ops: seq<NetOp>, side: Side, id: U64, i: nat, c: FeatureClass, j: nat, c': FeatureClass)
    returns (more: seq<NetOp>)
    requires InfoSent(ops, i, side, id, c) && InfoSent(ops, j, side, id, c') && c != c' && !c'.UnknownOrMixed?
    ensures Repeats(ops, more, side) && !ClassSafe(ops, more, side)
  {
    var first, k := InfoInFlight(ops, i, side, id, c);
    var again, _ := InfoInFlight(ops, j, side, id, c');
    hide NetRun, Validate, Answer;
    var n := if c' == PdsnFeatures then FlowControlEnabled else ShortDataIndicationSupported;
    FeatureMessages(n, id);
    var w := NetRun(ops);
    var slot := w.At(side.Peer()).table.inbound;
    InboundNonZero(ops, side.Peer());
    if slot.Some? {
      FeatureMessages(n, slot.value.identification);
    }
    hide ClassOf;
    var arrival;
    more, arrival := OldAnswerMeetsNewRequest(w, side, k, first, again, AnswerWith(n, id), n);
    NetRunOn(ops, more);
    assert !ClassSafe(ops, more, side);
    hide InfoSent;
    forall i': nat, id', c'' | InfoSent(ops + more, i', side, id', c'')
      ensures exists j: nat :: InfoSent(ops, j, side, id', c'')
    {
      InfoSentBy(ops, more, i', side, id', c'');
      assert i' < |ops| ==> InfoSent(ops, i', side, id', c'');
      assert i' >= |ops| ==> InfoSent(ops, j, side, id', c'');
    }
  }

  /** For every run and side: no answer is ever refused for its class, however the run goes on, if and only if the
      side has kept to one class for each identification. */
  lemma ClassCheckExact(ops: seq<NetOp>, side: Side)
    ensures OneClassEach(ops, side)
       <==> forall more: seq<NetOp> :: Repeats(ops, more, side) ==> ClassSafe(ops, more, side)
  {
    hide InfoSent, ClassSafe, Repeats;
    if OneClassEach(ops, side) {
      forall more: seq<NetOp> | Repeats(ops, more, side) ensures ClassSafe(ops, more, side) {
        OneClassSafe(ops, more, side);
      }
    } else {
      var i: nat, j: nat, id, c, c' :| InfoSent(ops, i, side, id, c) && InfoSent(ops, j, side, id, c') && c != c';
      if c'.UnknownOrMixed? {
        var more := TwoClassesFail(ops, side, id, j, c', i, c);
      } else {
        var more := TwoClassesFail(ops, side, id, i, c, j, c');
      }
    }
  }
}
