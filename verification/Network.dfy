/**
 Two A11 nodes, each with its own table, joined by a network that may lose, duplicate, delay and reorder
 what they send. Messages are authenticated, so a node receives only what the other one sent.
 */
module Network {
  import opened Bytes
  import opened Messages
  import opened Procedure
  import opened ProcedureRuns
  import opened Options
  import ProcedureLaws

  datatype Side = Left | Right {
    function Peer(): (s: Side) {
      if this == Left then Right else Left
    }
  }

  datatype Node = Node(table: Table, sent: seq<Message>)

  datatype World = World(left: Node, right: Node) {
    function At(s: Side): (n: Node) {
      if s == Left then left else right
    }

    function With(s: Side, n: Node): (w: World)
      ensures w.At(s) == n && w.At(s.Peer()) == At(s.Peer())
    {
      if s == Left then World(n, right) else World(left, n)
    }
  }

  /** What can happen next. A message once sent may be delivered any number of times, at any later
      moment, or never; sweeps, clears and session messages from elsewhere may come at any time. */
  datatype NetOp =
    | Send(side: Side, now: U64, message: Message)
    | Deliver(side: Side, now: U64, index: nat)
    | Local(side: Side, op: Op)

  const START: World := World(Node(EMPTY, []), Node(EMPTY, []))

  predicate Enabled(w: World, op: NetOp) {
    match op
    case Send(_, _, _) => true
    case Deliver(side, _, index) => index < |w.At(side.Peer()).sent|
    case Local(_, op) => op.ApplyOp? ==> op.message.OfSession()
  }

  /** The message a delivery carries. */
  function Carried(w: World, op: NetOp): (m: Message)
    requires Enabled(w, op) && !op.Local?
  {
    if op.Send? then op.message else w.At(op.side.Peer()).sent[op.index]
  }

  function Answer(w: World, op: NetOp): (o: Outcome<Table>)
    requires Enabled(w, op) && !op.Local?
  {
    Apply(w.At(op.side).table, op.now, if op.Send? then Outbound else Inbound, Carried(w, op))
  }

  function NetStep(w: World, op: NetOp): (w': World) {
    if !Enabled(w, op) then w
    else
      var node := w.At(op.side);
      match op
      case Local(side, op) => w.With(side, node.(table := Step(node.table, op)))
      case Deliver(side, _, _) => w.With(side, node.(table := Answer(w, op).state))
      case Send(side, _, m) =>
        var o := Answer(w, op);
        w.With(side, Node(o.state, if o.result.Ok? then node.sent + [m] else node.sent))
  }

  function NetRun(ops: seq<NetOp>): (w: World) {
    if ops == [] then START else NetStep(NetRun(ops[..|ops| - 1]), ops[|ops| - 1])
  }

  // What happened at a step of a run

  /** Step `i` put message `m` through the table of `side` and was told `event`. */
  ghost predicate Happened(ops: seq<NetOp>, i: nat, side: Side, sending: bool, m: Message, event: Event) {
    && i < |ops| && Enabled(NetRun(ops[..i]), ops[i]) && !ops[i].Local?
    && ops[i].side == side && ops[i].Send? == sending
    && Carried(NetRun(ops[..i]), ops[i]) == m
    && Answer(NetRun(ops[..i]), ops[i]).result == Ok(event)
  }

  /** `side` sent a capabilities request under this identification, of this feature class. */
  ghost predicate InfoSent(ops: seq<NetOp>, i: nat, side: Side, id: U64, c: FeatureClass) {
    exists m: Message ::
      && m.CapabilitiesInfo? && m.identification == id && ClassOf(m.nvses) == c
      && Happened(ops, i, side, true, m, PendingCapabilitiesInfo(id))
  }

  /** `side` accepted a capabilities request. */
  ghost predicate InfoTaken(ops: seq<NetOp>, i: nat, side: Side, id: U64) {
    exists m: Message ::
      && m.CapabilitiesInfo? && m.identification == id
      && Happened(ops, i, side, false, m, PendingCapabilitiesInfoAcknowledge(id))
  }

  /** `side` completed its answer to a capabilities request, and so sent it. */
  ghost predicate AnswerSent(ops: seq<NetOp>, i: nat, side: Side, id: U64) {
    exists m: Message ::
      && m.CapabilitiesInfoAcknowledge? && m.identification == id
      && Happened(ops, i, side, true, m, CapabilitiesInfoCompleted(id))
  }

  /** `side`, which had asked, saw its exchange completed. */
  ghost predicate Completed(ops: seq<NetOp>, i: nat, side: Side, id: U64) {
    exists m: Message ::
      && m.CapabilitiesInfoAcknowledge? && m.identification == id
      && Happened(ops, i, side, false, m, CapabilitiesInfoCompleted(id))
  }

  lemma HappenedPersists(ops: seq<NetOp>, op: NetOp, i: nat)
    requires i < |ops|
    ensures forall side, sending, m, event ::
      Happened(ops, i, side, sending, m, event) <==> Happened(ops + [op], i, side, sending, m, event)
  {
    hide NetRun, Answer;
    assert (ops + [op])[..i] == ops[..i];
  }

  lemma Persists(ops: seq<NetOp>, op: NetOp, i: nat, side: Side, id: U64, c: FeatureClass)
    requires i < |ops|
    ensures InfoSent(ops, i, side, id, c) ==> InfoSent(ops + [op], i, side, id, c)
    ensures InfoTaken(ops, i, side, id) ==> InfoTaken(ops + [op], i, side, id)
    ensures AnswerSent(ops, i, side, id) ==> AnswerSent(ops + [op], i, side, id)
  {
    HappenedPersists(ops, op, i);
    hide Happened, ClassOf;
    if InfoSent(ops, i, side, id, c) {
      var m: Message :| m.CapabilitiesInfo? && m.identification == id && ClassOf(m.nvses) == c
        && Happened(ops, i, side, true, m, PendingCapabilitiesInfo(id));
      assert Happened(ops + [op], i, side, true, m, PendingCapabilitiesInfo(id));
    }
    if InfoTaken(ops, i, side, id) {
      var m: Message :| m.CapabilitiesInfo? && m.identification == id
        && Happened(ops, i, side, false, m, PendingCapabilitiesInfoAcknowledge(id));
      assert Happened(ops + [op], i, side, false, m, PendingCapabilitiesInfoAcknowledge(id));
    }
    if AnswerSent(ops, i, side, id) {
      var m: Message :| m.CapabilitiesInfoAcknowledge? && m.identification == id
        && Happened(ops, i, side, true, m, CapabilitiesInfoCompleted(id));
      assert Happened(ops + [op], i, side, true, m, CapabilitiesInfoCompleted(id));
    }
  }

  // The story behind each slot and each message in flight

  /** `side` asked under this identification and class before step `n`. */
  ghost predicate Asked(ops: seq<NetOp>, n: nat, side: Side, id: U64, c: FeatureClass) {
    exists i: nat :: i < n && i < |ops| && InfoSent(ops, i, side, id, c)
  }

  /** ... and its peer took the request, before step `n`. */
  ghost predicate Taken(ops: seq<NetOp>, n: nat, side: Side, id: U64, c: FeatureClass) {
    exists r: nat :: r < n && r < |ops| && InfoTaken(ops, r, side.Peer(), id) && Asked(ops, r, side, id, c)
  }

  /** ... and its peer completed the answer, before step `n`. */
  ghost predicate Answered(ops: seq<NetOp>, n: nat, side: Side, id: U64, c: FeatureClass) {
    exists j: nat :: j < n && j < |ops| && AnswerSent(ops, j, side.Peer(), id) && Taken(ops, j, side, id, c)
  }

  lemma AskedPersists(ops: seq<NetOp>, op: NetOp, n: nat, n': nat, side: Side, id: U64, c: FeatureClass)
    requires n <= n'
    ensures Asked(ops, n, side, id, c) ==> Asked(ops + [op], n', side, id, c)
  {
    hide InfoSent;
    if i: nat :| i < n && i < |ops| && InfoSent(ops, i, side, id, c) {
      Persists(ops, op, i, side, id, c);
    }
  }

  lemma TakenPersists(ops: seq<NetOp>, op: NetOp, n: nat, n': nat, side: Side, id: U64, c: FeatureClass)
    requires n <= n'
    ensures Taken(ops, n, side, id, c) ==> Taken(ops + [op], n', side, id, c)
  {
    hide InfoTaken, Asked;
    if r: nat :| r < n && r < |ops| && InfoTaken(ops, r, side.Peer(), id) && Asked(ops, r, side, id, c) {
      Persists(ops, op, r, side.Peer(), id, c);
      AskedPersists(ops, op, r, r, side, id, c);
    }
  }

  lemma AnsweredPersists(ops: seq<NetOp>, op: NetOp, n: nat, n': nat, side: Side, id: U64, c: FeatureClass)
    requires n <= n'
    ensures Answered(ops, n, side, id, c) ==> Answered(ops + [op], n', side, id, c)
  {
    hide AnswerSent, Taken;
    if j: nat :| j < n && j < |ops| && AnswerSent(ops, j, side.Peer(), id) && Taken(ops, j, side, id, c) {
      Persists(ops, op, j, side.Peer(), id, c);
      TakenPersists(ops, op, j, j, side, id, c);
    }
  }

  /** A message of `side` in flight has a past: a request was sent, an answer answers a request the
      peer made and is of a class that request admits. */
  ghost predicate Explained(ops: seq<NetOp>, side: Side, m: Message) {
    && (m.CapabilitiesInfo? ==> Asked(ops, |ops|, side, m.identification, ClassOf(m.nvses)))
    && (m.CapabilitiesInfoAcknowledge? ==>
          exists c :: Answered(ops, |ops|, side.Peer(), m.identification, c) && ClassAnswers(c, m.nvses))
  }

  ghost predicate NodeInv(ops: seq<NetOp>, side: Side, node: Node) {
    && (node.table.outbound.Some? ==>
          Asked(ops, |ops|, side, node.table.outbound.value.identification, node.table.outbound.value.featureClass))
    && (node.table.inbound.Some? ==>
          var inbound := node.table.inbound.value;
          Taken(ops, |ops|, side.Peer(), inbound.identification, inbound.featureClass))
    && (forall m <- node.sent :: Explained(ops, side, m))
  }

  ghost predicate WorldInv(ops: seq<NetOp>, w: World) {
    NodeInv(ops, Left, w.left) && NodeInv(ops, Right, w.right)
  }

  lemma ExplainedPersists(ops: seq<NetOp>, op: NetOp, side: Side, m: Message)
    requires Explained(ops, side, m)
    ensures Explained(ops + [op], side, m)
  {
    hide Asked, Answered, ClassOf, ClassAnswers;
    if m.CapabilitiesInfo? {
      AskedPersists(ops, op, |ops|, |ops| + 1, side, m.identification, ClassOf(m.nvses));
    }
    if m.CapabilitiesInfoAcknowledge? {
      var c :| Answered(ops, |ops|, side.Peer(), m.identification, c) && ClassAnswers(c, m.nvses);
      AnsweredPersists(ops, op, |ops|, |ops| + 1, side.Peer(), m.identification, c);
    }
  }

  lemma NodeInvPersists(ops: seq<NetOp>, op: NetOp, side: Side, node: Node)
    requires NodeInv(ops, side, node)
    ensures NodeInv(ops + [op], side, node)
  {
    hide Asked, Taken, Explained;
    var t := node.table;
    if t.outbound.Some? {
      AskedPersists(ops, op, |ops|, |ops| + 1, side, t.outbound.value.identification, t.outbound.value.featureClass);
    }
    if t.inbound.Some? {
      var inbound := t.inbound.value;
      TakenPersists(ops, op, |ops|, |ops| + 1, side.Peer(), inbound.identification, inbound.featureClass);
    }
    forall m <- node.sent ensures Explained(ops + [op], side, m) {
      ExplainedPersists(ops, op, side, m);
    }
  }

  /** How a message moves the two capabilities slots, and what its sender or receiver is told. */
  lemma SlotEffects(t: Table, now: U64, d: Direction, m: Message)
    ensures
      var o := Apply(t, now, d, m);
      && (o.state.outbound == t.outbound || o.state.outbound.None? ||
           (&& d == Outbound && m.CapabilitiesInfo? && o.result == Ok(PendingCapabilitiesInfo(m.identification))
            && o.state.outbound == Some(PendingCapabilities(m.identification, ClassOf(m.nvses), now))))
      && (o.state.inbound == t.inbound || o.state.inbound.None? ||
           (&& d == Inbound && m.CapabilitiesInfo?
            && o.result == Ok(PendingCapabilitiesInfoAcknowledge(m.identification))
            && o.state.inbound == Some(PendingCapabilities(m.identification, ClassOf(m.nvses), now))))
      && (d == Outbound && o.result.Ok? && m.CapabilitiesInfo? ==>
            o.result == Ok(PendingCapabilitiesInfo(m.identification)))
      && (d == Outbound && o.result.Ok? && m.CapabilitiesInfoAcknowledge? ==>
            && o.result == Ok(CapabilitiesInfoCompleted(m.identification))
            && t.inbound.Some? && t.inbound.value.identification == m.identification
            && ClassAnswers(t.inbound.value.featureClass, m.nvses))
  {
    hide Validate, SessionStep, ClassOf, ClassAnswers;
  }

  lemma LocalEffects(t: Table, op: Op)
    requires op.ApplyOp? ==> op.message.OfSession()
    ensures Step(t, op).outbound == t.outbound || Step(t, op).outbound.None?
    ensures Step(t, op).inbound == t.inbound
  {
    hide SessionStep, UpdateOverdue, LifetimeOver;
  }

  /** The last step of a run is what it says it is. */
  lemma JustHappened(ops: seq<NetOp>, op: NetOp)
    requires Enabled(NetRun(ops), op) && !op.Local? && Answer(NetRun(ops), op).result.Ok?
    ensures Happened(
      ops + [op], |ops|, op.side, op.Send?, Carried(NetRun(ops), op), Answer(NetRun(ops), op).result.value)
  {
    hide NetRun, Answer;
    var ops' := ops + [op];
    assert ops'[..|ops|] == ops && ops'[|ops|] == op;
  }

  lemma JustAsked(ops: seq<NetOp>, op: NetOp)
    requires op.Send? && op.message.CapabilitiesInfo? && Answer(NetRun(ops), op).result.Ok?
    ensures Asked(ops + [op], |ops| + 1, op.side, op.message.identification, ClassOf(op.message.nvses))
  {
    hide Happened, Apply, NetRun, ClassOf;
    SlotEffects(NetRun(ops).At(op.side).table, op.now, Outbound, op.message);
    JustHappened(ops, op);
    assert InfoSent(ops + [op], |ops|, op.side, op.message.identification, ClassOf(op.message.nvses));
  }

  lemma JustTaken(ops: seq<NetOp>, op: NetOp)
    requires op.Deliver? && Enabled(NetRun(ops), op) && Carried(NetRun(ops), op).CapabilitiesInfo?
    requires Answer(NetRun(ops), op).result
          == Ok(PendingCapabilitiesInfoAcknowledge(Carried(NetRun(ops), op).identification))
    requires NodeInv(ops, op.side.Peer(), NetRun(ops).At(op.side.Peer()))
    ensures
      var m := Carried(NetRun(ops), op);
      Taken(ops + [op], |ops| + 1, op.side.Peer(), m.identification, ClassOf(m.nvses))
  {
    var m := Carried(NetRun(ops), op);
    JustHappened(ops, op);
    hide Happened, Answer, NetRun, ClassOf, Asked;
    assert Explained(ops, op.side.Peer(), m);
    AskedPersists(ops, op, |ops|, |ops|, op.side.Peer(), m.identification, ClassOf(m.nvses));
    assert InfoTaken(ops + [op], |ops|, op.side, m.identification);
  }

  lemma JustAnswered(ops: seq<NetOp>, op: NetOp)
    requires op.Send? && op.message.CapabilitiesInfoAcknowledge? && Answer(NetRun(ops), op).result.Ok?
    requires NodeInv(ops, op.side, NetRun(ops).At(op.side))
    ensures Explained(ops + [op], op.side, op.message)
  {
    hide Happened, Apply, NetRun, ClassOf, ClassAnswers, Taken;
    var t, m := NetRun(ops).At(op.side).table, op.message;
    SlotEffects(t, op.now, Outbound, m);
    JustHappened(ops, op);
    var c := t.inbound.value.featureClass;
    TakenPersists(ops, op, |ops|, |ops|, op.side.Peer(), m.identification, c);
    assert AnswerSent(ops + [op], |ops|, op.side, m.identification);
    assert Answered(ops + [op], |ops| + 1, op.side.Peer(), m.identification, c);
  }

  lemma SendKeepsInv(ops: seq<NetOp>, op: NetOp)
    requires op.Send? && WorldInv(ops, NetRun(ops))
    ensures NodeInv(ops + [op], op.side, NetStep(NetRun(ops), op).At(op.side))
  {
    hide Apply, NetRun, Asked, Taken, Answered, ClassOf, ClassAnswers;
    var w, side, m := NetRun(ops), op.side, op.message;
    var node := w.At(side);
    NodeInvPersists(ops, op, side, node);
    SlotEffects(node.table, op.now, Outbound, m);
    if Answer(w, op).result.Ok? {
      if m.CapabilitiesInfo? {
        JustAsked(ops, op);
      }
      if m.CapabilitiesInfoAcknowledge? {
        JustAnswered(ops, op);
      }
    }
  }

  lemma DeliverKeepsInv(ops: seq<NetOp>, op: NetOp)
    requires op.Deliver? && Enabled(NetRun(ops), op) && WorldInv(ops, NetRun(ops))
    ensures NodeInv(ops + [op], op.side, NetStep(NetRun(ops), op).At(op.side))
  {
    hide Apply, NetRun, Asked, Taken, Explained, ClassOf;
    var w, side := NetRun(ops), op.side;
    var m := Carried(w, op);
    var node := w.At(side);
    NodeInvPersists(ops, op, side, node);
    SlotEffects(node.table, op.now, Inbound, m);
    if m.CapabilitiesInfo? && Answer(w, op).result == Ok(PendingCapabilitiesInfoAcknowledge(m.identification)) {
      JustTaken(ops, op);
    }
  }

  lemma StepKeepsWorldInv(ops: seq<NetOp>, op: NetOp)
    requires WorldInv(ops, NetRun(ops))
    ensures WorldInv(ops + [op], NetStep(NetRun(ops), op))
  {
    var w := NetRun(ops);
    NodeInvPersists(ops, op, Left, w.left);
    NodeInvPersists(ops, op, Right, w.right);
    if Enabled(w, op) {
      match op
      case Send(_, _, _) => SendKeepsInv(ops, op);
      case Deliver(_, _, _) => DeliverKeepsInv(ops, op);
      case Local(_, local) => LocalEffects(w.At(op.side).table, local);
    }
    hide NetRun, Step, Answer, Asked, Taken, Explained;
  }

  lemma {:induction false} RunWorldInv(ops: seq<NetOp>)
    ensures WorldInv(ops, NetRun(ops))
  {
    if ops != [] {
      var before, op := ops[..|ops| - 1], ops[|ops| - 1];
      RunWorldInv(before);
      StepKeepsWorldInv(before, op);
      assert ops == before + [op];
    }
  }

  /** An initiator sees its exchange completed only after its peer completed the answer, which came only
      after the peer took the request, which came only after the initiator sent it. */
  lemma CompletionOrder(ops: seq<NetOp>, k: nat, side: Side, id: U64)
    requires Completed(ops, k, side, id)
    ensures exists c :: Answered(ops, k, side, id, c)
  {
    var m: Message :| m.CapabilitiesInfoAcknowledge? && m.identification == id
      && Happened(ops, k, side, false, m, CapabilitiesInfoCompleted(id));
    var before, op := ops[..k], ops[k];
    assert m in NetRun(before).At(side.Peer()).sent;
    RunWorldInv(before);
    hide NetRun, Answer, Answered, ClassAnswers;
    assert Explained(before, side.Peer(), m);
    var c :| Answered(before, |before|, side, id, c);
    AnsweredGrows(before, ops, side, id, c);
  }

  lemma {:induction false} AnsweredGrows(before: seq<NetOp>, ops: seq<NetOp>, side: Side, id: U64, c: FeatureClass)
    requires before <= ops && Answered(before, |before|, side, id, c)
    ensures Answered(ops, |before|, side, id, c)
    decreases |ops|
  {
    hide Answered;
    if |before| == |ops| {
      assert before == ops;
    } else {
      var shorter, op := ops[..|ops| - 1], ops[|ops| - 1];
      AnsweredGrows(before, shorter, side, id, c);
      AnsweredPersists(shorter, op, |before|, |before|, side, id, c);
      assert ops == shorter + [op];
    }
  }

  /** `side` never sends requests of two feature classes under one identification. */
  ghost predicate OneClassEach(ops: seq<NetOp>, side: Side) {
    forall i: nat, j: nat, id, c, c' :: InfoSent(ops, i, side, id, c) && InfoSent(ops, j, side, id, c') ==> c == c'
  }

  lemma AnsweredAsked(ops: seq<NetOp>, n: nat, side: Side, id: U64, c: FeatureClass)
    requires Answered(ops, n, side, id, c)
    ensures exists i: nat :: InfoSent(ops, i, side, id, c)
  {
    hide InfoSent, InfoTaken, AnswerSent;
    var j: nat :| j < n && j < |ops| && AnswerSent(ops, j, side.Peer(), id) && Taken(ops, j, side, id, c);
    var r: nat :| r < j && r < |ops| && InfoTaken(ops, r, side.Peer(), id) && Asked(ops, r, side, id, c);
  }

  /** An answer in flight fits any request its initiator made under its identification. */
  lemma AnswerFits(ops: seq<NetOp>, side: Side, m: Message, requested: FeatureClass)
    requires m.CapabilitiesInfoAcknowledge? && Explained(ops, side.Peer(), m)
    requires Asked(ops, |ops|, side, m.identification, requested) && OneClassEach(ops, side)
    ensures ClassAnswers(requested, m.nvses)
  {
    hide Answered, InfoSent, ClassAnswers;
    var id := m.identification;
    var c :| Answered(ops, |ops|, side, id, c) && ClassAnswers(c, m.nvses);
    AnsweredAsked(ops, |ops|, side, id, c);
    var i: nat :| InfoSent(ops, i, side, id, c);
    var j: nat :| InfoSent(ops, j, side, id, requested);
  }

  /** As long as an initiator does not reuse an identification for another feature class, no answer that its
      peer's table let through is ever refused by its own for the wrong class. */
  lemma ClassCheckHolds(ops: seq<NetOp>, op: NetOp)
    requires op.Deliver? && Enabled(NetRun(ops), op) && OneClassEach(ops, op.side)
    ensures Answer(NetRun(ops), op).result != Err(ProcedureViolation(FeatureClass))
  {
    var w, side := NetRun(ops), op.side;
    var m, t := Carried(w, op), w.At(side).table;
    RunWorldInv(ops);
    hide NetRun, Apply, Asked, Taken, Answered, ClassAnswers, ClassOf, Validate, OneClassEach;
    assert m in w.At(side.Peer()).sent && Explained(ops, side.Peer(), m);
    if m.CapabilitiesInfoAcknowledge? && t.outbound.Some? && t.outbound.value.identification == m.identification {
      AnswerFits(ops, side, m, t.outbound.value.featureClass);
    }
    assert !ProcedureLaws.ClassRefused(t, Inbound, m);
    if Answer(w, op).result.Err? {
      ProcedureLaws.FailureAtomic(t, op.now, Inbound, m);
    }
  }

  // Reusing an identification

  const NOWHERE: Address := [0, 0, 0, 0]
  const SOME_AUTHENTICATION: Authentication := Authentication(RegistrationUpdateAuth, 256, [])

  function InfoWith(n: Nvse): (m: Message) {
    CapabilitiesInfo([0, 0, 0], NOWHERE, NOWHERE, NOWHERE, 1, [n], SOME_AUTHENTICATION)
  }

  function AnswerWith(n: Nvse, id: U64): (m: Message) {
    CapabilitiesInfoAcknowledge([0, 0, 0], NOWHERE, NOWHERE, id, [n], SOME_AUTHENTICATION)
  }

  lemma FeatureMessages(n: Nvse, id: U64)
    requires (n.PdsnEnabledFeature() || n.PcfEnabledFeature()) && id != 0
    ensures Validate(InfoWith(n)).Ok? && Validate(AnswerWith(n, id)).Ok?
    ensures ClassOf([n]) == if n.PdsnEnabledFeature() then PdsnFeatures else PcfFeatures
  {
    assert [n][0] == n && [n][1..] == [];
    assert n in [n];
  }

  /** The left node asks about PDSN features, gives up, and asks about PCF features under the same number. */
  const REUSE: seq<NetOp> := [
    Send(Left, 0, InfoWith(FlowControlEnabled)),
    Deliver(Right, 0, 0),
    Local(Left, ExpireTimersOp(0, 0, 0)),
    Send(Left, 0, InfoWith(ShortDataIndicationSupported)),
    Send(Right, 0, AnswerWith(ShortDataIndicationSupported, 1))]

  const PDSN_ASKED: Option<PendingCapabilities> := Some(PendingCapabilities(1, PdsnFeatures, 0))
  const PCF_ASKED: Option<PendingCapabilities> := Some(PendingCapabilities(1, PcfFeatures, 0))
  const PDSN_INFO: Message := InfoWith(FlowControlEnabled)
  const PCF_INFO: Message := InfoWith(ShortDataIndicationSupported)
  const PCF_ANSWER: Message := AnswerWith(ShortDataIndicationSupported, 1)

  const ASKED: World := World(Node(EMPTY.(outbound := PDSN_ASKED), [PDSN_INFO]), START.right)
  const TAKEN: World := ASKED.(right := Node(EMPTY.(inbound := PDSN_ASKED), []))
  const GIVEN_UP: World := TAKEN.(left := Node(EMPTY, [PDSN_INFO]))
  const ASKED_AGAIN: World := GIVEN_UP.(left := Node(EMPTY.(outbound := PCF_ASKED), [PDSN_INFO, PCF_INFO]))
  const ANSWERED: World := ASKED_AGAIN.(right := Node(EMPTY, [PCF_ANSWER]))

  lemma ReuseAsks()
    ensures NetStep(START, REUSE[0]) == ASKED
  {
    FeatureMessages(FlowControlEnabled, 1);
    hide Validate, ClassOf;
  }

  lemma ReuseTakes()
    ensures NetStep(ASKED, REUSE[1]) == TAKEN
  {
    FeatureMessages(FlowControlEnabled, 1);
    hide Validate, ClassOf;
  }

  lemma ReuseGivesUp()
    ensures NetStep(TAKEN, REUSE[2]) == GIVEN_UP
  {
    hide Validate, ClassOf;
  }

  lemma ReuseAsksAgain()
    ensures NetStep(GIVEN_UP, REUSE[3]) == ASKED_AGAIN
  {
    FeatureMessages(ShortDataIndicationSupported, 1);
    hide Validate, ClassOf;
  }

  lemma ReuseAnswers()
    ensures NetStep(ASKED_AGAIN, REUSE[4]) == ANSWERED
  {
    FeatureMessages(ShortDataIndicationSupported, 1);
    hide Validate, ClassOf;
  }

  lemma ReuseRefused()
    ensures Enabled(ANSWERED, Deliver(Left, 0, 0))
    ensures Answer(ANSWERED, Deliver(Left, 0, 0)).result == Err(ProcedureViolation(FeatureClass))
  {
    FeatureMessages(ShortDataIndicationSupported, 1);
    hide Validate, ClassOf;
  }

  /** Without the condition the check can fail: the answer to the first request meets the second one. */
  lemma ReuseBreaksClassCheck()
    ensures Enabled(NetRun(REUSE), Deliver(Left, 0, 0))
    ensures Answer(NetRun(REUSE), Deliver(Left, 0, 0)).result == Err(ProcedureViolation(FeatureClass))
  {
    hide NetStep, NetRun, Answer, Enabled;
    Unroll(REUSE);
    ReuseAsks();
    ReuseTakes();
    ReuseGivesUp();
    ReuseAsksAgain();
    ReuseAnswers();
    ReuseRefused();
  }

  lemma Unroll(ops: seq<NetOp>)
    requires |ops| == 5
    ensures NetRun(ops) == NetStep(NetStep(NetStep(NetStep(NetStep(START, ops[0]), ops[1]), ops[2]), ops[3]), ops[4])
  {
    hide NetStep;
    var o4, o3, o2, o1 := ops[..4], ops[..3], ops[..2], ops[..1];
    assert o4[..3] == o3 && o3[..2] == o2 && o2[..1] == o1 && o1[..0] == [];
    assert NetRun([]) == START;
    assert NetRun(o1) == NetStep(START, ops[0]);
    assert NetRun(o2) == NetStep(NetRun(o1), ops[1]);
    assert NetRun(o3) == NetStep(NetRun(o2), ops[2]);
    assert NetRun(o4) == NetStep(NetRun(o3), ops[3]);
  }
}
