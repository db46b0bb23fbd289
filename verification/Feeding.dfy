/** The hub's feed of one socket is the connection that deliveries are proved about. */
module Feeding {
  import opened ReplayLog
  import opened Live
  import opened Hub
  import opened Options
  import opened Topics
  import opened Delivery
  import opened Restarts

  /** The world holds the hub's log and history. */
  predicate SameHub(f: Feeds, w: World) {
    f.epoch == w.epoch && f.log == w.hub && f.history == w.history
  }

  /** Its connection is the socket `k`: what the hub sent there is what was delivered and what is in flight. */
  predicate Matches(f: Feeds, k: nat, w: World, delivered: seq<Incoming>) {
    && SameHub(f, w) && (Attached(w.link) <==> k in f.sent)
    && (k in f.sent ==>
          && f.sent[k] == delivered + w.link.value.queue
          && (k in f.subscribers <==> w.link.value.serving.Served?))
  }

  /** What a hub operation is, seen from the connection on `k`. */
  function Seen(f: Feeds, k: nat, op: HubOp, admissible: string -> bool): (actions: seq<Action>) {
    match op
    case Opens(j) => if j == k then [Connect] else []
    case Stalls(j) => if j == k then [HangUp] else []
    case Closes(j) => if j == k then [HangUp] else []
    case Asks(j, Events) => if j == k then [AskEvents(f.backend)] else []
    case Asks(j, Subscribe(key)) =>
      if j == k && admissible(key) && key in f.topics && f.topics[key].last.Some?
      then [Push(ResourceMessage(key, f.topics[key].last.value))] else []
    case Asks(_, _) => []
    case Publishes(name, data) => [Publish(name, data)]
    case Reports(connected) => if k in f.subscribers then [Push(ConnectionMessage(connected))] else []
    case Polls(key, value) =>
      if key in f.topics && f.topics[key].last != Some(value) && k in f.topics[key].subscribers
      then [Push(ResourceMessage(key, value))] else []
  }

  lemma One(w: World, a: Action)
    ensures RunOn(w, [a]) == Step(w, a)
  {
    hide Step;
  }

  lemma PushMatches(f: Feeds, k: nat, w: World, delivered: seq<Incoming>, sockets: set<nat>, msg: Incoming)
    requires Matches(f, k, w, delivered) && (msg.ResourceMessage? || msg.ConnectionMessage?)
    ensures Matches(f.(sent := Fed(f.sent, sockets, [msg])), k, if k in sockets then Step(w, Push(msg)) else w,
                    delivered)
  {
    if k in f.sent {
      assert delivered + w.link.value.queue + [msg] == delivered + (w.link.value.queue + [msg]);
    }
  }

  lemma AskMatches(f: Feeds, k: nat, w: World, delivered: seq<Incoming>)
    requires Matches(f, k, w, delivered)
    ensures Matches(f.(subscribers := f.subscribers + {k}, sent := Fed(f.sent, {k}, EventsAnswer(f, k))), k,
                    Step(w, AskEvents(f.backend)), delivered)
  {
    hide Replayed, Batches;
    if k in f.sent {
      var queue, answer := w.link.value.queue, EventsAnswer(f, k);
      assert [ConnectionMessage(f.backend)] + [] == [ConnectionMessage(f.backend)];
      assert delivered + queue + answer == delivered + (queue + answer);
    }
  }

  lemma OpenMatches(f: Feeds, k: nat, w: World, admissible: string -> bool)
    requires SameHub(f, w) && k !in f.wanted && f.subscribers <= f.wanted.Keys
    ensures Matches(HubStep(f, Opens(k), admissible), k, Step(w, Connect), [])
  {
  }

  lemma PublishMatches(f: Feeds, k: nat, w: World, delivered: seq<Incoming>, name: string, data: string,
                       admissible: string -> bool)
    requires Matches(f, k, w, delivered)
    ensures Matches(HubStep(f, Publishes(name, data), admissible), k, Step(w, Publish(name, data)), delivered)
  {
    hide LogPublished, Published, Publication;
    if k in f.sent {
      var queue, msg := w.link.value.queue, Publication(f.log, name, data);
      assert delivered + queue + [msg] == delivered + (queue + [msg]);
    }
  }

  /** Every operation of the hub, seen from the socket, is one step of the connection, or none. */
  lemma StepMatches(f: Feeds, k: nat, w: World, delivered: seq<Incoming>, op: HubOp, admissible: string -> bool)
    requires Matches(f, k, w, delivered) && FeedsInv(f, admissible) && Possible(f, op)
    ensures Matches(HubStep(f, op, admissible), k, RunOn(w, Seen(f, k, op, admissible)),
                    if op == Opens(k) then [] else delivered)
  {
    NoSteps(w);
    if Seen(f, k, op, admissible) != [] {
      One(w, Seen(f, k, op, admissible)[0]);
    }
    hide RunOn, Holds, Agree, EventsAnswer, Join, Leave, LeaveAll;
    match op
    case Opens(j) =>
      if j == k {
        OpenMatches(f, k, w, admissible);
      }
    case Stalls(_) =>
    case Closes(_) =>
    case Asks(j, Events) =>
      if j == k {
        AskMatches(f, k, w, delivered);
      }
    case Asks(j, Subscribe(key)) =>
      if admissible(key) && LastValue(f.topics, key) != [] {
        PushMatches(f, k, w, delivered, {j}, LastValue(f.topics, key)[0]);
      } else {
        FedNothing(f.sent, {j});
      }
    case Asks(_, _) =>
    case Publishes(name, data) =>
      PublishMatches(f, k, w, delivered, name, data, admissible);
    case Reports(connected) =>
      PushMatches(f, k, w, delivered, f.subscribers, ConnectionMessage(connected));
    case Polls(key, value) =>
      if key in f.topics {
        PushMatches(f, k, w, delivered, f.topics[key].subscribers, ResourceMessage(key, value));
      }
  }

  lemma DeliverMatches(f: Feeds, k: nat, w: World, delivered: seq<Incoming>)
    requires Matches(f, k, w, delivered) && w.link.Some? && w.link.value.queue != []
    ensures Matches(f, k, Step(w, Deliver), delivered + [w.link.value.queue[0]])
  {
    hide LogAfter, TakenAfter;
    var queue := w.link.value.queue;
    assert delivered + queue == delivered + [queue[0]] + queue[1..];
  }

  // The hub and a tab with a past

  /** A hub, the socket its tab is on, the world they make, and what was delivered on the socket. */
  datatype System = System(f: Feeds, k: nat, w: World, delivered: seq<Incoming>)

  /** The hub does something; a message is delivered, perhaps after the hub gave the socket up or was replaced; the
      tab rejoins on a new socket; another hub takes over. */
  datatype Move = AtHub(op: HubOp) | Arrives | Rejoins(socket: nat) | Replaced(epoch: string)

  function Beginning(epoch: string, k: nat): (s: System) {
    System(NewFeeds(epoch), k, Start(epoch), [])
  }

  predicate CanMove(s: System, m: Move) {
    match m
    case AtHub(op) => Possible(s.f, op)
    case Arrives => s.w.link.Some? && s.w.link.value.queue != []
    case Rejoins(j) => j !in s.f.wanted
    case Replaced(epoch) => Harmless(s.w, epoch)
  }

  function MoveOn(s: System, m: Move, admissible: string -> bool): (s': System)
    requires CanMove(s, m)
  {
    match m
    case AtHub(op) =>
      System(HubStep(s.f, op, admissible), s.k, RunOn(s.w, Seen(s.f, s.k, op, admissible)),
             if op == Opens(s.k) then [] else s.delivered)
    case Arrives => s.(w := Step(s.w, Deliver), delivered := s.delivered + [s.w.link.value.queue[0]])
    case Rejoins(j) => System(HubStep(s.f, Opens(j), admissible), j, Step(s.w, Connect), [])
    case Replaced(epoch) => System(NewFeeds(epoch), s.k, Step(s.w, Restart(epoch)), [])
  }

  /** A move that cannot be made changes nothing. */
  function MoveAll(s: System, moves: seq<Move>, admissible: string -> bool): (s': System) {
    if moves == [] then s
    else
      var before := MoveAll(s, moves[..|moves| - 1], admissible);
      if CanMove(before, moves[|moves| - 1]) then MoveOn(before, moves[|moves| - 1], admissible) else before
  }

  ghost predicate SystemInv(s: System, admissible: string -> bool) {
    FeedsInv(s.f, admissible) && WorldInv(s.w) && Matches(s.f, s.k, s.w, s.delivered)
  }

  lemma ReplacedMatches(k: nat, w: World, epoch: string)
    ensures Matches(NewFeeds(epoch), k, Step(w, Restart(epoch)), [])
  {
  }

  lemma MoveKeepsInv(s: System, m: Move, admissible: string -> bool)
    requires SystemInv(s, admissible) && CanMove(s, m)
    ensures SystemInv(MoveOn(s, m, admissible), admissible)
  {
    hide WorldInv, RunOn, Step, HubStep, Seen, Holds, Agree;
    match m
    case AtHub(op) =>
      HubStepKeepsInv(s.f, op, admissible);
      SeenInv(s.w, s.f, s.k, op, admissible);
      StepMatches(s.f, s.k, s.w, s.delivered, op, admissible);
    case Arrives =>
      StepInv(s.w, Deliver);
      DeliverMatches(s.f, s.k, s.w, s.delivered);
    case Rejoins(j) =>
      HubStepKeepsInv(s.f, Opens(j), admissible);
      StepInv(s.w, Connect);
      OpenMatches(s.f, j, s.w, admissible);
    case Replaced(epoch) =>
      HubRunInv(epoch, [], admissible);
      StepInv(s.w, Restart(epoch));
      ReplacedMatches(s.k, s.w, epoch);
  }

  lemma {:induction false} MovesKeepInv(epoch: string, k: nat, moves: seq<Move>, admissible: string -> bool)
    requires epoch != ""
    ensures SystemInv(MoveAll(Beginning(epoch, k), moves, admissible), admissible)
    decreases |moves|
  {
    if moves == [] {
      HubRunInv(epoch, [], admissible);
      StartInv(epoch);
      StartMatches(epoch, k);
      hide WorldInv, FeedsInv, Matches;
    } else {
      hide SystemInv, MoveOn, CanMove;
      MovesKeepInv(epoch, k, moves[..|moves| - 1], admissible);
      var before := MoveAll(Beginning(epoch, k), moves[..|moves| - 1], admissible);
      if CanMove(before, moves[|moves| - 1]) {
        MoveKeepsInv(before, moves[|moves| - 1], admissible);
      }
    }
  }

  /** On every run of a hub and a tab that joins, loses its connection, rejoins and outlives hubs: whenever it has
      taken all that was sent on its subscribed socket, its log is the hub's. */
  lemma FeedCatchesUp(epoch: string, k: nat, moves: seq<Move>, admissible: string -> bool)
    requires epoch != ""
    ensures var s := MoveAll(Beginning(epoch, k), moves, admissible);
            s.k in s.f.sent && s.k in s.f.subscribers && s.f.sent[s.k] == s.delivered ==> s.w.tab == s.f.log
  {
    hide WorldInv, FeedsInv, MoveAll;
    MovesKeepInv(epoch, k, moves, admissible);
    var s := MoveAll(Beginning(epoch, k), moves, admissible);
    if s.k in s.f.sent && s.k in s.f.subscribers && s.f.sent[s.k] == s.delivered {
      assert |s.w.link.value.queue| == 0;
      InvCaughtUp(s.w);
    }
  }

  // From the hub's start

  /** The world as the hub's operations leave it, with nothing delivered. */
  function SeenRun(epoch: string, ops: seq<HubOp>, admissible: string -> bool, k: nat): (w: World) {
    if ops == [] then Start(epoch)
    else
      var front := ops[..|ops| - 1];
      RunOn(SeenRun(epoch, front, admissible, k), Seen(HubRun(epoch, front, admissible), k, ops[|ops| - 1], admissible))
  }

  lemma SeenInv(w: World, f: Feeds, k: nat, op: HubOp, admissible: string -> bool)
    requires WorldInv(w)
    ensures var w' := RunOn(w, Seen(f, k, op, admissible)); WorldInv(w') && w'.tab == w.tab
  {
    hide WorldInv;
    var actions := Seen(f, k, op, admissible);
    NoSteps(w);
    if actions != [] {
      One(w, actions[0]);
      StepInv(w, actions[0]);
      TabUntouched(w, actions[0]);
    }
    hide RunOn, Step;
  }

  lemma TabUntouched(w: World, a: Action)
    requires !a.Deliver?
    ensures Step(w, a).tab == w.tab
  {
    hide Replayed, Batches, LogPublished, Published;
  }

  lemma {:induction false} RunMatches(epoch: string, ops: seq<HubOp>, admissible: string -> bool, k: nat)
    requires epoch != "" && Legal(epoch, ops, admissible)
    ensures var w := SeenRun(epoch, ops, admissible, k);
            Matches(HubRun(epoch, ops, admissible), k, w, []) && WorldInv(w) && w.tab == FRESH
  {
    hide WorldInv, Matches, FeedsInv, Possible, HubStep, RunOn, Seen;
    if ops == [] {
      StartInv(epoch);
      StartMatches(epoch, k);
    } else {
      var front, last := ops[..|ops| - 1], ops[|ops| - 1];
      var f, w := HubRun(epoch, front, admissible), SeenRun(epoch, front, admissible, k);
      RunMatches(epoch, front, admissible, k);
      HubRunInv(epoch, front, admissible);
      SeenInv(w, f, k, last, admissible);
      StepMatches(f, k, w, [], last, admissible);
    }
  }

  lemma StartMatches(epoch: string, k: nat)
    ensures Matches(NewFeeds(epoch), k, Start(epoch), [])
  {
  }

  /** A tab's log after messages. */
  function LogAfterAll(log: Log, msgs: seq<Incoming>): (log': Log)
    decreases |msgs|
  {
    if msgs == [] then log else LogAfterAll(LogAfter(log, msgs[0]), msgs[1..])
  }

  lemma {:induction false} DeliverAll(w: World, queue: seq<Incoming>)
    requires WorldInv(w) && ServedBy(w.link) && w.link.value.queue == queue
    ensures var w' := RunOn(w, Deliveries(|queue|));
            WorldInv(w') && Drained(w') && w'.hub == w.hub && w'.tab == LogAfterAll(w.tab, queue)
    decreases |queue|
  {
    hide WorldInv, LogAfter, TakenAfter;
    if queue != [] {
      StepInv(w, Deliver);
      FirstStep(w, Deliver, Deliveries(|queue| - 1));
      hide RunOn;
      DeliverAll(Step(w, Deliver), queue[1..]);
    }
  }

  /** On every run of the hub: a new tab that takes, in order, all that was sent on its socket holds exactly the
      hub's log. */
  lemma FeedMakesLog(epoch: string, ops: seq<HubOp>, admissible: string -> bool, k: nat)
    requires epoch != "" && Legal(epoch, ops, admissible)
    ensures var f := HubRun(epoch, ops, admissible);
            k in f.sent && k in f.subscribers ==> LogAfterAll(FRESH, f.sent[k]) == f.log
  {
    hide HubRun, SeenRun, WorldInv, RunOn, LogAfterAll;
    var f, w := HubRun(epoch, ops, admissible), SeenRun(epoch, ops, admissible, k);
    RunMatches(epoch, ops, admissible, k);
    if k in f.sent && k in f.subscribers {
      assert f.sent[k] == w.link.value.queue;
      DeliverAll(w, w.link.value.queue);
      InvCaughtUp(RunOn(w, Deliveries(|w.link.value.queue|)));
    }
  }
}
