/** The event hub of the web server: it numbers events, keeps the recent ones and feeds the open sockets. */
module Hub {
  import opened ReplayLog
  import opened Live
  import opened Options
  import opened Topics

  const REPLAY_BATCH: nat := 500

  const REPLAY_EVENTS: set<string> :=
    {"paging", "access", "traffic", "a1", "authentication", "hrpd-session", "hrpd-access", "hrpd-traffic"}

  // What is sent

  /** The log after an event; only some events are numbered and kept. */
  function LogPublished(log: Log, name: string, data: string): (log': Log) {
    if name in REPLAY_EVENTS then Record(log, Item(log.lastSeq + 1, name, data)) else log
  }

  function Publication(log: Log, name: string, data: string): (msg: Incoming) {
    EventMessage(name, data, if name in REPLAY_EVENTS then Some(log.lastSeq + 1) else None)
  }

  function Published(history: seq<Item>, log: Log, name: string, data: string): (history': seq<Item>) {
    if name in REPLAY_EVENTS then history + [Item(log.lastSeq + 1, name, data)] else history
  }

  function Batches(epoch: string, items: seq<Item>): (msgs: seq<Incoming>)
    decreases |items|
  {
    if |items| <= REPLAY_BATCH then [ReplayMessage(epoch, items)]
    else [ReplayMessage(epoch, items[..REPLAY_BATCH])] + Batches(epoch, items[REPLAY_BATCH..])
  }

  /** The batches still to send when those before `i` are sent. */
  function BatchesAfter(epoch: string, items: seq<Item>, i: nat): (msgs: seq<Incoming>) {
    if i < |items| then Batches(epoch, items[i..]) else []
  }

  lemma BatchesFrom(epoch: string, items: seq<Item>, i: nat, end: nat)
    requires i < |items| && end == if i + REPLAY_BATCH < |items| then i + REPLAY_BATCH else |items|
    ensures BatchesAfter(epoch, items, i)
         == [ReplayMessage(epoch, items[i..end])] + BatchesAfter(epoch, items, i + REPLAY_BATCH)
  {
    var batch := ReplayMessage(epoch, items[i..end]);
    if end < |items| {
      assert items[i..][..REPLAY_BATCH] == items[i..end] && items[i..][REPLAY_BATCH..] == items[end..];
    } else {
      assert items[i..] == items[i..end] && [batch] + [] == [batch];
    }
  }

  /** The item is among the most recent of its event. */
  predicate Retained(history: seq<Item>, x: Item) {
    x in Recent(OfEvent(history, x.event))
  }

  /** What is retained, in order. */
  function Replayed(history: seq<Item>): (items: seq<Item>) {
    RetainedAmong(history, history)
  }

  function RetainedAmong(history: seq<Item>, items: seq<Item>): (kept: seq<Item>) {
    if items == [] then []
    else
      var last := items[|items| - 1];
      RetainedAmong(history, items[..|items| - 1]) + (if Retained(history, last) then [last] else [])
  }

  lemma {:induction false} RetainedAmongSound(history: seq<Item>, items: seq<Item>)
    ensures forall x :: x in RetainedAmong(history, items) <==> x in items && Retained(history, x)
    ensures Increasing(items) ==> Increasing(RetainedAmong(history, items))
  {
    hide Retained;
    if items != [] {
      var front, last := items[..|items| - 1], items[|items| - 1];
      RetainedAmongSound(history, front);
      assert items == front + [last];
      if Increasing(items) {
        AllButLast(items);
        AtEnd(RetainedAmong(history, front), last);
      }
    }
  }

  lemma RetainedRecorded(history: seq<Item>, x: Item)
    requires Retained(history, x)
    ensures x in history
  {
    OfEventSound(history, x.event);
    RecentSound(OfEvent(history, x.event));
  }

  lemma ReplayedIsReplay(history: seq<Item>)
    requires Increasing(history)
    ensures IsReplay(Replayed(history), history)
    ensures forall x :: x in Replayed(history) <==> Retained(history, x)
  {
    RetainedAmongSound(history, history);
    forall x ensures x in Replayed(history) <==> Retained(history, x) {
      if Retained(history, x) {
        RetainedRecorded(history, x);
      }
    }
  }

  lemma ReplayIsReplayed(items: seq<Item>, history: seq<Item>)
    requires Increasing(history) && IsReplay(items, history)
    ensures items == Replayed(history)
  {
    hide Replayed, OfEvent, Recent;
    ReplayedIsReplay(history);
    SameElements(items, Replayed(history));
  }

  // The hub as a value

  datatype Feeds = Feeds(
    epoch: string, log: Log, history: seq<Item>, backend: bool,
    subscribers: set<nat>, wanted: Wanted, topics: Table,
    sent: map<nat, seq<Incoming>>)

  /** What happens to the hub: sockets open, stop taking messages and close; they ask; events and connection
      reports arrive from the base station; a poll of a resource ends. */
  datatype HubOp =
    | Opens(socket: nat)
    | Stalls(socket: nat)
    | Closes(socket: nat)
    | Asks(socket: nat, op: Op)
    | Publishes(name: string, data: string)
    | Reports(connected: bool)
    | Polls(key: string, value: string)

  function NewFeeds(epoch: string): (f: Feeds) {
    Feeds(epoch, Log(Some(epoch), 0, map[]), [], false, {}, map[], map[], map[])
  }

  /** Some sockets are sent more; one that is not open is not sent anything. */
  function Fed(sent: map<nat, seq<Incoming>>, sockets: set<nat>, msgs: seq<Incoming>)
    : (sent': map<nat, seq<Incoming>>)
  {
    map k <- sent :: if k in sockets then sent[k] + msgs else sent[k]
  }

  /** What a socket is sent when it asks for events. */
  function EventsAnswer(f: Feeds, k: nat): (msgs: seq<Incoming>) {
    [ConnectionMessage(f.backend)] + (if k in f.subscribers then [] else Batches(f.epoch, Replayed(f.history)))
  }

  /** What a socket is sent when it subscribes to a topic that already has a value. */
  function LastValue(topics: Table, key: string): (msgs: seq<Incoming>) {
    if key in topics && topics[key].last.Some? then [ResourceMessage(key, topics[key].last.value)] else []
  }

  function AskStep(f: Feeds, k: nat, op: Op, admissible: string -> bool): (f': Feeds)
    requires k in f.wanted
  {
    match op
    case Events => f.(subscribers := f.subscribers + {k}, sent := Fed(f.sent, {k}, EventsAnswer(f, k)))
    case Subscribe(key) =>
      var f' := f.(wanted := f.wanted[k := f.wanted[k] + {key}]);
      if !admissible(key) then f'
      else f'.(topics := Join(f.topics, key, k), sent := Fed(f.sent, {k}, LastValue(f.topics, key)))
    case Unsubscribe(key) => f.(wanted := f.wanted[k := f.wanted[k] - {key}], topics := Leave(f.topics, key, k))
    case Refresh(_) => f
  }

  function PollStep(f: Feeds, key: string, value: string): (f': Feeds) {
    if key !in f.topics || f.topics[key].last == Some(value) then f
    else f.(topics := f.topics[key := f.topics[key].(last := Some(value))],
            sent := Fed(f.sent, f.topics[key].subscribers, [ResourceMessage(key, value)]))
  }

  /** A socket opens once, and asks and closes only after that. */
  predicate Possible(f: Feeds, op: HubOp) {
    match op
    case Opens(k) => k !in f.wanted
    case Asks(k, _) => k in f.wanted
    case Closes(k) => k in f.wanted
    case _ => true
  }

  function HubStep(f: Feeds, op: HubOp, admissible: string -> bool): (f': Feeds)
    requires Possible(f, op)
  {
    match op
    case Opens(k) => f.(wanted := f.wanted[k := {}], sent := f.sent[k := []])
    case Stalls(k) => f.(sent := f.sent - {k})
    case Closes(k) =>
      f.(subscribers := f.subscribers - {k}, wanted := f.wanted - {k},
         topics := LeaveAll(f.topics, f.wanted[k], k), sent := f.sent - {k})
    case Asks(k, op) => AskStep(f, k, op, admissible)
    case Publishes(name, data) =>
      f.(log := LogPublished(f.log, name, data), history := Published(f.history, f.log, name, data),
         sent := Fed(f.sent, f.subscribers, [Publication(f.log, name, data)]))
    case Reports(connected) =>
      f.(backend := connected, sent := Fed(f.sent, f.subscribers, [ConnectionMessage(connected)]))
    case Polls(key, value) => PollStep(f, key, value)
  }

  /** The log holds the history, topics and sockets agree, and only connected sockets are served or sent to. */
  ghost predicate FeedsInv(f: Feeds, admissible: string -> bool) {
    && Holds(f.log, f.history) && f.log.epoch == Some(f.epoch)
    && Agree(f.topics, f.wanted, admissible)
    && f.subscribers <= f.wanted.Keys && f.sent.Keys <= f.wanted.Keys
  }

  lemma PublishHolds(f: Feeds, name: string, data: string)
    requires Holds(f.log, f.history)
    ensures Holds(LogPublished(f.log, name, data), Published(f.history, f.log, name, data))
  {
    hide Holds;
    TakeHolds(f.log, f.history, Item(f.log.lastSeq + 1, name, data));
  }

  lemma HubStepKeepsInv(f: Feeds, op: HubOp, admissible: string -> bool)
    requires FeedsInv(f, admissible) && Possible(f, op)
    ensures FeedsInv(HubStep(f, op, admissible), admissible)
  {
    hide Holds, Agree, Join, Leave, LeaveAll, LogPublished, Published;
    match op
    case Opens(k) => NewSocketAgrees(f.topics, f.wanted, admissible, k);
    case Stalls(_) =>
    case Closes(k) => LeaveAllAgrees(f.topics, f.wanted, admissible, k);
    case Asks(k, Subscribe(key)) => JoinAgrees(f.topics, f.wanted, admissible, key, k);
    case Asks(k, Unsubscribe(key)) => LeaveAgrees(f.topics, f.wanted, admissible, key, k);
    case Asks(_, _) =>
    case Publishes(name, data) =>
      PublishHolds(f, name, data);
      PublishedEpoch(f.log, name, data);
    case Reports(_) =>
    case Polls(key, value) =>
      if key in f.topics {
        PolledAgrees(f.topics, f.wanted, admissible, key, value);
      }
  }

  lemma PublishedEpoch(log: Log, name: string, data: string)
    ensures LogPublished(log, name, data).epoch == log.epoch
  {
  }

  // What the hub serves a socket

  function HubRun(epoch: string, ops: seq<HubOp>, admissible: string -> bool): (f: Feeds) {
    if ops == [] then NewFeeds(epoch)
    else
      var f := HubRun(epoch, ops[..|ops| - 1], admissible);
      if Possible(f, ops[|ops| - 1]) then HubStep(f, ops[|ops| - 1], admissible) else f
  }

  /** What a socket has asked for since it opened. */
  function AskedBy(ops: seq<HubOp>, k: nat): (asked: seq<Op>) {
    if ops == [] then []
    else
      var before := AskedBy(ops[..|ops| - 1], k);
      match ops[|ops| - 1]
      case Opens(j) => if j == k then [] else before
      case Asks(j, op) => if j == k then before + [op] else before
      case _ => before
  }

  ghost predicate Legal(epoch: string, ops: seq<HubOp>, admissible: string -> bool) {
    ops != [] ==>
      && Legal(epoch, ops[..|ops| - 1], admissible)
      && Possible(HubRun(epoch, ops[..|ops| - 1], admissible), ops[|ops| - 1])
  }

  lemma {:induction false} HubRunInv(epoch: string, ops: seq<HubOp>, admissible: string -> bool)
    ensures FeedsInv(HubRun(epoch, ops, admissible), admissible)
  {
    if ops == [] {
      NothingHeld(Some(epoch));
      assert Agree(map[], map[], admissible);
    } else {
      hide FeedsInv, HubStep, Possible;
      var before := HubRun(epoch, ops[..|ops| - 1], admissible);
      HubRunInv(epoch, ops[..|ops| - 1], admissible);
      if Possible(before, ops[|ops| - 1]) {
        HubStepKeepsInv(before, ops[|ops| - 1], admissible);
      }
    }
  }

  /** What the hub keeps for a connected socket. */
  function ViewOf(f: Feeds, k: nat): (view: HubView)
    requires k in f.wanted
  {
    HubView(f.wanted[k], k in f.subscribers)
  }

  lemma StepView(f: Feeds, op: HubOp, admissible: string -> bool, k: nat)
    requires Possible(f, op) && f.subscribers <= f.wanted.Keys && k in HubStep(f, op, admissible).wanted
    ensures ViewOf(HubStep(f, op, admissible), k) ==
            if op == Opens(k) then HubView({}, false)
            else if op.Asks? && op.socket == k then Serve(ViewOf(f, k), op.op)
            else ViewOf(f, k)
  {
    hide Fed, Join, Leave, LeaveAll, LogPublished, Published, EventsAnswer;
  }

  /** On every run a connected socket is served what its operations since it opened add up to. */
  lemma {:induction false} HubServesAll(epoch: string, ops: seq<HubOp>, admissible: string -> bool, k: nat)
    requires Legal(epoch, ops, admissible) && k in HubRun(epoch, ops, admissible).wanted
    ensures ViewOf(HubRun(epoch, ops, admissible), k) == ServeAll(AskedBy(ops, k))
  {
    hide HubStep, Possible, Serve, ViewOf;
    if ops != [] {
      var front, last := ops[..|ops| - 1], ops[|ops| - 1];
      var before := HubRun(epoch, front, admissible);
      HubRunInv(epoch, front, admissible);
      StepView(before, last, admissible, k);
      if last == Opens(k) {
        NothingServed();
      } else {
        StillConnected(before, last, admissible, k);
        HubServesAll(epoch, front, admissible, k);
        if last.Asks? && last.socket == k {
          ServeOne(AskedBy(front, k), last.op);
        }
      }
    }
  }

  lemma StillConnected(f: Feeds, op: HubOp, admissible: string -> bool, k: nat)
    requires Possible(f, op) && k in HubStep(f, op, admissible).wanted && op != Opens(k)
    ensures k in f.wanted
  {
    hide Fed, Join, Leave, LeaveAll, LogPublished, Published, EventsAnswer;
  }

  /** On every run the topics serve a socket exactly with the keys it asked for and did not give up, of those
      that may be polled. */
  lemma TopicsServe(epoch: string, ops: seq<HubOp>, admissible: string -> bool, k: nat, key: string)
    requires Legal(epoch, ops, admissible)
    ensures var f := HubRun(epoch, ops, admissible);
            Serves(f.topics, key, k) <==> k in f.wanted && key in ServeAll(AskedBy(ops, k)).keys && admissible(key)
  {
    hide HubRun, AskedBy, ServeAll;
    HubRunInv(epoch, ops, admissible);
    var f := HubRun(epoch, ops, admissible);
    assert Serves(f.topics, key, k) <==> Wants(f.wanted, key, k) && admissible(key);
    if k in f.wanted {
      HubServesAll(epoch, ops, admissible, k);
    }
  }

  // The hub

  class EventHub {
    const epoch: string
    const admissible: string -> bool
    var eventSeq: int
    var replayBuffers: Buffers
    var eventSubscribers: set<nat>
    var backendConnected: bool
    var keys: Wanted
    var resources: Table

    // What has been sent on each open socket
    var sent: map<nat, seq<Incoming>>

    // The numbered events, in order
    ghost var history: seq<Item>

    function CurrentLog(): (log: Log)
      reads `eventSeq, `replayBuffers
    {
      Log(Some(epoch), eventSeq, replayBuffers)
    }

    ghost function State(): (f: Feeds)
      reads this
    {
      Feeds(epoch, CurrentLog(), history, backendConnected, eventSubscribers, keys, resources, sent)
    }

    ghost predicate Valid()
      reads this
    {
      FeedsInv(State(), admissible)
    }

    constructor (epoch: string, admissible: string -> bool)
      ensures Valid() && this.admissible == admissible && State() == NewFeeds(epoch)
    {
      this.epoch, this.admissible := epoch, admissible;
      eventSeq, replayBuffers, eventSubscribers := 0, map[], {};
      keys, resources := map[], map[];
      backendConnected, sent, history := false, map[], [];
      new;
      HubRunInv(epoch, [], admissible);
    }

    // Sockets

    method OnConnect(socket: nat)
      requires Valid() && socket !in keys
      modifies this`keys, this`sent
      ensures Valid() && State() == HubStep(old(State()), Opens(socket), admissible)
    {
      hide FeedsInv;
      HubStepKeepsInv(State(), Opens(socket), admissible);
      keys, sent := keys[socket := {}], sent[socket := []];
    }

    /** The socket is no longer open, but its close has not been seen. */
    method OnStall(socket: nat)
      requires Valid()
      modifies this`sent
      ensures Valid() && State() == HubStep(old(State()), Stalls(socket), admissible)
    {
      hide FeedsInv;
      HubStepKeepsInv(State(), Stalls(socket), admissible);
      sent := sent - {socket};
    }

    method OnSocketClose(socket: nat)
      requires Valid() && socket in keys
      modifies this`sent, this`eventSubscribers, this`keys, this`resources
      ensures Valid() && State() == HubStep(old(State()), Closes(socket), admissible)
    {
      hide FeedsInv, LeaveAll, Leave;
      HubStepKeepsInv(State(), Closes(socket), admissible);
      eventSubscribers := eventSubscribers - {socket};
      var own := keys[socket];
      var left := own;
      LeaveNone(resources, socket);
      assert own - left == {};
      while left != {}
        invariant left <= own && keys == old(keys) && sent == old(sent)
        invariant eventSubscribers == old(eventSubscribers) - {socket}
        invariant resources == LeaveAll(old(resources), own - left, socket)
      {
        var key :| key in left;
        LeaveOneMore(old(resources), own - left, key, socket);
        assert own - left + {key} == own - (left - {key});
        UnsubscribeResource(socket, key);
        left := left - {key};
      }
      assert own - left == own;
      sent, keys := sent - {socket}, keys - {socket};
    }

    method Send(socket: nat, msg: Incoming)
      modifies this`sent
      ensures sent == Fed(old(sent), {socket}, [msg])
    {
      if socket in sent {
        sent := sent[socket := sent[socket] + [msg]];
      }
    }

    method SendEach(sockets: set<nat>, msg: Incoming)
      modifies this`sent
      ensures sent == Fed(old(sent), sockets, [msg])
    {
      var left := sockets;
      while left != {}
        invariant left <= sockets
        invariant sent == Fed(old(sent), sockets - left, [msg])
      {
        var socket :| socket in left;
        Send(socket, msg);
        left := left - {socket};
      }
      assert sockets - left == sockets;
    }

    method BroadcastEvent(msg: Incoming)
      modifies this`sent
      ensures sent == Fed(old(sent), eventSubscribers, [msg])
    {
      SendEach(eventSubscribers, msg);
    }

    // Events

    /** Numbers and keeps an event, if it is one of those kept. */
    method RecordEvent(name: string, payload: string) returns (number: Option<int>)
      modifies this`eventSeq, this`replayBuffers, this`history
      ensures CurrentLog() == LogPublished(old(CurrentLog()), name, payload)
      ensures history == Published(old(history), old(CurrentLog()), name, payload)
      ensures number == if name in REPLAY_EVENTS then Some(old(eventSeq) + 1) else None
    {
      if name !in REPLAY_EVENTS {
        return None;
      }
      eventSeq := eventSeq + 1;
      var buffer := if name in replayBuffers then replayBuffers[name] else [];
      buffer := buffer + [Item(eventSeq, name, payload)];
      if |buffer| > DEPTH {
        buffer := buffer[1..];
      }
      replayBuffers := replayBuffers[name := buffer];
      history := history + [Item(eventSeq, name, payload)];
      number := Some(eventSeq);
    }

    /** An event arrives from the base station. */
    method Publish(name: string, payload: string)
      requires Valid()
      modifies this`eventSeq, this`replayBuffers, this`history, this`sent
      ensures Valid() && State() == HubStep(old(State()), Publishes(name, payload), admissible)
    {
      hide FeedsInv, Fed;
      HubStepKeepsInv(State(), Publishes(name, payload), admissible);
      var number := RecordEvent(name, payload);
      BroadcastEvent(EventMessage(name, payload, number));
    }

    /** The base station's connection is reported up or down. */
    method Report(connected: bool)
      requires Valid()
      modifies this`backendConnected, this`sent
      ensures Valid() && State() == HubStep(old(State()), Reports(connected), admissible)
    {
      hide FeedsInv, Fed;
      HubStepKeepsInv(State(), Reports(connected), admissible);
      backendConnected := connected;
      BroadcastEvent(ConnectionMessage(connected));
    }

    method SendReplay(socket: nat)
      requires Holds(CurrentLog(), history)
      modifies this`sent
      ensures sent == Fed(old(sent), {socket}, Batches(epoch, Replayed(history)))
    {
      hide Holds, Replayed, Fed;
      var items := SortedItems(CurrentLog(), history);
      assert Increasing(history) by {
        HoldsIncreasing(CurrentLog(), history);
      }
      ReplayIsReplayed(items, history);
      if |items| == 0 {
        Send(socket, ReplayMessage(epoch, items));
      }
      SendBatches(socket, items);
    }

    method SendBatches(socket: nat, items: seq<Item>)
      modifies this`sent
      ensures items != [] ==> sent == Fed(old(sent), {socket}, Batches(epoch, items))
      ensures items == [] ==> sent == old(sent)
    {
      hide Fed;
      var i := 0;
      ghost var done: seq<Incoming> := [];
      assert items[0..] == items;
      FedNothing(sent, {socket});
      while i < |items|
        invariant 0 <= i
        invariant items != [] ==> done + BatchesAfter(epoch, items, i) == Batches(epoch, items)
        invariant sent == Fed(old(sent), {socket}, done)
        invariant items == [] ==> done == []
      {
        var end := if i + REPLAY_BATCH < |items| then i + REPLAY_BATCH else |items|;
        var batch := ReplayMessage(epoch, items[i..end]);
        BatchesFrom(epoch, items, i, end);
        FedMore(old(sent), {socket}, done, [batch]);
        Send(socket, batch);
        done := done + [batch];
        i := i + REPLAY_BATCH;
      }
      assert done + [] == done;
    }

    // What sockets ask for

    method OnMessage(socket: nat, op: Op)
      requires Valid() && socket in keys
      modifies this`sent, this`eventSubscribers, this`keys, this`resources
      ensures Valid() && State() == HubStep(old(State()), Asks(socket, op), admissible)
    {
      HubStepKeepsInv(State(), Asks(socket, op), admissible);
      hide FeedsInv, Fed, Join, Leave, EventsAnswer;
      match op
      case Events =>
        OnEvents(socket);
      case Subscribe(key) =>
        keys := keys[socket := keys[socket] + {key}];
        SubscribeResource(socket, key);
      case Unsubscribe(key) =>
        keys := keys[socket := keys[socket] - {key}];
        UnsubscribeResource(socket, key);
      case Refresh(_) =>
    }

    /** A socket asks for events: it is told the connection's state and, the first time, given the replay. */
    method OnEvents(socket: nat)
      requires Holds(CurrentLog(), history)
      modifies this`sent, this`eventSubscribers
      ensures eventSubscribers == old(eventSubscribers) + {socket}
      ensures sent == Fed(old(sent), {socket}, EventsAnswer(old(State()), socket))
    {
      hide Holds, Replayed, Batches, Fed;
      FedMore(sent, {socket}, [ConnectionMessage(backendConnected)], Batches(epoch, Replayed(history)));
      Send(socket, ConnectionMessage(backendConnected));
      if socket !in eventSubscribers {
        eventSubscribers := eventSubscribers + {socket};
        SendReplay(socket);
      } else {
        assert [ConnectionMessage(backendConnected)] + [] == [ConnectionMessage(backendConnected)];
      }
    }

    method SubscribeResource(socket: nat, key: string)
      modifies this`resources, this`sent
      ensures resources == if admissible(key) then Join(old(resources), key, socket) else old(resources)
      ensures sent == if admissible(key) then Fed(old(sent), {socket}, LastValue(old(resources), key)) else old(sent)
    {
      hide Fed;
      if !admissible(key) {
        return;
      }
      FedNothing(sent, {socket});
      var resource := if key in resources then resources[key] else Topic({}, None);
      if resource.last.Some? {
        Send(socket, ResourceMessage(key, resource.last.value));
      }
      resources := resources[key := resource.(subscribers := resource.subscribers + {socket})];
    }

    method UnsubscribeResource(socket: nat, key: string)
      modifies this`resources
      ensures resources == Leave(old(resources), key, socket)
    {
      if key !in resources {
        return;
      }
      var subscribers := resources[key].subscribers - {socket};
      if subscribers == {} {
        resources := resources - {key};
      } else {
        resources := resources[key := resources[key].(subscribers := subscribers)];
      }
    }

    /** A poll of a resource ends: its subscribers are sent the value, if it is another than the last. */
    method OnPolled(key: string, value: string)
      requires Valid()
      modifies this`resources, this`sent
      ensures Valid() && State() == HubStep(old(State()), Polls(key, value), admissible)
    {
      hide FeedsInv, Fed;
      HubStepKeepsInv(State(), Polls(key, value), admissible);
      if key !in resources || resources[key].last == Some(value) {
        return;
      }
      resources := resources[key := resources[key].(last := Some(value))];
      SendEach(resources[key].subscribers, ResourceMessage(key, value));
    }
  }

  lemma FedNothing(sent: map<nat, seq<Incoming>>, sockets: set<nat>)
    ensures Fed(sent, sockets, []) == sent
  {
    assert forall k <- sent :: sent[k] + [] == sent[k];
  }

  lemma FedMore(sent: map<nat, seq<Incoming>>, sockets: set<nat>, a: seq<Incoming>, b: seq<Incoming>)
    ensures Fed(Fed(sent, sockets, a), sockets, b) == Fed(sent, sockets, a + b)
  {
    assert forall k <- sent :: sent[k] + a + b == sent[k] + (a + b);
  }
}
