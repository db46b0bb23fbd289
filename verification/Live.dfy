/** One browser tab's live connection: reference-counted topics over a socket that comes and goes. */
module Live {
  import opened ReplayLog
  import opened Options

  const RECONNECT_MIN_MS: nat := 500
  const RECONNECT_MAX_MS: nat := 10000

  /** What the tab tells the hub. */
  datatype Op = Events | Subscribe(key: string) | Unsubscribe(key: string) | Refresh(key: string)

  /** What the hub keeps for one connection. */
  datatype HubView = HubView(keys: set<string>, events: bool)

  function Serve(view: HubView, op: Op): (view': HubView) {
    match op
    case Events => view.(events := true)
    case Subscribe(key) => view.(keys := view.keys + {key})
    case Unsubscribe(key) => view.(keys := view.keys - {key})
    case Refresh(_) => view
  }

  /** The hub's view after the operations sent on a connection. */
  function ServeAll(ops: seq<Op>): (view: HubView) {
    if ops == [] then HubView({}, false) else Serve(ServeAll(ops[..|ops| - 1]), ops[|ops| - 1])
  }

  lemma NothingServed()
    ensures ServeAll([]) == HubView({}, false)
  {
  }

  lemma ServeOne(ops: seq<Op>, op: Op)
    ensures ServeAll(ops + [op]) == Serve(ServeAll(ops), op)
  {
    assert (ops + [op])[..|ops|] == ops;
  }

  datatype ReadyState = Connecting | Open | Closing

  datatype Subscription = Subscription(id: nat, replay: bool)

  datatype Resource = Resource(listeners: set<nat>, last: Option<string>)

  datatype Incoming =
    | ResourceMessage(key: string, value: string)
    | EventMessage(event: string, data: string, number: Option<int>)
    | ReplayMessage(epoch: string, items: seq<Item>)
    | ConnectionMessage(connected: bool)
    | Unreadable

  /** What a message does to the replay log. */
  function LogAfter(log: Log, msg: Incoming): (log': Log) {
    match msg
    case EventMessage(event, data, Some(number)) =>
      if event == "" then log else Take(log, Item(number, event, data))
    case ReplayMessage(epoch, items) => if epoch == "" then log else TakeReplay(log, epoch, items)
    case _ => log
  }

  /** What has been recorded in the log's epoch, after a message. */
  function TakenAfter(recorded: seq<Item>, log: Log, msg: Incoming): (recorded': seq<Item>) {
    match msg
    case EventMessage(event, data, Some(number)) =>
      if event == "" then recorded else Taken(recorded, log.lastSeq, Item(number, event, data))
    case ReplayMessage(epoch, items) =>
      if epoch == "" then recorded
      else TakenAll(if log.epoch == Some(epoch) then recorded else [], Reset(log, epoch), items)
    case _ => recorded
  }

  /** What has arrived: the numbered items recorded in this epoch, those of them that came live, and the events
      without a number. */
  datatype Arrivals = Arrivals(recorded: seq<Item>, live: seq<Item>, passed: seq<(string, string)>)

  /** What has been recorded is what the replay log takes. */
  lemma ArrivalsRecorded(a: Arrivals, log: Log, msg: Incoming)
    ensures ArrivalsAfter(a, log, msg).recorded == TakenAfter(a.recorded, log, msg)
  {
  }

  /** What an event subscriber was called with: the numbered items of this epoch, those of them it was caught up with
      when it came, the events without a number; and how much had arrived by then. */
  datatype Hearing = Hearing(
    heard: seq<Item>, caughtUp: seq<Item>, passing: seq<(string, string)>,
    joined: nat, joinedLive: nat, joinedPassed: nat)

  /** A subscriber that comes after `a`, caught up with `items`. */
  ghost function Joining(items: seq<Item>, a: Arrivals): (h: Hearing) {
    Hearing(items, items, [], |a.recorded|, |a.live|, |a.passed|)
  }

  /** A subscriber is given numbered items in order and never twice. One that asked for replay is given exactly what
      was kept when it came and all that was recorded since; one that did not, exactly what came live since. Both are
      given every event without a number. */
  ghost predicate Given(replay: bool, h: Hearing, a: Arrivals) {
    && Increasing(h.heard) && (forall x <- h.heard :: x in a.recorded)
    && (if replay
        then && h.joined <= |a.recorded| && IsReplay(h.caughtUp, a.recorded[..h.joined])
             && h.heard == h.caughtUp + a.recorded[h.joined..]
        else h.joinedLive <= |a.live| && h.heard == a.live[h.joinedLive..])
    && h.joinedPassed <= |a.passed| && h.passing == a.passed[h.joinedPassed..]
  }

  /** What has arrived after a message: a live item above the last number, the unseen ones of a replay, or an event
      without a number; a replay from another epoch starts the numbered ones over. */
  ghost function ArrivalsAfter(a: Arrivals, log: Log, msg: Incoming): (a': Arrivals) {
    match msg
    case EventMessage(event, data, Some(number)) =>
      if event == "" || number <= log.lastSeq then a else ArrivedLive(a, Item(number, event, data))
    case EventMessage(event, data, None) => if event == "" then a else a.(passed := a.passed + [(event, data)])
    case ReplayMessage(epoch, items) =>
      if epoch == "" then a
      else
        var start := if log.epoch == Some(epoch) then a else Arrivals([], [], a.passed);
        start.(recorded := TakenAll(start.recorded, Reset(log, epoch), items))
    case _ => a
  }

  ghost function ArrivedLive(a: Arrivals, x: Item): (a': Arrivals) {
    a.(recorded := a.recorded + [x], live := a.live + [x])
  }

  ghost function Arrived(a: Arrivals, x: Item, live: bool): (a': Arrivals) {
    if live then ArrivedLive(a, x) else a.(recorded := a.recorded + [x])
  }

  /** Calls the subscribers, or only those that asked for replay. */
  ghost function Hear(hearings: map<Subscription, Hearing>, x: Item, replayOnly: bool):
    (after: map<Subscription, Hearing>)
  {
    map s <- hearings ::
      if replayOnly && !s.replay then hearings[s] else hearings[s].(heard := hearings[s].heard + [x])
  }

  ghost function HearAll(hearings: map<Subscription, Hearing>, log: Log, items: seq<Item>):
    (after: map<Subscription, Hearing>)
    decreases |items|
  {
    if items == [] then hearings
    else
      var next := if items[0].number > log.lastSeq then Hear(hearings, items[0], true) else hearings;
      HearAll(next, Take(log, items[0]), items[1..])
  }

  /** Whom a message reaches: a live event everyone, a replayed one only those that asked for replay. */
  ghost function HearingsAfter(hearings: map<Subscription, Hearing>, log: Log, msg: Incoming):
    (after: map<Subscription, Hearing>)
  {
    match msg
    case EventMessage(event, data, Some(number)) =>
      if event == "" || number <= log.lastSeq then hearings else Hear(hearings, Item(number, event, data), false)
    case EventMessage(event, data, None) => if event == "" then hearings else Pass(hearings, event, data)
    case ReplayMessage(epoch, items) =>
      if epoch == "" then hearings
      else HearAll(if log.epoch == Some(epoch) then hearings else Silence(hearings), Reset(log, epoch), items)
    case _ => hearings
  }

  ghost function Silence(hearings: map<Subscription, Hearing>): (after: map<Subscription, Hearing>) {
    map s <- hearings :: hearings[s].(heard := [], caughtUp := [], joined := 0, joinedLive := 0)
  }

  ghost function Pass(hearings: map<Subscription, Hearing>, event: string, data: string):
    (after: map<Subscription, Hearing>)
  {
    map s <- hearings :: hearings[s].(passing := hearings[s].passing + [(event, data)])
  }

  // Calls to the listeners of topics and of the connection

  ghost function Past<K, V>(calls: map<K, seq<V>>, k: K): (past: seq<V>) {
    if k in calls then calls[k] else []
  }

  ghost function Latest<K, V>(calls: map<K, seq<V>>, k: K): (v: Option<V>) {
    if Past(calls, k) == [] then None else Some(Past(calls, k)[|Past(calls, k)| - 1])
  }

  /** Some listeners are called once more. */
  ghost function Call<K, V>(calls: map<K, seq<V>>, who: set<K>, v: V): (after: map<K, seq<V>>) {
    map k | k in calls.Keys + who :: if k in who then Past(calls, k) + [v] else calls[k]
  }

  lemma CallLatest<K, V>(calls: map<K, seq<V>>, who: set<K>, v: V)
    ensures forall k :: Latest(Call(calls, who, v), k) == if k in who then Some(v) else Latest(calls, k)
  {
  }

  ghost function Listeners(resources: map<string, Resource>, key: string): (who: set<(string, nat)>)
    requires key in resources
  {
    set fn <- resources[key].listeners :: (key, fn)
  }

  /** Every listener of a topic was last called with the topic's last value, if it has one. */
  ghost predicate Shows(resources: map<string, Resource>, shown: map<(string, nat), seq<string>>) {
    forall key <- resources ::
      resources[key].last.Some? ==>
        forall fn <- resources[key].listeners :: Latest(shown, (key, fn)) == resources[key].last
  }

  /** Every listener was last told the present state of the connection. */
  ghost predicate Tells(listeners: set<nat>, told: map<nat, seq<bool>>, connected: bool) {
    forall fn <- listeners :: Latest(told, fn) == Some(connected)
  }

  ghost function ShownAfter(resources: map<string, Resource>, shown: map<(string, nat), seq<string>>, msg: Incoming):
    (after: map<(string, nat), seq<string>>)
  {
    if msg.ResourceMessage? && msg.key != "" && msg.key in resources
    then Call(shown, Listeners(resources, msg.key), msg.value) else shown
  }

  /** Listeners are only told when the state changes. */
  ghost function ToldAfter(listeners: set<nat>, told: map<nat, seq<bool>>, was: bool, now: bool):
    (after: map<nat, seq<bool>>)
  {
    if was == now then told else Call(told, listeners, now)
  }

  lemma ShowsShown(resources: map<string, Resource>, shown: map<(string, nat), seq<string>>, key: string, value: string)
    requires Shows(resources, shown)
    ensures Shows(Shown(resources, key, value), ShownAfter(resources, shown, ResourceMessage(key, value)))
  {
    if key != "" && key in resources {
      CallLatest(shown, Listeners(resources, key), value);
      hide Latest, Call;
    }
  }

  /** A listener that comes late is called with the topic's last value. */
  lemma ShowsAdded(resources: map<string, Resource>, shown: map<(string, nat), seq<string>>, key: string,
                   current: Resource, fn: nat)
    requires Shows(resources, shown) && current == if key in resources then resources[key] else Resource({}, None)
    ensures Shows(resources[key := current.(listeners := current.listeners + {fn})],
                  if current.last.Some? then Call(shown, {(key, fn)}, current.last.value) else shown)
  {
    if current.last.Some? {
      CallLatest(shown, {(key, fn)}, current.last.value);
      hide Latest, Call;
    }
  }

  lemma ShowsSilent(resources: map<string, Resource>, shown: map<(string, nat), seq<string>>, key: string, r: Resource)
    requires Shows(resources, shown)
    requires r.last == if key in resources then resources[key].last else None
    requires r.last.Some? ==> r.listeners <= resources[key].listeners
    ensures Shows(resources[key := r], shown) && Shows(resources - {key}, shown)
  {
    hide Latest;
  }

  lemma TellsAdded(listeners: set<nat>, told: map<nat, seq<bool>>, connected: bool, fn: nat)
    requires Tells(listeners, told, connected)
    ensures Tells(listeners + {fn}, Call(told, {fn}, connected), connected)
  {
    CallLatest(told, {fn}, connected);
    hide Latest, Call;
  }

  lemma TellsAfter(listeners: set<nat>, told: map<nat, seq<bool>>, was: bool, now: bool)
    requires Tells(listeners, told, was)
    ensures Tells(listeners, ToldAfter(listeners, told, was, now), now)
  {
    CallLatest(told, listeners, now);
    hide Latest, Call;
  }

  class LiveSocket {
    const hasWindow: bool
    var socket: Option<ReadyState>
    var reconnectMs: nat
    var resources: map<string, Resource>
    var eventListeners: set<Subscription>
    var connectionListeners: set<nat>
    var replayBuffers: Buffers
    var replayEpoch: Option<string>
    var lastSeq: int
    var backendConnected: bool

    // What the tab's surroundings hold: scheduled reconnects and the operations sent on this connection
    var timers: nat
    var wire: seq<Op>

    // What has arrived, and the calls made to the listeners of events, of topics and of the connection
    ghost var arrivals: Arrivals
    ghost var hearings: map<Subscription, Hearing>
    ghost var shown: map<(string, nat), seq<string>>
    ghost var told: map<nat, seq<bool>>

    function CurrentLog(): (log: Log)
      reads `replayEpoch, `lastSeq, `replayBuffers
    {
      Log(replayEpoch, lastSeq, replayBuffers)
    }

    predicate HasSubscribers()
      reads `resources, `eventListeners, `connectionListeners
    {
      resources != map[] || eventListeners != {} || connectionListeners != {}
    }

    predicate WantsEvents()
      reads `eventListeners, `connectionListeners
    {
      eventListeners != {} || connectionListeners != {}
    }

    /** Nothing is sent before a connection is open; once it is, the hub serves exactly the topics the tab
        wants. */
    ghost predicate AgreesWithHub()
      reads `socket, `wire, `resources, `eventListeners, `connectionListeners
    {
      && (socket == Some(Connecting) ==> wire == [])
      && (socket == Some(Open) ==>
            ServeAll(wire).keys == resources.Keys && (WantsEvents() ==> ServeAll(wire).events))
    }

    /** As long as anyone is subscribed there is a socket, or one is about to be opened. */
    ghost predicate StaysConnected()
      reads `socket, `timers, `resources, `eventListeners, `connectionListeners
    {
      hasWindow && HasSubscribers() ==> socket.Some? || timers > 0
    }

    ghost predicate ServesSubscribers()
      reads `eventListeners, `arrivals, `hearings
    {
      hearings.Keys == eventListeners && forall s <- hearings :: Given(s.replay, hearings[s], arrivals)
    }

    ghost predicate Valid()
      reads this
    {
      && AgreesWithHub() && StaysConnected()
      && Holds(CurrentLog(), arrivals.recorded) && ServesSubscribers()
      && Shows(resources, shown) && Tells(connectionListeners, told, backendConnected)
      && (forall key <- resources :: resources[key].listeners != {})
      && RECONNECT_MIN_MS <= reconnectMs <= RECONNECT_MAX_MS
    }

    constructor (hasWindow: bool)
      ensures Valid() && this.hasWindow == hasWindow && CurrentLog() == FRESH && arrivals == Arrivals([], [], [])
    {
      this.hasWindow := hasWindow;
      socket, reconnectMs, timers, wire := None, RECONNECT_MIN_MS, 0, [];
      resources, eventListeners, connectionListeners := map[], {}, {};
      replayBuffers, replayEpoch, lastSeq := map[], None, 0;
      backendConnected := false;
      arrivals, hearings, shown, told := Arrivals([], [], []), map[], map[], map[];
    }

    // The socket

    method EnsureSocket()
      modifies this`socket, this`wire
      ensures hasWindow ==> socket.Some?
      ensures old(socket).Some? ==> socket == old(socket) && wire == old(wire)
      ensures old(socket).None? ==> socket != Some(Open) && (socket.Some? ==> wire == [])
    {
      if socket.Some? || !hasWindow {
        return;
      }
      socket, wire := Some(Connecting), [];
    }

    method SendOp(op: Op)
      modifies this`wire
      ensures socket == Some(Open) ==> wire == old(wire) + [op] && ServeAll(wire) == Serve(ServeAll(old(wire)), op)
      ensures socket != Some(Open) ==> wire == old(wire)
    {
      if socket == Some(Open) {
        ServeOne(wire, op);
        wire := wire + [op];
      }
    }

    /** The socket opened: tell the hub everything again. */
    method OnOpen()
      requires Valid() && socket == Some(Connecting)
      modifies this`socket, this`wire, this`reconnectMs
      ensures Valid() && socket == Some(Open) && reconnectMs == RECONNECT_MIN_MS
    {
      hide Holds, Given, ServeAll;
      NothingServed();
      socket := Some(Open);
      reconnectMs := RECONNECT_MIN_MS;
      if eventListeners != {} || connectionListeners != {} {
        SendOp(Events);
      }
      SendSubscriptions();
    }

    method SendSubscriptions()
      requires socket == Some(Open) && ServeAll(wire).keys == {}
      modifies this`wire
      ensures ServeAll(wire).keys == resources.Keys && ServeAll(wire).events == old(ServeAll(wire).events)
    {
      hide ServeAll;
      var left := resources.Keys;
      ghost var done: set<string> := {};
      while left != {}
        invariant done + left == resources.Keys
        invariant ServeAll(wire) == HubView(done, old(ServeAll(wire).events))
      {
        var key :| key in left;
        SendOp(Subscribe(key));
        left := left - {key};
        done := done + {key};
      }
    }

    /** The connection starts closing; operations are no longer sent. */
    method StartClosing()
      requires Valid() && socket == Some(Open)
      modifies this`socket
      ensures Valid() && socket == Some(Closing)
    {
      socket := Some(Closing);
    }

    method OnClose()
      requires Valid() && socket.Some?
      modifies this`socket, this`reconnectMs, this`timers, this`backendConnected, this`told
      ensures Valid() && socket.None? && !backendConnected
      ensures told == ToldAfter(connectionListeners, old(told), old(backendConnected), false)
      ensures reconnectMs == if 2 * old(reconnectMs) < RECONNECT_MAX_MS then 2 * old(reconnectMs) else RECONNECT_MAX_MS
      ensures timers == old(timers) + (if HasSubscribers() then 1 else 0)
    {
      hide Holds, Given, ServeAll, Shows, Tells;
      socket := None;
      SetBackendConnected(false);
      reconnectMs := if reconnectMs * 2 < RECONNECT_MAX_MS then reconnectMs * 2 else RECONNECT_MAX_MS;
      if HasSubscribers() {
        timers := timers + 1;
      }
    }

    method SetBackendConnected(value: bool)
      requires Tells(connectionListeners, told, backendConnected)
      modifies this`backendConnected, this`told
      ensures Tells(connectionListeners, told, backendConnected) && backendConnected == value
      ensures told == ToldAfter(connectionListeners, old(told), old(backendConnected), value)
    {
      hide Tells;
      TellsAfter(connectionListeners, told, backendConnected, value);
      if backendConnected == value {
        return;
      }
      backendConnected := value;
      told := Call(told, connectionListeners, value);
    }

    method OnTimer()
      requires Valid() && timers > 0
      modifies this`socket, this`wire, this`timers
      ensures Valid() && timers == old(timers) - 1 && (hasWindow ==> socket.Some?)
    {
      timers := timers - 1;
      EnsureSocket();
    }

    // Topics

    method SubscribeResource(key: string, fn: nat)
      requires Valid()
      modifies this`resources, this`socket, this`wire, this`shown
      ensures Valid() && key in resources && fn in resources[key].listeners
      ensures resources.Keys == old(resources).Keys + {key}
      ensures resources[key].listeners == (if key in old(resources) then old(resources)[key].listeners else {}) + {fn}
      ensures forall k <- old(resources) | k != key :: resources[k] == old(resources)[k]
      ensures shown == if key in old(resources) && old(resources)[key].last.Some?
                       then Call(old(shown), {(key, fn)}, old(resources)[key].last.value) else old(shown)
    {
      hide Holds, ServesSubscribers, AgreesWithHub, StaysConnected, Shows, Tells, Call;
      var state := if key in resources then resources[key] else Resource({}, None);
      ShowsAdded(resources, shown, key, state, fn);
      if state.last.Some? {
        shown := Call(shown, {(key, fn)}, state.last.value);
      }
      AddTopic(key, state.(listeners := state.listeners + {fn}));
    }

    /** Keeps a topic's state, telling the hub if the topic is new. */
    method AddTopic(key: string, state: Resource)
      requires AgreesWithHub() && StaysConnected()
      modifies this`resources, this`socket, this`wire
      ensures AgreesWithHub() && StaysConnected() && resources == old(resources)[key := state]
    {
      hide ServeAll;
      if key !in resources {
        SendOp(Subscribe(key));
      }
      resources := resources[key := state];
      EnsureSocket();
    }

    /** The function a subscriber was handed to leave with. */
    method UnsubscribeResource(key: string, fn: nat)
      requires Valid()
      modifies this`resources, this`wire
      ensures Valid()
      ensures key !in old(resources) ==> resources == old(resources)
      ensures key in old(resources) ==>
        var remaining := old(resources)[key].listeners - {fn};
        resources == if remaining == {} then old(resources) - {key}
                     else old(resources)[key := old(resources)[key].(listeners := remaining)]
    {
      hide Holds, Given, ServeAll, Shows, Tells;
      if key !in resources {
        return;
      }
      ShowsSilent(resources, shown, key, resources[key].(listeners := resources[key].listeners - {fn}));
      var current := resources[key].(listeners := resources[key].listeners - {fn});
      resources := resources[key := current];
      if current.listeners == {} {
        resources := resources - {key};
        assert resources == old(resources) - {key};
        SendOp(Unsubscribe(key));
      }
    }

    method RefreshResource(key: string)
      requires Valid()
      modifies this`wire
      ensures Valid()
    {
      SendOp(Refresh(key));
    }

    // Events

    method SubscribeEvents(id: nat, replay: bool) returns (items: seq<Item>)
      requires Valid() && Subscription(id, replay) !in eventListeners
      modifies this`eventListeners, this`socket, this`wire, this`hearings
      ensures Valid() && eventListeners == old(eventListeners) + {Subscription(id, replay)}
      ensures if replay then IsReplay(items, arrivals.recorded) else items == []
      ensures hearings == old(hearings)[Subscription(id, replay) := Joining(items, arrivals)]
    {
      hide Holds, IsReplay, Given, Shows, Tells, AgreesWithHub, StaysConnected;
      var sub := Subscription(id, replay);
      AddEventListener(sub);
      items := [];
      if replay {
        items := SortedItems(CurrentLog(), arrivals.recorded);
      }
      GivenFirst(replay, items, arrivals);
      hearings := hearings[sub := Joining(items, arrivals)];
    }

    method AddEventListener(sub: Subscription)
      requires AgreesWithHub() && StaysConnected()
      modifies this`eventListeners, this`socket, this`wire
      ensures AgreesWithHub() && StaysConnected() && eventListeners == old(eventListeners) + {sub}
    {
      hide ServeAll;
      var first := eventListeners == {} && connectionListeners == {};
      eventListeners := eventListeners + {sub};
      EnsureSocket();
      if first {
        SendOp(Events);
      }
    }

    method UnsubscribeEvents(sub: Subscription)
      requires Valid()
      modifies this`eventListeners, this`hearings
      ensures Valid() && eventListeners == old(eventListeners) - {sub}
      ensures hearings == old(hearings) - {sub}
    {
      hide Holds, ServeAll, Given;
      eventListeners := eventListeners - {sub};
      hearings := hearings - {sub};
    }

    // Messages

    method Receive(msg: Incoming)
      requires Valid()
      modifies this`resources, this`replayEpoch, this`lastSeq, this`replayBuffers, this`backendConnected,
               this`arrivals, this`hearings, this`shown, this`told
      ensures Valid() && CurrentLog() == LogAfter(old(CurrentLog()), msg)
      ensures hearings == HearingsAfter(old(hearings), old(CurrentLog()), msg)
      ensures resources == match msg
                           case ResourceMessage(key, value) => Shown(old(resources), key, value)
                           case _ => old(resources)
      ensures backendConnected == if msg.ConnectionMessage? then msg.connected else old(backendConnected)
      ensures arrivals == ArrivalsAfter(old(arrivals), old(CurrentLog()), msg)
      // Whom an event reaches, written out
      ensures msg.EventMessage? && msg.event != "" && msg.number.Some? && msg.number.value > old(lastSeq) ==>
        forall s <- eventListeners ::
          hearings[s].heard == old(hearings)[s].heard + [Item(msg.number.value, msg.event, msg.data)]
      ensures msg.EventMessage? && msg.event != "" && msg.number.None? ==>
        forall s <- eventListeners :: hearings[s].passing == old(hearings)[s].passing + [(msg.event, msg.data)]
      ensures msg.ReplayMessage? && msg.epoch != "" && old(replayEpoch) == Some(msg.epoch) ==>
        forall s <- eventListeners :: !s.replay ==> hearings[s].heard == old(hearings)[s].heard
      ensures shown == ShownAfter(old(resources), old(shown), msg)
      ensures told == if msg.ConnectionMessage?
                      then ToldAfter(connectionListeners, old(told), old(backendConnected), msg.connected)
                      else old(told)
    {
      hide Holds, ServesSubscribers, AgreesWithHub, StaysConnected, TakeAll, TakenAll, HearAll, Hear, Silence, Pass,
        Shows, Tells, Call, ToldAfter;
      match msg
      case ResourceMessage(key, value) =>
        ShowResource(key, value);
      case EventMessage(event, data, Some(number)) =>
        if event != "" && number > lastSeq {
          RecordItem(Item(number, event, data), true);
        }
      case ReplayMessage(epoch, items) =>
        if epoch != "" {
          ReceiveReplay(epoch, items);
        }
      case EventMessage(event, data, None) =>
        if event != "" {
          PassOn(event, data);
        }
      case ConnectionMessage(connected) =>
        SetBackendConnected(connected);
      case _ =>
    }

    /** Passes on an event that has no number. */
    method PassOn(event: string, data: string)
      requires ServesSubscribers()
      modifies this`arrivals, this`hearings
      ensures ServesSubscribers() && hearings == Pass(old(hearings), event, data)
      ensures arrivals == old(arrivals).(passed := old(arrivals).passed + [(event, data)])
      ensures forall s <- eventListeners :: hearings[s].passing == old(hearings)[s].passing + [(event, data)]
    {
      hide Given;
      AllGivenPassing(hearings, arrivals, event, data);
      hearings := Pass(hearings, event, data);
      arrivals := arrivals.(passed := arrivals.passed + [(event, data)]);
    }

    method ShowResource(key: string, value: string)
      requires Valid()
      modifies this`resources, this`shown
      ensures Valid() && resources == Shown(old(resources), key, value) && resources.Keys == old(resources).Keys
      ensures key != "" && key in resources ==> resources[key].last == Some(value)
      ensures shown == ShownAfter(old(resources), old(shown), ResourceMessage(key, value))
    {
      hide Holds, Given, ServeAll, Shows, Tells, Call;
      ShowsShown(resources, shown, key, value);
      if key != "" && key in resources {
        shown := Call(shown, Listeners(resources, key), value);
        resources := resources[key := resources[key].(last := Some(value))];
      }
    }

    /** Records an item and passes it on. */
    method RecordItem(item: Item, live: bool)
      requires Holds(CurrentLog(), arrivals.recorded) && ServesSubscribers() && item.number > lastSeq
      modifies this`lastSeq, this`replayBuffers, this`arrivals, this`hearings
      ensures Holds(CurrentLog(), arrivals.recorded) && ServesSubscribers()
      ensures CurrentLog() == Take(old(CurrentLog()), item) && arrivals == Arrived(old(arrivals), item, live)
      ensures hearings == Hear(old(hearings), item, !live)
      ensures forall s <- eventListeners ::
        hearings[s].heard == if live || s.replay then old(hearings)[s].heard + [item] else old(hearings)[s].heard
    {
      hide Holds, Given;
      TakeHolds(CurrentLog(), arrivals.recorded, item);
      AllGivenMore(hearings, CurrentLog(), arrivals, item, live);
      lastSeq := item.number;
      var buffer := if item.event in replayBuffers then replayBuffers[item.event] else [];
      buffer := buffer + [item];
      if |buffer| > DEPTH {
        buffer := buffer[1..];
      }
      replayBuffers := replayBuffers[item.event := buffer];
      arrivals := Arrived(arrivals, item, live);
      hearings := Hear(hearings, item, !live);
    }

    /** A replay from another epoch starts over; then its unseen items are recorded and passed on to those that asked
        for replay. */
    method ReceiveReplay(epoch: string, items: seq<Item>)
      requires Holds(CurrentLog(), arrivals.recorded) && ServesSubscribers() && epoch != ""
      modifies this`replayEpoch, this`lastSeq, this`replayBuffers, this`arrivals, this`hearings
      ensures Holds(CurrentLog(), arrivals.recorded) && ServesSubscribers()
      ensures CurrentLog() == LogAfter(old(CurrentLog()), ReplayMessage(epoch, items))
      ensures arrivals == ArrivalsAfter(old(arrivals), old(CurrentLog()), ReplayMessage(epoch, items))
      ensures hearings == HearingsAfter(old(hearings), old(CurrentLog()), ReplayMessage(epoch, items))
      ensures old(replayEpoch) == Some(epoch) ==>
        forall s <- eventListeners :: !s.replay ==> hearings[s].heard == old(hearings)[s].heard
    {
      hide Holds, Given, TakeAll, TakenAll, HearAll, Silence;
      StartEpoch(epoch);
      TakeItems(items);
    }

    method StartEpoch(epoch: string)
      requires Holds(CurrentLog(), arrivals.recorded) && ServesSubscribers()
      modifies this`replayEpoch, this`lastSeq, this`replayBuffers, this`arrivals, this`hearings
      ensures Holds(CurrentLog(), arrivals.recorded) && ServesSubscribers()
      ensures CurrentLog() == Reset(old(CurrentLog()), epoch)
      ensures arrivals ==
        if old(replayEpoch) == Some(epoch) then old(arrivals) else Arrivals([], [], old(arrivals).passed)
      ensures hearings == if old(replayEpoch) == Some(epoch) then old(hearings) else Silence(old(hearings))
    {
      hide Given, Holds;
      if replayEpoch != Some(epoch) {
        NothingHeld(Some(epoch));
        AllGivenNothing(hearings, arrivals);
        replayEpoch, replayBuffers, lastSeq := Some(epoch), map[], 0;
        arrivals, hearings := Arrivals([], [], arrivals.passed), Silence(hearings);
      }
    }

    method TakeItems(items: seq<Item>)
      requires Holds(CurrentLog(), arrivals.recorded) && ServesSubscribers()
      modifies this`lastSeq, this`replayBuffers, this`arrivals, this`hearings
      ensures Holds(CurrentLog(), arrivals.recorded) && ServesSubscribers()
      ensures CurrentLog() == TakeAll(old(CurrentLog()), items)
      ensures arrivals == old(arrivals).(recorded := TakenAll(old(arrivals).recorded, old(CurrentLog()), items))
      ensures hearings.Keys == old(hearings).Keys
      ensures forall s <- hearings :: !s.replay ==> hearings[s] == old(hearings)[s]
      ensures hearings == HearAll(old(hearings), old(CurrentLog()), items)
    {
      hide Holds, Given;
      for i := 0 to |items|
        invariant Holds(CurrentLog(), arrivals.recorded) && ServesSubscribers()
        invariant TakenAll(arrivals.recorded, CurrentLog(), items[i..])
               == TakenAll(old(arrivals).recorded, old(CurrentLog()), items)
        invariant arrivals == old(arrivals).(recorded := arrivals.recorded)
        invariant hearings.Keys == old(hearings).Keys
        invariant forall s <- hearings :: !s.replay ==> hearings[s] == old(hearings)[s]
        invariant TakeAll(CurrentLog(), items[i..]) == TakeAll(old(CurrentLog()), items)
        invariant HearAll(hearings, CurrentLog(), items[i..]) == HearAll(old(hearings), old(CurrentLog()), items)
      {
        assert items[i..][0] == items[i] && items[i..][1..] == items[i + 1..];
        if items[i].number > lastSeq {
          RecordItem(items[i], false);
        }
      }
    }

    method OnConnection(fn: nat) returns (connected: bool)
      requires Valid()
      modifies this`connectionListeners, this`socket, this`wire, this`told
      ensures Valid() && connectionListeners == old(connectionListeners) + {fn} && connected == backendConnected
      ensures told == Call(old(told), {fn}, backendConnected)
    {
      hide Holds, ServeAll, Given, Shows, Tells, Call;
      var first := eventListeners == {} && connectionListeners == {};
      connectionListeners := connectionListeners + {fn};
      EnsureSocket();
      if first {
        SendOp(Events);
      }
      connected := backendConnected;
      TellsAdded(old(connectionListeners), told, connected, fn);
      told := Call(told, {fn}, connected);
    }

    method OffConnection(fn: nat)
      requires Valid()
      modifies this`connectionListeners
      ensures Valid() && connectionListeners == old(connectionListeners) - {fn}
    {
      connectionListeners := connectionListeners - {fn};
    }
  }

  /** The value a topic shows: the latest one received while anyone is subscribed to it. */
  function Shown(resources: map<string, Resource>, key: string, value: string): (after: map<string, Resource>) {
    if key != "" && key in resources then resources[key := resources[key].(last := Some(value))] else resources
  }

  lemma AllGivenMore(hearings: map<Subscription, Hearing>, log: Log, a: Arrivals, x: Item, live: bool)
    requires Holds(log, a.recorded) && x.number > log.lastSeq
    requires forall s <- hearings :: Given(s.replay, hearings[s], a)
    ensures var after := Hear(hearings, x, !live);
            forall s <- after :: Given(s.replay, after[s], Arrived(a, x, live))
  {
    forall y <- a.recorded ensures y.number < x.number {
      var k := Position(a.recorded, y);
    }
    hide Holds, Given;
    forall s <- hearings
      ensures Given(s.replay, Hear(hearings, x, !live)[s], Arrived(a, x, live))
    {
      if !live && !s.replay {
        GivenSkipped(hearings[s], a, x);
      } else {
        GivenMore(s.replay, hearings[s], a, x, live);
      }
    }
  }

  lemma GivenMore(replay: bool, h: Hearing, a: Arrivals, x: Item, live: bool)
    requires Given(replay, h, a) && (live || replay) && forall y <- a.recorded :: y.number < x.number
    ensures Given(replay, h.(heard := h.heard + [x]), Arrived(a, x, live))
  {
    hide IsReplay;
    var heard := h.heard + [x];
    assert Increasing(heard) by {
      assert forall i | 0 <= i < |h.heard| :: heard[i] == h.heard[i] && h.heard[i] in a.recorded;
    }
    if replay {
      assert (a.recorded + [x])[..h.joined] == a.recorded[..h.joined];
      assert (a.recorded + [x])[h.joined..] == a.recorded[h.joined..] + [x];
      assert heard == h.caughtUp + (a.recorded + [x])[h.joined..];
    } else {
      assert (a.live + [x])[h.joinedLive..] == a.live[h.joinedLive..] + [x];
    }
  }

  lemma GivenSkipped(h: Hearing, a: Arrivals, x: Item)
    requires Given(false, h, a)
    ensures Given(false, h, Arrived(a, x, false))
  {
  }

  lemma AllGivenNothing(hearings: map<Subscription, Hearing>, a: Arrivals)
    requires forall s <- hearings :: Given(s.replay, hearings[s], a)
    ensures forall s <- Silence(hearings) :: Given(s.replay, Silence(hearings)[s], Arrivals([], [], a.passed))
  {
    NothingReplayed();
    hide IsReplay;
  }

  lemma NothingReplayed()
    ensures IsReplay([], [])
  {
  }

  lemma AllGivenPassing(hearings: map<Subscription, Hearing>, a: Arrivals, event: string, data: string)
    requires forall s <- hearings :: Given(s.replay, hearings[s], a)
    ensures Pass(hearings, event, data).Keys == hearings.Keys
    ensures var after, a' := Pass(hearings, event, data), a.(passed := a.passed + [(event, data)]);
            forall s <- after :: Given(s.replay, after[s], a')
  {
    hide IsReplay;
    forall s <- hearings
      ensures Given(s.replay, Pass(hearings, event, data)[s], a.(passed := a.passed + [(event, data)]))
    {
      var n := hearings[s].joinedPassed;
      assert (a.passed + [(event, data)])[n..] == a.passed[n..] + [(event, data)];
    }
  }

  lemma GivenFirst(replay: bool, items: seq<Item>, a: Arrivals)
    requires if replay then IsReplay(items, a.recorded) else items == []
    ensures Given(replay, Joining(items, a), a)
  {
    if replay {
      ReplayWasRecorded(items, a.recorded);
    }
    assert a.recorded[..|a.recorded|] == a.recorded && items + a.recorded[|a.recorded|..] == items;
  }

  lemma ReplayWasRecorded(items: seq<Item>, recorded: seq<Item>)
    requires IsReplay(items, recorded)
    ensures forall x <- items :: x in recorded
  {
    hide OfEvent, Recent;
    forall x <- items ensures x in recorded {
      OfEventSound(recorded, x.event);
      RecentSound(OfEvent(recorded, x.event));
    }
  }
}
