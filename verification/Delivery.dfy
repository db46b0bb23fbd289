/**
 The hub and one browser tab, joined by connections that deliver in order but may break at any point, and
 with hubs that are replaced by others.
 */
module Delivery {
  import opened ReplayLog
  import opened Live
  import opened Hub
  import opened Options

  /** Whether the hub feeds a connection: it has not been asked, it does, or it no longer knows it. */
  datatype Serving = Idle | Served | Gone

  /** A connection to the hub of an epoch, with the messages still in flight. */
  datatype Link = Link(epoch: string, serving: Serving, queue: seq<Incoming>)

  datatype World = World(
    epoch: string, hub: Log, history: seq<Item>,
    link: Option<Link>, tab: Log, taken: seq<Item>,
    since: nat)

  datatype Action =
    | Publish(name: string, data: string)
    | Push(msg: Incoming)
    | Connect
    | AskEvents(connected: bool)
    | Deliver
    | HangUp
    | Lose
    | Restart(epoch: string)

  function Start(epoch: string): (w: World) {
    World(epoch, Log(Some(epoch), 0, map[]), [], None, FRESH, [], 0)
  }

  function Enqueue(link: Option<Link>, msgs: seq<Incoming>): (link': Option<Link>) {
    if link.Some? then Some(link.value.(queue := link.value.queue + msgs)) else None
  }

  predicate ServedBy(link: Option<Link>) {
    link.Some? && link.value.serving.Served?
  }

  predicate Attached(link: Option<Link>) {
    link.Some? && !link.value.serving.Gone?
  }

  function Abandon(link: Option<Link>): (link': Option<Link>) {
    if link.Some? then Some(link.value.(serving := Gone)) else None
  }

  function StepPublish(w: World, name: string, data: string): (w': World) {
    w.(hub := LogPublished(w.hub, name, data),
       history := Published(w.history, w.hub, name, data),
       link := if ServedBy(w.link) then Enqueue(w.link, [Publication(w.hub, name, data)]) else w.link)
  }

  function StepAsk(w: World, connected: bool): (w': World) {
    if !Attached(w.link) then w
    else if ServedBy(w.link) then w.(link := Enqueue(w.link, [ConnectionMessage(connected)]))
    else
      var link := w.link.value.(serving := Served);
      w.(link := Enqueue(Some(link), [ConnectionMessage(connected)] + Batches(w.epoch, Replayed(w.history))),
         since := |w.history|)
  }

  function StepDeliver(w: World): (w': World) {
    if w.link.None? || w.link.value.queue == [] then w
    else
      var msg, rest := w.link.value.queue[0], w.link.value.queue[1..];
      w.(link := Some(w.link.value.(queue := rest)),
         tab := LogAfter(w.tab, msg),
         taken := TakenAfter(w.taken, w.tab, msg))
  }

  function Step(w: World, a: Action): (w': World) {
    match a
    case Publish(name, data) => StepPublish(w, name, data)
    case Push(msg) =>
      if Attached(w.link) && (msg.ResourceMessage? || msg.ConnectionMessage?) then w.(link := Enqueue(w.link, [msg]))
      else w
    case Connect => w.(link := Some(Link(w.epoch, Idle, [])), since := |w.history|)
    case AskEvents(connected) => StepAsk(w, connected)
    case Deliver => StepDeliver(w)
    case HangUp => w.(link := Abandon(w.link))
    case Lose => w.(link := None)
    case Restart(epoch) =>
      World(epoch, Log(Some(epoch), 0, map[]), [], Abandon(w.link), w.tab, w.taken, 0)
  }

  function Run(w: World, actions: seq<Action>): (w': World) {
    if actions == [] then w else Step(Run(w, actions[..|actions| - 1]), actions[|actions| - 1])
  }

  // Items in flight

  function ItemsIn(msg: Incoming): (items: seq<Item>) {
    match msg
    case EventMessage(event, data, Some(number)) => [Item(number, event, data)]
    case ReplayMessage(_, items) => items
    case _ => []
  }

  function ItemsOf(msgs: seq<Incoming>): (items: seq<Item>) {
    if msgs == [] then [] else ItemsIn(msgs[0]) + ItemsOf(msgs[1..])
  }

  /** A new hub's epoch does no harm unless the tab has items of that epoch, or will have them from a
      connection to an earlier hub. */
  predicate Harmless(w: World, epoch: string) {
    && epoch != "" && (w.tab.epoch == Some(epoch) ==> w.tab.lastSeq == 0)
    && (w.link.Some? && w.link.value.epoch == epoch ==> ItemsOf(w.link.value.queue) == [])
  }

  predicate Allowed(w: World, a: Action) {
    a.Restart? ==> Harmless(w, a.epoch)
  }

  /** Every hub that takes over in the run does so under a harmless epoch. */
  predicate HarmlessEpochs(w: World, actions: seq<Action>) {
    actions != [] ==>
      && HarmlessEpochs(w, actions[..|actions| - 1])
      && Allowed(Run(w, actions[..|actions| - 1]), actions[|actions| - 1])
  }

  lemma {:induction false} ItemsOfAppend(a: seq<Incoming>, b: seq<Incoming>)
    ensures ItemsOf(a + b) == ItemsOf(a) + ItemsOf(b)
  {
    if a == [] {
      assert a + b == b;
    } else {
      assert (a + b)[0] == a[0] && (a + b)[1..] == a[1..] + b;
      ItemsOfAppend(a[1..], b);
    }
  }

  lemma ItemsOfOne(msg: Incoming)
    ensures ItemsOf([msg]) == ItemsIn(msg)
  {
    assert [msg][1..] == [] && ItemsIn(msg) + [] == ItemsIn(msg);
  }

  lemma {:induction false} BatchesCarry(epoch: string, items: seq<Item>)
    ensures ItemsOf(Batches(epoch, items)) == items
    ensures forall m <- Batches(epoch, items) :: m.ReplayMessage? && m.epoch == epoch
    ensures Batches(epoch, items) != [] && Batches(epoch, items)[0].ReplayMessage?
    decreases |items|
  {
    if |items| <= REPLAY_BATCH {
      ItemsOfOne(ReplayMessage(epoch, items));
    } else {
      BatchesCarry(epoch, items[REPLAY_BATCH..]);
      ItemsOfOne(ReplayMessage(epoch, items[..REPLAY_BATCH]));
      ItemsOfAppend([ReplayMessage(epoch, items[..REPLAY_BATCH])], Batches(epoch, items[REPLAY_BATCH..]));
      assert items == items[..REPLAY_BATCH] + items[REPLAY_BATCH..];
    }
  }

  /** No numbered item comes before the first replay message. */
  predicate Announced(queue: seq<Incoming>) {
    queue == [] || queue[0].ReplayMessage? || (ItemsIn(queue[0]) == [] && Announced(queue[1..]))
  }

  predicate HasReplay(queue: seq<Incoming>) {
    exists m <- queue :: m.ReplayMessage?
  }

  lemma {:induction false} AnnouncedAppend(a: seq<Incoming>, b: seq<Incoming>)
    requires Announced(a) && (HasReplay(a) || Announced(b))
    ensures Announced(a + b)
  {
    if a == [] {
      assert a + b == b;
    } else if !a[0].ReplayMessage? {
      assert (a + b)[0] == a[0] && (a + b)[1..] == a[1..] + b;
      if HasReplay(a) {
        assert a == [a[0]] + a[1..];
      }
      AnnouncedAppend(a[1..], b);
    }
  }

  // Following the hub

  /** What a connection made when `since` events had been published owes the tab: what was retained then and
      everything published later. */
  predicate Due(history: seq<Item>, since: nat, x: Item)
    requires since <= |history|
  {
    x in history && (x.number > since || Retained(history[..since], x))
  }

  ghost predicate Covers(lastSeq: int, taken: seq<Item>, history: seq<Item>, since: nat, pending: seq<Item>,
                         served: bool)
    requires since <= |history|
  {
    forall x :: Due(history, since, x) ==> Covered(lastSeq, taken, pending, served, x)
  }

  predicate Covered(lastSeq: int, taken: seq<Item>, pending: seq<Item>, served: bool, x: Item) {
    if x.number <= lastSeq then x in taken
    else served || (pending != [] && x.number <= pending[|pending| - 1].number) ==> x in pending
  }

  /** The tab has what it is owed up to its last number, and the rest is on its way. */
  ghost predicate Tracks(tab: Log, taken: seq<Item>, history: seq<Item>, since: nat, pending: seq<Item>, served: bool) {
    && Holds(tab, taken) && (forall x <- taken :: x in history)
    && Increasing(pending) && (forall x <- pending :: x in history)
    && since <= |history| && Covers(tab.lastSeq, taken, history, since, pending, served)
  }

  lemma TakeCovered(lastSeq: int, taken: seq<Item>, q: Item, rest: seq<Item>, served: bool, x: Item)
    requires Increasing([q] + rest) && Covered(lastSeq, taken, [q] + rest, served, x)
    ensures Covered(if q.number <= lastSeq then lastSeq else q.number, Taken(taken, lastSeq, q), rest, served, x)
  {
    AfterFirst(q, rest);
    var pending := [q] + rest;
    assert rest != [] ==> rest[|rest| - 1] == pending[|pending| - 1];
    assert x in pending <==> x == q || x in rest;
  }

  lemma AfterFirst(q: Item, rest: seq<Item>)
    requires Increasing([q] + rest)
    ensures Increasing(rest) && forall y <- rest :: q.number < y.number
  {
    var all := [q] + rest;
    assert forall i | 0 <= i < |rest| :: rest[i] == all[i + 1];
    forall y <- rest ensures q.number < y.number {
      var k := Position(rest, y);
      assert all[0].number < all[k + 1].number;
    }
  }

  lemma TakeTracks(tab: Log, taken: seq<Item>, history: seq<Item>, since: nat, q: Item, rest: seq<Item>, served: bool)
    requires Tracks(tab, taken, history, since, [q] + rest, served)
    ensures Tracks(Take(tab, q), Taken(taken, tab.lastSeq, q), history, since, rest, served)
  {
    hide Holds, Due, Covered;
    TakeHolds(tab, taken, q);
    var pending := [q] + rest;
    assert q == pending[0];
    forall x | Due(history, since, x)
      ensures Covered(Take(tab, q).lastSeq, Taken(taken, tab.lastSeq, q), rest, served, x)
    {
      TakeCovered(tab.lastSeq, taken, q, rest, served, x);
    }
    AfterFirst(q, rest);
    assert forall x <- rest :: x in pending;
  }

  lemma {:induction false} TakeAllTracks(tab: Log, taken: seq<Item>, history: seq<Item>, since: nat, items: seq<Item>,
                                         rest: seq<Item>, served: bool)
    requires Tracks(tab, taken, history, since, items + rest, served)
    ensures Tracks(TakeAll(tab, items), TakenAll(taken, tab, items), history, since, rest, served)
    decreases |items|
  {
    hide Tracks;
    if items == [] {
      assert items + rest == rest;
    } else {
      assert items + rest == [items[0]] + (items[1..] + rest);
      TakeTracks(tab, taken, history, since, items[0], items[1..] + rest, served);
      TakeAllTracks(Take(tab, items[0]), Taken(taken, tab.lastSeq, items[0]), history, since, items[1..], rest, served);
    }
  }

  lemma {:induction false} TakeAllEpoch(log: Log, items: seq<Item>)
    ensures TakeAll(log, items).epoch == log.epoch
    decreases |items|
  {
    if items != [] {
      TakeAllEpoch(Take(log, items[0]), items[1..]);
    }
  }

  // Retention

  lemma {:induction false} RetainedEarlier(history: seq<Item>, since: nat, x: Item)
    requires Increasing(history) && Retained(history, x) && since <= |history| && x in history[..since]
    ensures Retained(history[..since], x)
    decreases |history|
  {
    hide Retained;
    if since == |history| {
      assert history[..since] == history;
    } else {
      var front, last := history[..|history| - 1], history[|history| - 1];
      assert history == front + [last] && front[..since] == history[..since];
      var k := Position(history[..since], x);
      assert history[k] == x && x != last;
      RetainedBefore(front, last, x);
      RetainedEarlier(front, since, x);
    }
  }

  lemma RetainedBefore(front: seq<Item>, last: Item, x: Item)
    requires Retained(front + [last], x) && x != last
    ensures Retained(front, x)
  {
    hide OfEvent;
    OfEventAppend(front, last, x.event);
    if last.event == x.event {
      RecentShift(OfEvent(front, x.event), last, x);
    }
  }

  lemma RecentShift(s: seq<Item>, last: Item, x: Item)
    requires x in Recent(s + [last]) && x != last
    ensures x in Recent(s)
  {
  }

  /** The numbers a hub gives are 1, 2, 3, ... */
  ghost predicate Numbered(history: seq<Item>) {
    forall i | 0 <= i < |history| :: history[i].number == i + 1
  }

  lemma NumberedIn(history: seq<Item>, x: Item)
    requires Numbered(history) && x in history
    ensures 1 <= x.number <= |history| && history[x.number - 1] == x
  {
    var k := Position(history, x);
  }

  /** What is still retained was owed all along. */
  lemma RetainedDue(history: seq<Item>, since: nat, x: Item)
    requires Numbered(history) && since <= |history| && Retained(history, x)
    ensures Due(history, since, x)
  {
    hide Retained;
    RetainedRecorded(history, x);
    NumberedIn(history, x);
    if x.number <= since {
      assert history[..since][x.number - 1] == x;
      RetainedEarlier(history, since, x);
    }
  }

  lemma DueNow(history: seq<Item>, since: nat, x: Item)
    requires Numbered(history) && since <= |history| && Due(history, |history|, x)
    ensures Due(history, since, x) && Retained(history, x)
  {
    hide Retained;
    NumberedIn(history, x);
    assert history[..|history|] == history;
    RetainedDue(history, since, x);
  }

  // Steps that change what is owed

  lemma PublishTracks(tab: Log, taken: seq<Item>, history: seq<Item>, since: nat, pending: seq<Item>, served: bool,
                      x: Item)
    requires Tracks(tab, taken, history, since, pending, served) && Numbered(history) && x.number == |history| + 1
    ensures Tracks(tab, taken, history + [x], since, if served then pending + [x] else pending, served)
  {
    hide Holds, Retained;
    var history', pending' := history + [x], if served then pending + [x] else pending;
    assert history'[..since] == history[..since];
    forall y <- pending ensures y.number <= |history| {
      NumberedIn(history, y);
    }
    assert tab.lastSeq <= |history| by {
      LastTaken(tab, taken, history);
    }
    forall y | Due(history', since, y) ensures Covered(tab.lastSeq, taken, pending', served, y) {
      if y in history {
        assert Due(history, since, y);
        assert served && y in pending ==> y in pending';
      }
    }
  }

  lemma LastTaken(tab: Log, taken: seq<Item>, history: seq<Item>)
    requires Holds(tab, taken) && Numbered(history) && forall x <- taken :: x in history
    ensures tab.lastSeq <= |history|
    ensures forall x <- taken :: x.number <= tab.lastSeq
  {
    if taken != [] {
      assert taken[|taken| - 1] in taken;
      NumberedIn(history, taken[|taken| - 1]);
      forall x <- taken ensures x.number <= tab.lastSeq {
        var k := Position(taken, x);
      }
    }
  }

  /** A new connection owes what is retained now; asking for events puts that on its way. */
  lemma AskTracks(tab: Log, taken: seq<Item>, history: seq<Item>, since: nat)
    requires Tracks(tab, taken, history, since, [], false) && Numbered(history)
    ensures Tracks(tab, taken, history, |history|, [], false)
    ensures Tracks(tab, taken, history, |history|, Replayed(history), true)
    ensures forall x <- Replayed(history) :: x.number > 0
  {
    hide Holds, Due, Retained, Replayed;
    ReplayedIsReplay(history);
    forall x <- Replayed(history) ensures x in history && x.number > 0 {
      RetainedRecorded(history, x);
      NumberedIn(history, x);
    }
    forall x | Due(history, |history|, x)
      ensures Covered(tab.lastSeq, taken, [], false, x) && Covered(tab.lastSeq, taken, Replayed(history), true, x)
    {
      DueNow(history, since, x);
      assert x in Replayed(history);
    }
  }

  // Every reachable world

  function BaseTaken(w: World): (taken: seq<Item>) {
    if w.tab.epoch == Some(w.epoch) then w.taken else []
  }

  /** The items on their way from the present hub. */
  function InFlight(w: World): (pending: seq<Item>) {
    if w.link.Some? && w.link.value.epoch == w.epoch then ItemsOf(w.link.value.queue) else []
  }

  predicate GoodMessage(epoch: string, msg: Incoming) {
    && (msg.ReplayMessage? ==> msg.epoch == epoch)
    && (msg.EventMessage? && msg.number.Some? ==> msg.event != "")
    && (forall x <- ItemsIn(msg) :: x.number > 0)
  }

  ghost predicate LinkInv(w: World, link: Link) {
    && link.epoch != "" && (forall m <- link.queue :: GoodMessage(link.epoch, m))
    && (link.serving.Idle? ==> ItemsOf(link.queue) == [])
    && (!link.serving.Gone? ==> link.epoch == w.epoch)
    && (w.tab.epoch != Some(link.epoch) ==>
          Announced(link.queue) && (link.serving.Served? ==> HasReplay(link.queue)))
  }

  ghost predicate HubInv(w: World) {
    && w.hub.epoch == Some(w.epoch) && w.epoch != ""
    && Holds(w.hub, w.history) && Numbered(w.history) && w.hub.lastSeq == |w.history|
  }

  ghost predicate TabInv(w: World) {
    && Holds(w.tab, w.taken)
    && Tracks(Reset(w.tab, w.epoch), BaseTaken(w), w.history, w.since, InFlight(w), ServedBy(w.link))
  }

  ghost predicate WorldInv(w: World) {
    HubInv(w) && TabInv(w) && (w.link.Some? ==> LinkInv(w, w.link.value))
  }

  lemma StartInv(epoch: string)
    requires epoch != ""
    ensures WorldInv(Start(epoch))
  {
    NothingHeld(None);
    NothingHeld(Some(epoch));
  }

  // Changes of the connection alone

  lemma LoseInv(w: World)
    requires WorldInv(w)
    ensures WorldInv(Step(w, Lose))
  {
    hide Holds, Due, Retained;
  }

  lemma HangUpInv(w: World)
    requires WorldInv(w)
    ensures WorldInv(Step(w, HangUp))
  {
    hide Holds, Due, Retained, Announced, HasReplay, ItemsOf;
  }

  lemma ConnectInv(w: World)
    requires WorldInv(w)
    ensures WorldInv(Step(w, Connect))
  {
    LoseInv(w);
    hide Holds, Due, Retained, Tracks;
    AskTracks(Reset(w.tab, w.epoch), BaseTaken(w), w.history, w.since);
  }

  lemma RestartInv(w: World, epoch: string)
    requires WorldInv(w) && Harmless(w, epoch)
    ensures WorldInv(Step(w, Restart(epoch)))
  {
    NothingHeld(Some(epoch));
    RestartTab(w, epoch);
    hide Holds, Tracks, TabInv, Announced, HasReplay, ItemsOf, GoodMessage;
  }

  lemma RestartTab(w: World, epoch: string)
    requires TabInv(w) && Harmless(w, epoch)
    ensures TabInv(Step(w, Restart(epoch)))
  {
    NothingTracked(epoch, [], 0);
    if w.tab.lastSeq == 0 {
      HoldsNothing(w.tab, w.taken);
    }
    hide Holds, Tracks, ItemsOf;
  }

  /** A tab that has nothing from the hub is owed nothing by connections to others. */
  lemma NothingTracked(epoch: string, history: seq<Item>, since: nat)
    requires since <= |history| && Numbered(history)
    ensures Tracks(Log(Some(epoch), 0, map[]), [], history, since, [], false)
  {
    NothingHeld(Some(epoch));
    hide Holds, Retained;
    forall x | Due(history, since, x) ensures Covered(0, [], [], false, x) {
      NumberedIn(history, x);
    }
  }

  /** A message without items changes nothing that is owed. */
  lemma QuietInv(w: World, msg: Incoming)
    requires WorldInv(w) && Attached(w.link) && ItemsIn(msg) == [] && !msg.ReplayMessage? && GoodMessage(w.epoch, msg)
    ensures WorldInv(w.(link := Enqueue(w.link, [msg])))
  {
    hide Holds, Tracks, ItemsOf, ItemsIn, Announced, HasReplay, GoodMessage;
    QuietQueue(w.link.value.queue, msg);
  }

  lemma QuietQueue(queue: seq<Incoming>, msg: Incoming)
    requires ItemsIn(msg) == []
    ensures ItemsOf(queue + [msg]) == ItemsOf(queue)
    ensures Announced(queue) ==> Announced(queue + [msg])
    ensures HasReplay(queue) ==> HasReplay(queue + [msg])
  {
    ItemsOfAppend(queue, [msg]);
    ItemsOfOne(msg);
    assert ItemsOf(queue) + [] == ItemsOf(queue);
    if Announced(queue) {
      assert Announced([msg]);
      AnnouncedAppend(queue, [msg]);
    }
    assert HasReplay(queue) ==> HasReplay(queue + [msg]);
  }

  lemma PublishInv(w: World, name: string, data: string)
    requires WorldInv(w)
    ensures WorldInv(Step(w, Publish(name, data)))
  {
    hide Holds, Tracks;
    if name in REPLAY_EVENTS {
      var x := Item(w.hub.lastSeq + 1, name, data);
      TakeHolds(w.hub, w.history, x);
      PublishTracks(Reset(w.tab, w.epoch), BaseTaken(w), w.history, w.since, InFlight(w), ServedBy(w.link), x);
      if ServedBy(w.link) {
        PublishLinkInv(w, x);
      }
    } else if ServedBy(w.link) {
      QuietInv(w, EventMessage(name, data, None));
    }
  }

  lemma PublishLinkInv(w: World, x: Item)
    requires ServedBy(w.link) && LinkInv(w, w.link.value) && x.event != "" && x.number > 0
    ensures var link := Enqueue(w.link, [EventMessage(x.event, x.data, Some(x.number))]);
            && LinkInv(w.(link := link), link.value)
            && ItemsOf(link.value.queue) == ItemsOf(w.link.value.queue) + [x]
  {
    var queue, msg := w.link.value.queue, EventMessage(x.event, x.data, Some(x.number));
    ItemsOfAppend(queue, [msg]);
    ItemsOfOne(msg);
    if w.tab.epoch != Some(w.epoch) {
      AnnouncedAppend(queue, [msg]);
      assert HasReplay(queue + [msg]);
    }
  }

  lemma AskInv(w: World, connected: bool)
    requires WorldInv(w)
    ensures WorldInv(Step(w, AskEvents(connected)))
  {
    hide Holds, Tracks, Replayed, Batches, ItemsOf, Announced, HasReplay;
    if Attached(w.link) {
      var msg := ConnectionMessage(connected);
      QuietInv(w, msg);
      if !ServedBy(w.link) {
        AskTracks(Reset(w.tab, w.epoch), BaseTaken(w), w.history, w.since);
        ReplayLinkInv(w.link.value.queue, msg, w.epoch, Replayed(w.history));
      }
    }
  }

  lemma {:induction false} BatchesGood(epoch: string, items: seq<Item>)
    requires forall x <- items :: x.number > 0
    ensures forall m <- Batches(epoch, items) :: GoodMessage(epoch, m)
    decreases |items|
  {
    if |items| > REPLAY_BATCH {
      BatchesGood(epoch, items[REPLAY_BATCH..]);
    }
  }

  lemma ReplayLinkInv(queue: seq<Incoming>, msg: Incoming, epoch: string, items: seq<Item>)
    requires ItemsOf(queue) == [] && ItemsIn(msg) == [] && (forall m <- queue :: GoodMessage(epoch, m))
    requires msg.ConnectionMessage? && forall x <- items :: x.number > 0
    ensures var queue' := queue + ([msg] + Batches(epoch, items));
            && ItemsOf(queue') == items && (forall m <- queue' :: GoodMessage(epoch, m))
            && (Announced(queue) ==> Announced(queue')) && HasReplay(queue')
  {
    hide Batches;
    var batches := Batches(epoch, items);
    BatchesCarry(epoch, items);
    BatchesGood(epoch, items);
    ItemsOfAppend([msg], batches);
    ItemsOfOne(msg);
    ItemsOfAppend(queue, [msg] + batches);
    assert [] + items == items;
    var queue' := queue + ([msg] + batches);
    assert batches[0] in queue';
    assert GoodMessage(epoch, msg);
    hide GoodMessage;
    if Announced(queue) {
      assert ([msg] + batches)[1..] == batches;
      AnnouncedAppend(queue, [msg] + batches);
    }
  }

  // Delivery

  lemma {:induction false} TakeAllHolds(log: Log, recorded: seq<Item>, items: seq<Item>)
    requires Holds(log, recorded)
    ensures Holds(TakeAll(log, items), TakenAll(recorded, log, items))
    decreases |items|
  {
    hide Holds;
    if items != [] {
      TakeHolds(log, recorded, items[0]);
      TakeAllHolds(Take(log, items[0]), Taken(recorded, log.lastSeq, items[0]), items[1..]);
    }
  }

  lemma MessageHolds(log: Log, recorded: seq<Item>, msg: Incoming)
    requires Holds(log, recorded)
    ensures Holds(LogAfter(log, msg), TakenAfter(recorded, log, msg))
    ensures LogAfter(log, msg).epoch == if msg.ReplayMessage? && msg.epoch != "" then Some(msg.epoch) else log.epoch
  {
    hide Holds, TakeAll, TakenAll;
    match msg
    case EventMessage(event, data, Some(number)) =>
      TakeHolds(log, recorded, Item(number, event, data));
    case ReplayMessage(epoch, items) =>
      NothingHeld(Some(epoch));
      TakeAllHolds(Reset(log, epoch), if log.epoch == Some(epoch) then recorded else [], items);
      TakeAllEpoch(Reset(log, epoch), items);
    case _ =>
  }

  /** A message from the present hub brings the tab forward by exactly its items. */
  lemma MessageTracks(tab: Log, taken: seq<Item>, epoch: string, history: seq<Item>, since: nat, msg: Incoming,
                      rest: seq<Item>, served: bool)
    requires epoch != "" && GoodMessage(epoch, msg)
    requires Tracks(Reset(tab, epoch), if tab.epoch == Some(epoch) then taken else [], history, since,
                    ItemsIn(msg) + rest, served)
    requires ItemsIn(msg) != [] && !msg.ReplayMessage? ==> tab.epoch == Some(epoch)
    ensures var tab' := LogAfter(tab, msg);
            Tracks(Reset(tab', epoch), if tab'.epoch == Some(epoch) then TakenAfter(taken, tab, msg) else [], history,
                   since, rest, served)
  {
    hide Tracks, TakeAll, TakenAll;
    var base := if tab.epoch == Some(epoch) then taken else [];
    match msg
    case EventMessage(event, data, Some(number)) =>
      TakeTracks(tab, taken, history, since, Item(number, event, data), rest, served);
    case ReplayMessage(_, items) =>
      TakeAllTracks(Reset(tab, epoch), base, history, since, items, rest, served);
      TakeAllEpoch(Reset(tab, epoch), items);
    case _ =>
      assert [] + rest == rest;
  }

  lemma DeliverTracks(w: World, queue: seq<Incoming>)
    requires TabInv(w) && w.epoch != "" && queue != [] && GoodMessage(w.epoch, queue[0])
    requires w.link.Some? && w.link.value.queue == queue && w.link.value.epoch == w.epoch
    requires w.tab.epoch != Some(w.epoch) ==> Announced(queue)
    ensures var w' := StepDeliver(w);
            Tracks(Reset(w'.tab, w'.epoch), BaseTaken(w'), w'.history, w'.since, InFlight(w'), ServedBy(w'.link))
  {
    hide Holds, Tracks, Announced, GoodMessage, ItemsIn, ItemsOf, LogAfter, TakenAfter, Reset;
    HeadOfQueue(queue);
    MessageTracks(w.tab, w.taken, w.epoch, w.history, w.since, queue[0], ItemsOf(queue[1..]), ServedBy(w.link));
  }

  lemma HeadOfQueue(queue: seq<Incoming>)
    requires queue != []
    ensures ItemsOf(queue) == ItemsIn(queue[0]) + ItemsOf(queue[1..])
    ensures Announced(queue) && ItemsIn(queue[0]) != [] ==> queue[0].ReplayMessage?
  {
  }

  lemma DeliverLinkInv(w: World)
    requires HubInv(w) && Holds(w.tab, w.taken)
    requires w.link.Some? && LinkInv(w, w.link.value) && w.link.value.queue != []
    ensures var w' := StepDeliver(w); LinkInv(w', w'.link.value)
    ensures var w' := StepDeliver(w); w'.tab.epoch == w.tab.epoch || w'.tab.epoch == Some(w.link.value.epoch)
  {
    var queue := w.link.value.queue;
    var msg, rest := queue[0], queue[1..];
    MessageHolds(w.tab, w.taken, msg);
    assert GoodMessage(w.link.value.epoch, msg);
    assert forall m <- rest :: m in queue;
    hide Holds, LogAfter, TakenAfter;
    assert queue == [msg] + rest;
    assert HasReplay(queue) && !msg.ReplayMessage? ==> HasReplay(rest);
  }

  lemma DeliverInv(w: World)
    requires WorldInv(w)
    ensures WorldInv(Step(w, Deliver))
  {
    if w.link.Some? && w.link.value.queue != [] {
      MessageHolds(w.tab, w.taken, w.link.value.queue[0]);
      DeliverLinkInv(w);
      if w.link.value.epoch == w.epoch {
        DeliverTracks(w, w.link.value.queue);
      } else {
        DeliverForeign(w);
      }
      hide Holds, Tracks, LogAfter, TakenAfter, ItemsOf, Announced, HasReplay;
    }
  }

  /** A message from an earlier hub leaves what the tab has from the present one, or takes it off that. */
  lemma DeliverForeign(w: World)
    requires WorldInv(w) && w.link.Some? && w.link.value.queue != [] && w.link.value.epoch != w.epoch
    ensures var w' := StepDeliver(w);
            Tracks(Reset(w'.tab, w'.epoch), BaseTaken(w'), w'.history, w'.since, InFlight(w'), ServedBy(w'.link))
  {
    var queue := w.link.value.queue;
    assert GoodMessage(w.link.value.epoch, queue[0]);
    MessageHolds(w.tab, w.taken, queue[0]);
    NothingTracked(w.epoch, w.history, w.since);
    hide Holds, Tracks, ItemsOf, HasReplay, Numbered, TakeAll, TakenAll;
  }

  lemma StepInv(w: World, a: Action)
    requires WorldInv(w) && Allowed(w, a)
    ensures WorldInv(Step(w, a))
  {
    hide WorldInv, Step;
    match a
    case Publish(name, data) => PublishInv(w, name, data);
    case Push(msg) => PushInv(w, msg);
    case Connect => ConnectInv(w);
    case AskEvents(connected) => AskInv(w, connected);
    case Deliver => DeliverInv(w);
    case HangUp => HangUpInv(w);
    case Lose => LoseInv(w);
    case Restart(epoch) => RestartInv(w, epoch);
  }

  lemma PushInv(w: World, msg: Incoming)
    requires WorldInv(w)
    ensures WorldInv(Step(w, Push(msg)))
  {
    hide WorldInv;
    if Attached(w.link) && (msg.ResourceMessage? || msg.ConnectionMessage?) {
      QuietInv(w, msg);
    }
  }

  lemma {:induction false} RunInv(w: World, actions: seq<Action>)
    requires WorldInv(w) && HarmlessEpochs(w, actions)
    ensures WorldInv(Run(w, actions))
    decreases |actions|
  {
    hide WorldInv, Step;
    if actions != [] {
      RunInv(w, actions[..|actions| - 1]);
      StepInv(Run(w, actions[..|actions| - 1]), actions[|actions| - 1]);
    }
  }

  // What the tab has

  /** If the most recent items of a whole are among some of its items, they are the most recent of those. */
  lemma RecentAgree(some: seq<Item>, all: seq<Item>)
    requires Increasing(some) && Increasing(all)
    requires (forall x <- some :: x in all) && (forall x <- Recent(all) :: x in some)
    ensures Recent(some) == Recent(all)
  {
    RecentSound(all);
    RecentSound(some);
    NoMore(some, all);
    NoMore(Recent(all), some);
    if |all| <= DEPTH {
      SameSequence(all, some);
    } else {
      forall x <- Recent(all) ensures x in Recent(some) {
        if x !in Recent(some) {
          LaterRecent(some, all, x);
        }
      }
      SameSequence(Recent(all), Recent(some));
    }
  }

  lemma LaterRecent(some: seq<Item>, all: seq<Item>, x: Item)
    requires Increasing(some) && Increasing(all) && |all| > DEPTH && |some| >= DEPTH
    requires (forall y <- some :: y in all) && x in Recent(all) && x in some
    ensures x in Recent(some)
  {
    var i := Position(some, x);
    var k := Position(Recent(all), x);
    var n := |all| - DEPTH + k;
    assert all[n] == x;
    var later, rest := some[i + 1..], all[n + 1..];
    forall y <- later ensures y in rest {
      var j := Position(later, y);
      assert some[i + 1 + j] == y && y in some;
      var m := Position(all, y);
      assert m > n;
      assert rest[m - n - 1] == y;
    }
    NoMore(later, rest);
    assert i >= |some| - DEPTH;
    assert some[|some| - DEPTH..][i - (|some| - DEPTH)] == x;
  }

  lemma SameBuffer(tab: Log, taken: seq<Item>, hub: Log, history: seq<Item>, e: string)
    requires Holds(tab, taken) && Holds(hub, history)
    requires (forall x <- taken :: x in history) && (forall x :: Retained(history, x) ==> x in taken)
    ensures e in tab.buffers <==> e in hub.buffers
    ensures Buffer(tab.buffers, e) == Buffer(hub.buffers, e)
  {
    assert HoldsAt(tab.buffers, taken, e) && HoldsAt(hub.buffers, history, e);
    var some, all := OfEvent(taken, e), OfEvent(history, e);
    OfEventSound(taken, e);
    OfEventSound(history, e);
    RecentSound(all);
    forall x <- Recent(all) ensures x in some {
      assert Retained(history, x);
    }
    hide Holds, HoldsAt, OfEvent, Retained;
    RecentAgree(some, all);
  }

  lemma SameBuffers(tab: Log, taken: seq<Item>, hub: Log, history: seq<Item>)
    requires Holds(tab, taken) && Holds(hub, history)
    requires (forall x <- taken :: x in history) && (forall x :: Retained(history, x) ==> x in taken)
    ensures tab.buffers == hub.buffers
  {
    hide Holds, Retained;
    forall e ensures e in tab.buffers <==> e in hub.buffers {
      SameBuffer(tab, taken, hub, history, e);
    }
    forall e <- tab.buffers ensures tab.buffers[e] == hub.buffers[e] {
      SameBuffer(tab, taken, hub, history, e);
    }
  }

  lemma LastRetained(history: seq<Item>)
    requires history != []
    ensures Retained(history, history[|history| - 1])
  {
    var last := history[|history| - 1];
    var s := OfEvent(history, last.event);
    assert s[|s| - 1] == last;
    assert Recent(s)[|Recent(s)| - 1] == last;
  }

  ghost predicate Drained(w: World) {
    ServedBy(w.link) && w.link.value.queue == []
  }

  lemma InvCaughtUp(w: World)
    requires WorldInv(w) && Drained(w)
    ensures w.tab == w.hub
  {
    DrainedEpoch(w);
    DrainedTakes(w);
    hide Retained;
    SameBuffers(w.tab, w.taken, w.hub, w.history);
    LastTaken(w.tab, w.taken, w.history);
    if w.history != [] {
      LastRetained(w.history);
    }
  }

  /** On every run: once a served connection has delivered all it was sent, the tab holds exactly the hub's log. */
  lemma CaughtUp(epoch: string, actions: seq<Action>)
    requires epoch != "" && HarmlessEpochs(Start(epoch), actions)
    ensures var w := Run(Start(epoch), actions); Drained(w) ==> w.tab == w.hub
  {
    hide Run, HarmlessEpochs, WorldInv;
    StartInv(epoch);
    RunInv(Start(epoch), actions);
    if Drained(Run(Start(epoch), actions)) {
      InvCaughtUp(Run(Start(epoch), actions));
    }
  }

  lemma DrainedEpoch(w: World)
    requires WorldInv(w) && Drained(w)
    ensures w.tab.epoch == Some(w.epoch) && InFlight(w) == []
  {
  }

  lemma DrainedTakes(w: World)
    requires WorldInv(w) && Drained(w)
    ensures forall x | Due(w.history, w.since, x) :: x in w.taken
    ensures forall x | Retained(w.history, x) :: x in w.taken
    ensures forall x <- w.taken :: x in w.history
  {
    hide Holds, Due, Retained;
    DrainedEpoch(w);
    forall x | Retained(w.history, x) ensures x in w.taken {
      RetainedDue(w.history, w.since, x);
    }
  }

  /** On every run: the tab records in order and never twice, only what its hub published, and, once a served
      connection is drained, everything retained when it asked for events and everything published since. */
  lemma NeitherGapNorOverlap(epoch: string, actions: seq<Action>)
    requires epoch != "" && HarmlessEpochs(Start(epoch), actions)
    ensures var w := Run(Start(epoch), actions);
            && Increasing(w.taken) && w.since <= |w.history|
            && (w.tab.epoch == Some(w.epoch) ==> forall x <- w.taken :: x in w.history)
            && (Drained(w) ==> w.tab.epoch == Some(w.epoch) &&
                               forall x <- w.history :: Due(w.history, w.since, x) ==> x in w.taken)
  {
    hide Run, HarmlessEpochs, Due;
    var w := Run(Start(epoch), actions);
    StartInv(epoch);
    RunInv(Start(epoch), actions);
    if Drained(w) {
      DrainedEpoch(w);
      DrainedTakes(w);
    }
  }
}
