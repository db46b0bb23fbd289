/** When a hub may take over from another: the exact condition on its epoch. */
module Restarts {
  import opened ReplayLog
  import opened Live
  import opened Hub
  import opened Options
  import opened Delivery

  // Runs read from the front

  function RunOn(w: World, actions: seq<Action>): (w': World)
    decreases |actions|
  {
    if actions == [] then w else RunOn(Step(w, actions[0]), actions[1..])
  }

  lemma {:induction false} RunFrom(w: World, a: seq<Action>, b: seq<Action>)
    ensures Run(w, a + b) == RunOn(Run(w, a), b)
    decreases |b|
  {
    hide Step;
    if b == [] {
      assert a + b == a;
    } else {
      assert a + b == (a + [b[0]]) + b[1..];
      assert (a + [b[0]])[..|a|] == a;
      RunFrom(w, a + [b[0]], b[1..]);
    }
  }

  lemma RunIsRunOn(w: World, actions: seq<Action>)
    ensures Run(w, actions) == RunOn(w, actions)
  {
    assert [] + actions == actions;
    RunFrom(w, [], actions);
  }

  // A tab that asks a hub which has published nothing

  const ASK: seq<Action> := [Connect, AskEvents(false), Deliver, Deliver]

  lemma AskAfresh(w: World)
    requires w.epoch != "" && w.history == []
    ensures var w' := RunOn(w, ASK);
            && Drained(w') && w'.epoch == w.epoch && w'.hub == w.hub && w'.history == []
            && w'.tab == Reset(w.tab, w.epoch) && w'.taken == BaseTaken(w)
  {
    assert Replayed([]) == [] && Batches(w.epoch, []) == [ReplayMessage(w.epoch, [])];
    var asked := Step(Step(w, Connect), AskEvents(false));
    assert asked.link.value.queue == [ConnectionMessage(false), ReplayMessage(w.epoch, [])];
    assert RunOn(w, ASK) == RunOn(asked, [Deliver, Deliver]) by {
      hide Step;
    }
    assert RunOn(asked, [Deliver, Deliver]) == Step(Step(asked, Deliver), Deliver) by {
      hide Step;
    }
  }

  /** A hub starts, the tab reconnects, asks and is answered: it holds the hub's log if and only if it had
      nothing of the hub's epoch. */
  lemma RestartThenAsk(w: World, e: string)
    requires WorldInv(w) && e != ""
    ensures var w' := RunOn(w, [Restart(e)] + ASK);
            Drained(w') && (w'.tab == w'.hub <==> w.tab.epoch != Some(e) || w.tab.lastSeq == 0)
  {
    hide Holds, Tracks, RunOn;
    var w1 := Step(w, Restart(e));
    FirstStep(w, Restart(e), ASK);
    AskAfresh(w1);
    if w.tab.lastSeq == 0 {
      HoldsNothing(w.tab, w.taken);
    }
  }

  lemma FirstStep(w: World, a: Action, actions: seq<Action>)
    ensures RunOn(w, [a] + actions) == RunOn(Step(w, a), actions)
  {
    hide Step;
    assert ([a] + actions)[1..] == actions;
  }

  // A connection to an earlier hub of the same epoch

  lemma {:induction false} TakeAllGrows(log: Log, items: seq<Item>)
    ensures TakeAll(log, items).lastSeq >= log.lastSeq
    ensures forall x <- items :: TakeAll(log, items).lastSeq >= x.number
    decreases |items|
  {
    if items != [] {
      TakeAllGrows(Take(log, items[0]), items[1..]);
      assert items == [items[0]] + items[1..];
    }
  }

  /** The tab has items under the epoch. */
  predicate Spoiled(tab: Log, epoch: string) {
    tab.epoch == Some(epoch) && tab.lastSeq > 0
  }

  /** ... or the queue brings some. */
  predicate Spoils(tab: Log, epoch: string, queue: seq<Incoming>) {
    Spoiled(tab, epoch) || (ItemsOf(queue) != [] && (tab.epoch == Some(epoch) || Announced(queue)))
  }

  lemma MessageSpoils(tab: Log, epoch: string, queue: seq<Incoming>)
    requires epoch != "" && queue != [] && GoodMessage(epoch, queue[0]) && Spoils(tab, epoch, queue)
    ensures Spoils(LogAfter(tab, queue[0]), epoch, queue[1..])
  {
    hide ItemsOf, TakeAll;
    HeadOfQueue(queue);
    AnnouncedTail(queue);
    match queue[0]
    case ReplayMessage(_, items) =>
      TakeAllGrows(Reset(tab, epoch), items);
      TakeAllEpoch(Reset(tab, epoch), items);
      assert items != [] ==> items[0] in items;
      hide Announced;
    case EventMessage(event, data, Some(number)) =>
      assert Item(number, event, data) in ItemsIn(queue[0]);
      hide Announced;
    case _ =>
      assert [] + ItemsOf(queue[1..]) == ItemsOf(queue[1..]);
      hide Announced;
  }

  lemma AnnouncedTail(queue: seq<Incoming>)
    requires queue != []
    ensures Announced(queue) && !queue[0].ReplayMessage? ==> Announced(queue[1..])
  {
  }

  function Deliveries(n: nat): (actions: seq<Action>)
    ensures |actions| == n && forall a <- actions :: a.Deliver?
  {
    if n == 0 then [] else [Deliver] + Deliveries(n - 1)
  }

  lemma {:induction false} QueueSpoils(w: World, queue: seq<Incoming>)
    requires w.epoch != "" && w.link.Some? && w.link.value.queue == queue
    requires (forall m <- queue :: GoodMessage(w.epoch, m)) && Spoils(w.tab, w.epoch, queue)
    ensures var w' := RunOn(w, Deliveries(|queue|));
            Spoiled(w'.tab, w'.epoch) && w'.epoch == w.epoch && w'.history == w.history && w'.hub == w.hub
    decreases |queue|
  {
    hide GoodMessage, LogAfter, TakenAfter, Announced;
    if queue != [] {
      MessageSpoils(w.tab, w.epoch, queue);
      FirstStep(w, Deliver, Deliveries(|queue| - 1));
      assert forall m <- queue[1..] :: m in queue;
      hide Spoils, Spoiled, ItemsOf, RunOn;
      QueueSpoils(Step(w, Deliver), queue[1..]);
    }
  }

  // The exact condition

  ghost predicate WithoutRestart(actions: seq<Action>) {
    forall a <- actions :: !a.Restart?
  }

  ghost predicate Follows(w: World) {
    Drained(w) ==> w.tab == w.hub
  }

  lemma {:induction false} NoRestartHarmless(w: World, actions: seq<Action>)
    requires WithoutRestart(actions)
    ensures HarmlessEpochs(w, actions)
  {
    if actions != [] {
      NoRestartHarmless(w, actions[..|actions| - 1]);
      assert actions[|actions| - 1] in actions;
    }
  }

  lemma HarmlessFollows(w: World, e: string, actions: seq<Action>)
    requires WorldInv(w) && Harmless(w, e) && WithoutRestart(actions)
    ensures Follows(Run(Step(w, Restart(e)), actions))
  {
    hide WorldInv, Run, HarmlessEpochs, Step;
    var w' := Step(w, Restart(e));
    RestartInv(w, e);
    NoRestartHarmless(w', actions);
    RunInv(w', actions);
    if Drained(Run(w', actions)) {
      InvCaughtUp(Run(w', actions));
    }
  }

  /** If the condition fails, the tab can take everything it is sent and still not hold the new hub's log. */
  lemma HarmfulDiverges(w: World, e: string) returns (actions: seq<Action>)
    requires WorldInv(w) && e != "" && !Harmless(w, e)
    ensures WithoutRestart(actions) && !Follows(Run(Step(w, Restart(e)), actions))
  {
    hide Holds, Tracks, RunOn, Run, ItemsOf, Announced, GoodMessage;
    var w1 := Step(w, Restart(e));
    LastNotNegative(w.tab, w.taken);
    var first := [];
    if !Spoiled(w.tab, e) {
      first := Deliveries(|w1.link.value.queue|);
      QueueSpoils(w1, w1.link.value.queue);
    } else {
      NoSteps(w1);
    }
    actions := first + ASK;
    RunFrom(w1, first, ASK);
    RunIsRunOn(w1, first);
    AskAfresh(RunOn(w1, first));
  }

  lemma NoSteps(w: World)
    ensures RunOn(w, []) == w
  {
  }

  /** A hub that takes over under the epoch `e` is followed, whatever happens next, if and only if the tab has
      no items of that epoch and none are on their way to it. */
  lemma RestartExact(w: World, e: string)
    requires WorldInv(w) && e != ""
    ensures Harmless(w, e) <==> forall actions | WithoutRestart(actions) :: Follows(Run(Step(w, Restart(e)), actions))
  {
    hide WorldInv, Step, Run, Follows, WithoutRestart, Harmless;
    if Harmless(w, e) {
      forall actions | WithoutRestart(actions) ensures Follows(Run(Step(w, Restart(e)), actions)) {
        HarmlessFollows(w, e, actions);
      }
    } else {
      var actions := HarmfulDiverges(w, e);
    }
  }

  // A run that reuses an epoch

  const OPENING: seq<Action> := [Connect, AskEvents(true), Publish("a1", "x")]
  const FIRST: seq<Action> := OPENING + [Deliver, Deliver, Deliver]
  const SENT: seq<Incoming> := [ConnectionMessage(true), ReplayMessage("e", []), EventMessage("a1", "x", Some(1))]
  const REUSED: seq<Action> := FIRST + ([Restart("e")] + ASK)

  lemma FirstSent()
    ensures var w := Run(Start("e"), OPENING);
            w.epoch == "e" && w.tab == FRESH && w.taken == [] && w.link.Some? && w.link.value.queue == SENT
  {
    RunIsRunOn(Start("e"), OPENING);
    hide Run;
    assert Replayed([]) == [] && Batches("e", []) == [ReplayMessage("e", [])];
  }

  lemma FirstTaken(w: World)
    requires w.epoch == "e" && w.tab == FRESH && w.taken == [] && w.link.Some? && w.link.value.queue == SENT
    ensures var w' := RunOn(w, [Deliver, Deliver, Deliver]);
            w'.epoch == "e" && w'.tab.epoch == Some("e") && w'.tab.lastSeq == 1 && w'.taken == [Item(1, "a1", "x")]
  {
    hide Trim;
  }

  /** A hub that takes over the epoch of the one before it is not followed: drained, the tab holds an event
      that hub never published. */
  lemma ReusedEpochDiverges()
    ensures var w := Run(Start("e"), REUSED);
            Drained(w) && w.tab.epoch == w.hub.epoch && w.tab != w.hub && exists x <- w.taken :: x !in w.history
  {
    hide Step, Run, RunOn, Drained, Reset;
    FirstSent();
    RunFrom(Start("e"), OPENING, [Deliver, Deliver, Deliver]);
    FirstTaken(Run(Start("e"), OPENING));
    var w := Run(Start("e"), FIRST);
    RunFrom(Start("e"), FIRST, [Restart("e")] + ASK);
    FirstStep(w, Restart("e"), ASK);
    RestartFields(w, "e");
    AskAfresh(Step(w, Restart("e")));
    assert Item(1, "a1", "x") in w.taken;
  }

  lemma RestartFields(w: World, e: string)
    ensures var w' := Step(w, Restart(e));
            && w'.epoch == e && w'.history == [] && w'.hub == Log(Some(e), 0, map[])
            && w'.tab == w.tab && w'.taken == w.taken
            && (w.tab.epoch == Some(e) ==> Reset(w.tab, e) == w.tab)
  {
  }
}
