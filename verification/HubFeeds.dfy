/** What the sockets of a hub have been told: of every topic that serves them, and of the base station's connection. */
module HubFeeds {
  import opened ReplayLog
  import opened Live
  import opened Options
  import opened Topics
  import opened Hub

  /** The last value sent for a key. */
  function Newest(msgs: seq<Incoming>, key: string): (value: Option<string>) {
    if msgs == [] then None
    else
      var last := msgs[|msgs| - 1];
      if last.ResourceMessage? && last.key == key then Some(last.value) else Newest(msgs[..|msgs| - 1], key)
  }

  /** The last state of the connection sent. */
  function NewestState(msgs: seq<Incoming>): (connected: Option<bool>) {
    if msgs == [] then None
    else
      var last := msgs[|msgs| - 1];
      if last.ConnectionMessage? then Some(last.connected) else NewestState(msgs[..|msgs| - 1])
  }

  lemma NewestOne(msgs: seq<Incoming>, m: Incoming, key: string)
    ensures Newest(msgs + [m], key) == if m.ResourceMessage? && m.key == key then Some(m.value) else Newest(msgs, key)
    ensures NewestState(msgs + [m]) == if m.ConnectionMessage? then Some(m.connected) else NewestState(msgs)
  {
    assert (msgs + [m])[..|msgs|] == msgs;
  }

  /** Replays change neither. */
  lemma {:induction false} NewestReplays(msgs: seq<Incoming>, more: seq<Incoming>, key: string)
    requires forall m <- more :: m.ReplayMessage?
    ensures Newest(msgs + more, key) == Newest(msgs, key) && NewestState(msgs + more) == NewestState(msgs)
  {
    if more == [] {
      assert msgs + more == msgs;
    } else {
      var front, last := more[..|more| - 1], more[|more| - 1];
      assert more == front + [last] && msgs + more == msgs + front + [last];
      assert last in more && forall m <- front :: m in more;
      NewestReplays(msgs, front, key);
      NewestOne(msgs + front, last, key);
    }
  }

  lemma {:induction false} BatchesReplay(epoch: string, items: seq<Item>)
    ensures forall m <- Batches(epoch, items) :: m.ReplayMessage?
    decreases |items|
  {
    if |items| > REPLAY_BATCH {
      BatchesReplay(epoch, items[REPLAY_BATCH..]);
    }
  }

  /** An open socket that a topic serves was last sent the topic's value, and one that asked for events the
      connection's state. */
  ghost predicate Informed(f: Feeds) {
    forall k, key :: k in f.sent ==> InformedOf(f, k, key)
  }

  ghost predicate InformedOf(f: Feeds, k: nat, key: string)
    requires k in f.sent
  {
    && (Serves(f.topics, key, k) && f.topics[key].last.Some? ==> Newest(f.sent[k], key) == f.topics[key].last)
    && (k in f.subscribers ==> NewestState(f.sent[k]) == Some(f.backend))
  }

  lemma OpenInformed(f: Feeds, j: nat, admissible: string -> bool, k: nat, key: string)
    requires Informed(f) && FeedsInv(f, admissible) && j !in f.wanted && k in f.sent[j := []]
    ensures InformedOf(HubStep(f, Opens(j), admissible), k, key)
  {
    hide Holds;
    if k == j {
      assert !Wants(f.wanted, key, k);
    } else {
      assert InformedOf(f, k, key);
    }
  }

  lemma EventsInformed(f: Feeds, j: nat, k: nat, key: string)
    requires Informed(f) && k in f.sent
    ensures InformedOf(f.(subscribers := f.subscribers + {j}, sent := Fed(f.sent, {j}, EventsAnswer(f, j))), k, key)
  {
    assert InformedOf(f, k, key);
    hide Batches, Replayed, Newest, NewestState;
    hide EventsAnswer;
    if k == j {
      AnswerInformed(f, j, key);
    }
  }

  lemma AnswerInformed(f: Feeds, j: nat, key: string)
    requires j in f.sent
    ensures Newest(f.sent[j] + EventsAnswer(f, j), key) == Newest(f.sent[j], key)
    ensures NewestState(f.sent[j] + EventsAnswer(f, j)) == Some(f.backend)
  {
    hide Batches, Replayed, Newest, NewestState;
    var msgs, state := f.sent[j], ConnectionMessage(f.backend);
    var replay := if j in f.subscribers then [] else Batches(f.epoch, Replayed(f.history));
    BatchesReplay(f.epoch, Replayed(f.history));
    NewestOne(msgs, state, key);
    NewestReplays(msgs + [state], replay, key);
    assert msgs + ([state] + replay) == msgs + [state] + replay;
  }

  /** A subscriber to a topic that has a value is sent it. */
  lemma SubscribeInformed(f: Feeds, j: nat, topic: string, k: nat, key: string)
    requires Informed(f) && k in f.sent
    ensures InformedOf(f.(topics := Join(f.topics, topic, j), sent := Fed(f.sent, {j}, LastValue(f.topics, topic))), k, key)
  {
    assert InformedOf(f, k, key);
    hide Newest, NewestState;
    if k == j {
      if LastValue(f.topics, topic) == [] {
        assert f.sent[k] + [] == f.sent[k];
      } else {
        NewestOne(f.sent[k], LastValue(f.topics, topic)[0], key);
      }
    }
  }

  lemma SentInformed(f: Feeds, sockets: set<nat>, m: Incoming, k: nat, key: string)
    requires k in f.sent
    ensures var sent := Fed(f.sent, sockets, [m]);
            && Newest(sent[k], key) == (if k in sockets && m.ResourceMessage? && m.key == key then Some(m.value)
                                        else Newest(f.sent[k], key))
            && NewestState(sent[k]) == (if k in sockets && m.ConnectionMessage? then Some(m.connected)
                                        else NewestState(f.sent[k]))
  {
    NewestOne(f.sent[k], m, key);
  }

  lemma StepInformed(f: Feeds, op: HubOp, admissible: string -> bool, k: nat, key: string)
    requires Informed(f) && FeedsInv(f, admissible) && Possible(f, op) && k in HubStep(f, op, admissible).sent
    ensures InformedOf(HubStep(f, op, admissible), k, key)
  {
    assert k in f.sent ==> InformedOf(f, k, key);
    hide Holds, Agree, Newest, NewestState, Informed, EventsAnswer, LogPublished, Published, Publication;
    match op
    case Opens(j) => OpenInformed(f, j, admissible, k, key);
    case Stalls(_) =>
    case Closes(_) =>
    case Asks(j, Events) => EventsInformed(f, j, k, key);
    case Asks(j, Subscribe(topic)) =>
      if admissible(topic) {
        SubscribeInformed(f, j, topic, k, key);
      }
    case Asks(_, _) =>
    case Publishes(name, data) =>
      PublicationKind(f.log, name, data);
      SentInformed(f, f.subscribers, Publication(f.log, name, data), k, key);
    case Reports(connected) => SentInformed(f, f.subscribers, ConnectionMessage(connected), k, key);
    case Polls(topic, value) =>
      if topic in f.topics {
        SentInformed(f, f.topics[topic].subscribers, ResourceMessage(topic, value), k, key);
      }
  }

  lemma PublicationKind(log: Log, name: string, data: string)
    ensures Publication(log, name, data).EventMessage?
  {
  }

  /** On every run: an open socket has last been sent the present value of every topic that serves it, if it has one,
      and, if it asked for events, the present state of the connection. */
  lemma {:induction false} RunInformed(epoch: string, ops: seq<HubOp>, admissible: string -> bool)
    ensures Informed(HubRun(epoch, ops, admissible))
  {
    if ops != [] {
      var before, op := HubRun(epoch, ops[..|ops| - 1], admissible), ops[|ops| - 1];
      RunInformed(epoch, ops[..|ops| - 1], admissible);
      HubRunInv(epoch, ops[..|ops| - 1], admissible);
      hide InformedOf, FeedsInv, HubStep, Possible;
      if Possible(before, op) {
        forall k, key | k in HubStep(before, op, admissible).sent
          ensures InformedOf(HubStep(before, op, admissible), k, key)
        {
          StepInformed(before, op, admissible, k, key);
        }
      }
    }
  }
}
