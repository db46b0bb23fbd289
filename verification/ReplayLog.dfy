/**
 The replay log: numbered events, kept per event name to a bounded depth, dropped when the server that
 numbered them is replaced. Server and browser tab keep the same structure.
 */
module ReplayLog {
  import opened Options

  const DEPTH: nat := 1000

  datatype Item = Item(number: int, event: string, data: string)

  type Buffers = map<string, seq<Item>>

  datatype Log = Log(epoch: Option<string>, lastSeq: int, buffers: Buffers)

  const FRESH: Log := Log(None, 0, map[])

  // Keeping

  function Buffer(buffers: Buffers, event: string): (s: seq<Item>) {
    if event in buffers then buffers[event] else []
  }

  /** Drops the oldest item once the buffer is over its depth. */
  function Trim(s: seq<Item>): (t: seq<Item>) {
    if |s| > DEPTH then s[1..] else s
  }

  function Record(log: Log, item: Item): (log': Log) {
    log.(lastSeq := item.number,
         buffers := log.buffers[item.event := Trim(Buffer(log.buffers, item.event) + [item])])
  }

  /** Takes one numbered event, unless it has been seen. */
  function Take(log: Log, item: Item): (log': Log) {
    if item.number <= log.lastSeq then log else Record(log, item)
  }

  function TakeAll(log: Log, items: seq<Item>): (log': Log)
    decreases |items|
  {
    if items == [] then log else TakeAll(Take(log, items[0]), items[1..])
  }

  /** A replay from another epoch starts the log over. */
  function Reset(log: Log, epoch: string): (log': Log) {
    if log.epoch == Some(epoch) then log else Log(Some(epoch), 0, map[])
  }

  function TakeReplay(log: Log, epoch: string, items: seq<Item>): (log': Log) {
    TakeAll(Reset(log, epoch), items)
  }

  // What is kept

  function OfEvent(items: seq<Item>, event: string): (s: seq<Item>) {
    if items == [] then []
    else
      var last := items[|items| - 1];
      OfEvent(items[..|items| - 1], event) + (if last.event == event then [last] else [])
  }

  /** The most recent items, to the depth. */
  function Recent(s: seq<Item>): (t: seq<Item>) {
    if |s| > DEPTH then s[|s| - DEPTH..] else s
  }

  ghost predicate Increasing(s: seq<Item>) {
    forall i, j | 0 <= i < j < |s| :: s[i].number < s[j].number
  }

  /** The log holds, for each event name, the most recent of the items recorded in its epoch. */
  ghost predicate Holds(log: Log, recorded: seq<Item>) {
    && Increasing(recorded)
    && (forall x <- recorded :: x.number > 0)
    && log.lastSeq == (if recorded == [] then 0 else recorded[|recorded| - 1].number)
    && (forall e :: HoldsAt(log.buffers, recorded, e))
  }

  predicate HoldsAt(buffers: Buffers, recorded: seq<Item>, event: string) {
    (event in buffers <==> OfEvent(recorded, event) != []) && Buffer(buffers, event) == Recent(OfEvent(recorded, event))
  }

  lemma NothingHeld(epoch: Option<string>)
    ensures Holds(Log(epoch, 0, map[]), [])
  {
  }

  lemma HoldsIncreasing(log: Log, recorded: seq<Item>)
    requires Holds(log, recorded)
    ensures Increasing(recorded)
  {
  }

  lemma LastNotNegative(log: Log, recorded: seq<Item>)
    requires Holds(log, recorded)
    ensures log.lastSeq >= 0
  {
  }

  /** A log without a last number is empty. */
  lemma HoldsNothing(log: Log, recorded: seq<Item>)
    requires Holds(log, recorded) && log.lastSeq == 0
    ensures recorded == [] && log.buffers == map[]
  {
    forall e ensures e !in log.buffers {
      assert HoldsAt(log.buffers, recorded, e);
    }
  }

  lemma OfEventAppend(items: seq<Item>, x: Item, event: string)
    ensures OfEvent(items + [x], event) ==
            if x.event == event then OfEvent(items, event) + [x] else OfEvent(items, event)
  {
    assert (items + [x])[..|items|] == items;
  }

  lemma RecentAppend(s: seq<Item>, x: Item)
    ensures Trim(Recent(s) + [x]) == Recent(s + [x])
  {
  }

  /** What was recorded, after an item has been taken. */
  function Taken(recorded: seq<Item>, lastSeq: int, item: Item): (recorded': seq<Item>) {
    if item.number <= lastSeq then recorded else recorded + [item]
  }

  function TakenAll(recorded: seq<Item>, log: Log, items: seq<Item>): (recorded': seq<Item>)
    decreases |items|
  {
    if items == [] then recorded
    else TakenAll(Taken(recorded, log.lastSeq, items[0]), Take(log, items[0]), items[1..])
  }

  lemma RecordHoldsAt(log: Log, recorded: seq<Item>, item: Item, event: string)
    requires HoldsAt(log.buffers, recorded, event)
    ensures HoldsAt(Record(log, item).buffers, recorded + [item], event)
  {
    hide OfEvent, Recent, Trim;
    OfEventAppend(recorded, item, event);
    RecentAppend(OfEvent(recorded, event), item);
  }

  lemma TakeHolds(log: Log, recorded: seq<Item>, item: Item)
    requires Holds(log, recorded)
    ensures Holds(Take(log, item), Taken(recorded, log.lastSeq, item))
  {
    hide HoldsAt;
    if item.number > log.lastSeq {
      forall e ensures HoldsAt(Record(log, item).buffers, recorded + [item], e) {
        RecordHoldsAt(log, recorded, item, e);
      }
      var recorded' := recorded + [item];
      assert Increasing(recorded') by {
        assert forall i | 0 <= i < |recorded| :: recorded'[i] == recorded[i] && recorded[i].number <= log.lastSeq;
      }
    }
  }

  lemma AtEnd(items: seq<Item>, x: Item)
    requires Increasing(items) && forall y <- items :: y.number < x.number
    ensures Increasing(items + [x])
  {
    assert forall i | 0 <= i < |items| :: items[i] in items;
  }

  lemma AllButLast(items: seq<Item>)
    requires Increasing(items) && items != []
    ensures Increasing(items[..|items| - 1])
    ensures forall y <- items[..|items| - 1] :: y.number < items[|items| - 1].number
  {
    assert forall i | 0 <= i < |items| - 1 :: items[..|items| - 1][i] == items[i];
  }

  lemma {:induction false} OfEventSound(items: seq<Item>, event: string)
    ensures forall x :: x in OfEvent(items, event) <==> x in items && x.event == event
    ensures Increasing(items) ==> Increasing(OfEvent(items, event))
  {
    if items != [] {
      var front, last := items[..|items| - 1], items[|items| - 1];
      OfEventSound(front, event);
      assert items == front + [last];
      if Increasing(items) {
        AllButLast(items);
        AtEnd(OfEvent(front, event), last);
      }
    }
  }

  // Increasing sequences

  lemma Position(s: seq<Item>, x: Item) returns (k: nat)
    requires x in s
    ensures k < |s| && s[k] == x
  {
    k :| 0 <= k < |s| && s[k] == x;
  }

  lemma {:induction false} NoMore(s: seq<Item>, t: seq<Item>)
    requires Increasing(s) && Increasing(t) && forall x <- s :: x in t
    ensures |s| <= |t|
  {
    if s != [] {
      var front, last := s[..|s| - 1], s[|s| - 1];
      assert last in s;
      var m := Position(t, last);
      Before(s, t, m);
      NoMore(front, t[..m]);
    }
  }

  lemma {:induction false} SameSequence(s: seq<Item>, t: seq<Item>)
    requires Increasing(s) && Increasing(t) && (forall x <- s :: x in t) && |t| <= |s|
    ensures s == t
  {
    NoMore(s, t);
    if s != [] {
      var last := s[|s| - 1];
      assert last in s;
      var m := Position(t, last);
      Before(s, t, m);
      NoMore(s[..|s| - 1], t[..m]);
      assert m == |t| - 1;
      SameSequence(s[..|s| - 1], t[..m]);
      assert s == s[..|s| - 1] + [last] && t == t[..m] + [last];
    }
  }

  /** All but the last of `s` lie before its last in `t`. */
  lemma Before(s: seq<Item>, t: seq<Item>, m: nat)
    requires Increasing(s) && Increasing(t) && (forall x <- s :: x in t)
    requires s != [] && m < |t| && t[m] == s[|s| - 1]
    ensures forall x <- s[..|s| - 1] :: x in t[..m]
  {
    var front := s[..|s| - 1];
    forall x <- front ensures x in t[..m] {
      var i := Position(front, x);
      assert s[i] == x && x in s && s[i].number < t[m].number;
      var k := Position(t, x);
      assert k < m;
    }
  }

  /** Two increasing sequences with the same elements are one sequence. */
  lemma SameElements(s: seq<Item>, t: seq<Item>)
    requires Increasing(s) && Increasing(t) && forall x :: x in s <==> x in t
    ensures s == t
  {
    NoMore(s, t);
    NoMore(t, s);
    SameSequence(s, t);
  }

  // Replaying what is kept

  /** The items that recording `recorded` leaves in the buffers, oldest first. */
  ghost predicate IsReplay(items: seq<Item>, recorded: seq<Item>) {
    Increasing(items) && forall x :: x in items <==> x in Recent(OfEvent(recorded, x.event))
  }

  function Insert(items: seq<Item>, x: Item): (items': seq<Item>) {
    if items == [] || x.number < items[0].number then [x] + items else [items[0]] + Insert(items[1..], x)
  }

  lemma {:induction false} InsertKeeps(items: seq<Item>, x: Item)
    requires Increasing(items) && forall y <- items :: y.number != x.number
    ensures Increasing(Insert(items, x))
    ensures forall y :: y in Insert(items, x) <==> y in items || y == x
  {
    if items == [] || x.number < items[0].number {
      assert forall y <- items :: y.number > x.number;
      InFront(x, items);
    } else {
      var first, rest := items[0], items[1..];
      assert items == [first] + rest;
      InsertKeeps(rest, x);
      InFront(first, rest);
      InFront(first, Insert(rest, x));
    }
  }

  lemma InFront(x: Item, items: seq<Item>)
    requires Increasing(items) && forall y <- items :: y.number > x.number
    ensures Increasing([x] + items)
    ensures forall y :: y in [x] + items <==> y in items || y == x
  {
    assert forall k | 0 <= k < |items| :: items[k] in items;
  }

  lemma {:induction false} RecentSound(s: seq<Item>)
    ensures Increasing(s) ==> Increasing(Recent(s))
    ensures forall x <- Recent(s) :: x in s
    ensures |Recent(s)| <= DEPTH
  {
  }

  /** Every kept item was recorded, and each buffer holds the items of its own event. */
  lemma KeptRecorded(log: Log, recorded: seq<Item>, e: string)
    requires Holds(log, recorded)
    ensures Increasing(Buffer(log.buffers, e))
    ensures forall x <- Buffer(log.buffers, e) :: x in recorded && x.event == e
  {
    hide OfEvent, Recent;
    assert HoldsAt(log.buffers, recorded, e);
    OfEventSound(recorded, e);
    RecentSound(OfEvent(recorded, e));
  }

  /** Numbers identify recorded items. */
  lemma OneNumber(recorded: seq<Item>, x: Item, y: Item)
    requires Increasing(recorded) && x in recorded && y in recorded && x.number == y.number
    ensures x == y
  {
    var i := Position(recorded, x);
    var j := Position(recorded, y);
  }

  lemma EmptyBuffer(buffers: Buffers, e: string)
    ensures e !in buffers ==> Buffer(buffers, e) == []
  {
  }

  /** Puts the buffered items of all events in order of their numbers. */
  method SortedItems(log: Log, ghost recorded: seq<Item>) returns (items: seq<Item>)
    requires Holds(log, recorded)
    ensures IsReplay(items, recorded)
  {
    hide OfEvent, Recent, Insert, Buffer;
    items := [];
    var left := log.buffers.Keys;
    ghost var seen: set<string> := {};
    while left != {}
      invariant left <= log.buffers.Keys && seen == log.buffers.Keys - left
      invariant Increasing(items)
      invariant forall x :: x in items <==> x.event in seen && x in Buffer(log.buffers, x.event)
    {
      var e :| e in left;
      items := AddBuffer(items, log, recorded, e, seen);
      left := left - {e};
      seen := seen + {e};
    }
    forall x ensures x in items <==> x in Recent(OfEvent(recorded, x.event)) {
      assert HoldsAt(log.buffers, recorded, x.event);
      EmptyBuffer(log.buffers, x.event);
    }
  }

  method AddBuffer(before: seq<Item>, log: Log, ghost recorded: seq<Item>, e: string, ghost seen: set<string>)
    returns (items: seq<Item>)
    requires Holds(log, recorded) && e in log.buffers && e !in seen
    requires Increasing(before) && forall x :: x in before <==> x.event in seen && x in Buffer(log.buffers, x.event)
    ensures Increasing(items)
    ensures forall x :: x in items <==> x.event in seen + {e} && x in Buffer(log.buffers, x.event)
  {
    hide Insert, Holds;
    items := before;
    var buffer := log.buffers[e];
    HoldsIncreasing(log, recorded);
    KeptRecorded(log, recorded, e);
    for i := 0 to |buffer|
      invariant Increasing(items)
      invariant forall x :: x in items <==> x in before || x in buffer[..i]
    {
      var x := buffer[i];
      assert x in buffer && x !in buffer[..i] && buffer[..i + 1] == buffer[..i] + [x];
      forall y <- items ensures y.number != x.number {
        KeptRecorded(log, recorded, y.event);
        if y.number == x.number {
          assert y in buffer[..i] ==> y in buffer;
          OneNumber(recorded, x, y);
        }
      }
      InsertKeeps(items, x);
      items := Insert(items, x);
    }
    assert buffer[..|buffer|] == buffer;
  }
}
