/**
 The relay between a UDP socket and one TCP client: datagrams travel on the byte stream behind a
 two-octet length, whatever the sizes in which the stream is written and read.
 */
module Relay {
  import opened Bytes
  import opened Checksum

  // Framing

  function Framed(payload: seq<Byte>): (s: seq<Byte>)
    requires |payload| <= 0xffff
  {
    BE16(|payload|) + payload
  }

  type Payload = s: seq<Byte> | |s| <= 0xffff witness []

  /** The stream that carries the given datagrams. */
  function Frames(payloads: seq<Payload>): (s: seq<Byte>) {
    if payloads == [] then [] else Framed(payloads[0]) + Frames(payloads[1..])
  }

  /** The datagrams a stream holds so far, and what is left over. */
  function Parse(s: seq<Byte>): (r: (seq<Payload>, seq<Byte>))
    ensures |r.1| <= |s|
  {
    if |s| < 2 || |s| < 2 + FromBE16(s[..2]) then ([], s)
    else
      var end := 2 + FromBE16(s[..2]);
      var (payloads, rest) := Parse(s[end..]);
      ([s[2..end]] + payloads, rest)
  }

  lemma {:induction false} FramesAppend(payloads: seq<Payload>, more: seq<Payload>)
    ensures Frames(payloads + more) == Frames(payloads) + Frames(more)
  {
    hide Framed;
    if payloads == [] {
      assert [] + more == more && [] + Frames(more) == Frames(more);
    } else {
      assert (payloads + more)[1..] == payloads[1..] + more;
      FramesAppend(payloads[1..], more);
      assert Framed(payloads[0]) + (Frames(payloads[1..]) + Frames(more))
          == Framed(payloads[0]) + Frames(payloads[1..]) + Frames(more);
    }
  }

  /** One whole frame in front is read as one datagram. */
  lemma ParseFramed(payload: Payload, s: seq<Byte>)
    ensures Parse(Framed(payload) + s).0 == [payload] + Parse(s).0
    ensures Parse(Framed(payload) + s).1 == Parse(s).1
  {
    hide BE16;
    var t := Framed(payload) + s;
    assert t[..2] == BE16(|payload|);
    BE16Iff(|payload|, t[..2]);
    assert t[2..2 + |payload|] == payload && t[2 + |payload|..] == s;
  }

  /** A complete frame at the front of a stream. */
  lemma FrameInFront(s: seq<Byte>) returns (payload: Payload, tail: seq<Byte>)
    requires |s| >= 2 && |s| >= 2 + FromBE16(s[..2])
    ensures s == Framed(payload) + tail
    ensures |tail| < |s|
  {
    hide BE16, FromBE16;
    var end := 2 + FromBE16(s[..2]);
    payload, tail := s[2..end], s[end..];
    BE16Iff(|payload|, s[..2]);
    assert s == s[..2] + payload + tail;
  }

  /** Parsing loses nothing: the stream is the frames found and the leftover. */
  lemma {:induction false} ParseKeeps(s: seq<Byte>)
    ensures s == Frames(Parse(s).0) + Parse(s).1
    ensures Parse(Parse(s).1).0 == [] && Parse(Parse(s).1).1 == Parse(s).1
    decreases |s|
  {
    if |s| < 2 || |s| < 2 + FromBE16(s[..2]) {
      assert s == [] + s;
    } else {
      var payload, tail := FrameInFront(s);
      hide Parse, Framed;
      ParseKeeps(tail);
      ParseFramed(payload, tail);
      var rest := Parse(tail).0;
      assert ([payload] + rest)[1..] == rest;
      assert Framed(payload) + (Frames(rest) + Parse(tail).1) == Framed(payload) + Frames(rest) + Parse(tail).1;
    }
  }

  lemma ParseIncomplete(s: seq<Byte>)
    requires |s| < 2 || |s| < 2 + FromBE16(s[..2])
    ensures Parse(s).0 == [] && Parse(s).1 == s
  {
  }

  /** Reading a stream in two pieces finds what reading it at once finds. */
  lemma {:induction false} ParseAppend(a: seq<Byte>, b: seq<Byte>)
    ensures Parse(a + b).0 == Parse(a).0 + Parse(Parse(a).1 + b).0
    ensures Parse(a + b).1 == Parse(Parse(a).1 + b).1
    decreases |a|
  {
    hide Parse, Framed, FromBE16;
    if |a| < 2 || |a| < 2 + FromBE16(a[..2]) {
      ParseIncomplete(a);
      assert [] + Parse(a + b).0 == Parse(a + b).0;
    } else {
      var payload, tail := FrameInFront(a);
      ParseAppend(tail, b);
      ParseFramed(payload, tail);
      assert a + b == Framed(payload) + (tail + b);
      ParseFramed(payload, tail + b);
      var more := Parse(Parse(tail).1 + b).0;
      assert [payload] + (Parse(tail).0 + more) == [payload] + Parse(tail).0 + more;
    }
  }

  /** Every sequence of datagrams comes back from its own stream. */
  lemma {:induction false} ParseFrames(payloads: seq<Payload>, s: seq<Byte>)
    ensures Parse(Frames(payloads) + s).0 == payloads + Parse(s).0
    ensures Parse(Frames(payloads) + s).1 == Parse(s).1
  {
    hide Framed, Parse;
    if payloads == [] {
      assert [] + s == s && [] + Parse(s).0 == Parse(s).0;
    } else {
      var head, tail := payloads[0], payloads[1..];
      assert Frames(payloads) + s == Framed(head) + (Frames(tail) + s);
      ParseFramed(head, Frames(tail) + s);
      ParseFrames(tail, s);
      assert [head] + (tail + Parse(s).0) == payloads + Parse(s).0;
    }
  }

  /** A reader that has seen only a prefix of the stream has found a prefix of the datagrams. */
  lemma PrefixParse(payloads: seq<Payload>, s: seq<Byte>)
    requires s <= Frames(payloads)
    ensures Parse(s).0 <= payloads
    ensures s == Frames(payloads) ==> Parse(s).0 == payloads && Parse(s).1 == []
  {
    var rest := Frames(payloads)[|s|..];
    assert Frames(payloads) == s + rest;
    ParseAppend(s, rest);
    ParseFrames(payloads, []);
    assert Frames(payloads) + [] == Frames(payloads);
    assert Parse([]) == ([], []) && payloads + [] == payloads;
  }

  function Repaired(payloads: seq<Payload>): (r: seq<Payload>) {
    seq(|payloads|, i requires 0 <= i < |payloads| => Normalize(payloads[i]))
  }

  // The relay

  datatype Sending = Sent(count: nat) | SendBlocked | SendFailed
  datatype Receiving = Received(data: seq<Byte>) | Disconnected | ReceiveBlocked | ReceiveFailed

  /** Their checksums need no repair. */
  predicate Sound(payloads: seq<Payload>) {
    forall i | 0 <= i < |payloads| :: Normalize(payloads[i]) == payloads[i]
  }

  class Relay {
    var connected: bool
    var tcpRx: seq<Byte>
    var tcpTx: seq<Byte>

    // The history of the current connection
    ghost var queued: seq<Payload>
    ghost var written: seq<Byte>
    ghost var read: seq<Byte>
    ghost var relayed: seq<Payload>

    /** Octets written and octets waiting make up the frames queued so far; the datagrams relayed are
        those of the stream read so far, repaired, and the receive buffer is its leftover. */
    ghost predicate Valid()
      reads this
    {
      && (!connected ==> tcpRx == [] && tcpTx == [])
      && (connected ==>
            && written + tcpTx == Frames(queued) && Sound(queued)
            && tcpRx == Parse(read).1
            && relayed == Repaired(Parse(read).0))
    }

    constructor ()
      ensures Valid() && !connected
    {
      connected := false;
      tcpRx, tcpTx := [], [];
      queued, written, read, relayed := [], [], [], [];
    }

    /** A new client takes over, with empty buffers. */
    method Accept()
      requires Valid()
      modifies this
      ensures Valid() && connected
      ensures queued == [] && written == [] && read == [] && relayed == []
    {
      if connected {
        CloseConnection();
      }
      connected := true;
      tcpRx, tcpTx := [], [];
      queued, written, read, relayed := [], [], [], [];
    }

    method CloseConnection()
      requires Valid()
      modifies this
      ensures Valid() && !connected && tcpRx == [] && tcpTx == []
    {
      if !connected {
        return;
      }
      connected := false;
      tcpRx, tcpTx := [], [];
    }

    /** Sends every complete frame on, and keeps what is left. */
    method DrainTcpFrames() returns (datagrams: seq<Payload>)
      modifies this`tcpRx
      ensures datagrams == Repaired(Parse(old(tcpRx)).0)
      ensures tcpRx == Parse(old(tcpRx)).1
    {
      hide FromBE16, Normalize;
      datagrams := [];
      ghost var raw: seq<Payload> := [];
      assert raw + Parse(tcpRx).0 == Parse(tcpRx).0;
      while |tcpRx| >= 2
        invariant Parse(old(tcpRx)).0 == raw + Parse(tcpRx).0 && Parse(old(tcpRx)).1 == Parse(tcpRx).1
        invariant datagrams == Repaired(raw)
        decreases |tcpRx|
      {
        var frameLen: nat := FromBE16(tcpRx[..2]);
        if |tcpRx| < 2 + frameLen {
          assert raw + [] == raw;
          return;
        }
        var frame: Payload := tcpRx[2..2 + frameLen];
        var repaired := NormalizeIpv4Checksums(frame);
        assert raw + ([frame] + Parse(tcpRx[2 + frameLen..]).0) == raw + [frame] + Parse(tcpRx[2 + frameLen..]).0;
        tcpRx := tcpRx[2 + frameLen..];
        datagrams := datagrams + [repaired];
        assert Repaired(raw + [frame]) == Repaired(raw) + [Normalize(frame)];
        raw := raw + [frame];
      }
      assert raw + [] == raw;
    }

    /** The client's socket is ready: write some of the queue, read some of the stream. The socket takes
        no more than it is offered, and the selector may refuse the connection afterwards. */
    method TcpReady(sending: Sending, receiving: Receiving, reselected: bool) returns (datagrams: seq<Payload>)
      requires Valid()
      requires sending.Sent? ==> sending.count <= |tcpTx|
      modifies this
      ensures Valid()
      ensures connected <==>
        && old(connected) && reselected && !receiving.ReceiveFailed? && !receiving.Disconnected?
        && !(sending.SendFailed? && old(tcpTx) != [])
      ensures datagrams ==
        if old(connected) && receiving.Received? && !(sending.SendFailed? && old(tcpTx) != [])
        then Repaired(Parse(old(tcpRx) + receiving.data).0) else []
      ensures connected ==> queued == old(queued) && relayed == old(relayed) + datagrams
      ensures connected ==>
        && read == old(read) + (if receiving.Received? then receiving.data else [])
        && written == old(written) + (if sending.Sent? then old(tcpTx)[..sending.count] else [])
    {
      hide Parse, Frames, Repaired, Sound;
      datagrams := [];
      if !connected {
        return;
      }
      assert relayed + [] == relayed && read + [] == read && written + [] == written;
      if |tcpTx| > 0 {
        if sending.SendFailed? {
          CloseConnection();
          return;
        }
        if sending.Sent? {
          written := written + tcpTx[..sending.count];
          tcpTx := tcpTx[sending.count..];
          assert written + tcpTx == old(written) + old(tcpTx);
        }
      } else {
        assert sending.Sent? ==> tcpTx[..sending.count] == [];
      }
      if receiving.ReceiveFailed? || receiving.Disconnected? {
        CloseConnection();
        return;
      }
      if receiving.Received? {
        var data := receiving.data;
        ParseAppend(read, data);
        tcpRx := tcpRx + data;
        datagrams := DrainTcpFrames();
        read := read + data;
        RepairedAppend(Parse(old(read)).0, Parse(Parse(old(read)).1 + data).0);
        relayed := relayed + datagrams;
      }
      if !reselected {
        CloseConnection();
      }
    }

    /** A datagram arrives: it is queued for the client, if there is one. */
    method UdpReadable(data: seq<Byte>, reselected: bool)
      requires Valid()
      modifies this
      ensures Valid()
      ensures connected <==> old(connected) && (|data| > 0xffff || reselected)
      ensures connected ==> written == old(written) && read == old(read) && relayed == old(relayed)
      ensures connected ==>
        queued == if |data| <= 0xffff then old(queued) + [Normalize(data)] else old(queued)
    {
      if !connected {
        return;
      }
      if |data| > 0xffff {
        return;
      }
      var repaired := NormalizeIpv4Checksums(data);
      NormalizeIdempotent(data);
      hide Normalize, BE16, Parse, Repaired, Frames;
      ghost var before := tcpTx;
      tcpTx := tcpTx + BE16(|repaired|);
      tcpTx := tcpTx + repaired;
      FramesOneMore(queued, repaired);
      Regroup(written, before, BE16(|repaired|), repaired);
      queued := queued + [repaired];
      if !reselected {
        CloseConnection();
      }
    }
  }

  lemma FramesOneMore(payloads: seq<Payload>, payload: Payload)
    ensures Frames(payloads + [payload]) == Frames(payloads) + (BE16(|payload|) + payload)
  {
    hide BE16;
    FramesAppend(payloads, [payload]);
    assert [payload][1..] == [] && Frames([payload]) == Framed(payload) + [];
  }

  lemma Regroup(a: seq<Byte>, b: seq<Byte>, c: seq<Byte>, d: seq<Byte>)
    ensures a + (b + c + d) == a + b + (c + d)
  {
  }

  lemma RepairedAppend(a: seq<Payload>, b: seq<Payload>)
    ensures Repaired(a + b) == Repaired(a) + Repaired(b)
  {
    hide Normalize;
  }

  /** Two relays back to back, over any stream that delivers in order: whatever the sizes of writes and
      reads, the far relay has sent on a prefix of the datagrams queued at the near one, unchanged, and all
      of them once the stream has been read to its end. */
  lemma EndToEnd(near: Relay, far: Relay)
    requires near.Valid() && far.Valid() && near.connected && far.connected && far.read <= near.written
    ensures far.relayed <= near.queued
    ensures near.tcpTx == [] && far.read == near.written ==> far.relayed == near.queued && far.tcpRx == []
  {
    hide Normalize;
    PrefixParse(near.queued, far.read);
    var found := Parse(far.read).0;
    assert forall i | 0 <= i < |found| :: found[i] == near.queued[i];
    assert Repaired(found) == found;
  }

  /** Draining chunk by chunk, from any leftover. */
  function DrainAll(leftover: seq<Byte>, chunks: seq<seq<Byte>>): (r: (seq<Payload>, seq<Byte>))
    decreases |chunks|
  {
    if chunks == [] then ([], leftover)
    else
      var (first, rest) := Parse(leftover + chunks[0]);
      var (more, last) := DrainAll(rest, chunks[1..]);
      (first + more, last)
  }

  function Joined(chunks: seq<seq<Byte>>): (s: seq<Byte>) {
    if chunks == [] then [] else chunks[0] + Joined(chunks[1..])
  }

  /** How a stream is cut into chunks does not matter. */
  lemma {:induction false} ChunkingIrrelevant(leftover: seq<Byte>, chunks: seq<seq<Byte>>)
    requires Parse(leftover).0 == []
    ensures DrainAll(leftover, chunks).0 == Parse(leftover + Joined(chunks)).0
    ensures DrainAll(leftover, chunks).1 == Parse(leftover + Joined(chunks)).1
    decreases |chunks|
  {
    hide Parse, FromBE16;
    ParseKeeps(leftover);
    assert Frames([]) + Parse(leftover).1 == Parse(leftover).1;
    if chunks == [] {
      assert leftover + [] == leftover;
    } else {
      var s := leftover + chunks[0];
      var tail := Joined(chunks[1..]);
      ParseKeeps(s);
      ChunkingIrrelevant(Parse(s).1, chunks[1..]);
      ParseAppend(s, tail);
      assert leftover + (chunks[0] + tail) == s + tail;
    }
  }
}
