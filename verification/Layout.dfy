/** Where each field of a message lies on the wire, in numbers. */
module Layout {
  import opened Bytes
  import opened Messages
  import opened Options
  import opened Validation
  import opened Codec
  import opened Wire

  /** The fixed fields of each kind of message at their offsets. */
  predicate FixedFields(m: Message, w: seq<Byte>)
    requires |w| >= 24 || (|w| >= 20 && !m.RegistrationRequest? && !m.CapabilitiesInfo?)
  {
    && w[4..8] == m.homeAddress
    && match m
       case RegistrationRequest(flags, lifetime, _, homeAgent, careOfAddress, identification, _, _) =>
         && w[0] == 1 && w[1] == flags && 256 * w[2] as int + w[3] == lifetime && w[8..12] == homeAgent
         && w[12..16] == careOfAddress && FromBE(w[16..24]) == identification
       case RegistrationReply(code, lifetime, _, homeAgent, identification, _, _) =>
         && w[0] == 3 && w[1] == code && 256 * w[2] as int + w[3] == lifetime && w[8..12] == homeAgent
         && FromBE(w[12..20]) == identification
       case RegistrationUpdate(_, _, homeAgent, identification, _, _, _) =>
         w[0] == 0x14 && w[1..4] == [0, 0, 0] && w[8..12] == homeAgent && FromBE(w[12..20]) == identification
       case RegistrationAcknowledge(_, status, _, careOfAddress, identification, _, _) =>
         && w[0] == 0x15 && w[1..3] == [0, 0] && w[3] == status && w[8..12] == careOfAddress
         && FromBE(w[12..20]) == identification
       case SessionUpdate(_, _, homeAgent, identification, _, _, _) =>
         w[0] == 0x16 && w[1..4] == [0, 0, 0] && w[8..12] == homeAgent && FromBE(w[12..20]) == identification
       case SessionUpdateAcknowledge(_, status, _, careOfAddress, identification, _, _) =>
         && w[0] == 0x17 && w[1..3] == [0, 0] && w[3] == status && w[8..12] == careOfAddress
         && FromBE(w[12..20]) == identification
       case CapabilitiesInfo(_, _, homeAgent, careOfAddress, identification, _, _) =>
         && w[0] == 0x18 && w[1..4] == [0, 0, 0] && w[8..12] == homeAgent && w[12..16] == careOfAddress
         && FromBE(w[16..24]) == identification
       case CapabilitiesInfoAcknowledge(_, _, careOfAddress, identification, _, _) =>
         w[0] == 0x19 && w[1..4] == [0, 0, 0] && w[8..12] == careOfAddress && FromBE(w[12..20]) == identification
  }

  /** The fields of a session behind the header that ends at `n`. */
  predicate SessionFieldsAt(s: Session, w: seq<Byte>, n: nat)
    requires |w| >= n + 15
  {
    && w[n] == 0x27 && w[n + 1] == w[n + 14] as int + 13
    && FromBE(w[n + 2..n + 4]) == s.protocolType && FromBE(w[n + 4..n + 8]) == s.pcfSessionId
    && w[n + 8] == 0 && w[n + 9] == 64 * s.sessionIdVersion
    && FromBE(w[n + 10..n + 12]) == s.mnSessionReferenceId && FromBE(w[n + 12..n + 14]) == s.mnIdType
    && w[n + 14] == |s.mnId| && |w| >= n + 15 + |s.mnId| && w[n + 15..n + 15 + |s.mnId|] == s.mnId
  }

  lemma FixedLayout(m: Message, w: seq<Byte>)
    requires |w| >= HeaderLength(m) && HeaderFields(m, w) && Validate(m).Ok?
    ensures FixedFields(m, w)
  {
    ValidateIff(m);
    hide Validate, FromBE, ToBE, ExtensionsValid, NvsesValid, SessionWellFormed;
    var n := HeaderLength(m);
    assert BE64(m.identification) == w[n - 8..n];
    hide BE64, FromBE64;
    if m.WithExtensions() {
      assert w[1..4] == [w[1], w[2], w[3]];
      Two(m.lifetime);
    } else if m.RegistrationAcknowledge? || m.SessionUpdateAcknowledge? {
      assert w[1..4] == w[1..3] + [w[3]];
    }
    if n == 24 {
      Join(w, 8, 12, 16, m.homeAgent, m.careOfAddress);
    }
  }

  lemma Two(x: U16)
    ensures BE16(x) == [x / 256, x % 256] && 256 * (x / 256) + x % 256 == x
  {
    assert ToBE(x / 256, 1) == [x / 256 % 256];
  }

  lemma SessionLayout(s: Session, w: seq<Byte>, n: nat, rest: seq<Byte>)
    requires SessionWellFormed(s) && n <= |w| && w[n..] == SessionWire(s) + rest
    ensures |w| >= n + 15 + |s.mnId| && SessionFieldsAt(s, w, n)
  {
    hide ToBE, FromBE, SessionWellFormed;
    assert |s.mnId| <= 8 && s.sessionIdVersion <= 1 by {
      Bounds(s);
    }
    var a, b, c := BE16(s.protocolType), BE32(s.pcfSessionId), BE16(s.mnSessionReferenceId);
    var d := BE16(s.mnIdType);
    var head: seq<Byte>, zero: seq<Byte>, len: seq<Byte> :=
      [SESSION_TYPE, 13 + |s.mnId|], [0, 64 * s.sessionIdVersion], [|s.mnId|];
    assert SessionWire(s) == head + (a + b + zero + c + d + len + s.mnId);
    hide BE16, BE32, SessionWire;
    EightParts(w, n, head, a, b, zero, c, d, len, s.mnId, rest);
  }

  lemma EightParts(w: seq<Byte>, n: nat, head: seq<Byte>, a: seq<Byte>, b: seq<Byte>, zero: seq<Byte>, c: seq<Byte>,
                   d: seq<Byte>, len: seq<Byte>, id: seq<Byte>, rest: seq<Byte>)
    requires n <= |w| && w[n..] == head + (a + b + zero + c + d + len + id) + rest
    requires |head| == |a| == |zero| == |c| == |d| == 2 && |b| == 4 && |len| == 1
    ensures |w| >= n + 15 + |id| && w[n] == head[0] && w[n + 1] == head[1] && w[n + 2..n + 4] == a
    ensures w[n + 4..n + 8] == b && w[n + 8] == zero[0] && w[n + 9] == zero[1] && w[n + 10..n + 12] == c
    ensures w[n + 12..n + 14] == d && w[n + 14] == len[0] && w[n + 15..n + 15 + |id|] == id
  {
    var tail6 := id + rest;
    var tail5 := len + tail6;
    var tail4 := d + tail5;
    var tail3 := c + tail4;
    var tail2 := zero + tail3;
    var tail1 := b + tail2;
    assert w[n..] == head + (a + tail1);
    Cut(w, n, head, a + tail1);
    Cut(w, n + 2, a, tail1);
    Cut(w, n + 4, b, tail2);
    Cut(w, n + 8, zero, tail3);
    Cut(w, n + 10, c, tail4);
    Cut(w, n + 12, d, tail5);
    Cut(w, n + 14, len, tail6);
    Cut(w, n + 15, id, rest);
    assert w[n + 0] == head[0] && w[n + 8 + 0] == zero[0] && w[n + 14 + 0] == len[0];
  }

  lemma Bounds(s: Session)
    requires SessionWellFormed(s)
    ensures |s.mnId| <= 8 && s.sessionIdVersion <= 1
  {
  }

  /** In all octets that decode, the fields of the message lie at these offsets. */
  lemma Fields(w: seq<Byte>, m: Message)
    requires DecodeMessage(w) == Ok(m)
    ensures |w| >= HeaderLength(m) && FixedFields(m, w)
    ensures m.OfSession() ==> |w| >= HeaderLength(m) + 15 && SessionFieldsAt(m.session, w, HeaderLength(m))
  {
    DecodeIff(m, w);
    hide DecodeMessage, Validate, PartsCanonical, Tail, Header, FixedFields, SessionFieldsAt, SessionWire;
    var n := HeaderLength(m);
    Starts(w, Header(m), SessionPart(m), Tail(m));
    HeaderIff(m, w);
    FixedLayout(m, w);
    if m.OfSession() {
      SessionLayout(m.session, w, n, Tail(m));
    }
  }

  lemma Starts(w: seq<Byte>, a: seq<Byte>, b: seq<Byte>, c: seq<Byte>)
    requires w == a + b + c
    ensures |w| >= |a| && w[..|a|] == a && w[|a|..] == b + c
  {
    assert a + b + c == a + (b + c);
  }
}
