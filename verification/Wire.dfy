/** Whole A11 messages on the wire: eight fixed headers, the session extension, and what follows it. */
module Wire {
  import opened Bytes
  import opened Messages
  import opened Codec

  // Layout

  function HeaderLength(m: Message): (n: nat) {
    if m.RegistrationRequest? || m.CapabilitiesInfo? then 24 else 20
  }

  /** The octets between the message type and the home address. */
  function FirstWord(m: Message): (w: seq<Byte>)
    ensures |w| == 3
  {
    match m
    case RegistrationRequest(flags, lifetime, _, _, _, _, _, _) => [flags] + BE16(lifetime)
    case RegistrationReply(code, lifetime, _, _, _, _, _) => [code] + BE16(lifetime)
    case RegistrationAcknowledge(reserved, status, _, _, _, _, _) => reserved + [status]
    case SessionUpdateAcknowledge(reserved, status, _, _, _, _, _) => reserved + [status]
    case _ => m.reserved3
  }

  /** The addresses between the home address and the identification. */
  function Addresses(m: Message): (w: seq<Byte>)
    ensures |w| == HeaderLength(m) - 16
  {
    match m
    case RegistrationRequest(_, _, _, homeAgent, careOfAddress, _, _, _) => homeAgent + careOfAddress
    case CapabilitiesInfo(_, _, homeAgent, careOfAddress, _, _, _) => homeAgent + careOfAddress
    case RegistrationReply(_, _, _, homeAgent, _, _, _) => homeAgent
    case RegistrationUpdate(_, _, homeAgent, _, _, _, _) => homeAgent
    case SessionUpdate(_, _, homeAgent, _, _, _, _) => homeAgent
    case _ => m.careOfAddress
  }

  function Header(m: Message): (w: seq<Byte>)
    ensures |w| == HeaderLength(m)
  {
    [MessageType(m)] + FirstWord(m) + m.homeAddress + Addresses(m) + BE64(m.identification)
  }

  function SessionPart(m: Message): (w: seq<Byte>) {
    if m.OfSession() then SessionWire(m.session) else []
  }

  function Tail(m: Message): (w: seq<Byte>) {
    if m.WithExtensions() then ExtensionsWire(m.extensions)
    else if m.WithNvses() then NvsesWire(m.nvses) + AuthenticationWire(m.authentication)
    else AuthenticationWire(m.authentication)
  }

  /** The octets that stand for a message. */
  function MessageWire(m: Message): (w: seq<Byte>) {
    Header(m) + SessionPart(m) + Tail(m)
  }

  // Encoding

  function EncodeTail(m: Message): (r: Result<seq<Byte>>)
    ensures r.Ok? ==> r.value == Tail(m)
  {
    if m.WithExtensions() then EncodeExtensions(m.extensions)
    else if m.WithNvses() then
      var nvses :- EncodeNvses(m.nvses);
      var authentication :- EncodeAuthentication(m.authentication);
      Ok(nvses + authentication)
    else EncodeAuthentication(m.authentication)
  }

  /** Validation has already accepted the session, so encoding it cannot fail. */
  function Encode(m: Message): (r: Result<seq<Byte>>)
    ensures r.Ok? ==> r.value == MessageWire(m) && |r.value| >= HeaderLength(m)
  {
    var _ :- Validate(m);
    var tail :- EncodeTail(m);
    Ok(Header(m) + SessionPart(m) + tail)
  }

  /** Appends encoded extensions to an output buffer, in order, stopping at the first refusal. */
  method AppendExtensions(out: seq<Byte>, extensions: seq<Extension>) returns (r: Result<seq<Byte>>)
    ensures r == Prepend(out, EncodeExtensions(extensions))
  {
    hide EncodeExtension;
    var buffer := out;
    assert extensions[0..] == extensions;
    for i := 0 to |extensions|
      invariant Prepend(out, EncodeExtensions(extensions)) == Prepend(buffer, EncodeExtensions(extensions[i..]))
    {
      assert extensions[i..][0] == extensions[i] && extensions[i..][1..] == extensions[i + 1..];
      var encoded := EncodeExtension(extensions[i]);
      if encoded.Err? {
        return Err(encoded.error);
      }
      PrependAll(buffer, encoded.value, EncodeExtensions(extensions[i + 1..]));
      buffer := buffer + encoded.value;
    }
    assert buffer + [] == buffer;
    return Ok(buffer);
  }

  // Decoding

  function Validated(m: Message): (r: Result<Message>)
    ensures r.Ok? ==> r.value == m && Validate(m).Ok?
  {
    var _ :- Validate(m);
    Ok(m)
  }

  function DecodeRequest(input: seq<Byte>): (r: Result<Message>)
    ensures r.Ok? ==> r.value.RegistrationRequest?
  {
    if |input| < 24 then Err(Truncated(24, |input|))
    else
      var (session, used) :- DecodeSession(input[24..]);
      var extensions :- CollectFrom(input[24 + used..], 0, NOTHING_SEEN);
      var m := RegistrationRequest(
        input[1], FromBE16(input[2..4]), input[4..8], input[8..12], input[12..16], FromBE64(input[16..24]),
        session, extensions);
      Validated(m)
  }

  function DecodeReply(input: seq<Byte>): (r: Result<Message>)
    ensures r.Ok? ==> r.value.RegistrationReply?
  {
    if |input| < 20 then Err(Truncated(20, |input|))
    else
      var (session, used) :- DecodeSession(input[20..]);
      var extensions :- CollectFrom(input[20 + used..], 0, NOTHING_SEEN);
      var m := RegistrationReply(
        input[1], FromBE16(input[2..4]), input[4..8], input[8..12], FromBE64(input[12..20]), session, extensions);
      Validated(m)
  }

  function DecodeUpdate(input: seq<Byte>): (r: Result<Message>)
    ensures r.Ok? ==> r.value.RegistrationUpdate?
  {
    if |input| < 20 then Err(Truncated(20, |input|))
    else
      var (session, used) :- DecodeSession(input[20..]);
      var (nvses, authentication) :- DecodeNvsesWithAuthentication(input[20 + used..], RegistrationUpdateAuth);
      var m := RegistrationUpdate(
        input[1..4], input[4..8], input[8..12], FromBE64(input[12..20]), session, nvses, authentication);
      Validated(m)
  }

  function DecodeAcknowledge(input: seq<Byte>): (r: Result<Message>)
    ensures r.Ok? ==> r.value.RegistrationAcknowledge?
  {
    if |input| < 20 then Err(Truncated(20, |input|))
    else
      var (session, used) :- DecodeSession(input[20..]);
      var authentication :- DecodeRequiredAuthentication(input[20 + used..], RegistrationUpdateAuth);
      var m := RegistrationAcknowledge(
        input[1..3], input[3], input[4..8], input[8..12], FromBE64(input[12..20]), session, authentication);
      Validated(m)
  }

  function DecodeSessionUpdate(input: seq<Byte>): (r: Result<Message>)
    ensures r.Ok? ==> r.value.SessionUpdate?
  {
    if |input| < 20 then Err(Truncated(20, |input|))
    else
      var (session, used) :- DecodeSession(input[20..]);
      var (nvses, authentication) :- DecodeNvsesWithAuthentication(input[20 + used..], RegistrationUpdateAuth);
      var m := SessionUpdate(
        input[1..4], input[4..8], input[8..12], FromBE64(input[12..20]), session, nvses, authentication);
      Validated(m)
  }

  function DecodeSessionUpdateAcknowledge(input: seq<Byte>): (r: Result<Message>)
    ensures r.Ok? ==> r.value.SessionUpdateAcknowledge?
  {
    if |input| < 20 then Err(Truncated(20, |input|))
    else
      var (session, used) :- DecodeSession(input[20..]);
      var authentication :- DecodeRequiredAuthentication(input[20 + used..], RegistrationUpdateAuth);
      var m := SessionUpdateAcknowledge(
        input[1..3], input[3], input[4..8], input[8..12], FromBE64(input[12..20]), session, authentication);
      Validated(m)
  }

  function DecodeCapabilitiesInfo(input: seq<Byte>): (r: Result<Message>)
    ensures r.Ok? ==> r.value.CapabilitiesInfo?
  {
    if |input| < 24 then Err(Truncated(24, |input|))
    else
      var (nvses, authentication) :- DecodeNvsesWithAuthentication(input[24..], RegistrationUpdateAuth);
      var m := CapabilitiesInfo(
        input[1..4], input[4..8], input[8..12], input[12..16], FromBE64(input[16..24]), nvses, authentication);
      Validated(m)
  }

  function DecodeCapabilitiesInfoAcknowledge(input: seq<Byte>): (r: Result<Message>)
    ensures r.Ok? ==> r.value.CapabilitiesInfoAcknowledge?
  {
    if |input| < 20 then Err(Truncated(20, |input|))
    else
      var (nvses, authentication) :- DecodeNvsesWithAuthentication(input[20..], RegistrationUpdateAuth);
      var m := CapabilitiesInfoAcknowledge(
        input[1..4], input[4..8], input[8..12], FromBE64(input[12..20]), nvses, authentication);
      Validated(m)
  }

  function DecodeMessage(input: seq<Byte>): (r: Result<Message>) {
    if input == [] then Err(EmptyMessage)
    else
      match input[0]
      case 0x01 => DecodeRequest(input)
      case 0x03 => DecodeReply(input)
      case 0x14 => DecodeUpdate(input)
      case 0x15 => DecodeAcknowledge(input)
      case 0x16 => DecodeSessionUpdate(input)
      case 0x17 => DecodeSessionUpdateAcknowledge(input)
      case 0x18 => DecodeCapabilitiesInfo(input)
      case 0x19 => DecodeCapabilitiesInfoAcknowledge(input)
      case other => Err(UnknownMessageType(other))
  }

  // Parser and printer

  /** Every part of the message is one the wire can carry unambiguously. */
  predicate PartsCanonical(m: Message) {
    && (m.WithExtensions() ==> forall e <- m.extensions :: ExtensionCanonical(e))
    && (m.WithNvses() ==> forall n <- m.nvses :: NvseCanonical(n))
    && (!m.WithExtensions() ==> AuthenticationCanonical(m.authentication))
  }

  /** The messages the decoder can produce. */
  predicate WellFormed(m: Message) {
    Validate(m).Ok? && PartsCanonical(m)
  }

  /** The header fields of `m` are the ones the decoder reads from `input`. */
  predicate HeaderFields(m: Message, input: seq<Byte>)
    requires |input| >= HeaderLength(m)
  {
    && input[0] == MessageType(m)
    && input[1..4] == FirstWord(m)
    && input[4..8] == m.homeAddress
    && input[8..HeaderLength(m) - 8] == Addresses(m)
    && FromBE64(input[HeaderLength(m) - 8..HeaderLength(m)]) == m.identification
  }

  lemma HeaderIff(m: Message, input: seq<Byte>)
    requires |input| >= HeaderLength(m)
    ensures HeaderFields(m, input) <==> input[..HeaderLength(m)] == Header(m)
  {
    hide FromBE64, BE64, FirstWord, Addresses, MessageType;
    var n := HeaderLength(m);
    BE64Iff(m.identification, input[n - 8..n]);
    var first := [MessageType(m)];
    Join(input, 0, 1, 4, first, FirstWord(m));
    Join(input, 0, 4, 8, first + FirstWord(m), m.homeAddress);
    Join(input, 0, 8, n - 8, first + FirstWord(m) + m.homeAddress, Addresses(m));
    Join(input, 0, n - 8, n, first + FirstWord(m) + m.homeAddress + Addresses(m), BE64(m.identification));
    assert input[0..1] == [input[0]];
  }

  /** The decoder reads the rest of `m` from `rest`. */
  predicate TailReads(m: Message, rest: seq<Byte>) {
    if m.WithExtensions() then CollectFrom(rest, 0, NOTHING_SEEN) == Ok(m.extensions)
    else if m.WithNvses() then
      var r := DecodeNvsesWithAuthentication(rest, RegistrationUpdateAuth);
      r.Ok? && r.value.0 == m.nvses && r.value.1 == m.authentication
    else DecodeRequiredAuthentication(rest, RegistrationUpdateAuth) == Ok(m.authentication)
  }

  lemma ValidateTail(m: Message)
    requires Validate(m).Ok?
    ensures m.WithExtensions() ==> ValidateExtensionsFrom(m.extensions, NOTHING_SEEN, MessageType(m)).Ok?
    ensures m.WithExtensions() ==> RequiredAuthentication(m.extensions, MobileHome).Ok?
    ensures m.WithNvses() ==> ValidateNvsesFrom(m.nvses, {}, MessageType(m)).Ok?
    ensures !m.WithExtensions() ==> m.authentication.extensionType == RegistrationUpdateAuth
  {
  }

  lemma TailIff(m: Message, rest: seq<Byte>)
    requires Validate(m).Ok?
    ensures TailReads(m, rest) <==> PartsCanonical(m) && rest == Tail(m)
  {
    ValidateTail(m);
    hide Validate, CollectFrom, NvsesFrom, ExtensionCanonical, NvseCanonical, DecodeRequiredAuthentication,
      ExtensionsWire, NvsesWire, AuthenticationWire, AuthenticationCanonical;
    assert rest[0..] == rest;
    if m.WithExtensions() {
      if TailReads(m, rest) {
        CollectEncodes(m.extensions, rest, 0, NOTHING_SEEN);
      }
      if PartsCanonical(m) && rest == Tail(m) {
        CollectDecodes(m.extensions, rest, 0, NOTHING_SEEN, MessageType(m));
      }
    } else if m.WithNvses() {
      if TailReads(m, rest) {
        var r := NvsesFrom(rest, 0, {}, RegistrationUpdateAuth);
        assert r.value == (r.value.0, r.value.1);
        NvsesEncode(m.nvses, m.authentication, rest, 0, {}, RegistrationUpdateAuth);
      }
      if PartsCanonical(m) && rest == Tail(m) {
        AuthenticationWireShape(m.authentication);
        NvsesDecode(m.nvses, m.authentication, rest, 0, {}, MessageType(m));
      }
    } else {
      RequiredAuthenticationIff(m.authentication, rest, RegistrationUpdateAuth);
    }
  }

  /** The session and the rest of `m` follow the header in `input`. */
  predicate BodyReads(m: Message, input: seq<Byte>)
    requires |input| >= HeaderLength(m)
  {
    if m.OfSession() then
      var session := DecodeSession(input[HeaderLength(m)..]);
      session.Ok? && session.value.0 == m.session && TailReads(m, input[HeaderLength(m) + session.value.1..])
    else TailReads(m, input[HeaderLength(m)..])
  }

  predicate PartsRead(m: Message, input: seq<Byte>) {
    |input| >= HeaderLength(m) && HeaderFields(m, input) && Validate(m).Ok? && BodyReads(m, input)
  }

  lemma OneOctet(input: seq<Byte>, i: nat)
    requires i < |input|
    ensures input[i..i + 1] == [input[i]]
  {
  }

  lemma RequestParts(m: Message, input: seq<Byte>)
    requires m.RegistrationRequest? && input != [] && input[0] == MessageType(m)
    ensures DecodeRequest(input) == Ok(m) <==> PartsRead(m, input)
  {
    hide BE16, FromBE16, FromBE64, Validate, DecodeSession, CollectFrom, DecodeNvsesWithAuthentication,
      DecodeRequiredAuthentication;
    if |input| >= 24 {
      Join(input, 1, 2, 4, [m.flags], BE16(m.lifetime));
      BE16Iff(m.lifetime, input[2..4]);
      Join(input, 8, 12, 16, m.homeAgent, m.careOfAddress);
      OneOctet(input, 1);
    }
  }

  lemma ReplyParts(m: Message, input: seq<Byte>)
    requires m.RegistrationReply? && input != [] && input[0] == MessageType(m)
    ensures DecodeReply(input) == Ok(m) <==> PartsRead(m, input)
  {
    hide BE16, FromBE16, FromBE64, Validate, DecodeSession, CollectFrom, DecodeNvsesWithAuthentication,
      DecodeRequiredAuthentication;
    if |input| >= 20 {
      Join(input, 1, 2, 4, [m.code], BE16(m.lifetime));
      BE16Iff(m.lifetime, input[2..4]);
      OneOctet(input, 1);
    }
  }

  lemma UpdateParts(m: Message, input: seq<Byte>)
    requires m.RegistrationUpdate? && input != [] && input[0] == MessageType(m)
    ensures DecodeUpdate(input) == Ok(m) <==> PartsRead(m, input)
  {
    hide BE16, FromBE16, FromBE64, Validate, DecodeSession, CollectFrom, DecodeNvsesWithAuthentication,
      DecodeRequiredAuthentication;
  }

  lemma AcknowledgeParts(m: Message, input: seq<Byte>)
    requires m.RegistrationAcknowledge? && input != [] && input[0] == MessageType(m)
    ensures DecodeAcknowledge(input) == Ok(m) <==> PartsRead(m, input)
  {
    hide BE16, FromBE16, FromBE64, Validate, DecodeSession, CollectFrom, DecodeNvsesWithAuthentication,
      DecodeRequiredAuthentication;
    if |input| >= 20 {
      Join(input, 1, 3, 4, m.reserved2, [m.status]);
      OneOctet(input, 3);
    }
  }

  lemma SessionUpdateParts(m: Message, input: seq<Byte>)
    requires m.SessionUpdate? && input != [] && input[0] == MessageType(m)
    ensures DecodeSessionUpdate(input) == Ok(m) <==> PartsRead(m, input)
  {
    hide BE16, FromBE16, FromBE64, Validate, DecodeSession, CollectFrom, DecodeNvsesWithAuthentication,
      DecodeRequiredAuthentication;
  }

  lemma SessionUpdateAcknowledgeParts(m: Message, input: seq<Byte>)
    requires m.SessionUpdateAcknowledge? && input != [] && input[0] == MessageType(m)
    ensures DecodeSessionUpdateAcknowledge(input) == Ok(m) <==> PartsRead(m, input)
  {
    hide BE16, FromBE16, FromBE64, Validate, DecodeSession, CollectFrom, DecodeNvsesWithAuthentication,
      DecodeRequiredAuthentication;
    if |input| >= 20 {
      Join(input, 1, 3, 4, m.reserved2, [m.status]);
      OneOctet(input, 3);
    }
  }

  lemma CapabilitiesInfoParts(m: Message, input: seq<Byte>)
    requires m.CapabilitiesInfo? && input != [] && input[0] == MessageType(m)
    ensures DecodeCapabilitiesInfo(input) == Ok(m) <==> PartsRead(m, input)
  {
    hide BE16, FromBE16, FromBE64, Validate, DecodeSession, CollectFrom, DecodeNvsesWithAuthentication,
      DecodeRequiredAuthentication;
    if |input| >= 24 {
      Join(input, 8, 12, 16, m.homeAgent, m.careOfAddress);
    }
  }

  lemma CapabilitiesInfoAcknowledgeParts(m: Message, input: seq<Byte>)
    requires m.CapabilitiesInfoAcknowledge? && input != [] && input[0] == MessageType(m)
    ensures DecodeCapabilitiesInfoAcknowledge(input) == Ok(m) <==> PartsRead(m, input)
  {
    hide BE16, FromBE16, FromBE64, Validate, DecodeSession, CollectFrom, DecodeNvsesWithAuthentication,
      DecodeRequiredAuthentication;
  }

  /** What the eight decoders have in common. */
  lemma DecodeParts(m: Message, input: seq<Byte>)
    ensures DecodeMessage(input) == Ok(m) <==> PartsRead(m, input)
  {
    hide Validate, BodyReads, FirstWord, Addresses, FromBE64, DecodeRequest, DecodeReply, DecodeUpdate,
      DecodeAcknowledge, DecodeSessionUpdate, DecodeSessionUpdateAcknowledge, DecodeCapabilitiesInfo,
      DecodeCapabilitiesInfoAcknowledge;
    if input != [] && input[0] == MessageType(m) {
      match m
      case RegistrationRequest(_, _, _, _, _, _, _, _) => RequestParts(m, input);
      case RegistrationReply(_, _, _, _, _, _, _) => ReplyParts(m, input);
      case RegistrationUpdate(_, _, _, _, _, _, _) => UpdateParts(m, input);
      case RegistrationAcknowledge(_, _, _, _, _, _, _) => AcknowledgeParts(m, input);
      case SessionUpdate(_, _, _, _, _, _, _) => SessionUpdateParts(m, input);
      case SessionUpdateAcknowledge(_, _, _, _, _, _, _) => SessionUpdateAcknowledgeParts(m, input);
      case CapabilitiesInfo(_, _, _, _, _, _, _) => CapabilitiesInfoParts(m, input);
      case CapabilitiesInfoAcknowledge(_, _, _, _, _, _) => CapabilitiesInfoAcknowledgeParts(m, input);
    }
  }

  /** Decoding and the wire layout are inverse to each other: `w` decodes to `m` exactly when `m` is
      well formed and `w` is its layout. */
  lemma DecodeIff(m: Message, w: seq<Byte>)
    ensures DecodeMessage(w) == Ok(m) <==> WellFormed(m) && w == MessageWire(m)
  {
    DecodeParts(m, w);
    hide DecodeMessage, HeaderFields, Header, Validate, Tail, PartsCanonical, DecodeSession, SessionWire;
    var h := HeaderLength(m);
    if |w| >= h {
      HeaderIff(m, w);
      if m.OfSession() {
        SessionCut(m, w);
      } else if Validate(m).Ok? {
        TailIff(m, w[h..]);
        assert w == w[..h] + [] + w[h..];
      }
    }
  }

  lemma SessionCut(m: Message, w: seq<Byte>)
    requires m.OfSession() && |w| >= HeaderLength(m)
    ensures w[..HeaderLength(m)] == Header(m) && Validate(m).Ok? && BodyReads(m, w)
       <==> WellFormed(m) && w == MessageWire(m)
  {
    hide Header, Validate, TailReads, Tail, PartsCanonical, DecodeSession, SessionWire, SessionWellFormed;
    var h := HeaderLength(m);
    var s := SessionWire(m.session);
    if Validate(m).Ok? {
      var session := DecodeSession(w[h..]);
      if session.Ok? && session.value.0 == m.session {
        assert session.value == (session.value.0, session.value.1);
        SessionIff(m.session, w[h..], session.value.1);
      }
      SessionIff(m.session, w[h..], |s|);
      if h + |s| <= |w| {
        TailIff(m, w[h + |s|..]);
        Join(w, 0, h, h + |s|, Header(m), s);
        assert w[h..h + |s|] == w[h..][..|s|];
        if |w| == h + |s| + |Tail(m)| {
          Join(w, 0, h + |s|, |w|, Header(m) + s, Tail(m));
          assert w[0..|w|] == w && w[h + |s|..|w|] == w[h + |s|..];
        }
      }
    }
  }

  // What the two directions give

  predicate UnambiguousExtension(e: Extension) {
    && (e.NvseExtension? && e.nvse.UnknownNvse? ==> !KnownKey(e.nvse.key))
    && (e.Raw? ==> e.extensionType !in [0x20, CVSE_TYPE, SESSION_TYPE, 0x28, NVSE_TYPE])
  }

  /** No part of the message poses as something the decoder would read differently. */
  predicate Unambiguous(m: Message) {
    && (m.WithExtensions() ==> forall e <- m.extensions :: UnambiguousExtension(e))
    && (m.WithNvses() ==> forall n <- m.nvses :: n.UnknownNvse? ==> !KnownKey(n.key))
  }

  predicate ValueEncodable(e: Extension) {
    e.NvseExtension? ==> NvseValueEncodable(e.nvse)
  }

  /** No NVSE carries a value the encoder refuses: an RN-PDIT of zero or an unsupported PDSN code. */
  predicate ValuesEncodable(m: Message) {
    && (m.WithExtensions() ==> forall e <- m.extensions :: ValueEncodable(e))
    && (m.WithNvses() ==> forall n <- m.nvses :: NvseValueEncodable(n))
  }

  lemma {:induction false} EncodeExtensionsIff(extensions: seq<Extension>)
    ensures EncodeExtensions(extensions).Ok? <==> forall e <- extensions :: EncodeExtension(e).Ok?
  {
    hide EncodeExtension;
    if extensions != [] {
      assert extensions == [extensions[0]] + extensions[1..];
      EncodeExtensionsIff(extensions[1..]);
    }
  }

  /** A well-formed message is exactly an unambiguous one the encoder would take but for its values. */
  lemma EncodeIff(m: Message)
    ensures Encode(m).Ok? && Unambiguous(m) <==> WellFormed(m) && ValuesEncodable(m)
  {
    hide Validate, Header, SessionPart, EncodeTail, Unambiguous, PartsCanonical, ValuesEncodable;
    if Validate(m).Ok? {
      if m.WithExtensions() {
        ExtensionTailIff(m);
      } else {
        OtherTailIff(m);
      }
    }
  }

  lemma ExtensionTailIff(m: Message)
    requires Validate(m).Ok? && m.WithExtensions()
    ensures EncodeTail(m).Ok? && Unambiguous(m) <==> PartsCanonical(m) && ValuesEncodable(m)
  {
    ValidateTail(m);
    EncodeExtensionsIff(m.extensions);
    ValidateExtensionsIff(m.extensions, NOTHING_SEEN, MessageType(m));
    forall e <- m.extensions
      ensures EncodeExtension(e).Ok? && UnambiguousExtension(e) <==> ExtensionCanonical(e) && ValueEncodable(e)
    {
      ExtensionIff(e);
    }
    hide Validate, EncodeExtension, EncodeExtensions, UnambiguousExtension, ExtensionCanonical, ValueEncodable;
  }

  lemma ExtensionIff(e: Extension)
    requires !e.SessionExtension?
    ensures EncodeExtension(e).Ok? && UnambiguousExtension(e) <==> ExtensionCanonical(e) && ValueEncodable(e)
  {
    hide KnownKey, NvseValueEncodable, ApplicationData, AuthenticationWire, SessionWire;
  }

  lemma OtherTailIff(m: Message)
    requires Validate(m).Ok? && !m.WithExtensions()
    ensures EncodeTail(m).Ok? && Unambiguous(m) <==> PartsCanonical(m) && ValuesEncodable(m)
  {
    hide Validate, KnownKey, NvseValueEncodable, ApplicationData, AuthenticationWire, SessionWire;
  }

  /** Of the messages the encoder accepts, encoding then decoding gives back exactly the unambiguous ones. */
  lemma RoundTrip(m: Message)
    requires Encode(m).Ok?
    ensures DecodeMessage(Encode(m).value) == Ok(m) <==> Unambiguous(m)
  {
    hide WellFormed, Unambiguous, DecodeMessage;
    EncodeIff(m);
    DecodeIff(m, MessageWire(m));
    if WellFormed(m) {
      WellFormedUnambiguous(m);
    }
  }

  /** Every octet string that decodes is the canonical form of its message: encoding the message again
      returns the same octets, or fails on one of the two values the decoder is laxer about. */
  lemma Reencode(w: seq<Byte>)
    requires DecodeMessage(w).Ok?
    ensures
      var m := DecodeMessage(w).value;
      && Unambiguous(m)
      && (Encode(m) == Ok(w) <==> ValuesEncodable(m))
      && (Encode(m).Err? <==> !ValuesEncodable(m))
      && (Encode(m).Err? ==> ValueError(Encode(m).error))
  {
    var m := DecodeMessage(w).value;
    hide DecodeMessage, Encode, MessageWire, Unambiguous, ValuesEncodable, WellFormed;
    DecodeIff(m, w);
    EncodeIff(m);
    WellFormedUnambiguous(m);
    EncodeValueError(m);
  }

  predicate ValueError(e: Error) {
    e == InvalidValue(PdsnCodeValue) || e == InvalidValue(RnPditValue)
  }

  lemma {:induction false} ExtensionsValueError(extensions: seq<Extension>)
    requires forall e <- extensions :: ExtensionCanonical(e)
    ensures EncodeExtensions(extensions).Err? ==> ValueError(EncodeExtensions(extensions).error)
  {
    hide SessionWire, AuthenticationWire, NvseWire, CriticalVendorWire, ApplicationData;
    if extensions != [] {
      ExtensionsValueError(extensions[1..]);
      assert extensions[0] in extensions;
    }
  }

  lemma {:induction false} NvsesValueError(nvses: seq<Nvse>)
    requires forall n <- nvses :: NvseCanonical(n)
    ensures EncodeNvses(nvses).Err? ==> ValueError(EncodeNvses(nvses).error)
  {
    hide NvseWire, ApplicationData;
    if nvses != [] {
      NvsesValueError(nvses[1..]);
      assert nvses[0] in nvses;
    }
  }

  lemma EncodeValueError(m: Message)
    requires WellFormed(m)
    ensures Encode(m).Err? ==> ValueError(Encode(m).error)
  {
    hide Validate, Header, SessionPart, ExtensionCanonical, NvseCanonical, AuthenticationWire;
    if m.WithExtensions() {
      ExtensionsValueError(m.extensions);
    } else if m.WithNvses() {
      NvsesValueError(m.nvses);
    }
  }

  lemma WellFormedUnambiguous(m: Message)
    requires WellFormed(m)
    ensures Unambiguous(m)
  {
  }

  /** No two octet strings stand for the same message. */
  lemma NoTwoForms(w: seq<Byte>, w': seq<Byte>)
    requires DecodeMessage(w).Ok? && DecodeMessage(w) == DecodeMessage(w')
    ensures w == w'
  {
    hide DecodeMessage, MessageWire, WellFormed;
    DecodeIff(DecodeMessage(w).value, w);
    DecodeIff(DecodeMessage(w).value, w');
  }

  // Inputs on the failing sides

  const SOME_SESSION: Session := Session(0x8881, 1, 0, 1, 6, [1, 2, 3, 4, 5, 6])
  const SOME_AUTHENTICATOR: Authentication :=
    Authentication(RegistrationUpdateAuth, 256, [0, 0, 0, 0, 0, 0, 0, 0, 0, 0, 0, 0, 0, 0, 0, 0])

  /** A registration update with one vendor extension. */
  function UpdateWith(n: Nvse): (m: Message) {
    RegistrationUpdate([0, 0, 0], [0, 0, 0, 0], [0, 0, 0, 0], 1, SOME_SESSION, [n], SOME_AUTHENTICATOR)
  }

  lemma UpdateValid(n: Nvse)
    requires n.PdsnCode? || n.UnknownNvse?
    ensures Validate(UpdateWith(n)).Ok?
  {
    assert SessionWellFormed(SOME_SESSION);
    assert NvsesWellFormed([n], MessageType(UpdateWith(n)));
    ValidateNvsesIff([n], {}, MessageType(UpdateWith(n)));
    hide ValidateNvsesFrom, SessionWellFormed;
  }

  /** The PDSN code's own form, held as an unknown extension. */
  const DISGUISED: Nvse := UnknownNvse(NvseKey(THREEGPP2_VENDOR_ID, 7, 1), [0xc1])

  /** An unknown extension under a known key encodes, and comes back as something else. */
  lemma DisguiseNotReturned()
    ensures Encode(UpdateWith(DISGUISED)).Ok?
    ensures DecodeMessage(Encode(UpdateWith(DISGUISED)).value) != Ok(UpdateWith(DISGUISED))
  {
    var m := UpdateWith(DISGUISED);
    UpdateValid(DISGUISED);
    OneNvseEncodes(DISGUISED);
    assert AuthenticationCanonical(SOME_AUTHENTICATOR);
    assert Encode(m).Ok? by {
      hide Validate, EncodeNvses, EncodeAuthentication, Header, SessionPart;
    }
    assert DISGUISED in m.nvses && !Unambiguous(m);
    hide Encode, DecodeMessage, Unambiguous;
    RoundTrip(m);
  }

  lemma OneNvseEncodes(n: Nvse)
    requires EncodeNvse(n).Ok?
    ensures EncodeNvses([n]).Ok?
  {
    hide EncodeNvse;
    assert [n][0] == n && [n][1..] == [];
  }

  /** A PDSN code the encoder does not know decodes, and is refused when encoded again. */
  lemma UnknownCodeNotReencoded()
    ensures DecodeMessage(MessageWire(UpdateWith(PdsnCode(0)))) == Ok(UpdateWith(PdsnCode(0)))
    ensures Encode(UpdateWith(PdsnCode(0))).Err?
  {
    var m := UpdateWith(PdsnCode(0));
    UpdateValid(PdsnCode(0));
    assert AuthenticationCanonical(SOME_AUTHENTICATOR) && NvseCanonical(PdsnCode(0));
    assert PdsnCode(0) in m.nvses && !ValuesEncodable(m);
    assert WellFormed(m);
    hide Encode, DecodeMessage, ValuesEncodable, WellFormed, MessageWire;
    DecodeIff(m, MessageWire(m));
    Reencode(MessageWire(m));
  }
}
