/**
 The A11 wire format: Mobile-IP style headers followed by type-length-value extensions, most with a
 one-octet length and the critical vendor extension with a two-octet one.
 */
module Codec {
  import opened Bytes
  import opened Messages

  // Normal vendor/organization specific extensions

  /** The octets after the application subtype. */
  function ApplicationData(n: Nvse): (s: seq<Byte>) {
    match n
    case AccessNetworkIdentifiers(identifiers) => identifiers
    case AnchorPPAddress(address) => address
    case AllDormantIndicator => [0, 0]
    case PdsnCode(code) => [code]
    case RnPdit(seconds) => [seconds]
    case ServiceOption(option) => BE16(option)
    case UnknownNvse(_, data) => data
    case _ => []
  }

  /** The layout of an NVSE: what the encoder writes once it has accepted the value. */
  function NvseWire(n: Nvse): (w: seq<Byte>) {
    var key, data := n.ApplicationKey(), ApplicationData(n);
    [NVSE_TYPE, (8 + |data|) % 256, 0, 0] + BE32(key.vendorId) + [key.applicationType, key.applicationSubtype] + data
  }

  /** The values the encoder refuses although the decoder lets them through. */
  predicate NvseValueEncodable(n: Nvse) {
    && (n.PdsnCode? ==> 0xc1 <= n.code <= 0xc8 || n.code == 0xca || n.code == 0xcb)
    && (n.RnPdit? ==> n.seconds != 0)
  }

  function EncodeNvse(n: Nvse): (r: Result<seq<Byte>>)
    ensures r.Ok? <==> NvseValueEncodable(n) && 8 + |ApplicationData(n)| <= 255
    ensures r.Ok? ==> r.value == NvseWire(n)
  {
    if !NvseValueEncodable(n) then Err(InvalidValue(if n.PdsnCode? then PdsnCodeValue else RnPditValue))
    else if 8 + |ApplicationData(n)| > 255 then Err(InvalidExtensionLength(255, 8 + |ApplicationData(n)|))
    else Ok(NvseWire(n))
  }

  /** Gives the vendor payload its type. */
  function FromApplication(key: NvseKey, data: seq<Byte>): (r: Result<Nvse>) {
    if key.vendorId != THREEGPP2_VENDOR_ID then Ok(UnknownNvse(key, data))
    else
      match (key.applicationType, key.applicationSubtype)
      case (0x04, 0x01) => Ok(AccessNetworkIdentifiers(data))
      case (0x05, 0x01) => if |data| != 4 then Err(InvalidExtensionLength(4, |data|)) else Ok(AnchorPPAddress(data))
      case (0x06, 0x01) => if data != [0, 0] then Err(InvalidValue(AllDormantValue)) else Ok(AllDormantIndicator)
      case (0x07, 0x01) => if |data| != 1 then Err(InvalidExtensionLength(1, |data|)) else Ok(PdsnCode(data[0]))
      case (0x08, 0x01) => if |data| != 1 then Err(InvalidExtensionLength(1, |data|)) else Ok(RnPdit(data[0]))
      case (0x08, 0x02) => if data != [] then Err(InvalidExtensionLength(0, |data|)) else Ok(AlwaysOn)
      case (0x09, 0x01) =>
        if |data| != 2 then Err(InvalidExtensionLength(2, |data|)) else Ok(ServiceOption(FromBE16(data)))
      case (0x0a, 0x01) => if data != [] then Err(InvalidExtensionLength(0, |data|)) else Ok(FlowControlEnabled)
      case (0x0a, 0x02) => if data != [] then Err(InvalidExtensionLength(0, |data|)) else Ok(PacketBoundaryEnabled)
      case (0x0b, 0x01) =>
        if data != [] then Err(InvalidExtensionLength(0, |data|)) else Ok(ShortDataIndicationSupported)
      case (0x0b, 0x02) => if data != [] then Err(InvalidExtensionLength(0, |data|)) else Ok(GreSegmentationEnabled)
      case _ => Ok(UnknownNvse(key, data))
  }

  function DecodeNvse(input: seq<Byte>): (r: Result<Nvse>) {
    if |input| < 10 then Err(InvalidExtensionLength(10, if |input| < 2 then 0 else |input| - 2))
    else if input[0] != NVSE_TYPE then Err(InvalidValue(NvseType))
    else if |input| != 2 + input[1] as int then Err(Truncated(2 + input[1] as int, |input|))
    else if input[2] != 0 || input[3] != 0 then Err(InvalidValue(NvseReserved))
    else FromApplication(NvseKey(FromBE32(input[4..8]), input[8], input[9]), input[10..])
  }

  predicate KnownKey(k: NvseKey) {
    && k.vendorId == THREEGPP2_VENDOR_ID
    && (k.applicationType, k.applicationSubtype) in {
      (0x04, 0x01), (0x05, 0x01), (0x06, 0x01), (0x07, 0x01), (0x08, 0x01), (0x08, 0x02),
      (0x09, 0x01), (0x0a, 0x01), (0x0a, 0x02), (0x0b, 0x01), (0x0b, 0x02)}
  }

  /** An NVSE the wire can carry unambiguously: an unknown one must not pose as a known one. */
  predicate NvseCanonical(n: Nvse) {
    && (n.UnknownNvse? ==> !KnownKey(n.key))
    && 8 + |ApplicationData(n)| <= 255
  }

  lemma FromApplicationIff(n: Nvse, key: NvseKey, data: seq<Byte>)
    ensures FromApplication(key, data) == Ok(n)
       <==> (n.UnknownNvse? ==> !KnownKey(n.key)) && key == n.ApplicationKey() && data == ApplicationData(n)
  {
  }

  lemma NvseIff(n: Nvse, w: seq<Byte>)
    ensures DecodeNvse(w) == Ok(n) <==> NvseCanonical(n) && w == NvseWire(n)
  {
    hide ToBE, FromBE, BE32, FromApplication, ApplicationData, KnownKey, NvseWire;
    NvseFields(n, w);
    if |w| >= 10 {
      FromApplicationIff(n, NvseKey(FromBE32(w[4..8]), w[8], w[9]), w[10..]);
    }
  }

  /** A vendor extension's wire form, field by field. */
  lemma NvseFields(n: Nvse, w: seq<Byte>)
    ensures w == NvseWire(n)
       <==> && |w| >= 10 && w[0] == NVSE_TYPE && w[1] == (8 + |ApplicationData(n)|) % 256 && w[2] == 0 && w[3] == 0
            && NvseKey(FromBE32(w[4..8]), w[8], w[9]) == n.ApplicationKey() && w[10..] == ApplicationData(n)
  {
    hide ToBE, FromBE, BE32, ApplicationData;
    var key, data := n.ApplicationKey(), ApplicationData(n);
    var head: seq<Byte>, tail: seq<Byte> :=
      [NVSE_TYPE, (8 + |data|) % 256, 0, 0], [key.applicationType, key.applicationSubtype];
    FourParts(w, head, BE32(key.vendorId), tail, data);
    if |w| >= 10 {
      assert w[..4] == [w[0], w[1], w[2], w[3]] && w[8..10] == [w[8], w[9]];
    }
  }

  lemma FourParts(w: seq<Byte>, a: seq<Byte>, b: seq<Byte>, c: seq<Byte>, d: seq<Byte>)
    requires |a| == 4 && |b| == 4 && |c| == 2
    ensures w == a + b + c + d <==> |w| >= 10 && w[..4] == a && w[4..8] == b && w[8..10] == c && w[10..] == d
  {
    if w == a + b + c + d {
      assert w == a + (b + (c + d)) == w[0..];
      Cut(w, 0, a, b + (c + d));
      Cut(w, 4, b, c + d);
      Cut(w, 8, c, d);
    } else if |w| >= 10 {
      assert w == w[..4] + w[4..8] + w[8..10] + w[10..];
    }
  }

  // Authentication, critical vendor and session extensions

  function AuthenticationWire(a: Authentication): (w: seq<Byte>) {
    [a.extensionType.Value(), (4 + |a.authenticator|) % 256] + BE32(a.spi) + a.authenticator
  }

  predicate AuthenticationCanonical(a: Authentication) {
    a.spi != 0 && |a.authenticator| == AUTHENTICATOR_BYTES
  }

  function EncodeAuthentication(a: Authentication): (r: Result<seq<Byte>>)
    ensures r.Ok? <==> AuthenticationCanonical(a)
    ensures r.Ok? ==> r.value == AuthenticationWire(a)
  {
    if a.spi == 0 then Err(InvalidSpi)
    else if |a.authenticator| != 16 then Err(InvalidExtensionLength(16, |a.authenticator|))
    else Ok(AuthenticationWire(a))
  }

  function AuthenticationTypeOf(b: Byte): (r: Result<AuthenticationType>)
    ensures forall t: AuthenticationType :: r == Ok(t) <==> t.Value() == b
  {
    if b == 0x20 then Ok(MobileHome)
    else if b == 0x28 then Ok(RegistrationUpdateAuth)
    else Err(InvalidValue(AuthenticationTypeUnsupported))
  }

  function DecodeAuthentication(t: Byte, value: seq<Byte>): (r: Result<Authentication>) {
    if |value| < 4 then Err(InvalidExtensionLength(4, |value|))
    else if FromBE32(value[..4]) == 0 then Err(InvalidSpi)
    else if |value| - 4 != 16 then Err(InvalidExtensionLength(16, |value| - 4))
    else
      var extensionType :- AuthenticationTypeOf(t);
      Ok(Authentication(extensionType, FromBE32(value[..4]), value[4..]))
  }

  lemma AuthenticationIff(a: Authentication, w: seq<Byte>)
    requires |w| >= 2 && |w| == 2 + w[1] as int
    ensures DecodeAuthentication(w[0], w[2..]) == Ok(a) <==> AuthenticationCanonical(a) && w == AuthenticationWire(a)
  {
    hide ToBE, FromBE, BE32;
    if |w| >= 6 {
      assert w[2..][..4] == w[2..6] && w[2..][4..] == w[6..];
      assert w == w[..2] + w[2..6] + w[6..];
      if w == AuthenticationWire(a) {
        assert w[2..6] == BE32(a.spi) && w[6..] == a.authenticator;
      }
    }
  }

  function CriticalVendorWire(reserved: Byte, value: seq<Byte>): (w: seq<Byte>) {
    [CVSE_TYPE, reserved] + BE16(|value| % 0x1_0000) + value
  }

  function SessionWire(s: Session): (w: seq<Byte>)
    ensures |w| == 15 + |s.mnId|
  {
    [SESSION_TYPE, (13 + |s.mnId|) % 256] + SessionValue(s)
  }

  /** The octets after the length; a shift left by six keeps the low two bits of the version. */
  function SessionValue(s: Session): (v: seq<Byte>)
    ensures |v| == 13 + |s.mnId|
  {
    BE16(s.protocolType) + BE32(s.pcfSessionId) + [0, (s.sessionIdVersion * 64) % 256]
    + BE16(s.mnSessionReferenceId) + BE16(s.mnIdType) + [|s.mnId| % 256] + s.mnId
  }

  function EncodeSession(s: Session): (r: Result<seq<Byte>>)
    ensures r.Ok? <==> SessionWellFormed(s)
    ensures r.Ok? ==> r.value == SessionWire(s)
  {
    var _ :- ValidateSession(s);
    Ok(SessionWire(s))
  }

  /** The fields of a session extension, from the octets after its length. */
  function SessionFields(v: seq<Byte>): (s: Session)
    requires |v| >= 13
  {
    Session(FromBE16(v[0..2]), FromBE32(v[2..6]), v[7] / 64, FromBE16(v[8..10]), FromBE16(v[10..12]), v[13..])
  }

  /** Reads a session extension from the front of the input, together with the octets it took. */
  function DecodeSession(input: seq<Byte>): (r: Result<(Session, nat)>)
    ensures r.Ok? ==> r.value.1 <= |input|
  {
    if |input| < 2 then Err(Truncated(2, |input|))
    else if |input| < 2 + input[1] as int then Err(Truncated(2 + input[1] as int, |input|))
    else if input[0] != SESSION_TYPE || input[1] < 13 then Err(InvalidExtensionLength(13, input[1]))
    else
      var v := input[2..2 + input[1] as int];
      if v[6] != 0 || v[7] % 64 != 0 then Err(InvalidValue(SessionReserved))
      else if |v| != 13 + v[12] as int then Err(InvalidExtensionLength(13 + v[12] as int, |v|))
      else
        var _ :- ValidateSession(SessionFields(v));
        Ok((SessionFields(v), 2 + input[1] as int))
  }

  lemma SessionFieldsInvert(s: Session, v: seq<Byte>)
    requires |v| >= 13 && v[6] == 0 && v[7] % 64 == 0 && v[12] == |v| - 13
    requires s.sessionIdVersion <= 3 && |s.mnId| < 240
    ensures SessionFields(v) == s <==> v == SessionValue(s)
  {
    hide ToBE, FromBE, BE16, BE32;
    if |v| == 13 + |s.mnId| {
      var w2 := BE16(s.protocolType);
      var w6 := w2 + BE32(s.pcfSessionId);
      var w8 := w6 + [0, s.sessionIdVersion * 64];
      var w10 := w8 + BE16(s.mnSessionReferenceId);
      var w12 := w10 + BE16(s.mnIdType);
      var w13 := w12 + [|s.mnId|];
      Join(v, 0, 2, 6, w2, BE32(s.pcfSessionId));
      Join(v, 0, 6, 8, w6, [0, s.sessionIdVersion * 64]);
      Join(v, 0, 8, 10, w8, BE16(s.mnSessionReferenceId));
      Join(v, 0, 10, 12, w10, BE16(s.mnIdType));
      Join(v, 0, 12, 13, w12, [|s.mnId|]);
      Join(v, 0, 13, |v|, w13, s.mnId);
      assert v[6..8] == [v[6], v[7]] && v[12..13] == [v[12]] && v[0..|v|] == v && v[13..|v|] == v[13..];
    }
  }

  lemma SessionIff(s: Session, input: seq<Byte>, used: nat)
    ensures DecodeSession(input) == Ok((s, used))
       <==> SessionWellFormed(s) && used == |SessionWire(s)| && SessionWire(s) <= input
  {
    hide ToBE, FromBE, SessionFields, SessionValue, MsidWellFormed;
    var w := SessionWire(s);
    if DecodeSession(input) == Ok((s, used)) {
      var v := input[2..2 + input[1] as int];
      SessionFieldsInvert(s, v);
      assert input[..used] == [input[0], input[1]] + v;
    }
    if SessionWellFormed(s) && used == |w| && w <= input {
      assert input[1] == w[1] && input[0] == w[0];
      var v := input[2..2 + input[1] as int];
      assert v == w[2..] == SessionValue(s);
      SessionValueReserved(s);
      SessionFieldsInvert(s, v);
    }
  }

  lemma SessionValueReserved(s: Session)
    requires s.sessionIdVersion <= 3 && |s.mnId| < 240
    ensures
      var v := SessionValue(s);
      v[6] == 0 && v[7] % 64 == 0 && v[12] == |s.mnId|
  {
    hide ToBE, BE16, BE32;
  }

  // Single extensions

  function ExtensionWire(e: Extension): (w: seq<Byte>) {
    match e
    case SessionExtension(s) => SessionWire(s)
    case AuthenticationExtension(a) => AuthenticationWire(a)
    case CriticalVendor(reserved, value) => CriticalVendorWire(reserved, value)
    case NvseExtension(n) => NvseWire(n)
    case Raw(t, value) => [t, |value| % 256] + value
  }

  function EncodeExtension(e: Extension): (r: Result<seq<Byte>>)
    ensures r.Ok? ==> r.value == ExtensionWire(e)
  {
    match e
    case SessionExtension(s) => EncodeSession(s)
    case AuthenticationExtension(a) => EncodeAuthentication(a)
    case CriticalVendor(_, value) =>
      if |value| > 0xffff then Err(InvalidExtensionLength(0xffff, |value|)) else Ok(ExtensionWire(e))
    case NvseExtension(n) => EncodeNvse(n)
    case Raw(_, value) => if |value| > 255 then Err(InvalidExtensionLength(255, |value|)) else Ok(ExtensionWire(e))
  }

  /** The extent of the extension that starts at `offset`: its header and the length it declares. */
  function Extent(input: seq<Byte>, offset: nat): (n: nat)
    requires offset + 2 <= |input|
    requires input[offset] == CVSE_TYPE ==> offset + 4 <= |input|
    ensures n >= 2
  {
    if input[offset] == CVSE_TYPE then 4 + FromBE16(input[offset + 2..offset + 4])
    else 2 + input[offset + 1] as int
  }

  /** Decodes one extension from exactly its own octets. */
  function DecodeExtension(input: seq<Byte>): (r: Result<Extension>) {
    if |input| < 2 then Err(Truncated(2, |input|))
    else if input[0] == CVSE_TYPE && |input| < 4 then Err(Truncated(4, |input|))
    else if |input| != Extent(input, 0) then Err(Truncated(Extent(input, 0), |input|))
    else if input[0] == SESSION_TYPE then
      var (s, used) :- DecodeSession(input);
      if used != |input| then Err(Truncated(|input|, used)) else Ok(SessionExtension(s))
    else if input[0] == 0x20 || input[0] == 0x28 then
      var a :- DecodeAuthentication(input[0], input[2..]);
      Ok(AuthenticationExtension(a))
    else if input[0] == CVSE_TYPE then Ok(CriticalVendor(input[1], input[4..]))
    else if input[0] == NVSE_TYPE then
      var n :- DecodeNvse(input);
      Ok(NvseExtension(n))
    else Ok(Raw(input[0], input[2..]))
  }

  /** An extension the wire can carry unambiguously: a raw one must not use a type with a meaning of its own. */
  predicate ExtensionCanonical(e: Extension) {
    match e
    case SessionExtension(s) => SessionWellFormed(s)
    case AuthenticationExtension(a) => AuthenticationCanonical(a)
    case CriticalVendor(_, value) => |value| <= 0xffff
    case NvseExtension(n) => NvseCanonical(n)
    case Raw(t, value) => t !in [0x20, CVSE_TYPE, SESSION_TYPE, 0x28, NVSE_TYPE] && |value| <= 255
  }

  lemma CriticalVendorIff(reserved: Byte, value: seq<Byte>, w: seq<Byte>)
    requires |w| >= 4 && w[0] == CVSE_TYPE && |value| <= 0xffff
    ensures |w| == 4 + FromBE16(w[2..4]) && w[1] == reserved && w[4..] == value
       <==> w == CriticalVendorWire(reserved, value)
  {
    hide ToBE, FromBE, BE16;
    assert w == [w[0], w[1]] + w[2..4] + w[4..];
    if w == CriticalVendorWire(reserved, value) {
      assert w[2..4] == BE16(|value|);
    }
  }

  lemma ExtensionWireShape(e: Extension)
    requires ExtensionCanonical(e)
    ensures |ExtensionWire(e)| >= 2 && (e.CriticalVendor? ==> |ExtensionWire(e)| >= 4)
    ensures e.CriticalVendor? <==> ExtensionWire(e)[0] == CVSE_TYPE
    ensures Extent(ExtensionWire(e), 0) == |ExtensionWire(e)|
  {
    hide ToBE, FromBE, BE16, SessionValue, NvseWire, NvseCanonical, AuthenticationWire, AuthenticationCanonical;
    match e {
      case SessionExtension(s) =>
      case AuthenticationExtension(a) => AuthenticationWireShape(a);
      case CriticalVendor(_, value) => assert CriticalVendorWire(e.reserved, value)[2..4] == BE16(|value|);
      case NvseExtension(n) => NvseWireShape(n);
      case Raw(_, _) =>
    }
  }

  /** An accepted extension declares its own length. */
  lemma ExtensionExtent(e: Extension, input: seq<Byte>, offset: nat)
    requires ExtensionCanonical(e) && offset <= |input| && ExtensionWire(e) <= input[offset..]
    ensures |ExtensionWire(e)| >= 2 && (e.CriticalVendor? ==> |ExtensionWire(e)| >= 4)
    ensures input[offset] == ExtensionWire(e)[0] && (e.CriticalVendor? <==> input[offset] == CVSE_TYPE)
    ensures Extent(input, offset) == |ExtensionWire(e)|
    ensures input[offset..offset + |ExtensionWire(e)|] == ExtensionWire(e)
  {
    hide FromBE16, ExtensionWire, ExtensionCanonical;
    var w := ExtensionWire(e);
    ExtensionWireShape(e);
    assert input[offset..] == w + input[offset..][|w|..];
    Cut(input, offset, w, input[offset..][|w|..]);
    assert input[offset] == w[0] && input[offset + 1] == w[1];
    if e.CriticalVendor? {
      assert input[offset + 2..offset + 4] == w[2..4];
    }
  }

  lemma SessionExtensionIff(s: Session, w: seq<Byte>)
    ensures DecodeSession(w) == Ok((s, |w|)) <==> SessionWellFormed(s) && w == SessionWire(s)
  {
    hide SessionWire, DecodeSession;
    SessionIff(s, w, |w|);
  }

  lemma ExtensionDecodes(e: Extension)
    requires ExtensionCanonical(e)
    ensures DecodeExtension(ExtensionWire(e)) == Ok(e)
  {
    hide ToBE, FromBE, BE16, BE32, ApplicationData, DecodeNvse, DecodeAuthentication, DecodeSession, SessionWellFormed;
    var w := ExtensionWire(e);
    assert w <= w[0..];
    ExtensionExtent(e, w, 0);
    match e {
      case SessionExtension(s) => SessionExtensionIff(s, w);
      case AuthenticationExtension(a) => AuthenticationIff(a, w);
      case CriticalVendor(reserved, value) => CriticalVendorIff(reserved, value, w);
      case NvseExtension(n) => NvseIff(n, w);
      case Raw(_, _) =>
    }
  }

  lemma ExtensionEncodes(e: Extension, w: seq<Byte>)
    requires DecodeExtension(w) == Ok(e)
    ensures ExtensionCanonical(e) && w == ExtensionWire(e)
  {
    hide ToBE, FromBE, BE16, BE32, ApplicationData, DecodeNvse, DecodeAuthentication, DecodeSession, SessionWellFormed;
    match e {
      case SessionExtension(s) => SessionExtensionIff(s, w);
      case AuthenticationExtension(a) => AuthenticationIff(a, w);
      case CriticalVendor(reserved, value) => CriticalVendorIff(reserved, value, w);
      case NvseExtension(n) => NvseIff(n, w);
      case Raw(_, _) =>
    }
  }

  // Extension lists

  function ExtensionsWire(extensions: seq<Extension>): (w: seq<Byte>) {
    if extensions == [] then [] else ExtensionWire(extensions[0]) + ExtensionsWire(extensions[1..])
  }

  function EncodeExtensions(extensions: seq<Extension>): (r: Result<seq<Byte>>)
    ensures r.Ok? ==> r.value == ExtensionsWire(extensions)
  {
    if extensions == [] then Ok([])
    else
      var head :- EncodeExtension(extensions[0]);
      var tail :- EncodeExtensions(extensions[1..]);
      Ok(head + tail)
  }

  /** The octets of one extension at `offset`, or why there is none. */
  function ExtensionAt(input: seq<Byte>, offset: nat): (r: Result<nat>)
    requires offset < |input|
    ensures r.Ok? ==> offset + 2 <= r.value <= |input|
  {
    if |input| - offset < 2 then Err(Truncated(offset + 2, |input|))
    else if input[offset] == CVSE_TYPE && |input| - offset < 4 then Err(Truncated(offset + 4, |input|))
    else if |input| < offset + Extent(input, offset) then Err(Truncated(offset + Extent(input, offset), |input|))
    else Ok(offset + Extent(input, offset))
  }

  /** Reads extensions to the end of the input, refusing a second one under any key. */
  function CollectFrom(input: seq<Byte>, offset: nat, seen: Seen): (r: Result<seq<Extension>>)
    requires offset <= |input|
    decreases |input| - offset
  {
    if offset == |input| then Ok([])
    else
      var end :- ExtensionAt(input, offset);
      var e :- DecodeExtension(input[offset..end]);
      var seen' :- Admit(seen, e);
      var rest :- CollectFrom(input, end, seen');
      Ok([e] + rest)
  }

  lemma {:induction false} CollectDecodes(extensions: seq<Extension>, input: seq<Byte>, offset: nat, seen: Seen,
                                          messageType: Byte)
    requires offset <= |input| && input[offset..] == ExtensionsWire(extensions)
    requires forall e <- extensions :: ExtensionCanonical(e)
    requires ValidateExtensionsFrom(extensions, seen, messageType).Ok?
    ensures CollectFrom(input, offset, seen) == Ok(extensions)
    decreases |extensions|
  {
    hide *;
    if extensions == [] {
      CollectNothing(input, offset, seen);
    } else {
      var e, tail := extensions[0], extensions[1..];
      ValidateHead(extensions, seen, messageType);
      ExtensionsWireHead(extensions);
      CollectStep(e, input, offset, ExtensionsWire(tail), seen);
      CollectDecodes(tail, input, offset + |ExtensionWire(e)|, Admit(seen, e).value, messageType);
      PrependHead(extensions);
    }
  }

  lemma CollectNothing(input: seq<Byte>, offset: nat, seen: Seen)
    requires offset <= |input| && input[offset..] == ExtensionsWire([])
    ensures CollectFrom(input, offset, seen) == Ok([])
  {
    assert offset == |input|;
  }

  lemma ExtensionsWireHead(extensions: seq<Extension>)
    requires extensions != []
    ensures ExtensionsWire(extensions) == ExtensionWire(extensions[0]) + ExtensionsWire(extensions[1..])
  {
    hide ExtensionWire;
  }

  lemma PrependHead(extensions: seq<Extension>)
    requires extensions != []
    ensures Prepend([extensions[0]], Ok(extensions[1..])) == Ok(extensions)
  {
    assert extensions == [extensions[0]] + extensions[1..];
  }

  lemma ValidateHead(extensions: seq<Extension>, seen: Seen, messageType: Byte)
    requires extensions != [] && ValidateExtensionsFrom(extensions, seen, messageType).Ok?
    ensures Admit(seen, extensions[0]).Ok?
    ensures ValidateExtensionsFrom(extensions[1..], Admit(seen, extensions[0]).value, messageType).Ok?
  {
    hide Admit, NvseAdmissible;
  }

  /** An extension that is next on the wire and admitted is collected in front of the others. */
  lemma CollectStep(e: Extension, input: seq<Byte>, offset: nat, rest: seq<Byte>, seen: Seen)
    requires ExtensionCanonical(e) && offset <= |input| && input[offset..] == ExtensionWire(e) + rest
    requires Admit(seen, e).Ok?
    ensures
      var next := offset + |ExtensionWire(e)|;
      && next <= |input| && input[next..] == rest
      && CollectFrom(input, offset, seen) == Prepend([e], CollectFrom(input, next, Admit(seen, e).value))
  {
    hide ExtensionWire, ExtensionCanonical, DecodeExtension, Admit, Extent;
    Cut(input, offset, ExtensionWire(e), rest);
    ExtensionExtent(e, input, offset);
    ExtensionDecodes(e);
  }

  lemma {:induction false} CollectEncodes(extensions: seq<Extension>, input: seq<Byte>, offset: nat, seen: Seen)
    requires offset <= |input| && CollectFrom(input, offset, seen) == Ok(extensions)
    ensures input[offset..] == ExtensionsWire(extensions)
    ensures forall e <- extensions :: ExtensionCanonical(e)
    decreases |input| - offset
  {
    hide ExtensionWire, ExtensionCanonical, DecodeExtension, Admit, Extent;
    if offset < |input| {
      var end := ExtensionAt(input, offset).value;
      var e := DecodeExtension(input[offset..end]).value;
      ExtensionEncodes(e, input[offset..end]);
      CollectEncodes(extensions[1..], input, end, Admit(seen, e).value);
      assert input[offset..] == input[offset..end] + input[end..];
    }
  }

  /** The collecting loop, with the offset and the three key sets it keeps. */
  method CollectExtensions(input: seq<Byte>) returns (r: Result<seq<Extension>>)
    ensures r == CollectFrom(input, 0, NOTHING_SEEN)
  {
    hide DecodeExtension;
    var extensions: seq<Extension> := [];
    var rawTypes, authTypes, nvseKeys := {}, {}, {};
    var offset := 0;
    assert forall s: seq<Extension> :: [] + s == s;
    while offset < |input|
      invariant offset <= |input|
      invariant CollectFrom(input, 0, NOTHING_SEEN)
             == Prepend(extensions, CollectFrom(input, offset, Seen(rawTypes, authTypes, nvseKeys)))
    {
      if |input| - offset < 2 {
        return Err(Truncated(offset + 2, |input|));
      }
      var headerLength, length := 2, input[offset + 1] as int;
      if input[offset] == CVSE_TYPE {
        if |input| - offset < 4 {
          return Err(Truncated(offset + 4, |input|));
        }
        headerLength, length := 4, FromBE16(input[offset + 2..offset + 4]);
      }
      var end := offset + headerLength + length;
      if |input| < end {
        return Err(Truncated(end, |input|));
      }
      var decoded := DecodeExtension(input[offset..end]);
      if decoded.Err? {
        return Err(decoded.error);
      }
      var extension := decoded.value;
      match extension {
        case SessionExtension(_) =>
          return Err(InvalidValue(SessionExtensionMisplaced));
        case AuthenticationExtension(a) =>
          if a.extensionType.Value() in authTypes {
            return Err(DuplicateExtension(a.extensionType.Value()));
          }
          authTypes := authTypes + {a.extensionType.Value()};
        case CriticalVendor(_, _) =>
        case NvseExtension(n) =>
          if n.ApplicationKey() in nvseKeys {
            return Err(DuplicateExtension(NVSE_TYPE));
          }
          nvseKeys := nvseKeys + {n.ApplicationKey()};
        case Raw(t, _) =>
          if t in rawTypes {
            return Err(DuplicateExtension(t));
          }
          rawTypes := rawTypes + {t};
      }
      PrependAll(extensions, [extension], CollectFrom(input, end, Seen(rawTypes, authTypes, nvseKeys)));
      extensions := extensions + [extension];
      offset := end;
    }
    assert extensions + [] == extensions;
    return Ok(extensions);
  }

  ghost function Prepend<T>(prefix: seq<T>, r: Result<seq<T>>): Result<seq<T>> {
    match r
    case Ok(rest) => Ok(prefix + rest)
    case Err(e) => Err(e)
  }

  lemma PrependAll<T>(prefix: seq<T>, xs: seq<T>, r: Result<seq<T>>)
    ensures Prepend(prefix, Prepend(xs, r)) == Prepend(prefix + xs, r)
  {
    if r.Ok? {
      assert prefix + (xs + r.value) == prefix + xs + r.value;
    }
  }

  // NVSE lists closed by the required authenticator

  function NvsesWire(nvses: seq<Nvse>): (w: seq<Byte>) {
    if nvses == [] then [] else NvseWire(nvses[0]) + NvsesWire(nvses[1..])
  }

  function EncodeNvses(nvses: seq<Nvse>): (r: Result<seq<Byte>>)
    ensures r.Ok? ==> r.value == NvsesWire(nvses)
    ensures r.Ok? <==> forall n <- nvses :: EncodeNvse(n).Ok?
  {
    if nvses == [] then Ok([])
    else
      assert nvses == [nvses[0]] + nvses[1..];
      var head :- EncodeNvse(nvses[0]);
      var tail :- EncodeNvses(nvses[1..]);
      Ok(head + tail)
  }

  /** Decodes the authenticator that must fill the rest of the message. */
  function DecodeRequiredAuthentication(input: seq<Byte>, expected: AuthenticationType)
    : (r: Result<Authentication>)
  {
    if input == [] then Err(Truncated(2, 0))
    else
      var e :- DecodeExtension(input);
      match e
      case AuthenticationExtension(a) =>
        if a.extensionType == expected then Ok(a) else Err(InvalidValue(AuthenticationTypeUnexpected))
      case _ => Err(InvalidValue(AuthenticationNotLast))
  }

  lemma RequiredAuthenticationIff(a: Authentication, w: seq<Byte>, expected: AuthenticationType)
    ensures DecodeRequiredAuthentication(w, expected) == Ok(a)
       <==> AuthenticationCanonical(a) && a.extensionType == expected && w == AuthenticationWire(a)
  {
    hide AuthenticationCanonical, DecodeExtension;
    if DecodeRequiredAuthentication(w, expected) == Ok(a) {
      ExtensionEncodes(AuthenticationExtension(a), w);
    }
    if AuthenticationCanonical(a) && a.extensionType == expected && w == AuthenticationWire(a) {
      ExtensionDecodes(AuthenticationExtension(a));
    }
  }

  /** Reads NVSEs up to the authenticator, which must end the input. */
  function NvsesFrom(input: seq<Byte>, offset: nat, keys: set<NvseKey>, expected: AuthenticationType)
    : (r: Result<(seq<Nvse>, Authentication)>)
    requires offset <= |input|
    decreases |input| - offset
  {
    if offset == |input| then Err(InvalidValue(AuthenticationMissing))
    else if |input| - offset < 2 then Err(Truncated(offset + 2, |input|))
    else
      var end := offset + 2 + input[offset + 1] as int;
      if |input| < end then Err(Truncated(end, |input|))
      else if input[offset] == expected.Value() then
        if end != |input| then Err(InvalidValue(AuthenticationNotLast))
        else
          var a :- DecodeRequiredAuthentication(input[offset..end], expected);
          Ok(([], a))
      else if input[offset] != NVSE_TYPE then Err(InvalidValue(OnlyNvsesBeforeAuthentication))
      else
        var n :- DecodeNvse(input[offset..end]);
        if n.ApplicationKey() in keys then Err(DuplicateExtension(NVSE_TYPE))
        else
          var (rest, a) :- NvsesFrom(input, end, keys + {n.ApplicationKey()}, expected);
          Ok(([n] + rest, a))
  }

  function DecodeNvsesWithAuthentication(input: seq<Byte>, expected: AuthenticationType)
    : (r: Result<(seq<Nvse>, Authentication)>)
  {
    if input == [] then Err(Truncated(2, 0)) else NvsesFrom(input, 0, {}, expected)
  }

  lemma {:induction false} NvsesDecode(nvses: seq<Nvse>, a: Authentication, input: seq<Byte>, offset: nat,
                                       keys: set<NvseKey>, messageType: Byte)
    requires offset <= |input| && input[offset..] == NvsesWire(nvses) + AuthenticationWire(a)
    requires forall n <- nvses :: NvseCanonical(n)
    requires AuthenticationCanonical(a)
    requires ValidateNvsesFrom(nvses, keys, messageType).Ok?
    ensures NvsesFrom(input, offset, keys, a.extensionType) == Ok((nvses, a))
    decreases |nvses|
  {
    hide NvseWire, NvseCanonical, AuthenticationWire, NvseAdmissible, NvsesFrom;
    if nvses == [] {
      assert input[offset..] == AuthenticationWire(a);
      NvsesStop(a, input, offset, keys);
    } else {
      var n := nvses[0];
      var rest := NvsesWire(nvses[1..]) + AuthenticationWire(a);
      assert input[offset..] == NvseWire(n) + rest;
      Cut(input, offset, NvseWire(n), rest);
      NvsesStep(n, input, offset, rest, keys, a.extensionType);
      NvsesDecode(nvses[1..], a, input, offset + |NvseWire(n)|, keys + {n.ApplicationKey()}, messageType);
      assert nvses == [n] + nvses[1..];
    }
  }

  lemma NvsesStop(a: Authentication, input: seq<Byte>, offset: nat, keys: set<NvseKey>)
    requires offset <= |input| && input[offset..] == AuthenticationWire(a)
    requires AuthenticationCanonical(a)
    ensures NvsesFrom(input, offset, keys, a.extensionType) == Ok(([], a))
  {
    hide AuthenticationWire, DecodeRequiredAuthentication, DecodeNvse;
    var w := AuthenticationWire(a);
    assert w == w + [];
    AuthenticationWireShape(a);
    Cut(input, offset, w, []);
    assert input[offset] == w[0] && input[offset + 1] == w[1];
    RequiredAuthenticationIff(a, w, a.extensionType);
  }

  lemma NvsesStep(n: Nvse, input: seq<Byte>, offset: nat, rest: seq<Byte>, keys: set<NvseKey>,
                  expected: AuthenticationType)
    requires offset <= |input| && input[offset..] == NvseWire(n) + rest
    requires NvseCanonical(n) && n.ApplicationKey() !in keys
    ensures offset + |NvseWire(n)| <= |input|
    ensures NvsesFrom(input, offset, keys, expected)
         == PrependNvses([n], NvsesFrom(input, offset + |NvseWire(n)|, keys + {n.ApplicationKey()}, expected))
  {
    hide NvseWire, NvseCanonical, DecodeNvse, DecodeRequiredAuthentication;
    var w := NvseWire(n);
    NvseIff(n, w);
    NvseWireShape(n);
    Cut(input, offset, w, rest);
    assert input[offset] == w[0] && input[offset + 1] == w[1];
  }

  /** Where one part of a concatenation ends and the next begins. */
  lemma Cut(input: seq<Byte>, offset: nat, a: seq<Byte>, b: seq<Byte>)
    requires offset <= |input| && input[offset..] == a + b
    ensures offset + |a| <= |input|
    ensures input[offset..offset + |a|] == a
    ensures input[offset + |a|..] == b
    ensures forall k | 0 <= k < |a| :: input[offset + k] == a[k]
  {
    var rest := input[offset..];
    assert input[offset..offset + |a|] == rest[..|a|] == a;
    assert input[offset + |a|..] == rest[|a|..] == b;
    forall k | 0 <= k < |a| ensures input[offset + k] == a[k] {
      assert rest[k] == a[k];
    }
  }

  /** A slice is a concatenation exactly when its two halves are the two parts. */
  lemma Join(input: seq<Byte>, i: nat, j: nat, k: nat, a: seq<Byte>, b: seq<Byte>)
    requires i <= j <= k <= |input| && |a| == j - i && |b| == k - j
    ensures input[i..k] == a + b <==> input[i..j] == a && input[j..k] == b
  {
    assert input[i..k] == input[i..j] + input[j..k];
    if input[i..k] == a + b {
      assert input[i..j] == (a + b)[..|a|] && input[j..k] == (a + b)[|a|..];
    }
  }

  lemma AuthenticationWireShape(a: Authentication)
    requires AuthenticationCanonical(a)
    ensures |AuthenticationWire(a)| == 22
    ensures |AuthenticationWire(a)| == 2 + AuthenticationWire(a)[1] as int
    ensures AuthenticationWire(a)[0] == a.extensionType.Value()
  {
  }

  lemma NvseWireShape(n: Nvse)
    requires NvseCanonical(n)
    ensures |NvseWire(n)| >= 10
    ensures |NvseWire(n)| == 2 + NvseWire(n)[1] as int && NvseWire(n)[0] == NVSE_TYPE
  {
  }

  lemma {:induction false} NvsesEncode(nvses: seq<Nvse>, a: Authentication, input: seq<Byte>, offset: nat,
                                       keys: set<NvseKey>, expected: AuthenticationType)
    requires offset <= |input| && NvsesFrom(input, offset, keys, expected) == Ok((nvses, a))
    ensures input[offset..] == NvsesWire(nvses) + AuthenticationWire(a)
    ensures forall n <- nvses :: NvseCanonical(n)
    ensures AuthenticationCanonical(a) && a.extensionType == expected
    decreases |input| - offset
  {
    hide NvseWire, NvseCanonical, DecodeNvse, AuthenticationWire, AuthenticationCanonical, DecodeRequiredAuthentication;
    var end := offset + 2 + input[offset + 1] as int;
    if input[offset] == expected.Value() {
      RequiredAuthenticationIff(a, input[offset..end], expected);
      assert input[offset..] == input[offset..end];
    } else {
      var n := DecodeNvse(input[offset..end]).value;
      NvseIff(n, input[offset..end]);
      NvsesEncode(nvses[1..], a, input, end, keys + {n.ApplicationKey()}, expected);
      assert input[offset..] == input[offset..end] + input[end..];
    }
  }

  ghost function PrependNvses(prefix: seq<Nvse>, r: Result<(seq<Nvse>, Authentication)>)
    : Result<(seq<Nvse>, Authentication)>
  {
    match r
    case Ok((rest, a)) => Ok((prefix + rest, a))
    case Err(e) => Err(e)
  }

  lemma PrependNvsesCons(prefix: seq<Nvse>, n: Nvse, r: Result<(seq<Nvse>, Authentication)>)
    ensures PrependNvses(prefix, PrependNvses([n], r)) == PrependNvses(prefix + [n], r)
  {
    if r.Ok? {
      assert prefix + ([n] + r.value.0) == prefix + [n] + r.value.0;
    }
  }

  /** The loop over a closing NVSE list. */
  method ReadNvsesWithAuthentication(input: seq<Byte>, expected: AuthenticationType)
    returns (r: Result<(seq<Nvse>, Authentication)>)
    ensures r == DecodeNvsesWithAuthentication(input, expected)
  {
    hide DecodeNvse, DecodeRequiredAuthentication;
    if |input| == 0 {
      return Err(Truncated(2, 0));
    }
    var nvses: seq<Nvse> := [];
    var keys := {};
    var offset := 0;
    assert forall s: seq<Nvse> :: [] + s == s;
    while offset < |input|
      invariant offset <= |input|
      invariant DecodeNvsesWithAuthentication(input, expected)
             == PrependNvses(nvses, NvsesFrom(input, offset, keys, expected))
    {
      if |input| - offset < 2 {
        return Err(Truncated(offset + 2, |input|));
      }
      var end := offset + 2 + input[offset + 1] as int;
      if |input| < end {
        return Err(Truncated(end, |input|));
      }
      if input[offset] == expected.Value() {
        if end != |input| {
          return Err(InvalidValue(AuthenticationNotLast));
        }
        var authentication := DecodeRequiredAuthentication(input[offset..end], expected);
        if authentication.Err? {
          return Err(authentication.error);
        }
        assert nvses + [] == nvses;
        return Ok((nvses, authentication.value));
      }
      if input[offset] != NVSE_TYPE {
        return Err(InvalidValue(OnlyNvsesBeforeAuthentication));
      }
      var decoded := DecodeNvse(input[offset..end]);
      if decoded.Err? {
        return Err(decoded.error);
      }
      var key := decoded.value.ApplicationKey();
      if key in keys {
        return Err(DuplicateExtension(NVSE_TYPE));
      }
      keys := keys + {key};
      PrependNvsesCons(nvses, decoded.value, NvsesFrom(input, end, keys, expected));
      nvses := nvses + [decoded.value];
      offset := end;
    }
    return Err(InvalidValue(AuthenticationMissing));
  }
}
