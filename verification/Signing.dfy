/**
 Keyed authentication of A11 messages. The hash is a parameter: nothing below depends on it being MD5,
 only on its 16-octet result.
 */
module Signing {
  import opened Bytes
  import opened Messages
  import opened Codec
  import opened Wire
  import opened Options

  type Digest = s: seq<Byte> | |s| == AUTHENTICATOR_BYTES witness [0, 0, 0, 0, 0, 0, 0, 0, 0, 0, 0, 0, 0, 0, 0, 0]

  type Hash = seq<Byte> -> Digest

  datatype Association = Association(spi: U32, secret: seq<Byte>)

  function RequiredType(m: Message): (t: AuthenticationType) {
    if m.WithExtensions() then MobileHome else RegistrationUpdateAuth
  }

  /** The authenticator a receiver has to check. */
  function RequiredAuthenticationOf(m: Message): (r: Result<Authentication>) {
    if m.WithExtensions() then RequiredAuthentication(m.extensions, MobileHome) else Ok(m.authentication)
  }

  function KeyedHash(h: Hash, association: Association, covered: seq<Byte>): (d: Digest) {
    h(association.secret + covered + association.secret)
  }

  const ZERO_DIGEST: Digest := [0, 0, 0, 0, 0, 0, 0, 0, 0, 0, 0, 0, 0, 0, 0, 0]

  function AuthenticationWith(association: Association, m: Message, digest: Digest): (a: Authentication) {
    Authentication(RequiredType(m), association.spi, digest)
  }

  // Placing an authenticator

  predicate Matches(e: Extension, t: AuthenticationType) {
    e.AuthenticationExtension? && e.authentication.extensionType == t
  }

  /** The list after the replacing loop has run from position `i`, and whether anything was replaced. */
  function ReplaceFrom(extensions: seq<Extension>, i: nat, replaced: bool, a: Authentication)
    : (r: (seq<Extension>, Result<bool>))
    requires i <= |extensions|
    decreases |extensions| - i
  {
    if i == |extensions| then (extensions, Ok(replaced))
    else if Matches(extensions[i], a.extensionType) then
      if replaced then (extensions, Err(DuplicateExtension(a.extensionType.Value())))
      else ReplaceFrom(extensions[i := AuthenticationExtension(a)], i + 1, true, a)
    else ReplaceFrom(extensions, i + 1, replaced, a)
  }

  function PlaceInExtensions(extensions: seq<Extension>, a: Authentication): (r: (seq<Extension>, Result<()>)) {
    var (updated, replaced) := ReplaceFrom(extensions, 0, false, a);
    if replaced.Err? then (updated, Err(replaced.error))
    else if replaced.value then (updated, Ok(()))
    else if exists e <- updated :: e.AuthenticationExtension? && e.authentication.extensionType != a.extensionType then
      (updated, Err(InvalidValue(AuthenticationTypeUnexpected)))
    else (updated + [AuthenticationExtension(a)], Ok(()))
  }

  /** What setting the authenticator leaves in the message, on failure too. */
  function Place(m: Message, a: Authentication): (r: (Message, Result<()>)) {
    if m.WithExtensions() then
      var (extensions, r) := PlaceInExtensions(m.extensions, a);
      (m.(extensions := extensions), r)
    else (m.(authentication := a), Ok(()))
  }

  /** Walks the list in place, overwriting the one matching authenticator or appending one. */
  method SetExtensionAuthentication(extensions: seq<Extension>, a: Authentication)
    returns (updated: seq<Extension>, r: Result<()>)
    ensures (updated, r) == PlaceInExtensions(extensions, a)
  {
    updated := extensions;
    var replaced := false;
    for i := 0 to |extensions|
      invariant |updated| == |extensions|
      invariant ReplaceFrom(extensions, 0, false, a) == ReplaceFrom(updated, i, replaced, a)
    {
      if updated[i].AuthenticationExtension? && updated[i].authentication.extensionType == a.extensionType {
        if replaced {
          return updated, Err(DuplicateExtension(a.extensionType.Value()));
        }
        updated := updated[i := AuthenticationExtension(a)];
        replaced := true;
      }
    }
    if replaced {
      return updated, Ok(());
    }
    if exists e <- updated :: e.AuthenticationExtension? && e.authentication.extensionType != a.extensionType {
      return updated, Err(InvalidValue(AuthenticationTypeUnexpected));
    }
    updated := updated + [AuthenticationExtension(a)];
    r := Ok(());
  }

  // Signing and verifying

  function Covered(wire: seq<Byte>): (r: Result<seq<Byte>>) {
    if |wire| < AUTHENTICATOR_BYTES then Err(Truncated(AUTHENTICATOR_BYTES, |wire|))
    else Ok(wire[..|wire| - AUTHENTICATOR_BYTES])
  }

  /** The message after signing, and the outcome. An encoded message is never too short to carry a digest. */
  function Sign(h: Hash, association: Association, m: Message): (r: (Message, Result<()>)) {
    var (blank, placed) := Place(m, AuthenticationWith(association, m, ZERO_DIGEST));
    if placed.Err? then (blank, Err(placed.error))
    else
      var wire := Encode(blank);
      if wire.Err? then (blank, Err(wire.error))
      else
        Place(blank, AuthenticationWith(association, m, KeyedHash(h, association, Covered(wire.value).value)))
  }

  function VerifyAuthentication(
    h: Hash, association: Association, wire: seq<Byte>, m: Message, a: Authentication): (r: Result<()>)
  {
    if a.spi != association.spi then Err(AuthenticationRejected(UnexpectedSpi))
    else if a.extensionType != RequiredType(m) then Err(AuthenticationRejected(UnexpectedType))
    else if |a.authenticator| != AUTHENTICATOR_BYTES then Err(AuthenticationRejected(InvalidLength))
    else
      var covered :- Covered(wire);
      if KeyedHash(h, association, covered) != a.authenticator then Err(AuthenticationRejected(BadAuthenticator))
      else Ok(())
  }

  function DecodeVerified(h: Hash, association: Association, input: seq<Byte>): (r: Result<Message>) {
    var m :- DecodeMessage(input);
    var a :- RequiredAuthenticationOf(m);
    var _ :- VerifyAuthentication(h, association, input, m, a);
    Ok(m)
  }

  // Where the authenticator sits

  lemma {:induction false} ExtensionsWireAppend(extensions: seq<Extension>, e: Extension)
    ensures ExtensionsWire(extensions + [e]) == ExtensionsWire(extensions) + ExtensionWire(e)
  {
    hide ExtensionWire;
    if extensions == [] {
      assert extensions + [e] == [e] && [e][1..] == [];
      assert ExtensionsWire([e]) == ExtensionWire(e) + [];
    } else {
      assert (extensions + [e])[1..] == extensions[1..] + [e];
      ExtensionsWireAppend(extensions[1..], e);
      assert ExtensionWire(extensions[0]) + (ExtensionsWire(extensions[1..]) + ExtensionWire(e))
          == ExtensionWire(extensions[0]) + ExtensionsWire(extensions[1..]) + ExtensionWire(e);
    }
  }

  /** What comes between the session and the required authenticator. */
  ghost function Middle(m: Message): seq<Byte>
    requires m.WithExtensions() ==> m.extensions != []
  {
    if m.WithExtensions() then ExtensionsWire(m.extensions[..|m.extensions| - 1])
    else if m.WithNvses() then NvsesWire(m.nvses)
    else []
  }

  /** Everything on the wire before the authenticator octets of `a`. */
  ghost function PrefixOf(m: Message, a: Authentication): seq<Byte>
    requires m.WithExtensions() ==> m.extensions != []
  {
    var tag: seq<Byte> := [a.extensionType.Value(), (4 + |a.authenticator|) % 256];
    Header(m) + SessionPart(m) + Middle(m) + tag + BE32(a.spi)
  }

  /** The required authenticator is the last thing on the wire. */
  lemma WireEndsWithAuthenticator(m: Message)
    requires RequiredAuthenticationOf(m).Ok?
    ensures
      var a := RequiredAuthenticationOf(m).value;
      (m.WithExtensions() ==> m.extensions != []) && MessageWire(m) == PrefixOf(m, a) + a.authenticator
  {
    hide Header, SessionPart, BE32, NvsesWire, ExtensionsWire;
    var a := RequiredAuthenticationOf(m).value;
    var front := Header(m) + SessionPart(m);
    var tag := [a.extensionType.Value(), (4 + |a.authenticator|) % 256];
    if m.WithExtensions() {
      var n := |m.extensions| - 1;
      assert m.extensions == m.extensions[..n] + [AuthenticationExtension(a)];
      ExtensionsWireAppend(m.extensions[..n], AuthenticationExtension(a));
      Regroup(front, ExtensionsWire(m.extensions[..n]), tag, BE32(a.spi), a.authenticator);
    } else if m.WithNvses() {
      Regroup(front, NvsesWire(m.nvses), tag, BE32(a.spi), a.authenticator);
    } else {
      Regroup(front, [], tag, BE32(a.spi), a.authenticator);
      assert [] + AuthenticationWire(a) == AuthenticationWire(a);
    }
  }

  lemma Regroup(p: seq<Byte>, x: seq<Byte>, y: seq<Byte>, z: seq<Byte>, a: seq<Byte>)
    ensures p + (x + (y + z + a)) == p + x + y + z + a
  {
  }

  /** In every message that decodes, the required authenticator is exactly the last 16 octets. */
  lemma AuthenticatorIsLast16(w: seq<Byte>)
    requires DecodeMessage(w).Ok?
    ensures
      var a := RequiredAuthenticationOf(DecodeMessage(w).value);
      && a.Ok? && a.value.extensionType == RequiredType(DecodeMessage(w).value)
      && |w| >= 16 && |a.value.authenticator| == 16 && a.value.authenticator == w[|w| - 16..]
  {
    var m := DecodeMessage(w).value;
    hide DecodeMessage, MessageWire, Validate;
    DecodeIff(m, w);
    ValidateTail(m);
    WireEndsWithAuthenticator(m);
    var a := RequiredAuthenticationOf(m).value;
    assert m.WithExtensions() ==> AuthenticationExtension(a) in m.extensions;
    assert w == PrefixOf(m, a) + a.authenticator;
  }

  /** The last 16 octets are the hash of all before them between two copies of the secret. */
  predicate EndsInDigest(h: Hash, association: Association, w: seq<Byte>) {
    |w| >= 16 && w[|w| - 16..] == h(association.secret + w[..|w| - 16] + association.secret)
  }

  /** Verified decoding succeeds exactly on a decodable message under the association's SPI whose last
      16 octets are the hash of all the octets before them, between two copies of the secret. */
  lemma VerifiedIff(h: Hash, association: Association, w: seq<Byte>, m: Message)
    ensures DecodeVerified(h, association, w) == Ok(m)
       <==> && DecodeMessage(w) == Ok(m)
            && RequiredAuthenticationOf(m).Ok? && RequiredAuthenticationOf(m).value.spi == association.spi
            && |w| >= 16 && w[|w| - 16..] == h(association.secret + w[..|w| - 16] + association.secret)
  {
    hide DecodeMessage, RequiredAuthenticationOf;
    if DecodeMessage(w).Ok? {
      AuthenticatorIsLast16(w);
    }
  }

  // Placing twice is placing once

  /** Position `p` holds the only authenticator of its type. */
  ghost predicate OnlyMatch(extensions: seq<Extension>, p: nat, t: AuthenticationType) {
    && p < |extensions| && Matches(extensions[p], t)
    && forall k | 0 <= k < |extensions| && k != p :: !Matches(extensions[k], t)
  }

  lemma {:induction false} ReplaceNone(extensions: seq<Extension>, i: nat, replaced: bool, a: Authentication)
    requires i <= |extensions| && forall k | i <= k < |extensions| :: !Matches(extensions[k], a.extensionType)
    ensures ReplaceFrom(extensions, i, replaced, a) == (extensions, Ok(replaced))
    decreases |extensions| - i
  {
    if i < |extensions| {
      ReplaceNone(extensions, i + 1, replaced, a);
    }
  }

  lemma {:induction false} ReplaceOnly(extensions: seq<Extension>, i: nat, p: nat, a: Authentication)
    requires i <= p && OnlyMatch(extensions, p, a.extensionType)
    ensures ReplaceFrom(extensions, i, false, a) == (extensions[p := AuthenticationExtension(a)], Ok(true))
    decreases p - i
  {
    if i == p {
      ReplaceNone(extensions[p := AuthenticationExtension(a)], p + 1, true, a);
    } else {
      ReplaceOnly(extensions, i + 1, p, a);
    }
  }

  lemma {:induction false} ReplaceFails(extensions: seq<Extension>, i: nat, q: nat, a: Authentication)
    requires i <= q < |extensions| && Matches(extensions[q], a.extensionType)
    ensures ReplaceFrom(extensions, i, true, a).1.Err?
    decreases q - i
  {
    if i < q && !Matches(extensions[i], a.extensionType) {
      ReplaceFails(extensions, i + 1, q, a);
    }
  }

  /** Placing succeeds on a list with one matching authenticator, which is overwritten, or on a list
      with no authenticator at all, which is extended. */
  lemma {:induction false} ReplaceShape(extensions: seq<Extension>, i: nat, a: Authentication) returns (p: nat)
    requires i <= |extensions| && forall k | 0 <= k < i :: !Matches(extensions[k], a.extensionType)
    requires ReplaceFrom(extensions, i, false, a).1.Ok?
    ensures p <= |extensions|
    ensures p < |extensions| ==> OnlyMatch(extensions, p, a.extensionType)
    ensures p == |extensions| ==> forall k | 0 <= k < |extensions| :: !Matches(extensions[k], a.extensionType)
    decreases |extensions| - i
  {
    if i == |extensions| {
      p := i;
    } else if Matches(extensions[i], a.extensionType) {
      p := i;
      var updated := extensions[i := AuthenticationExtension(a)];
      forall q | i < q < |extensions| ensures !Matches(extensions[q], a.extensionType) {
        if Matches(extensions[q], a.extensionType) {
          ReplaceFails(updated, i + 1, q, a);
        }
      }
    } else {
      p := ReplaceShape(extensions, i + 1, a);
    }
  }

  lemma PlaceTwice(m: Message, a: Authentication, b: Authentication)
    requires a.extensionType == b.extensionType && Place(m, a).1.Ok?
    ensures Place(Place(m, a).0, b) == Place(m, b)
  {
    if m.WithExtensions() {
      var extensions := m.extensions;
      var A, B := AuthenticationExtension(a), AuthenticationExtension(b);
      var p := ReplaceShape(extensions, 0, a);
      if p < |extensions| {
        ReplaceOnly(extensions, 0, p, a);
        ReplaceOnly(extensions, 0, p, b);
        ReplaceOnly(extensions[p := A], 0, p, b);
        assert extensions[p := A][p := B] == extensions[p := B];
      } else {
        ReplaceNone(extensions, 0, false, a);
        ReplaceNone(extensions, 0, false, b);
        ReplaceOnly(extensions + [A], 0, p, b);
        assert (extensions + [A])[p := B] == extensions + [B];
      }
    }
  }

  /** Signing does not depend on the authenticator that was there before. */
  lemma SignForgets(h: Hash, association: Association, m: Message, a: Authentication)
    requires a.extensionType == RequiredType(m) && Place(m, a).1.Ok?
    ensures Sign(h, association, Place(m, a).0) == Sign(h, association, m)
  {
    hide Encode, PlaceInExtensions;
    PlaceTwice(m, a, AuthenticationWith(association, m, ZERO_DIGEST));
    assert RequiredType(Place(m, a).0) == RequiredType(m);
  }

  /** Signing a signed message changes nothing. */
  lemma SignIdempotent(h: Hash, association: Association, m: Message)
    requires Sign(h, association, m).1.Ok?
    ensures Sign(h, association, Sign(h, association, m).0) == Sign(h, association, m)
  {
    var zero := AuthenticationWith(association, m, ZERO_DIGEST);
    var blank := Place(m, zero).0;
    var covered := Covered(Encode(blank).value).value;
    var signature := AuthenticationWith(association, m, KeyedHash(h, association, covered));
    hide Encode, Place;
    SignForgets(h, association, m, zero);
    PlaceKeepsKind(m, zero);
    SignForgets(h, association, blank, signature);
  }

  lemma PlaceKeepsKind(m: Message, a: Authentication)
    ensures RequiredType(Place(m, a).0) == RequiredType(m)
    ensures Place(m, a).0.WithExtensions() == m.WithExtensions()
  {
    hide PlaceInExtensions;
  }

  // Sign then verify

  /** The message with its last, required authenticator exchanged for another of the same type. */
  lemma PlaceAtEnd(m: Message, a: Authentication)
    requires Validate(m).Ok? && a.extensionType == RequiredType(m)
    ensures Place(m, a).1.Ok? && RequiredAuthenticationOf(Place(m, a).0) == Ok(a)
    ensures m.WithExtensions() ==> m.extensions != []
    ensures m.WithExtensions() ==>
      Place(m, a).0 == m.(extensions := m.extensions[..|m.extensions| - 1] + [AuthenticationExtension(a)])
  {
    ValidateTail(m);
    hide Validate;
    if m.WithExtensions() {
      var extensions := m.extensions;
      var n := |extensions| - 1;
      ValidateExtensionsIff(extensions, NOTHING_SEEN, MessageType(m));
      assert OnlyMatch(extensions, n, MobileHome) by {
        forall k | 0 <= k < n ensures !Matches(extensions[k], MobileHome) {
          assert KeyOf(extensions[k]).Some? ==> KeyOf(extensions[k]) != KeyOf(extensions[n]);
        }
      }
      ReplaceOnly(extensions, 0, n, a);
      assert extensions[n := AuthenticationExtension(a)] == extensions[..n] + [AuthenticationExtension(a)];
    }
  }

  lemma ExchangeLast(extensions: seq<Extension>, a: Authentication, messageType: Byte)
    requires RequiredAuthentication(extensions, a.extensionType).Ok?
    requires ValidateExtensionsFrom(extensions, NOTHING_SEEN, messageType).Ok?
    ensures
      var extensions' := extensions[..|extensions| - 1] + [AuthenticationExtension(a)];
      ValidateExtensionsFrom(extensions', NOTHING_SEEN, messageType).Ok?
  {
    var extensions' := extensions[..|extensions| - 1] + [AuthenticationExtension(a)];
    hide ValidateExtensionsFrom, NvseAdmissible;
    ValidateExtensionsIff(extensions, NOTHING_SEEN, messageType);
    ValidateExtensionsIff(extensions', NOTHING_SEEN, messageType);
    assert forall k | 0 <= k < |extensions| :: KeyOf(extensions'[k]) == KeyOf(extensions[k]);
  }

  /** Validation looks only at the type of the required authenticator. */
  lemma PlaceKeepsValid(m: Message, a: Authentication)
    requires Validate(m).Ok? && a.extensionType == RequiredType(m)
    ensures Validate(Place(m, a).0).Ok?
  {
    if m.WithExtensions() {
      PlaceAtEnd(m, a);
      ValidateTail(m);
      ExchangeLast(m.extensions, a, MessageType(m));
      hide Place, ValidateExtensionsFrom, ValidateSession, ValidateNvsesFrom, CarriesSessionContent,
        CarriesFeatureContent;
    } else {
      hide ValidateExtensionsFrom, ValidateSession, ValidateNvsesFrom, CarriesSessionContent, CarriesFeatureContent;
    }
  }

  /** Placing a canonical authenticator of the required type keeps a message encodable, ambiguous or not. */
  lemma PlaceKeepsEncodable(m: Message, a: Authentication)
    requires Encode(m).Ok? && a.extensionType == RequiredType(m) && AuthenticationCanonical(a)
    ensures Encode(Place(m, a).0).Ok?
  {
    hide Header, SessionPart, EncodeTail, Validate, Place;
    PlaceKeepsValid(m, a);
    PlaceKeepsTail(m, a);
  }

  lemma PlaceKeepsTail(m: Message, a: Authentication)
    requires Validate(m).Ok? && EncodeTail(m).Ok? && a.extensionType == RequiredType(m) && AuthenticationCanonical(a)
    ensures EncodeTail(Place(m, a).0).Ok?
  {
    hide Validate, EncodeExtensions, EncodeNvses, PlaceInExtensions, AuthenticationCanonical;
    PlaceAtEnd(m, a);
    PlaceKeepsKind(m, a);
    if m.WithExtensions() {
      EncodeExtensionsIff(m.extensions);
      EncodeExtensionsIff(Place(m, a).0.extensions);
      assert EncodeExtension(AuthenticationExtension(a)) == EncodeAuthentication(a);
      hide EncodeExtension;
      assert forall e <- Place(m, a).0.extensions :: e in m.extensions || e == AuthenticationExtension(a);
    }
  }

  lemma SamePrefixOf(m: Message, a: Authentication, b: Authentication)
    requires Validate(m).Ok? && a.extensionType == b.extensionType == RequiredType(m) && a.spi == b.spi
    requires |a.authenticator| == |b.authenticator|
    ensures
      var ma, mb := Place(m, a).0, Place(m, b).0;
      && RequiredAuthenticationOf(ma) == Ok(a) && RequiredAuthenticationOf(mb) == Ok(b)
      && (ma.WithExtensions() ==> ma.extensions != []) && (mb.WithExtensions() ==> mb.extensions != [])
      && PrefixOf(ma, a) == PrefixOf(mb, b)
  {
    hide Validate, Header, SessionPart, Middle, Place, RequiredAuthentication;
    PlaceAtEnd(m, a);
    PlaceAtEnd(m, b);
    PlaceKeepsKind(m, a);
    PlaceKeepsKind(m, b);
    PlaceKeepsFront(m, a);
    PlaceKeepsFront(m, b);
    PlaceKeepsMiddle(m, a);
    PlaceKeepsMiddle(m, b);
  }

  lemma PlaceKeepsFront(m: Message, a: Authentication)
    ensures Header(Place(m, a).0) == Header(m) && SessionPart(Place(m, a).0) == SessionPart(m)
  {
    hide BE16, BE32, BE64, SessionWire, PlaceInExtensions;
  }

  lemma PlaceKeepsMiddle(m: Message, a: Authentication)
    requires Validate(m).Ok? && a.extensionType == RequiredType(m)
    ensures m.WithExtensions() ==>
      m.extensions != [] && Place(m, a).0.WithExtensions() && Place(m, a).0.extensions != []
    ensures Middle(Place(m, a).0) == Middle(m)
  {
    hide Validate, NvsesWire, ExtensionsWire, PlaceInExtensions;
    PlaceAtEnd(m, a);
    PlaceKeepsKind(m, a);
    if m.WithExtensions() {
      var n := |m.extensions| - 1;
      assert Place(m, a).0.extensions[..n] == m.extensions[..n];
    }
  }

  /** Only the last 16 octets depend on the digest. */
  lemma SamePrefix(m: Message, a: Authentication, b: Authentication)
    requires Validate(m).Ok? && a.extensionType == b.extensionType == RequiredType(m) && a.spi == b.spi
    requires |a.authenticator| == |b.authenticator| == 16
    ensures
      var wa, wb := MessageWire(Place(m, a).0), MessageWire(Place(m, b).0);
      && |wa| >= 16 && |wb| >= 16
      && Covered(wa) == Covered(wb)
      && wb == Covered(wb).value + b.authenticator
  {
    hide Validate, Place, MessageWire, PrefixOf, RequiredAuthenticationOf;
    SamePrefixOf(m, a, b);
    WireEndsWithAuthenticator(Place(m, a).0);
    WireEndsWithAuthenticator(Place(m, b).0);
    var p := PrefixOf(Place(m, a).0, a);
    assert (p + a.authenticator)[..|p|] == p && (p + b.authenticator)[..|p|] == p;
  }

  /** A signed message encodes, and its encoding is verified and gives the signed message back if and only if the
      message was unambiguous: for every message, key and hash. */
  lemma SignThenVerify(h: Hash, association: Association, m: Message)
    requires Sign(h, association, m).1.Ok?
    ensures
      var signed := Sign(h, association, m).0;
      && Encode(signed).Ok?
      && (DecodeVerified(h, association, Encode(signed).value) == Ok(signed) <==> Unambiguous(m))
  {
    hide *;
    var signed := Sign(h, association, m).0;
    SignedDigest(h, association, m);
    SignKeepsAmbiguity(h, association, m);
    RoundTrip(signed);
    VerifiedIff(h, association, Encode(signed).value, signed);
    DigestWrittenOut(h, association, Encode(signed).value);
  }

  lemma DigestWrittenOut(h: Hash, association: Association, w: seq<Byte>)
    ensures EndsInDigest(h, association, w)
       <==> |w| >= 16 && w[|w| - 16..] == h(association.secret + w[..|w| - 16] + association.secret)
  {
  }

  lemma SignKeepsAmbiguity(h: Hash, association: Association, m: Message)
    requires Sign(h, association, m).1.Ok?
    ensures Unambiguous(Sign(h, association, m).0) <==> Unambiguous(m)
  {
    var blank, signature := SignSteps(h, association, m);
    hide *;
    PlaceKeepsAmbiguity(m, AuthenticationWith(association, m, ZERO_DIGEST));
    PlaceKeepsAmbiguity(blank, signature);
  }

  /** Signing places an authenticator twice. */
  lemma SignSteps(h: Hash, association: Association, m: Message) returns (blank: Message, signature: Authentication)
    requires Sign(h, association, m).1.Ok?
    ensures var placed := Place(m, AuthenticationWith(association, m, ZERO_DIGEST));
            placed.0 == blank && placed.1.Ok?
    ensures Sign(h, association, m) == Place(blank, signature)
  {
    hide Place, Encode, KeyedHash;
    blank := Place(m, AuthenticationWith(association, m, ZERO_DIGEST)).0;
    signature := AuthenticationWith(association, m, KeyedHash(h, association, Covered(Encode(blank).value).value));
  }

  /** A signed message carries the association's SPI and ends in its digest. */
  lemma SignedDigest(h: Hash, association: Association, m: Message)
    requires Sign(h, association, m).1.Ok?
    ensures
      var signed := Sign(h, association, m).0;
      && RequiredAuthenticationOf(signed).Ok? && RequiredAuthenticationOf(signed).value.spi == association.spi
      && Encode(signed).Ok? && EndsInDigest(h, association, Encode(signed).value)
  {
    var zero := AuthenticationWith(association, m, ZERO_DIGEST);
    var blank := Place(m, zero).0;
    var covered := Covered(Encode(blank).value).value;
    var signature := AuthenticationWith(association, m, KeyedHash(h, association, covered));
    var signed := Place(blank, signature).0;
    assert Place(m, zero).1.Ok? && Encode(blank).Ok? && Sign(h, association, m).0 == signed;
    hide Sign, Place, Encode, Validate, RequiredAuthentication;
    EncodeValidates(blank);
    PlaceKeepsKind(m, zero);
    PlaceAtEnd(blank, signature);
    SpiOfBlank(m, zero);
    PlaceKeepsEncodable(blank, signature);
    PlaceTwice(m, zero, zero);
    SamePrefix(blank, zero, signature);
  }

  /** Authenticators are never ambiguous, and nothing else is replaced. */
  lemma PlaceKeepsAmbiguity(m: Message, a: Authentication)
    requires Place(m, a).1.Ok?
    ensures Unambiguous(Place(m, a).0) <==> Unambiguous(m)
  {
    if m.WithExtensions() {
      var extensions, after := m.extensions, Place(m, a).0.extensions;
      var p := ReplaceShape(extensions, 0, a);
      if p < |extensions| {
        ReplaceOnly(extensions, 0, p, a);
        assert UnambiguousExtension(extensions[p]) && UnambiguousExtension(AuthenticationExtension(a));
      } else {
        ReplaceNone(extensions, 0, false, a);
        assert after == extensions + [AuthenticationExtension(a)];
      }
      hide UnambiguousExtension;
      assert forall k | 0 <= k < |extensions| && k != p :: after[k] == extensions[k] && after[k] in after;
    }
  }

  /** A message encodes only if the authenticator it carries does. */
  lemma EncodedAuthentication(m: Message, a: Authentication)
    requires Encode(m).Ok?
    requires if m.WithExtensions() then AuthenticationExtension(a) in m.extensions else m.authentication == a
    ensures AuthenticationCanonical(a)
  {
    hide Validate, Header, SessionPart, EncodeNvses, AuthenticationCanonical;
    if m.WithExtensions() {
      EncodeExtensionsIff(m.extensions);
      assert EncodeExtension(AuthenticationExtension(a)) == EncodeAuthentication(a);
    }
  }

  lemma SpiOfBlank(m: Message, a: Authentication)
    requires a.extensionType == RequiredType(m) && Place(m, a).1.Ok? && Encode(Place(m, a).0).Ok?
    ensures AuthenticationCanonical(a)
  {
    hide Validate, Encode, Place, RequiredAuthentication, AuthenticationCanonical;
    var blank := Place(m, a).0;
    EncodeValidates(blank);
    PlaceTwice(m, a, a);
    PlaceKeepsKind(m, a);
    PlaceAtEnd(blank, a);
    EncodedAuthentication(blank, a);
  }

  lemma EncodeValidates(m: Message)
    requires Encode(m).Ok?
    ensures Validate(m).Ok?
  {
    hide Validate, Header, SessionPart, EncodeTail;
  }

  // The imperative forms

  /** Compares two octet strings without an early exit. */
  method ConstantTimeEq(left: seq<Byte>, right: seq<Byte>) returns (equal: bool)
    ensures equal <==> left == right
  {
    if |left| != |right| {
      return false;
    }
    var diff := 0;
    for i := 0 to |left|
      invariant diff == 0 <==> left[..i] == right[..i]
    {
      assert left[..i + 1] == left[..i] + [left[i]] && right[..i + 1] == right[..i] + [right[i]];
      XorZero(left[i], right[i]);
      diff := Or(diff, XorByte(left[i], right[i]));
    }
    assert left[..|left|] == left && right[..|left|] == right;
    return diff == 0;
  }

  method Verify(h: Hash, association: Association, wire: seq<Byte>, m: Message, a: Authentication)
    returns (r: Result<()>)
    ensures r == VerifyAuthentication(h, association, wire, m, a)
    ensures r.Ok? <==> && a.spi == association.spi && |a.authenticator| == 16 && |wire| >= 16
                       && a.extensionType == (if m.WithExtensions() then MobileHome else RegistrationUpdateAuth)
                       && a.authenticator == h(association.secret + wire[..|wire| - 16] + association.secret)
  {
    if a.spi != association.spi {
      return Err(AuthenticationRejected(UnexpectedSpi));
    }
    if a.extensionType != RequiredType(m) {
      return Err(AuthenticationRejected(UnexpectedType));
    }
    if |a.authenticator| != AUTHENTICATOR_BYTES {
      return Err(AuthenticationRejected(InvalidLength));
    }
    var covered := Covered(wire);
    if covered.Err? {
      return Err(covered.error);
    }
    var equal := ConstantTimeEq(KeyedHash(h, association, covered.value), a.authenticator);
    if !equal {
      return Err(AuthenticationRejected(BadAuthenticator));
    }
    return Ok(());
  }

  /** A message being signed in place. */
  class Draft {
    var message: Message

    constructor (m: Message)
      ensures message == m
    {
      message := m;
    }

    method SetAuthentication(a: Authentication) returns (r: Result<()>)
      modifies this
      ensures (message, r) == Place(old(message), a)
    {
      if message.WithExtensions() {
        var extensions;
        extensions, r := SetExtensionAuthentication(message.extensions, a);
        message := message.(extensions := extensions);
      } else {
        message := message.(authentication := a);
        r := Ok(());
      }
    }

    /** On failure the message keeps whatever was placed in it before the failing step. */
    method SignMessage(h: Hash, association: Association) returns (r: Result<()>)
      modifies this
      ensures (message, r) == Sign(h, association, old(message))
      ensures r.Ok? ==>
        Encode(message).Ok? && EndsInDigest(h, association, Encode(message).value)
    {
      hide PlaceInExtensions, Encode, EndsInDigest;
      if Sign(h, association, message).1.Ok? {
        SignedDigest(h, association, message);
      }
      var signature := AuthenticationWith(association, message, ZERO_DIGEST);
      r := SetAuthentication(signature);
      if r.Err? {
        return;
      }
      var wire := Encode(message);
      if wire.Err? {
        return Err(wire.error);
      }
      var covered := Covered(wire.value);
      r := SetAuthentication(signature.(authenticator := KeyedHash(h, association, covered.value)));
    }
  }
}
