/**
 The typed A11 messages exchanged by a PCF and a PDSN, and the validation every message
 goes through before it is encoded, after it is decoded, and before it touches the session table.
 */
module Messages {
  import opened Bytes
  import opened Options

  /** The rule a rejected value broke; contexts that apply the same rule share its name. */
  datatype Rule =
    | AuthenticationTypeUnsupported | AuthenticationTypeUnexpected | AuthenticationMissing
    | AuthenticationNotLast | OnlyNvsesBeforeAuthentication
    | CvseType | NvseType | NvseReserved | AllDormantValue | PdsnCodeValue | RnPditValue | NvseNotAdmissible
    | SessionReserved | ProtocolType | PcfSessionId | SessionIdVersion | MnSessionReferenceId | MnIdType
    | MsidFirstDigit | MsidOddEven | MsidLowDigit | MsidFiller | MsidHighDigit
    | SessionExtensionMisplaced | RequestFlags | LifetimeMax | HomeAddressNonZero | ReservedNonZero
    | ReplyCode | UpdateStatus | IdentificationZero | SessionUpdateContent | CapabilitiesContent
    | FramePayloadLength | FrameTrailingBytes

  /** Why the session table refused a message. */
  datatype Violation =
    | WrongDirection | SessionMismatch | UnknownSession | NoPending | AlreadyPending | NotEstablished
    | IdentificationMismatch | HomeAgentMismatch | CareOfAddressMismatch | WrongTransaction
    | TeardownOfUnknown | TeardownReplyLifetime | ZeroLifetimeGrant
    | CapabilitiesPending | CapabilitiesNotRequested | FeatureClass

  datatype Rejection = UnexpectedSpi | UnexpectedType | InvalidLength | BadAuthenticator

  datatype Error =
    | EmptyMessage
    | UnknownMessageType(value: Byte)
    | Truncated(needed: nat, actual: nat)
    | InvalidExtensionLength(expectedMin: nat, actual: nat)
    | InvalidSpi
    | InvalidValue(rule: Rule)
    | DuplicateExtension(extensionType: Byte)
    | AuthenticationRejected(rejection: Rejection)
    | ProcedureViolation(violation: Violation)

  datatype Result<+T> = Ok(value: T) | Err(error: Error) {
    predicate IsFailure() {
      Err?
    }

    function PropagateFailure<U>(): Result<U>
      requires Err?
    {
      Err(error)
    }

    function Extract(): T
      requires Ok?
    {
      value
    }
  }

  /** Succeeds exactly when the condition holds. */
  function Check(condition: bool, rule: Rule): (r: Result<()>)
    ensures r.Ok? <==> condition
  {
    if condition then Ok(()) else Err(InvalidValue(rule))
  }

  const THREEGPP2_VENDOR_ID: U32 := 0x0000_159f
  const AUTHENTICATOR_BYTES: nat := 16

  const SESSION_TYPE: Byte := 0x27
  const CVSE_TYPE: Byte := 0x26
  const NVSE_TYPE: Byte := 0x86

  datatype AuthenticationType = MobileHome | RegistrationUpdateAuth {
    function Value(): (b: Byte) {
      match this
      case MobileHome => 0x20
      case RegistrationUpdateAuth => 0x28
    }
  }

  datatype Authentication = Authentication(
    extensionType: AuthenticationType, spi: U32, authenticator: seq<Byte>)

  datatype Session = Session(
    protocolType: U16, pcfSessionId: U32, sessionIdVersion: Byte,
    mnSessionReferenceId: U16, mnIdType: U16, mnId: seq<Byte>)

  datatype NvseKey = NvseKey(vendorId: U32, applicationType: Byte, applicationSubtype: Byte)

  datatype Nvse =
    | AccessNetworkIdentifiers(identifiers: seq<Byte>)
    | AnchorPPAddress(address: Address)
    | AllDormantIndicator
    | PdsnCode(code: Byte)
    | RnPdit(seconds: Byte)
    | AlwaysOn
    | ServiceOption(option: U16)
    | FlowControlEnabled
    | PacketBoundaryEnabled
    | ShortDataIndicationSupported
    | GreSegmentationEnabled
    | UnknownNvse(key: NvseKey, data: seq<Byte>)
  {
    predicate SessionParameter() {
      RnPdit? || AlwaysOn?
    }

    predicate PdsnEnabledFeature() {
      FlowControlEnabled? || PacketBoundaryEnabled?
    }

    predicate PcfEnabledFeature() {
      ShortDataIndicationSupported? || GreSegmentationEnabled?
    }

    function ApplicationKey(): (k: NvseKey) {
      match this
      case AccessNetworkIdentifiers(_) => NvseKey(THREEGPP2_VENDOR_ID, 0x04, 0x01)
      case AnchorPPAddress(_) => NvseKey(THREEGPP2_VENDOR_ID, 0x05, 0x01)
      case AllDormantIndicator => NvseKey(THREEGPP2_VENDOR_ID, 0x06, 0x01)
      case PdsnCode(_) => NvseKey(THREEGPP2_VENDOR_ID, 0x07, 0x01)
      case RnPdit(_) => NvseKey(THREEGPP2_VENDOR_ID, 0x08, 0x01)
      case AlwaysOn => NvseKey(THREEGPP2_VENDOR_ID, 0x08, 0x02)
      case ServiceOption(_) => NvseKey(THREEGPP2_VENDOR_ID, 0x09, 0x01)
      case FlowControlEnabled => NvseKey(THREEGPP2_VENDOR_ID, 0x0a, 0x01)
      case PacketBoundaryEnabled => NvseKey(THREEGPP2_VENDOR_ID, 0x0a, 0x02)
      case ShortDataIndicationSupported => NvseKey(THREEGPP2_VENDOR_ID, 0x0b, 0x01)
      case GreSegmentationEnabled => NvseKey(THREEGPP2_VENDOR_ID, 0x0b, 0x02)
      case UnknownNvse(k, _) => k
    }
  }

  datatype Extension =
    | SessionExtension(session: Session)
    | AuthenticationExtension(authentication: Authentication)
    | CriticalVendor(reserved: Byte, value: seq<Byte>)
    | NvseExtension(nvse: Nvse)
    | Raw(extensionType: Byte, value: seq<Byte>)

  type Reserved2 = s: seq<Byte> | |s| == 2 witness [0, 0]
  type Reserved3 = s: seq<Byte> | |s| == 3 witness [0, 0, 0]

  datatype Message =
    | RegistrationRequest(
        flags: Byte, lifetime: U16, homeAddress: Address, homeAgent: Address, careOfAddress: Address,
        identification: U64, session: Session, extensions: seq<Extension>)
    | RegistrationReply(
        code: Byte, lifetime: U16, homeAddress: Address, homeAgent: Address,
        identification: U64, session: Session, extensions: seq<Extension>)
    | RegistrationUpdate(
        reserved3: Reserved3, homeAddress: Address, homeAgent: Address,
        identification: U64, session: Session, nvses: seq<Nvse>, authentication: Authentication)
    | RegistrationAcknowledge(
        reserved2: Reserved2, status: Byte, homeAddress: Address, careOfAddress: Address,
        identification: U64, session: Session, authentication: Authentication)
    | SessionUpdate(
        reserved3: Reserved3, homeAddress: Address, homeAgent: Address,
        identification: U64, session: Session, nvses: seq<Nvse>, authentication: Authentication)
    | SessionUpdateAcknowledge(
        reserved2: Reserved2, status: Byte, homeAddress: Address, careOfAddress: Address,
        identification: U64, session: Session, authentication: Authentication)
    | CapabilitiesInfo(
        reserved3: Reserved3, homeAddress: Address, homeAgent: Address, careOfAddress: Address,
        identification: U64, nvses: seq<Nvse>, authentication: Authentication)
    | CapabilitiesInfoAcknowledge(
        reserved3: Reserved3, homeAddress: Address, careOfAddress: Address,
        identification: U64, nvses: seq<Nvse>, authentication: Authentication)
  {
    /** The messages that belong to one session; the others belong to the link as a whole. */
    predicate OfSession() {
      !CapabilitiesInfo? && !CapabilitiesInfoAcknowledge?
    }

    predicate WithExtensions() {
      RegistrationRequest? || RegistrationReply?
    }

    predicate WithNvses() {
      RegistrationUpdate? || SessionUpdate? || CapabilitiesInfo? || CapabilitiesInfoAcknowledge?
    }
  }

  function MessageType(m: Message): (b: Byte) {
    match m
    case RegistrationRequest(_, _, _, _, _, _, _, _) => 0x01
    case RegistrationReply(_, _, _, _, _, _, _) => 0x03
    case RegistrationUpdate(_, _, _, _, _, _, _) => 0x14
    case RegistrationAcknowledge(_, _, _, _, _, _, _) => 0x15
    case SessionUpdate(_, _, _, _, _, _, _) => 0x16
    case SessionUpdateAcknowledge(_, _, _, _, _, _, _) => 0x17
    case CapabilitiesInfo(_, _, _, _, _, _, _) => 0x18
    case CapabilitiesInfoAcknowledge(_, _, _, _, _, _) => 0x19
  }

  // Field validation

  /** A BCD octet of an IMSI; only the last one of an even-digit IMSI may carry the filler nibble. */
  predicate MsidOctet(b: Byte, fillerAllowed: bool) {
    b % 16 <= 9 && (b / 16 <= 9 || (b / 16 == 15 && fillerAllowed))
  }

  /** An IMSI in the layout A.S0017 gives it: a first digit, a parity nibble, then digit pairs. */
  predicate MsidWellFormed(msid: seq<Byte>)
    requires msid != []
  {
    && msid[0] / 16 <= 9
    && msid[0] % 16 <= 1
    && forall i | 0 < i < |msid| :: MsidOctet(msid[i], msid[0] % 16 == 0 && i == |msid| - 1)
  }

  function MsidOctetError(b: Byte, fillerAllowed: bool): (rule: Rule) {
    if b % 16 > 9 then MsidLowDigit
    else if b / 16 == 15 && !fillerAllowed then MsidFiller
    else MsidHighDigit
  }

  /** The rule broken by the first bad octet at or after `i`. */
  function ValidateMsidFrom(msid: seq<Byte>, i: nat): (r: Result<()>)
    requires 1 <= i <= |msid|
    ensures r.Ok? <==>
      forall j | i <= j < |msid| :: MsidOctet(msid[j], msid[0] % 16 == 0 && j == |msid| - 1)
    decreases |msid| - i
  {
    if i == |msid| then Ok(())
    else
      var fillerAllowed := msid[0] % 16 == 0 && i == |msid| - 1;
      if MsidOctet(msid[i], fillerAllowed) then ValidateMsidFrom(msid, i + 1)
      else Err(InvalidValue(MsidOctetError(msid[i], fillerAllowed)))
  }

  function ValidateMsid(msid: seq<Byte>): (r: Result<()>)
    requires msid != []
    ensures r.Ok? <==> MsidWellFormed(msid)
  {
    var _ :- Check(msid[0] / 16 <= 9, MsidFirstDigit);
    var _ :- Check(msid[0] % 16 <= 1, MsidOddEven);
    ValidateMsidFrom(msid, 1)
  }

  /** The scan over the octets of an IMSI, stopping at the first bad one. */
  method ScanMsid(msid: seq<Byte>) returns (r: Result<()>)
    requires msid != []
    ensures r == ValidateMsid(msid)
  {
    var firstDigit := msid[0] / 16;
    var oddEven := msid[0] % 16;
    if firstDigit > 9 {
      return Err(InvalidValue(MsidFirstDigit));
    }
    if oddEven != 0 && oddEven != 1 {
      return Err(InvalidValue(MsidOddEven));
    }
    var evenDigits := oddEven == 0;
    for index := 1 to |msid|
      invariant ValidateMsid(msid) == ValidateMsidFrom(msid, index)
    {
      var low := msid[index] % 16;
      var high := msid[index] / 16;
      if low > 9 {
        return Err(InvalidValue(MsidLowDigit));
      }
      var isLast := index == |msid| - 1;
      if high == 15 {
        if evenDigits && isLast {
          continue;
        }
        return Err(InvalidValue(MsidFiller));
      }
      if high > 9 {
        return Err(InvalidValue(MsidHighDigit));
      }
    }
    return Ok(());
  }

  /** What A.S0017 asks of a session identity. */
  predicate SessionWellFormed(s: Session) {
    && s.protocolType == 0x8881
    && s.pcfSessionId != 0
    && s.sessionIdVersion <= 1
    && 1 <= s.mnSessionReferenceId <= 6
    && s.mnIdType == 6
    && 6 <= |s.mnId| <= 8
    && MsidWellFormed(s.mnId)
  }

  function ValidateSession(s: Session): (r: Result<()>)
    ensures r.Ok? <==> SessionWellFormed(s)
  {
    var _ :- Check(s.protocolType == 0x8881, ProtocolType);
    var _ :- Check(s.pcfSessionId != 0, PcfSessionId);
    var _ :- Check(s.sessionIdVersion <= 1, SessionIdVersion);
    var _ :- Check(1 <= s.mnSessionReferenceId <= 6, MnSessionReferenceId);
    var _ :- Check(s.mnIdType == 6, MnIdType);
    if !(6 <= |s.mnId| <= 8) then Err(InvalidExtensionLength(6, |s.mnId|))
    else ValidateMsid(s.mnId)
  }

  // Extension and NVSE lists

  /** The keys met so far while walking an extension list. */
  datatype Seen = Seen(raw: set<Byte>, auth: set<Byte>, nvse: set<NvseKey>)

  const NOTHING_SEEN: Seen := Seen({}, {}, {})

  /** Takes note of one extension, refusing a second one under the same key. */
  function Admit(seen: Seen, e: Extension): (r: Result<Seen>) {
    match e
    case SessionExtension(_) => Err(InvalidValue(SessionExtensionMisplaced))
    case AuthenticationExtension(a) =>
      if a.extensionType.Value() in seen.auth then Err(DuplicateExtension(a.extensionType.Value()))
      else Ok(seen.(auth := seen.auth + {a.extensionType.Value()}))
    case CriticalVendor(_, _) => Ok(seen)
    case NvseExtension(n) =>
      if n.ApplicationKey() in seen.nvse then Err(DuplicateExtension(NVSE_TYPE))
      else Ok(seen.(nvse := seen.nvse + {n.ApplicationKey()}))
    case Raw(t, _) =>
      if t in seen.raw then Err(DuplicateExtension(t)) else Ok(seen.(raw := seen.raw + {t}))
  }

  /** The NVSE content each message type may carry. */
  predicate NvseAdmissible(n: Nvse, messageType: Byte) {
    match messageType
    case 0x01 =>
      n.AccessNetworkIdentifiers? || n.AnchorPPAddress? || n.AllDormantIndicator? || n.ServiceOption?
      || n.PcfEnabledFeature() || n.UnknownNvse?
    case 0x03 =>
      n.AnchorPPAddress? || n.SessionParameter() || n.PdsnEnabledFeature() || n.UnknownNvse?
    case 0x14 => n.PdsnCode? || n.UnknownNvse?
    case 0x16 => n.AnchorPPAddress? || n.SessionParameter() || n.UnknownNvse?
    case 0x18 =>
      n.PdsnEnabledFeature() || n.PcfEnabledFeature() || n.PdsnCode? || n.UnknownNvse?
    case 0x19 =>
      n.PdsnEnabledFeature() || n.PcfEnabledFeature() || n.UnknownNvse?
    case _ => false
  }

  function ValidateExtensionsFrom(extensions: seq<Extension>, seen: Seen, messageType: Byte): (r: Result<()>) {
    if extensions == [] then Ok(())
    else
      var seen' :- Admit(seen, extensions[0]);
      var admissible := extensions[0].NvseExtension? ==> NvseAdmissible(extensions[0].nvse, messageType);
      var _ :- Check(admissible, NvseNotAdmissible);
      ValidateExtensionsFrom(extensions[1..], seen', messageType)
  }

  function ValidateNvsesFrom(nvses: seq<Nvse>, keys: set<NvseKey>, messageType: Byte): (r: Result<()>) {
    if nvses == [] then Ok(())
    else
      var key := nvses[0].ApplicationKey();
      if key in keys then Err(DuplicateExtension(NVSE_TYPE))
      else
        var _ :- Check(NvseAdmissible(nvses[0], messageType), NvseNotAdmissible);
        ValidateNvsesFrom(nvses[1..], keys + {key}, messageType)
  }

  /** The walk over an extension list with its three key sets. */
  method ScanExtensions(extensions: seq<Extension>, messageType: Byte) returns (r: Result<()>)
    ensures r == ValidateExtensionsFrom(extensions, NOTHING_SEEN, messageType)
  {
    var rawTypes, authTypes, nvseKeys := {}, {}, {};
    for i := 0 to |extensions|
      invariant ValidateExtensionsFrom(extensions, NOTHING_SEEN, messageType)
             == ValidateExtensionsFrom(extensions[i..], Seen(rawTypes, authTypes, nvseKeys), messageType)
    {
      assert extensions[i..][1..] == extensions[i + 1..];
      match extensions[i] {
        case SessionExtension(_) =>
          return Err(InvalidValue(SessionExtensionMisplaced));
        case AuthenticationExtension(a) =>
          if a.extensionType.Value() in authTypes {
            return Err(DuplicateExtension(a.extensionType.Value()));
          }
          authTypes := authTypes + {a.extensionType.Value()};
        case CriticalVendor(_, _) =>
        case NvseExtension(n) =>
          if n.ApplicationKey() in nvseKeys {
            return Err(DuplicateExtension(NVSE_TYPE));
          }
          nvseKeys := nvseKeys + {n.ApplicationKey()};
          if !NvseAdmissible(n, messageType) {
            return Err(InvalidValue(NvseNotAdmissible));
          }
        case Raw(t, _) =>
          if t in rawTypes {
            return Err(DuplicateExtension(t));
          }
          rawTypes := rawTypes + {t};
      }
    }
    return Ok(());
  }

  /** The key under which a second extension would be a duplicate. */
  datatype ExtensionKey = AuthenticationKey(b: Byte) | VendorKey(k: NvseKey) | RawKey(b: Byte)

  function KeyOf(e: Extension): (k: Option<ExtensionKey>) {
    match e
    case SessionExtension(_) => None
    case AuthenticationExtension(a) => Some(AuthenticationKey(a.extensionType.Value()))
    case CriticalVendor(_, _) => None
    case NvseExtension(n) => Some(VendorKey(n.ApplicationKey()))
    case Raw(t, _) => Some(RawKey(t))
  }

  predicate Holds(seen: Seen, k: ExtensionKey) {
    match k
    case AuthenticationKey(b) => b in seen.auth
    case VendorKey(k) => k in seen.nvse
    case RawKey(b) => b in seen.raw
  }

  ghost predicate DistinctKeys(extensions: seq<Extension>) {
    forall i, j | 0 <= i < j < |extensions| ::
      KeyOf(extensions[i]).Some? ==> KeyOf(extensions[i]) != KeyOf(extensions[j])
  }

  /** No session extension, no two extensions under one key, and only admissible NVSEs. */
  ghost predicate ExtensionsWellFormed(extensions: seq<Extension>, messageType: Byte) {
    && (forall e <- extensions :: !e.SessionExtension? && (e.NvseExtension? ==> NvseAdmissible(e.nvse, messageType)))
    && DistinctKeys(extensions)
  }

  ghost predicate Unseen(extensions: seq<Extension>, seen: Seen) {
    forall e <- extensions :: KeyOf(e).Some? ==> !Holds(seen, KeyOf(e).value)
  }

  /** One step of the walk accepts an extension exactly when its key is new, and then remembers it. */
  lemma AdmitIff(seen: Seen, e: Extension)
    ensures Admit(seen, e).Ok? <==> !e.SessionExtension? && (KeyOf(e).Some? ==> !Holds(seen, KeyOf(e).value))
    ensures Admit(seen, e).Ok? ==>
      forall k :: Holds(Admit(seen, e).value, k) <==> Holds(seen, k) || KeyOf(e) == Some(k)
  {
  }

  lemma DistinctKeysCons(head: Extension, tail: seq<Extension>)
    ensures DistinctKeys([head] + tail)
       <==> DistinctKeys(tail) && forall e <- tail :: KeyOf(head).Some? ==> KeyOf(e) != KeyOf(head)
  {
    hide KeyOf;
    var all := [head] + tail;
    if DistinctKeys(all) {
      forall e <- tail | KeyOf(head).Some? ensures KeyOf(e) != KeyOf(head) {
        var j :| 0 <= j < |tail| && tail[j] == e;
        assert all[0] == head && all[j + 1] == e;
      }
      forall i, j | 0 <= i < j < |tail| && KeyOf(tail[i]).Some? ensures KeyOf(tail[i]) != KeyOf(tail[j]) {
        assert tail[i] == all[i + 1] && tail[j] == all[j + 1];
      }
    }
  }

  /** Every vendor extension suits the message type, and no two are for the same application. */
  ghost predicate NvsesWellFormed(nvses: seq<Nvse>, messageType: Byte) {
    && (forall n <- nvses :: NvseAdmissible(n, messageType))
    && (forall i, j | 0 <= i < j < |nvses| :: nvses[i].ApplicationKey() != nvses[j].ApplicationKey())
  }

  lemma NvsesWellFormedCons(head: Nvse, tail: seq<Nvse>, messageType: Byte)
    ensures NvsesWellFormed([head] + tail, messageType)
       <==> && NvseAdmissible(head, messageType) && NvsesWellFormed(tail, messageType)
            && forall n <- tail :: n.ApplicationKey() != head.ApplicationKey()
  {
    hide NvseAdmissible;
    var all := [head] + tail;
    assert forall i | 0 <= i < |tail| :: all[i + 1] == tail[i];
    if NvsesWellFormed(all, messageType) {
      forall i, j | 0 <= i < j < |tail| ensures tail[i].ApplicationKey() != tail[j].ApplicationKey() {
        assert all[i + 1].ApplicationKey() != all[j + 1].ApplicationKey();
      }
      forall n <- tail ensures n.ApplicationKey() != head.ApplicationKey() && NvseAdmissible(n, messageType) {
        var i :| 0 <= i < |tail| && tail[i] == n;
        assert all[0].ApplicationKey() != all[i + 1].ApplicationKey() && n in all;
      }
    }
  }

  lemma {:induction false} ValidateNvsesIff(nvses: seq<Nvse>, keys: set<NvseKey>, messageType: Byte)
    ensures ValidateNvsesFrom(nvses, keys, messageType).Ok?
       <==> NvsesWellFormed(nvses, messageType) && forall n <- nvses :: n.ApplicationKey() !in keys
  {
    hide NvseAdmissible;
    if nvses != [] {
      var head, tail := nvses[0], nvses[1..];
      assert nvses == [head] + tail;
      NvsesWellFormedCons(head, tail, messageType);
      ValidateNvsesIff(tail, keys + {head.ApplicationKey()}, messageType);
      hide NvsesWellFormed;
    }
  }

  lemma {:induction false} ValidateExtensionsIff(extensions: seq<Extension>, seen: Seen, messageType: Byte)
    ensures ValidateExtensionsFrom(extensions, seen, messageType).Ok?
       <==> ExtensionsWellFormed(extensions, messageType) && Unseen(extensions, seen)
  {
    hide Admit, KeyOf, Holds, NvseAdmissible;
    if extensions != [] {
      var head, tail := extensions[0], extensions[1..];
      assert extensions == [head] + tail;
      AdmitIff(seen, head);
      DistinctKeysCons(head, tail);
      if Admit(seen, head).Ok? {
        ValidateExtensionsIff(tail, Admit(seen, head).value, messageType);
      }
    }
  }

  // Whole messages

  /** The required authenticator of a message whose extensions are an open list: it must come last. */
  function RequiredAuthentication(extensions: seq<Extension>, expected: AuthenticationType)
    : (r: Result<Authentication>)
    ensures r.Ok? ==> extensions != [] && extensions[|extensions| - 1] == AuthenticationExtension(r.value)
                      && r.value.extensionType == expected
  {
    if extensions == [] then Err(InvalidValue(AuthenticationMissing))
    else
      match extensions[|extensions| - 1]
      case AuthenticationExtension(a) =>
        if a.extensionType == expected then Ok(a) else Err(InvalidValue(AuthenticationTypeUnexpected))
      case _ => Err(InvalidValue(AuthenticationMissing))
  }

  predicate ReplyCodeSupported(code: Byte) {
    code in [0x00, 0x80, 0x81, 0x82, 0x83, 0x85, 0x86, 0x88, 0x89, 0x8a, 0x8d]
  }

  predicate UpdateStatusSupported(status: Byte, sessionUpdate: bool) {
    status in [0x00, 0x80, 0x83, 0x85, 0x86] || (sessionUpdate && status == 0xc9)
  }

  predicate CarriesSessionContent(nvses: seq<Nvse>) {
    exists n <- nvses :: n.AnchorPPAddress? || n.SessionParameter() || n.UnknownNvse?
  }

  predicate CarriesFeatureContent(nvses: seq<Nvse>) {
    exists n <- nvses :: n.PdsnEnabledFeature() || n.PcfEnabledFeature() || n.UnknownNvse?
  }

  /** Message validation, the checks in the order the implementation makes them. */
  function Validate(m: Message): (r: Result<()>)
    ensures r.Ok? ==> m.identification != 0 && (m.OfSession() ==> SessionWellFormed(m.session))
    ensures r.Ok? && m.WithExtensions() ==> m.lifetime <= 65534
  {
    match m
    case RegistrationRequest(flags, lifetime, homeAddress, _, _, identification, session, extensions) =>
      var _ :- ValidateSession(session);
      var _ :- Check(flags == 0x0a || flags == 0x8a, RequestFlags);
      var _ :- Check(lifetime != 0xffff, LifetimeMax);
      var _ :- Check(homeAddress == [0, 0, 0, 0], HomeAddressNonZero);
      var _ :- ValidateExtensionsFrom(extensions, NOTHING_SEEN, MessageType(m));
      var _ :- RequiredAuthentication(extensions, MobileHome);
      Check(identification != 0, IdentificationZero)
    case RegistrationReply(code, lifetime, homeAddress, _, identification, session, extensions) =>
      var _ :- ValidateSession(session);
      var _ :- Check(ReplyCodeSupported(code), ReplyCode);
      var _ :- Check(lifetime != 0xffff, LifetimeMax);
      var _ :- Check(homeAddress == [0, 0, 0, 0], HomeAddressNonZero);
      var _ :- ValidateExtensionsFrom(extensions, NOTHING_SEEN, MessageType(m));
      var _ :- RequiredAuthentication(extensions, MobileHome);
      Check(identification != 0, IdentificationZero)
    case RegistrationUpdate(reserved, homeAddress, _, identification, session, nvses, authentication) =>
      var _ :- ValidateSession(session);
      var _ :- Check(reserved == [0, 0, 0], ReservedNonZero);
      var _ :- Check(homeAddress == [0, 0, 0, 0], HomeAddressNonZero);
      var _ :- ValidateNvsesFrom(nvses, {}, MessageType(m));
      var _ :- Check(authentication.extensionType == RegistrationUpdateAuth, AuthenticationTypeUnexpected);
      Check(identification != 0, IdentificationZero)
    case RegistrationAcknowledge(reserved, status, homeAddress, _, identification, session, authentication) =>
      var _ :- ValidateSession(session);
      var _ :- Check(reserved == [0, 0], ReservedNonZero);
      var _ :- Check(UpdateStatusSupported(status, false), UpdateStatus);
      var _ :- Check(homeAddress == [0, 0, 0, 0], HomeAddressNonZero);
      var _ :- Check(authentication.extensionType == RegistrationUpdateAuth, AuthenticationTypeUnexpected);
      Check(identification != 0, IdentificationZero)
    case SessionUpdate(reserved, homeAddress, _, identification, session, nvses, authentication) =>
      var _ :- ValidateSession(session);
      var _ :- Check(reserved == [0, 0, 0], ReservedNonZero);
      var _ :- Check(homeAddress == [0, 0, 0, 0], HomeAddressNonZero);
      var _ :- ValidateNvsesFrom(nvses, {}, MessageType(m));
      var _ :- Check(CarriesSessionContent(nvses), SessionUpdateContent);
      var _ :- Check(authentication.extensionType == RegistrationUpdateAuth, AuthenticationTypeUnexpected);
      Check(identification != 0, IdentificationZero)
    case SessionUpdateAcknowledge(reserved, status, homeAddress, _, identification, session, authentication) =>
      var _ :- ValidateSession(session);
      var _ :- Check(reserved == [0, 0], ReservedNonZero);
      var _ :- Check(UpdateStatusSupported(status, true), UpdateStatus);
      var _ :- Check(homeAddress == [0, 0, 0, 0], HomeAddressNonZero);
      var _ :- Check(authentication.extensionType == RegistrationUpdateAuth, AuthenticationTypeUnexpected);
      Check(identification != 0, IdentificationZero)
    case CapabilitiesInfo(reserved, homeAddress, _, _, identification, nvses, authentication) =>
      var _ :- Check(reserved == [0, 0, 0], ReservedNonZero);
      var _ :- Check(homeAddress == [0, 0, 0, 0], HomeAddressNonZero);
      var _ :- ValidateNvsesFrom(nvses, {}, MessageType(m));
      var _ :- Check(CarriesFeatureContent(nvses), CapabilitiesContent);
      var _ :- Check(authentication.extensionType == RegistrationUpdateAuth, AuthenticationTypeUnexpected);
      Check(identification != 0, IdentificationZero)
    case CapabilitiesInfoAcknowledge(reserved, homeAddress, _, identification, nvses, authentication) =>
      var _ :- Check(reserved == [0, 0, 0], ReservedNonZero);
      var _ :- Check(homeAddress == [0, 0, 0, 0], HomeAddressNonZero);
      var _ :- ValidateNvsesFrom(nvses, {}, MessageType(m));
      var _ :- Check(CarriesFeatureContent(nvses), CapabilitiesContent);
      var _ :- Check(authentication.extensionType == RegistrationUpdateAuth, AuthenticationTypeUnexpected);
      Check(identification != 0, IdentificationZero)
  }
}
