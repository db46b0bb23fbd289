/** Which messages are valid, field by field, and which messages may carry which vendor extension. */
module Validation {
  import opened Bytes
  import opened Messages
  import opened Options

  /** The types of the messages a vendor extension may be part of. */
  function Carriers(n: Nvse): (types: set<Byte>) {
    match n
    case AccessNetworkIdentifiers(_) => {0x01}
    case AnchorPPAddress(_) => {0x01, 0x03, 0x16}
    case AllDormantIndicator => {0x01}
    case PdsnCode(_) => {0x14, 0x18}
    case RnPdit(_) => {0x03, 0x16}
    case AlwaysOn => {0x03, 0x16}
    case ServiceOption(_) => {0x01}
    case FlowControlEnabled => {0x03, 0x18, 0x19}
    case PacketBoundaryEnabled => {0x03, 0x18, 0x19}
    case ShortDataIndicationSupported => {0x01, 0x18, 0x19}
    case GreSegmentationEnabled => {0x01, 0x18, 0x19}
    case UnknownNvse(_, _) => {0x01, 0x03, 0x14, 0x16, 0x18, 0x19}
  }

  lemma AdmissibleIff(n: Nvse, messageType: Byte)
    ensures NvseAdmissible(n, messageType) <==> messageType in Carriers(n)
  {
  }

  /** The fields every message has, and those of its session. */
  predicate CommonValid(m: Message) {
    && m.identification != 0 && m.homeAddress == [0, 0, 0, 0]
    && (m.OfSession() ==> SessionWellFormed(m.session))
  }

  /** The types an extension list goes with: each vendor extension may be carried, no session extension repeats the
      session, no two have one key, and the Mobile-Home authenticator closes the list. */
  ghost predicate ExtensionsValid(extensions: seq<Extension>, messageType: Byte) {
    && (forall e <- extensions :: !e.SessionExtension? && (e.NvseExtension? ==> messageType in Carriers(e.nvse)))
    && DistinctKeys(extensions)
    && extensions != [] && extensions[|extensions| - 1].AuthenticationExtension?
    && extensions[|extensions| - 1].authentication.extensionType == MobileHome
  }

  ghost predicate NvsesValid(nvses: seq<Nvse>, messageType: Byte) {
    && (forall n <- nvses :: messageType in Carriers(n))
    && (forall i, j | 0 <= i < j < |nvses| :: nvses[i].ApplicationKey() != nvses[j].ApplicationKey())
  }

  /** The fields of each kind of message. */
  ghost predicate FieldsValid(m: Message) {
    match m
    case RegistrationRequest(flags, lifetime, _, _, _, _, _, extensions) =>
      flags in {0x0a, 0x8a} && lifetime < 65535 && ExtensionsValid(extensions, 0x01)
    case RegistrationReply(code, lifetime, _, _, _, _, extensions) =>
      && code in {0x00, 0x80, 0x81, 0x82, 0x83, 0x85, 0x86, 0x88, 0x89, 0x8a, 0x8d}
      && lifetime < 65535 && ExtensionsValid(extensions, 0x03)
    case RegistrationUpdate(reserved, _, _, _, _, nvses, authentication) =>
      reserved == [0, 0, 0] && NvsesValid(nvses, 0x14) && authentication.extensionType == RegistrationUpdateAuth
    case RegistrationAcknowledge(reserved, status, _, _, _, _, authentication) =>
      && reserved == [0, 0] && status in {0x00, 0x80, 0x83, 0x85, 0x86}
      && authentication.extensionType == RegistrationUpdateAuth
    case SessionUpdate(reserved, _, _, _, _, nvses, authentication) =>
      && reserved == [0, 0, 0] && NvsesValid(nvses, 0x16) && nvses != []
      && authentication.extensionType == RegistrationUpdateAuth
    case SessionUpdateAcknowledge(reserved, status, _, _, _, _, authentication) =>
      && reserved == [0, 0] && status in {0x00, 0x80, 0x83, 0x85, 0x86, 0xc9}
      && authentication.extensionType == RegistrationUpdateAuth
    case CapabilitiesInfo(reserved, _, _, _, _, nvses, authentication) =>
      && reserved == [0, 0, 0] && NvsesValid(nvses, 0x18) && (exists n <- nvses :: !n.PdsnCode?)
      && authentication.extensionType == RegistrationUpdateAuth
    case CapabilitiesInfoAcknowledge(reserved, _, _, _, nvses, authentication) =>
      && reserved == [0, 0, 0] && NvsesValid(nvses, 0x19) && nvses != []
      && authentication.extensionType == RegistrationUpdateAuth
  }

  lemma ExtensionsValidIff(extensions: seq<Extension>, messageType: Byte)
    ensures && ValidateExtensionsFrom(extensions, NOTHING_SEEN, messageType).Ok?
            && RequiredAuthentication(extensions, MobileHome).Ok?
       <==> ExtensionsValid(extensions, messageType)
  {
    ValidateExtensionsIff(extensions, NOTHING_SEEN, messageType);
    hide ValidateExtensionsFrom, DistinctKeys, Carriers, NvseAdmissible;
    forall e <- extensions
      ensures e.NvseExtension? ==> (NvseAdmissible(e.nvse, messageType) <==> messageType in Carriers(e.nvse))
    {
      if e.NvseExtension? {
        AdmissibleIff(e.nvse, messageType);
      }
    }
  }

  lemma NvsesValidIff(nvses: seq<Nvse>, messageType: Byte)
    ensures ValidateNvsesFrom(nvses, {}, messageType).Ok? <==> NvsesValid(nvses, messageType)
  {
    ValidateNvsesIff(nvses, {}, messageType);
    hide ValidateNvsesFrom, Carriers, NvseAdmissible;
    forall n <- nvses ensures NvseAdmissible(n, messageType) <==> messageType in Carriers(n) {
      AdmissibleIff(n, messageType);
    }
  }

  /** What a non-empty list of carried extensions has to offer. */
  lemma Content(nvses: seq<Nvse>)
    ensures NvsesValid(nvses, 0x16) ==> (CarriesSessionContent(nvses) <==> nvses != [])
    ensures NvsesValid(nvses, 0x18) ==> (CarriesFeatureContent(nvses) <==> exists n <- nvses :: !n.PdsnCode?)
    ensures NvsesValid(nvses, 0x19) ==> (CarriesFeatureContent(nvses) <==> nvses != [])
  {
    assert nvses != [] ==> nvses[0] in nvses;
  }

  /** Validation accepts exactly these messages. */
  lemma ValidateIff(m: Message)
    ensures Validate(m).Ok? <==> CommonValid(m) && FieldsValid(m)
  {
    hide ExtensionsValid, NvsesValid, SessionWellFormed, ValidateExtensionsFrom, ValidateNvsesFrom,
      RequiredAuthentication, CarriesSessionContent, CarriesFeatureContent, ValidateSession;
    if m.WithExtensions() {
      ExtensionsValidIff(m.extensions, MessageType(m));
    } else if m.WithNvses() {
      NvsesValidIff(m.nvses, MessageType(m));
      Content(m.nvses);
    }
  }
}
