# 1xbts in Dafny

A model of the parts of 1xbts where state, arithmetic and wire formats meet, with proofs of what they keep.

- The A11 signalling crate: the eight registration, update and capabilities messages, their extensions and octet
  forms (`Messages`, `Validation`, `Codec`, `Wire`, `Layout`), keyed authentication (`Signing`), the two UDP
  framings (`Transport`).
  Decoding is characterised completely: octets decode to a message exactly when the message is well formed and
  the octets are its one wire form. Round trip, canonical form, sign-then-verify and the position of the
  authenticator follow.
- The A11 session procedure table (`Procedure`, `ProcedureTable`, `ProcedureEvents`, `ProcedureLaws`,
  `ProcedureRuns`): handlers that update a map of records and two slots in place, proved equal to a step function; failure atomicity,
  independence and commutation, timer sweeps; invariants and provenance over all runs. `Network` joins two
  tables by a network that loses, duplicates and reorders; `NetworkExact` gives the exact condition for its
  feature class check.
- The FOU-over-TCP relay (`Checksum`, `Relay`): buffers of length-prefixed frames and in-place repair of IPv4,
  TCP, UDP and ICMP checksums.
- The web client's live socket and the hub it talks to (`ReplayLog`, `Live`, `Topics`, `Hub`, `HubFeeds`): bounded
  replay buffers, epochs, de-duplication by number, reference-counted topics, reconnects. End to end (`Delivery`,
  `Feeding`) the tab ends with exactly the hub's log, and `Restarts` gives the exact condition on epochs.
- The A-key checksum (`CaveTable`, `Cave`, `CaveRounds`, `Akey`): the CAVE registers and the in-place decimal
  conversion. `AkeyVectors` works out the two published check values; the steps are in `CaveSteps` and
  `CaveReckoning`, the numbers in `CaveVector1` and `CaveVector2`.

Code that changes state in place is a class or a method over arrays, proved against a specification function.
Properties of that function are lemmas beside it. `dafny verify dfyconfig.toml` checks the whole project.

Where code and prose differ the model follows the code. The code is laxer than one might expect in three places,
and the statements say so: a reply settles a pending transaction of any kind with its identification; an
acknowledge of the wrong feature class empties its slot; the decoder accepts an RN-PDIT of 0 and PDSN codes that
the encoder refuses.

## Model

| member | source | states |
|---|---|---|
| Messages.ScanMsid | crates/cdma-a11/src/lib.rs:2143-2187 | the octet-by-octet scan of a BCD mobile identity gives the verdict, and the first error, of the recursive definition |
| Messages.AdmitIff | crates/cdma-a11/src/lib.rs:2048-2086 | an extension is admitted exactly when it is not a session extension and its duplicate key has not been seen; afterwards exactly that key is seen too |
| Messages.ValidateNvsesIff | crates/cdma-a11/src/lib.rs:2088-2100 | the scan of a vendor extension list accepts exactly the lists of pairwise distinct applications, not seen before, that suit the message type |
| Messages.ValidateExtensionsIff | crates/cdma-a11/src/lib.rs:2048-2086 | the stateful duplicate scan accepts exactly the lists whose keys are pairwise distinct, were not seen before, and whose vendor extensions suit the message type |
| Messages.ScanExtensions | crates/cdma-a11/src/lib.rs:2048-2086 | the loop over extensions with its growing sets gives the verdict and the first error of the recursive definition |
| Validation.AdmissibleIff | crates/cdma-a11/src/lib.rs:2297-2338 | for every vendor extension, the message types that may carry it, listed by extension |
| Validation.ValidateIff | crates/cdma-a11/src/lib.rs:1845-2046 | for all eight messages: validation accepts exactly those whose fields meet the listed conditions, codes, statuses and flags written out |
| Codec.FromApplicationIff | crates/cdma-a11/src/lib.rs:523-687 | application data parses to a vendor extension exactly when it is that extension's own data under its own key; an unknown extension only under an unknown key |
| Codec.NvseIff | crates/cdma-a11/src/lib.rs:442-687 | octets decode to a vendor extension if and only if the extension is canonical and the octets are its wire form |
| Codec.AuthenticationIff | crates/cdma-a11/src/lib.rs:249-292 | an authentication extension decodes if and only if its SPI is non-zero, it has 16 authenticator octets and the octets are its wire form |
| Codec.CriticalVendorIff | crates/cdma-a11/src/lib.rs:312-351 | the critical vendor extension's header and value are read back exactly from its wire form |
| Codec.SessionFieldsInvert | crates/cdma-a11/src/lib.rs:830-898 | the packed session fields and their octets determine each other |
| Codec.SessionIff | crates/cdma-a11/src/lib.rs:830-898 | a session decodes from the front of the input, using so many octets, if and only if it is well formed and its wire form is that prefix |
| Codec.ExtensionExtent | crates/cdma-a11/src/lib.rs:1703-1735 | in front of any input the length taken for an extension is that of its wire form, by either length rule |
| Codec.ExtensionDecodes | crates/cdma-a11/src/lib.rs:746-812 | every canonical extension of every kind decodes from its wire form |
| Codec.ExtensionEncodes | crates/cdma-a11/src/lib.rs:746-812 | whatever decodes to an extension is its wire form, and the extension is canonical |
| Codec.CollectDecodes | crates/cdma-a11/src/lib.rs:1703-1775 | any list of canonical extensions that validation accepts is collected from its wire form, from any offset and with any keys seen before |
| Codec.CollectEncodes | crates/cdma-a11/src/lib.rs:1703-1775 | what is collected is canonical and its wire form is exactly the input read, with nothing skipped |
| Codec.CollectExtensions | crates/cdma-a11/src/lib.rs:1703-1775 | the offset loop with its growing list and sets gives the result and error of the recursive definition |
| Codec.NvsesDecode | crates/cdma-a11/src/lib.rs:1777-1843 | any accepted list of canonical vendor extensions followed by the authenticator is read back |
| Codec.NvsesEncode | crates/cdma-a11/src/lib.rs:1777-1843 | what is read is canonical and the input is exactly its wire form, ending in an authenticator of the expected type |
| Codec.ReadNvsesWithAuthentication | crates/cdma-a11/src/lib.rs:1777-1843 | the offset loop gives the result and error of the recursive definition |
| Codec.RequiredAuthenticationIff | crates/cdma-a11/src/lib.rs:2189-2211 | the trailing required authenticator is accepted exactly when it is canonical, of the expected type and the whole rest of the input |
| Wire.AppendExtensions | crates/cdma-a11/src/lib.rs:1367-1491 | appending extensions to a buffer in a loop gives the buffer followed by their encoding, or the first error |
| Wire.HeaderIff | crates/cdma-a11/src/lib.rs:1493-1701 | the fixed fields read from an input are a message's own if and only if the input starts with its header |
| Wire.TailIff | crates/cdma-a11/src/lib.rs:1493-1843 | the rest of an input reads as a valid message's extensions and authenticator if and only if they are canonical and it is their wire form |
| Wire.DecodeIff | crates/cdma-a11/src/lib.rs:1341-1365 | for all octets and all messages of the eight types: the octets decode to the message if and only if the message is well formed and the octets are its wire form |
| Wire.EncodeExtensionsIff | crates/cdma-a11/src/lib.rs:1367-1491 | a list of extensions encodes exactly when each of them does |
| Wire.EncodeIff | crates/cdma-a11/src/lib.rs:1162-1189 | the encoder accepts exactly the well-formed messages whose values it can encode, among the unambiguous ones |
| Wire.RoundTrip | crates/cdma-a11/src/lib.rs:1162-1189 | a message the encoder accepts is given back by the decoder if and only if it is unambiguous: no raw or unknown extension stands for one that has its own form |
| Wire.Reencode | crates/cdma-a11/src/lib.rs:1341-1365 | a decoded message encodes to the identical octets, or fails, exactly when it holds an RN-PDIT of 0 or a PDSN code outside the encoder's set, and with that error |
| Wire.NoTwoForms | crates/cdma-a11/src/lib.rs:1341-1365 | two octet strings that decode to the same message are equal |
| Layout.Fields | crates/cdma-a11/src/lib.rs:1493-1701 | in all octets that decode, the fixed fields of the message and those of its session lie at the stated offsets, as big-endian numbers |
| Layout.SessionLayout | crates/cdma-a11/src/lib.rs:830-898 | a session in front of anything, field by field |
| Wire.DisguiseNotReturned | crates/cdma-a11/src/lib.rs:523-687 | a PDSN code held as an unknown extension encodes and does not come back |
| Wire.UnknownCodeNotReencoded | crates/cdma-a11/src/lib.rs:459-480 | a PDSN code of 0 decodes from its wire form and the encoder refuses it |
| Signing.SetExtensionAuthentication | crates/cdma-a11/src/lib.rs:1302-1339 | the replace-or-append loop computes the placement, and leaves what it left on a duplicate |
| Signing.AuthenticatorIsLast16 | crates/cdma-a11/src/lib.rs:1025-1044 | in everything that decodes the required authenticator exists, is of the required type, and is exactly the last 16 octets |
| Signing.WireEndsWithAuthenticator | crates/cdma-a11/src/lib.rs:1126-1135 | the wire form of a message is a prefix that does not contain the required authenticator, followed by it |
| Signing.VerifiedIff | crates/cdma-a11/src/lib.rs:1091-1200 | verified decoding succeeds with a message if and only if the input decodes to it, the SPI is the association's and the last 16 octets are the hash of secret, all octets before them and secret again |
| Signing.SignedDigest | crates/cdma-a11/src/lib.rs:84-105 | a signed message carries the association's SPI, and the last 16 octets of its encoding are the hash of secret, all octets before them and secret again |
| Signing.PlaceTwice | crates/cdma-a11/src/lib.rs:1260-1339 | a second authenticator placed over a first leaves no trace of it |
| Signing.PlaceAtEnd | crates/cdma-a11/src/lib.rs:1260-1339 | in a valid message an authenticator is placed last, replaces the one required, and is then the one required |
| Signing.PlaceKeepsValid | crates/cdma-a11/src/lib.rs:1260-1339 | placing an authenticator of the required type keeps a message valid |
| Signing.SamePrefix | crates/cdma-a11/src/lib.rs:1126-1135 | placements that differ only in their 16 authenticator octets have the same octets to hash |
| Signing.SignForgets | crates/cdma-a11/src/lib.rs:84-105 | signing does not depend on the authenticator that was there before, nor does its error |
| Signing.SignIdempotent | crates/cdma-a11/src/lib.rs:84-105 | signing a signed message changes nothing |
| Signing.SignThenVerify | crates/cdma-a11/src/lib.rs:84-105 | for every message and every hash, a signed message encodes, and its encoding passes verified decoding and yields the signed message if and only if the message was unambiguous |
| Signing.PlaceKeepsAmbiguity | crates/cdma-a11/src/lib.rs:1260-1339 | placing an authenticator makes no message ambiguous and none unambiguous |
| Signing.PlaceKeepsEncodable | crates/cdma-a11/src/lib.rs:1260-1339 | an encodable message stays encodable under a canonical authenticator of the required type |
| Signing.ConstantTimeEq | crates/cdma-a11/src/lib.rs:1233-1242 | the loop without early exit decides equality of octet strings |
| Signing.Verify | crates/cdma-a11/src/lib.rs:1091-1123 | verification with the constant-time comparison succeeds exactly for the association's SPI, the required type and the 16-octet hash of secret, covered octets and secret |
| Signing.Draft.SetAuthentication | crates/cdma-a11/src/lib.rs:1260-1300 | the in-place update leaves the message and result of the placement, on errors too |
| Signing.Draft.SignMessage | crates/cdma-a11/src/lib.rs:84-105 | the in-place signing leaves the message and result of the signing, including what a failing step leaves behind; on success the encoding ends in its digest |
| Transport.FrameIff | crates/cdma-a11/src/transport.rs:217-248 | either framing yields a payload if and only if the input is exactly its frame, and a length-prefixed one fits 16 bits |
| Transport.EncodeFrameIff | crates/cdma-a11/src/transport.rs:71-88 | framing succeeds exactly when the message encodes and, length-prefixed, fits 16 bits; it then gives the frame of the wire form |
| Transport.DecodeFrameIff | crates/cdma-a11/src/transport.rs:94-102 | a datagram decodes to a message if and only if the message is well formed and the datagram is the frame of its wire form |
| Transport.FrameRoundTrip | crates/cdma-a11/src/transport.rs:71-102 | through either framing a message comes back if and only if it is unambiguous |
| Transport.SignedFrameVerifies | crates/cdma-a11/src/transport.rs:111-122 | signed, framed, unframed and verified: the receiver ends with the signed message if and only if the message was unambiguous |
| ProcedureTable.SessionProcedureTable.ApplyOutboundRequest | crates/cdma-a11/src/procedure.rs:336-396 | opens a registration, refresh or teardown; table and result are those of the specified step |
| ProcedureTable.SessionProcedureTable.ApplyInboundReply | crates/cdma-a11/src/procedure.rs:398-474 | takes the pending transaction out, settles or restores it; table and result are those of the specified step |
| ProcedureTable.SessionProcedureTable.ApplyInboundUpdate | crates/cdma-a11/src/procedure.rs:476-523 | table and result are those of the specified step |
| ProcedureTable.SessionProcedureTable.ApplyOutboundAcknowledge | crates/cdma-a11/src/procedure.rs:525-578 | table and result are those of the specified step, restoring the pending transaction on refusal |
| ProcedureTable.SessionProcedureTable.ApplySessionUpdate | crates/cdma-a11/src/procedure.rs:580-664 | either direction: table and result are those of the specified step |
| ProcedureTable.SessionProcedureTable.ApplySessionUpdateAcknowledge | crates/cdma-a11/src/procedure.rs:666-764 | either direction: table and result are those of the specified step, restoring the pending transaction on refusal |
| ProcedureTable.SessionProcedureTable.ApplyCapabilitiesInfo | crates/cdma-a11/src/procedure.rs:766-808 | either direction: table and result are those of the specified step |
| ProcedureTable.SessionProcedureTable.ApplyInboundCapabilitiesInfoAcknowledge | crates/cdma-a11/src/procedure.rs:810-831 | table and result are those of the specified step; a wrong feature class empties the slot |
| ProcedureTable.SessionProcedureTable.ApplyOutboundCapabilitiesInfoAcknowledge | crates/cdma-a11/src/procedure.rs:833-855 | table and result are those of the specified step; a wrong feature class empties the slot |
| ProcedureTable.SessionProcedureTable.ApplyMessage | crates/cdma-a11/src/procedure.rs:159-227 | for every message, direction and table: the new table and the result are those of the specified step |
| ProcedureTable.SessionProcedureTable.ClearSessionNow | crates/cdma-a11/src/procedure.rs:322-334 | removes the session, or reports it unknown and changes nothing |
| ProcedureTable.SessionProcedureTable.ExpireSessionsNow | crates/cdma-a11/src/procedure.rs:261-278 | removes the expired sessions and reports each of them exactly once |
| ProcedureTable.SessionProcedureTable.ExpireProtocolTimersNow | crates/cdma-a11/src/procedure.rs:281-319 | ends the overdue updates and the overdue outbound exchange and reports each exactly once, the exchange last |
| ProcedureLaws.SessionFailure | crates/cdma-a11/src/procedure.rs:336-764 | a refused session message leaves its slot as it was, although handlers take the pending transaction out first |
| ProcedureLaws.FailureAtomic | crates/cdma-a11/src/procedure.rs:159-227 | a failing message changes the table if and only if it is an acknowledge of the awaited identification with the wrong feature class; then exactly the matching slot is emptied, and only then is that the error |
| ProcedureLaws.TouchesOnly | crates/cdma-a11/src/procedure.rs:159-227 | a message changes no part of the table but its own session or its own capabilities slot |
| ProcedureLaws.DependsOnly | crates/cdma-a11/src/procedure.rs:159-227 | result and effect depend on no other part of the table |
| ProcedureLaws.Commute | crates/cdma-a11/src/procedure.rs:159-227 | two messages about different parts can be applied in either order: same results, same table |
| ProcedureLaws.ExpiryExact | crates/cdma-a11/src/procedure.rs:261-278 | a sweep removes exactly the committed sessions with expiry at or before now, and nothing else changes |
| ProcedureLaws.ExpiryComposes | crates/cdma-a11/src/procedure.rs:261-278 | sweeping at two times, in either order, is sweeping at the later |
| ProcedureLaws.ProtocolTimersExact | crates/cdma-a11/src/procedure.rs:281-319 | exactly the local session updates and the outbound exchange whose exact deadline has passed (or the clock is at its maximum) end; committed state and the set of sessions survive |
| ProcedureLaws.ProtocolTimersCompose | crates/cdma-a11/src/procedure.rs:281-319 | a later sweep of the protocol timers subsumes an earlier one |
| ProcedureLaws.SweepsCommute | crates/cdma-a11/src/procedure.rs:261-319 | the lifetime sweep and the protocol timer sweep commute, at any two times |
| ProcedureEvents.OpeningLeavesPending | crates/cdma-a11/src/procedure.rs:336-664 | an event that opens a transaction leaves it pending, of the kind the event names, with the message's identification, home agent, lifetime and time, beside what was committed |
| ProcedureEvents.SettlingLeavesNone | crates/cdma-a11/src/procedure.rs:398-764 | an event that settles a transaction leaves none pending; a grant commits what the reply says for the care-of address asked for; a rejection or update keeps the commitment, and a rejection without one ends the session |
| ProcedureEvents.ClearedIsGone | crates/cdma-a11/src/procedure.rs:398-578 | a session reported as cleared is gone |
| ProcedureEvents.EventsAreThese | crates/cdma-a11/src/procedure.rs:336-764 | an accepted session message opens, settles or clears |
| ProcedureEvents.RequestAccepted | crates/cdma-a11/src/procedure.rs:336-396 | a request is accepted if and only if it goes out, is valid, and its session has nothing pending or is new and not to be ended |
| ProcedureEvents.ReplyAccepted | crates/cdma-a11/src/procedure.rs:398-474 | a reply is accepted if and only if it comes in, is valid, answers what is pending and, if it agrees, agrees to what was asked |
| ProcedureEvents.UpdateAccepted | crates/cdma-a11/src/procedure.rs:476-664 | an update is accepted if and only if it is valid, the session established with nothing pending, and its home agent (and for a registration update the identification) the committed one |
| ProcedureEvents.AcknowledgeAccepted | crates/cdma-a11/src/procedure.rs:525-764 | an acknowledge is accepted if and only if it is valid and answers a pending update of its kind under its identification and care-of address |
| ProcedureEvents.CapabilitiesAccepted | crates/cdma-a11/src/procedure.rs:766-855 | when capabilities messages are accepted, ignored or refused, and what is left in the slot |
| ProcedureEvents.AnswerClass | crates/cdma-a11/src/procedure.rs:968-1007 | an answer suits a request if and only if a request about one side's features alone is answered with the other side's alone |
| ProcedureEvents.RejectedThenRequested | crates/cdma-a11/src/procedure.rs:398-472 | after a rejection the next valid request is accepted, whatever was pending, unless there is no session left and it asks to end one |
| ProcedureEvents.SnapshotShows | crates/cdma-a11/src/procedure.rs:866-922 | a snapshot shows what is asked for while a registration or refresh is pending and otherwise what is committed; lifetime and expiry are the committed ones as soon as there are any |
| ProcedureRuns.SessionStepKeepsInv | crates/cdma-a11/src/procedure.rs:336-764 | every session message keeps what holds of a reachable record |
| ProcedureRuns.RunKeepsInv | crates/cdma-a11/src/procedure.rs:159-334 | every run of messages, sweeps and clearings keeps it for every record |
| ProcedureRuns.ReachableRecord | crates/cdma-a11/src/procedure.rs:866-922 | in every reachable table a record is stored under its own key with a valid session, is uncommitted exactly when a registration is pending, never has neither, and is Active exactly when committed with nothing pending |
| ProcedureRuns.ReachablePendingUpdate | crates/cdma-a11/src/procedure.rs:476-664 | in every reachable table a pending update agrees with the committed home agent, care-of address and lifetime, and a remote update with its identification |
| ProcedureRuns.SessionLeaves | crates/cdma-a11/src/procedure.rs:336-764 | a record leaves the table exactly on the listed occasions, and until then its session never changes |
| ProcedureRuns.RunProvenance | crates/cdma-a11/src/procedure.rs:336-764 | after every run every pending transaction was opened by an accepted message on the same session and has been pending ever since, and every commitment was granted in answer to one |
| ProcedureRuns.CommittedProvenance | crates/cdma-a11/src/procedure.rs:398-474 | a commitment was granted by an accepting reply with a lifetime in 1..65534, at the time that set its expiry, and has stood unchanged since; the reply answered the very transaction, pending in every table in between, that an earlier message opened on the same session under that identification, for a care-of address requested by then |
| ProcedureRuns.ExpiryBounded | crates/cdma-a11/src/procedure.rs:449-456 | under a clock that never runs backwards no expiry lies more than 65534 seconds ahead |
| ProcedureRuns.ExpiryFits | crates/cdma-a11/src/procedure.rs:449-456 | unless the clock is within 65534 seconds of its 64-bit end, every expiry fits it and the sum in the code is exact |
| Network.RunWorldInv | crates/cdma-a11/src/procedure.rs:766-855 | two tables on a network that loses, duplicates and reorders: every message in flight and every open exchange is explained by earlier steps |
| Network.CompletionOrder | crates/cdma-a11/src/procedure.rs:766-831 | an initiator reports completion only after its peer completed its answer, which was after the peer took the request, which was after the initiator sent it |
| Network.ClassCheckHolds | crates/cdma-a11/src/procedure.rs:968-1007 | if an initiator never reuses an identification for another feature class, its class check cannot fail on any acknowledge the peer's table let through |
| NetworkExact.ClassCheckExact | crates/cdma-a11/src/procedure.rs:810-831 | for every run: however it goes on with the identifications used so far, no acknowledge is refused for its class, if and only if the initiator has kept to one class for each identification |
| NetworkExact.TwoClassesFail | crates/cdma-a11/src/procedure.rs:766-855 | from every run with two classes under one identification there is a continuation that ends in such a refusal |
| Network.AnswerFits | crates/cdma-a11/src/procedure.rs:833-855 | an acknowledge that the peer's table let through answers the class that was asked |
| Network.ReuseBreaksClassCheck | crates/cdma-a11/src/procedure.rs:810-831 | a run that reuses an identification on which that check does fail |
| Checksum.FoldUnique | docker/fou-nat/fou_tcp_relay.py:153-161 | the folded sum is the only 16-bit number congruent to the total modulo 65535 that is zero just when the total is |
| Checksum.ComputeChecksum16 | docker/fou-nat/fou_tcp_relay.py:153-161 | folding after every word, over padded parts, gives the complement of the folded total sum |
| Checksum.AddPart | docker/fou-nat/fou_tcp_relay.py:155-160 | one part, padded if odd, adds its word sum to the folded total |
| Checksum.ChecksumRepairs | docker/fou-nat/fou_tcp_relay.py:179-193 | with the checksum of the zeroed field written into it, the whole sums to zero, for every field at an even offset |
| Checksum.NormalizeHeaderChecksum | docker/fou-nat/fou_tcp_relay.py:179-181 | in place: zeroes, sums and writes the header field |
| Checksum.NormalizeL4Checksum | docker/fou-nat/fou_tcp_relay.py:198-212 | in place: repairs the transport checksum over pseudo header and segment |
| Checksum.NormalizeIcmpChecksum | docker/fou-nat/fou_tcp_relay.py:189-193 | in place: repairs the ICMP checksum |
| Checksum.NormalizeIpv4Checksums | docker/fou-nat/fou_tcp_relay.py:164-195 | the buffer procedure computes the specified repair, and returns other packets unchanged |
| Checksum.OnlyChecksumsChange | docker/fou-nat/fou_tcp_relay.py:164-195 | a repaired packet is the packet cut to its total length, equal to it in every octet but those of the checksum fields |
| Checksum.NormalizeVerifies | docker/fou-nat/fou_tcp_relay.py:164-212 | in a repaired packet the header sums to zero, a TCP segment or UDP datagram sums to zero behind source address, destination address, zero, protocol and length, and an ICMP message by itself |
| Checksum.NormalizeDivides | docker/fou-nat/fou_tcp_relay.py:153-212 | the same in numbers: each of them, read as one big-endian number, is a multiple of 65535 |
| Checksum.ChecksumResidue | docker/fou-nat/fou_tcp_relay.py:153-161 | the complement of the checksum is the remainder modulo 65535 of the octets read as one big-endian number, and 0xffff stands for zero alone |
| Checksum.RepairedWhen | docker/fou-nat/fou_tcp_relay.py:164-177 | a packet is repaired if and only if its first octet is 0x45 to 0x4f and its header is there and within the declared length; the result is cut to that length, and anything else is returned unchanged |
| Checksum.RepairedWhere | docker/fou-nat/fou_tcp_relay.py:179-212 | every octet of a repaired packet is the packet's own but 10 and 11 and those at 16, 6 or 2 in the TCP, UDP or ICMP payload |
| Checksum.RepairForgets | docker/fou-nat/fou_tcp_relay.py:164-195 | the repair does not depend on the checksums that were there |
| Checksum.NormalizeIdempotent | docker/fou-nat/fou_tcp_relay.py:164-195 | repairing a repaired packet changes nothing, for every input |
| Relay.ParseAppend | docker/fou-nat/fou_tcp_relay.py:103-113 | draining what arrived and later the leftover with more gives what draining all at once gives |
| Relay.ParseFrames | docker/fou-nat/fou_tcp_relay.py:103-113 | a stream of frames followed by anything drains to exactly their payloads and then the rest |
| Relay.ChunkingIrrelevant | docker/fou-nat/fou_tcp_relay.py:91-113 | however a stream is cut into reads, the same datagrams come out and the same octets are left |
| Relay.PrefixParse | docker/fou-nat/fou_tcp_relay.py:103-113 | any prefix of the frames of some payloads drains to a prefix of those payloads |
| Relay.EndToEnd | docker/fou-nat/fou_tcp_relay.py:64-132 | two connected relays over a stream that delivers in order: what the far one has relayed is a prefix of what the near one has queued, unchanged, and all of it once everything is written and read |
| Relay.Relay.Accept | docker/fou-nat/fou_tcp_relay.py:35-47 | a new client replaces the old one and starts with empty buffers and history |
| Relay.Relay.CloseConnection | docker/fou-nat/fou_tcp_relay.py:49-62 | closing empties both buffers |
| Relay.Relay.DrainTcpFrames | docker/fou-nat/fou_tcp_relay.py:103-113 | sends every complete frame on, repaired and in order, and keeps exactly the leftover |
| Relay.Relay.TcpReady | docker/fou-nat/fou_tcp_relay.py:64-101 | keeps the stream invariant through partial writes, partial reads, errors and disconnects, and says when the connection survives |
| Relay.Relay.UdpReadable | docker/fou-nat/fou_tcp_relay.py:115-132 | queues the repaired datagram behind the others in whole frames, drops oversize ones, does nothing without a client |
| ReplayLog.TakeHolds | 1xbts-web/src/lib/live.ts:135-144 | after any item, each buffer still holds exactly the last min(n, 1000) items of its event recorded in the epoch, in order |
| ReplayLog.SameElements | 1xbts-web/src/lib/live.ts:183-194 | two increasing item sequences with the same items are equal, so sorting by number has one result |
| ReplayLog.SortedItems | 1xbts-web/src/lib/live.ts:189-190 | the buffers flattened and sorted are all retained items, once each, in increasing order |
| Live.LiveSocket.constructor | 1xbts-web/src/lib/live.ts:32-41 | a new tab has no socket, no subscribers and an empty log |
| Live.LiveSocket.EnsureSocket | 1xbts-web/src/lib/live.ts:43-47 | opens a socket only if there is none and there is a window; nothing has been sent on a new one |
| Live.LiveSocket.OnOpen | 1xbts-web/src/lib/live.ts:48-52 | after opening, the hub serves exactly the wanted topics, and events if anyone wants them |
| Live.LiveSocket.OnClose | 1xbts-web/src/lib/live.ts:54-60 | doubles the delay to at most 10 s and schedules a reconnect exactly when anyone is subscribed; listeners hear of it if the backend was connected |
| Live.LiveSocket.SetBackendConnected | 1xbts-web/src/lib/live.ts:146-150 | every connection listener has last been told the present state, and is only told of changes |
| Live.LiveSocket.ShowResource | 1xbts-web/src/lib/live.ts:89-112 | every listener of the topic is called with the value, which becomes its last; a value for an unknown or empty key is ignored |
| Live.LiveSocket.OnTimer | 1xbts-web/src/lib/live.ts:59 | a scheduled reconnect opens a socket, or finds one |
| Live.LiveSocket.Receive | 1xbts-web/src/lib/live.ts:71-133 | for every message the log, what has arrived and what every listener was called with become as specified; written out, a live numbered event reaches every subscriber, a replayed one none without replay, an unnumbered one everyone; a replaying subscriber has been given what was retained when it came and all recorded since, any other exactly what came live since, in order and once |
| Live.ArrivalsRecorded | 1xbts-web/src/lib/live.ts:113-129 | what has arrived with a number is what the replay log takes |
| Live.LiveSocket.ReceiveReplay | 1xbts-web/src/lib/live.ts:119-129 | a replay from another epoch starts over; its unseen items reach those that asked for replay and no others |
| Live.LiveSocket.PassOn | 1xbts-web/src/lib/live.ts:118 | an event without a number reaches every subscriber |
| Live.LiveSocket.RecordItem | 1xbts-web/src/lib/live.ts:135-144 | records an item in its buffer, dropping the oldest beyond the depth; a live one is heard by every subscriber, a replayed one by those that asked for replay |
| Live.LiveSocket.SubscribeResource | 1xbts-web/src/lib/live.ts:152-163 | adds a listener, which is called with the topic's last value if there is one; the hub's topics stay those of the tab |
| Live.LiveSocket.UnsubscribeResource | 1xbts-web/src/lib/live.ts:164-171 | the last listener to leave ends the topic at the hub, an earlier one does not |
| Live.LiveSocket.SubscribeEvents | 1xbts-web/src/lib/live.ts:183-193 | a replaying subscriber first receives exactly the retained items in order; events are requested if it is the first |
| Live.LiveSocket.UnsubscribeEvents | 1xbts-web/src/lib/live.ts:193 | a leaving subscriber is forgotten and the others keep what they have |
| Live.LiveSocket.OnConnection | 1xbts-web/src/lib/live.ts:196-202 | adds a listener, requests events if it is the first, and reports the backend state |
| Topics.JoinAgrees | 1xbts-web/server.mjs:162-174 | after a subscription every topic still serves exactly the sockets that want it, among the keys that may be polled, and none is idle |
| Topics.LeaveAgrees | 1xbts-web/server.mjs:176-184 | so too after an unsubscription, which drops a topic nobody is left on |
| Topics.LeaveAllAgrees | 1xbts-web/server.mjs:231-234 | so too after a socket closes: no topic serves it any more |
| Hub.EventHub.OnConnect | 1xbts-web/server.mjs:206-207 | a new socket is open, wants nothing and has been sent nothing |
| Hub.EventHub.OnMessage | 1xbts-web/server.mjs:208-230 | each operation of a socket changes the hub as specified, for all four kinds |
| Hub.EventHub.OnEvents | 1xbts-web/server.mjs:215-220 | the replay is sent the first time only, after the connection state |
| Hub.EventHub.SubscribeResource | 1xbts-web/server.mjs:162-174 | a late subscriber is sent the topic's last value; a key that may not be polled starts no topic |
| Hub.EventHub.UnsubscribeResource | 1xbts-web/server.mjs:176-184 | the last subscriber to leave drops the topic |
| Hub.EventHub.OnPolled | 1xbts-web/server.mjs:154-159 | a changed value becomes the topic's last and goes to every open subscriber, an unchanged one to nobody |
| Hub.EventHub.OnSocketClose | 1xbts-web/server.mjs:231-234 | a closed socket is no longer fed and gives up all its keys |
| Hub.EventHub.RecordEvent | 1xbts-web/server.mjs:74-85 | numbers and keeps exactly the events of the replay set, to the depth |
| Hub.EventHub.BroadcastEvent | 1xbts-web/server.mjs:70-72 | every open subscribed socket, and no other, is sent the message |
| Hub.EventHub.Publish | 1xbts-web/server.mjs:125-128 | log, history and feeds after an event from the base station |
| Hub.EventHub.Report | 1xbts-web/server.mjs:118-124 | the connection's state is kept and sent to every subscribed socket |
| Hub.EventHub.SendReplay | 1xbts-web/server.mjs:89-95 | sends the retained items in order, in batches of 500, or one empty batch |
| Hub.ReplayIsReplayed | 1xbts-web/server.mjs:90 | sorting the buffers gives the retained items of the history, in order |
| Hub.HubServesAll | 1xbts-web/server.mjs:206-235 | on every run a connected socket is served exactly what its operations since it opened add up to: the view a tab's live socket is proved to agree with |
| Hub.TopicsServe | 1xbts-web/server.mjs:162-184 | on every run a topic serves a socket if and only if the socket asked for its key, did not give it up, and the key may be polled |
| HubFeeds.RunInformed | 1xbts-web/server.mjs:140-174 | on every run an open socket has last been sent the present value of every topic that serves it, if it has one, and, if it asked for events, the present state of the connection |
| Feeding.StepMatches | 1xbts-web/server.mjs:206-235 | every operation of the hub, seen from one of its sockets, is one step of the connection followed below, or none: the socket's feed is what is delivered and in flight there |
| Feeding.MovesKeepInv | 1xbts-web/server.mjs:206-235 | hub, socket, connection and tab stay matched on every run of hub operations, deliveries (late ones too), rejoins on new sockets and hubs replaced under a harmless epoch |
| Feeding.FeedCatchesUp | 1xbts-web/server.mjs:87-95 | on every such run: whenever the tab has taken all that was sent on its subscribed socket, its log is the hub's |
| Feeding.FeedMakesLog | 1xbts-web/server.mjs:87-95 | on every run of the hub, taking in order all that was sent on a subscribed socket turns an empty tab's log into exactly the hub's |
| Delivery.BatchesCarry | 1xbts-web/server.mjs:91-94 | the batches carry exactly the items, in order, and are never none |
| Delivery.TakeTracks | 1xbts-web/src/lib/live.ts:113-128 | taking the next item in flight keeps: all that is owed up to the last number has been taken, the rest is on its way |
| Delivery.RunInv | 1xbts-web/server.mjs:74-95 | that, and the rest of what holds of hub, connection and tab, holds after every run with breaking connections, late deliveries and hubs replaced under a harmless epoch |
| Delivery.RecentAgree | 1xbts-web/server.mjs:82-83 | if the most recent items of a whole are among some of its items, they are the most recent of those |
| Delivery.CaughtUp | 1xbts-web/server.mjs:87-95 | on every run whose epochs are harmless: once a fed connection has delivered all it was sent, the tab's epoch, last number and buffers equal the hub's |
| Delivery.NeitherGapNorOverlap | 1xbts-web/server.mjs:87-95 | on every run whose epochs are harmless: a tab records in order, never twice, only what its hub published, and when drained everything retained when it asked for events and all published since |
| Restarts.RestartExact | 1xbts-web/src/lib/live.ts:119-126 | from every reachable world a new hub's epoch is harmless, so that the hub is followed whatever happens next, if and only if the tab has no items under that epoch and none are in flight to it |
| Restarts.HarmfulDiverges | 1xbts-web/src/lib/live.ts:119-126 | otherwise there are steps after which the tab has taken all it was sent and does not hold the hub's log |
| Restarts.RestartThenAsk | 1xbts-web/src/lib/live.ts:119-126 | after a new hub starts and the tab asks it and is answered, the logs agree if and only if the tab had nothing of that epoch |
| Restarts.ReusedEpochDiverges | 1xbts-web/src/lib/live.ts:119-126 | a run in which a hub takes over an epoch already used: the tab, drained, holds an event that hub never published |
| Cave.ShiftRight | 1xbts-web/src/lib/akey.ts:39-55 | the octet loop from the right shifts the whole array right by one bit |
| Cave.ShiftedValue | 1xbts-web/src/lib/akey.ts:39-55 | shifting the octets halves the number they stand for and adds the bit that enters on the left, for any length |
| Cave.LfsrCycle | 1xbts-web/src/lib/akey.ts:39-46 | the in-place step computes the cycle of the shift register |
| Cave.CycleWord | 1xbts-web/src/lib/akey.ts:39-46 | on 32-bit words the cycle shifts right and feeds the exclusive or of bits 22, 2, 1 and 0 in at the top |
| Cave.CycleBijection | 1xbts-web/src/lib/akey.ts:39-46 | the cycle is a bijection on the register's states: its inverse undoes it on either side |
| Cave.RotateRegisters | 1xbts-web/src/lib/akey.ts:47-55 | the in-place step computes the rotation |
| Cave.RotateWord | 1xbts-web/src/lib/akey.ts:47-55 | the sixteen registers, read as one 128-bit number, are rotated right by one |
| Cave.RotateBack | 1xbts-web/src/lib/akey.ts:47-55 | rotating left recovers them |
| CaveTable.Apart | 1xbts-web/src/lib/akey.ts:17-34 | the low nibbles of each of the sixteen table rows are pairwise different |
| Cave.ShufflePermutes | 1xbts-web/src/lib/akey.ts:88-89 | the shuffle of every round is a permutation of the registers, with an inverse on either side |
| Cave.ScatterAll | 1xbts-web/src/lib/akey.ts:88-89 | the shuffle overwrites all of the scratch array, so what an earlier round left there does not matter |
| Cave.ShuffleRegisters | 1xbts-web/src/lib/akey.ts:88-89 | scattering into the scratch array and copying back computes the shuffle, for any round number |
| CaveRounds.SeekEnds | 1xbts-web/src/lib/akey.ts:62-82 | a nibble search ends within 32 tries, one register cycle each; it ends on the register's own nibble exactly when all 32 failed, and only then is the shift register bumped |
| CaveRounds.Seek | 1xbts-web/src/lib/akey.ts:62-82 | the retry loop computes the search |
| CaveRounds.MixMoves | 1xbts-web/src/lib/akey.ts:58-86 | at any point of a round the registers already mixed hold what their neighbour held at its start, exclusive or the octet found, and the others are untouched |
| CaveRounds.MixDiffers | 1xbts-web/src/lib/akey.ts:63-83 | each nibble mixed in differs from that of the register it was searched for, unless 32 tries failed |
| CaveRounds.MixRegisters | 1xbts-web/src/lib/akey.ts:57-86 | the sixteen in-place mixing steps compute the specified state |
| CaveRounds.RunCave | 1xbts-web/src/lib/akey.ts:36-91 | the nested loops over three arrays compute the specified rounds, from the highest number down, for any number of rounds |
| CaveRounds.RoundShuffles | 1xbts-web/src/lib/akey.ts:87-89 | in every round the table has a row for, the registers are rotated and then permuted |
| CaveRounds.RoundsForget | 1xbts-web/src/lib/akey.ts:36-91 | up to sixteen rounds the scratch array's first content has no influence |
| Akey.DivideByTen | 1xbts-web/src/lib/akey.ts:123-129 | in-place division by ten, octet by octet: every partial quotient fits its octet, and quotient and remainder are exact, for any length |
| Akey.WriteDigits | 1xbts-web/src/lib/akey.ts:121-130 | six digits are the exact decimal form of any value below a million, and the final quotient is 0 |
| Akey.CheckValueBound | 1xbts-web/src/lib/akey.ts:120 | the masked result has at most 18 bits |
| Akey.LoadedNumbers | 1xbts-web/src/lib/akey.ts:99-116 | what is loaded, in numbers: the key modulo 2^64, the version 0xc7, the key modulo 2^24 and the serial number modulo 2^32; into the shift register the key's high word or, if that is zero, the serial number |
| CaveSteps.TurnAtOnce | 1xbts-web/src/lib/akey.ts:57-86 | a mixing step whose searches hit at once, from its hexadecimal digits |
| CaveSteps.MissSeeks | 1xbts-web/src/lib/akey.ts:62-82 | a search that misses ends where the one after the miss does |
| CaveSteps.Landing | 1xbts-web/src/lib/akey.ts:87-89 | where the rotation and the shuffle of a round bring a register |
| CaveVector1.Runs | 1xbts-web/src/lib/akey.ts:36-91 | the registers that eight rounds leave from the first published key and serial number, worked out step by step |
| CaveVector2.Runs | 1xbts-web/src/lib/akey.ts:36-91 | the same for the second |
| AkeyVectors.Vector1 | 1xbts-web/src/lib/akey.test.mjs:5-7 | the value for the S.S0053 vector is 86500 |
| AkeyVectors.Vector2 | 1xbts-web/src/lib/akey.test.mjs:9-11 | the value for the calculator vector is 10032 |
| AkeyVectors.NumeralUnique | 1xbts-web/src/lib/akey.ts:121-131 | a numeral of given length is told by its value, so the checksum's text is the only one |
| AkeyVectors.PublishedDigits | 1xbts-web/src/lib/akey.test.mjs:5-11 | the checksum of the two published pairs is 086500 and 010032 |
| Akey.AkeyChecksum | 1xbts-web/src/lib/akey.ts:98-132 | for every key and serial number the result is six decimal digits that are the exact decimal form of the 18-bit CAVE output |

## Left out

- MD5 is any function to 16 octets; parsing of hexadecimal secrets and validation of configuration are not modelled.
- Error texts are replaced by the rule that was broken; which rule fails first is modelled.
- Sockets, timers and asynchronous code: `UdpEndpoint`, selectors and WebSocket internals; what the operating system answers is a parameter.
- ProcedureTable.SessionProcedureTable.ApplyInboundReply: does not model overflow of the clock plus the lifetime; the sum is unbounded, and `ExpiryFits` says when that is exact.
- The sorted listing `sessions()` of the session table; single snapshots are modelled.
- Relay.Relay.DrainTcpFrames: the datagrams are those handed to the UDP socket; a send that fails loses its datagram.
- Relay.Relay.TcpReady: a callback for a replaced connection in the same select batch is not modelled.
- The RFC 768 rule for a computed UDP checksum of zero, which the code does not implement.
- Live.LiveSocket.Receive: values of topics are opaque texts, so their decoding from JSON and the error values are not modelled; nor are calls back into the socket from within a listener, and the React hook.
- Numbers of the web client and hub are mathematical integers, not floating point.
- Hub.EventHub.OnPolled: a poll that ends after its topic was dropped and started again, timers and the fetch itself are not modelled; which keys may be polled is a parameter.
- Parsing of the hub's event stream.
- Delivery.CaughtUp: supposes of every new hub that its epoch is harmless; the code draws it from clock and random digits, and `RestartExact` shows that the condition is exact.
- Delivery.NeitherGapNorOverlap: the same supposition.
- Random A-keys, the cdma-a10, cdma-a21, cdma-abis, cdma-common and cdma-bts crates, dashboards and label helpers, build scripts, the libre bindings and the Go speed test: the code is thin or missing.
