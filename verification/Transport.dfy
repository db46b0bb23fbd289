/** UDP framing of A11 messages: bare, or behind a two-octet payload length. */
module Transport {
  import opened Bytes
  import opened Messages
  import opened Wire
  import opened Signing

  datatype Framing = LengthPrefixed | Bare

  function EncodeFrame(m: Message, framing: Framing): (r: Result<seq<Byte>>) {
    var payload :- Encode(m);
    match framing
    case Bare => Ok(payload)
    case LengthPrefixed =>
      if |payload| > 0xffff then Err(InvalidValue(FramePayloadLength)) else Ok(BE16(|payload|) + payload)
  }

  function FramePayload(input: seq<Byte>, framing: Framing): (r: Result<seq<Byte>>) {
    match framing
    case Bare => Ok(input)
    case LengthPrefixed =>
      if |input| < 2 then Err(Truncated(2, |input|))
      else
        var total := 2 + FromBE16(input[..2]);
        if |input| < total then Err(Truncated(total, |input|))
        else if |input| != total then Err(InvalidValue(FrameTrailingBytes))
        else Ok(input[2..total])
  }

  function DecodeFrame(input: seq<Byte>, framing: Framing): (r: Result<Message>) {
    var payload :- FramePayload(input, framing);
    DecodeMessage(payload)
  }

  function DecodeFrameVerified(h: Hash, association: Association, input: seq<Byte>, framing: Framing)
    : (r: Result<Message>)
  {
    var payload :- FramePayload(input, framing);
    DecodeVerified(h, association, payload)
  }

  /** The octets a framing puts around a payload. */
  function Frame(payload: seq<Byte>, framing: Framing): (w: seq<Byte>)
    requires framing.LengthPrefixed? ==> |payload| <= 0xffff
  {
    if framing.Bare? then payload else BE16(|payload|) + payload
  }

  /** A datagram carries a payload exactly when it is the frame of that payload. */
  lemma FrameIff(input: seq<Byte>, payload: seq<Byte>, framing: Framing)
    ensures FramePayload(input, framing) == Ok(payload)
       <==> (framing.LengthPrefixed? ==> |payload| <= 0xffff) && input == Frame(payload, framing)
  {
    hide BE16, FromBE16;
    if framing.LengthPrefixed? && |input| >= 2 {
      assert input == input[..2] + input[2..] && input[2..|input|] == input[2..];
      if |payload| <= 0xffff {
        BE16Iff(|payload|, input[..2]);
        assert Frame(payload, framing)[..2] == BE16(|payload|) && Frame(payload, framing)[2..] == payload;
      }
    }
  }

  /** The datagrams that decode are exactly the frames of well-formed messages, under either framing. */
  lemma DecodeFrameIff(input: seq<Byte>, m: Message, framing: Framing)
    ensures DecodeFrame(input, framing) == Ok(m)
       <==> && WellFormed(m) && (framing.LengthPrefixed? ==> |MessageWire(m)| <= 0xffff)
            && input == Frame(MessageWire(m), framing)
  {
    hide DecodeMessage, WellFormed, MessageWire, Frame, FramePayload;
    FrameIff(input, MessageWire(m), framing);
    DecodeIff(m, MessageWire(m));
    if FramePayload(input, framing).Ok? {
      FrameIff(input, FramePayload(input, framing).value, framing);
      DecodeIff(m, FramePayload(input, framing).value);
    }
  }

  /** The encoder frames a message exactly when it can encode it and the length fits its field. */
  lemma EncodeFrameIff(m: Message, framing: Framing)
    ensures EncodeFrame(m, framing).Ok?
       <==> Encode(m).Ok? && (framing.LengthPrefixed? ==> |Encode(m).value| <= 0xffff)
    ensures EncodeFrame(m, framing).Ok? ==> EncodeFrame(m, framing).value == Frame(MessageWire(m), framing)
  {
    hide Encode, BE16;
  }

  lemma FrameRoundTrip(m: Message, framing: Framing)
    requires EncodeFrame(m, framing).Ok?
    ensures DecodeFrame(EncodeFrame(m, framing).value, framing) == Ok(m) <==> Unambiguous(m)
  {
    hide *;
    EncodeFrameIff(m, framing);
    EncodeIff(m);
    DecodeFrameIff(EncodeFrame(m, framing).value, m, framing);
    if WellFormed(m) {
      WellFormedUnambiguous(m);
    }
  }

  /** Signed, framed, sent, unframed, verified: the receiver ends with the signed message if and only if the
      message was unambiguous. */
  lemma SignedFrameVerifies(h: Hash, association: Association, m: Message, framing: Framing)
    requires Sign(h, association, m).1.Ok? && EncodeFrame(Sign(h, association, m).0, framing).Ok?
    ensures
      var signed := Sign(h, association, m).0;
      DecodeFrameVerified(h, association, EncodeFrame(signed, framing).value, framing) == Ok(signed) <==> Unambiguous(m)
  {
    var signed := Sign(h, association, m).0;
    hide Unambiguous, Sign, DecodeVerified, Encode, EncodeFrame, FramePayload;
    SignThenVerify(h, association, m);
    EncodeFrameIff(signed, framing);
    FrameIff(EncodeFrame(signed, framing).value, Encode(signed).value, framing);
  }
}
