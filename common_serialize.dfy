/** client/common/serialize.go: the older, unrolled bet serialiser. */
module CommonSerialize {
  import opened Wire
  import opened Wrappers
  import opened CommonMessage
  import CommMessage
  import CommSerialize

  /** `BetInfo.serialize`: opcode byte 0, then for each of agency, name, last
      name, document, date of birth and number its length truncated to a
      byte and its bytes, written out one append at a time. */
  function SerializeBet(b: BetInfo): seq<byte>
  {
    var msg := [0];
    var msg := msg + [LengthByte(|b.agency|)];
    var msg := msg + b.agency;
    var msg := msg + [LengthByte(|b.name|)];
    var msg := msg + b.name;
    var msg := msg + [LengthByte(|b.lastName|)];
    var msg := msg + b.lastName;
    var msg := msg + [LengthByte(|b.document|)];
    var msg := msg + b.document;
    var msg := msg + [LengthByte(|b.dateOfBirth|)];
    var msg := msg + b.dateOfBirth;
    var msg := msg + [LengthByte(|b.number|)];
    msg + b.number
  }

  /** The same bet as the newer package's record. */
  function AsCommBet(b: BetInfo): CommMessage.BetInfo
  {
    CommMessage.BetInfo(b.agency, b.name, b.lastName, b.document, b.dateOfBirth, b.number)
  }

  /** The unrolled serialiser writes exactly the bytes of the newer one built
      on `serializeField`: both use opcode 0, the same field order and the
      same truncated length bytes. */
  lemma SameAsCommSerializer(b: BetInfo)
    ensures SerializeBet(b) == CommSerialize.SerializeBet(AsCommBet(b))
  {
  }

  /** Hence the field-by-field round trip carries over: when every field is
      at most 255 bytes long, parsing opcode and six fields gives the bet
      back, having consumed the whole encoding. */
  lemma ParseSerializedBet(b: BetInfo)
    requires AllFit(CommMessage.BetFields(AsCommBet(b)))
    ensures CommSerialize.ParseBet(SerializeBet(b)) == (StoreBet, AsCommBet(b), |SerializeBet(b)|)
  {
    SameAsCommSerializer(b);
    CommSerialize.ParseSerializedBet(AsCommBet(b));
  }

  /** `Message.serialize`: a `StoreBet` message serialises as its bet, any
      other type as nothing; `None` stands for the run-time panic of the type
      assertion when a `StoreBet` message carries no bet. */
  function SerializeMessage(m: Message): (r: Option<seq<byte>>)
    ensures m.messageType != StoreBet ==> r == Some([])
    ensures m.messageType == StoreBet && m.payload.BetPayload? ==> r == Some(SerializeBet(m.payload.bet))
    ensures r == None <==> m.messageType == StoreBet && m.payload.OtherPayload?
  {
    if m.messageType == StoreBet then
      match m.payload
      case BetPayload(bet) => Some(SerializeBet(bet))
      case OtherPayload => None
    else Some([])
  }

  /** Serialising `StoreBetMessage(b)` gives exactly the bet's encoding, and a
      `ConfirmedBet` message serialises as nothing. */
  lemma StoreBetMessageSerializesAsBet(b: BetInfo, p: Payload)
    ensures SerializeMessage(StoreBetMessage(b)) == Some(SerializeBet(b))
    ensures SerializeMessage(Message(ConfirmedBet, p)) == Some([])
  {
  }
}
