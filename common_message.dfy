/** client/common/message.go: the older client protocol's opcodes and its
    message record. */
module CommonMessage {
  import opened Wire

  /** A `MessageType` is a single byte. */
  type MessageType = byte

  const StoreBet: MessageType := 0
  const ConfirmedBet: MessageType := 1

  /** A wager as this package's serialiser reads it: the six fields it
      writes, agency first.  (The record declared beside the client loop has
      no agency; the serialiser's use is what this model follows.) */
  datatype BetInfo = BetInfo(
    agency: GoString,
    name: GoString,
    lastName: GoString,
    document: GoString,
    dateOfBirth: GoString,
    number: GoString)

  /** What the `interface{}` payload of a message can hold: a bet, or
      anything else. */
  datatype Payload = BetPayload(bet: BetInfo) | OtherPayload

  datatype Message = Message(messageType: MessageType, payload: Payload)

  /** `StoreBetMessage`: a store message carrying the bet unchanged. */
  function StoreBetMessage(bet: BetInfo): (m: Message)
    ensures m.messageType == StoreBet && m.messageType != ConfirmedBet
    ensures m.payload.BetPayload? && m.payload.bet == bet
  {
    Message(StoreBet, BetPayload(bet))
  }

  /** Distinct bets give distinct store messages. */
  lemma StoreBetMessageInjective(b: BetInfo, b': BetInfo)
    requires StoreBetMessage(b) == StoreBetMessage(b')
    ensures b == b'
  {
  }
}
