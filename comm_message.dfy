/** client/communication/message.go: the opcodes, batch statuses and
    record types of the current wire protocol. */
module CommMessage {
  import opened Wire
  import opened Wrappers

  /** A `MessageType` is a single byte. */
  type MessageType = byte

  /** The six message kinds, in the order their opcodes are enumerated. */
  datatype MessageKind =
    | StoreBetBatch
    | BatchConfirmation
    | Finalization
    | GetWinners
    | NoWinnersYet
    | Winners

  const StoreBetBatchMsg: MessageType := 0
  const BatchConfirmationMsg: MessageType := 1
  const FinalizationMsg: MessageType := 2
  const GetWinnersMsg: MessageType := 3
  const NoWinnersYetMsg: MessageType := 4
  const WinnersMsg: MessageType := 5
  const InvalidMsg: MessageType := 255

  /** The opcode the serialiser writes for a single bet.  The serialiser names
      `StoreBetMsg`, which this package never declares; the only store opcode
      it declares is `StoreBetBatchMsg`. */
  const StoreBetMsg: MessageType := StoreBetBatchMsg

  /** A `BatchStatus` is a single byte. */
  type BatchStatus = byte

  const Failure: BatchStatus := 0
  const Success: BatchStatus := 1

  /** The opcode of each kind: the `iota` enumeration. */
  function Opcode(k: MessageKind): (op: MessageType)
    ensures op != InvalidMsg
    ensures op <= 5
  {
    match k
    case StoreBetBatch => StoreBetBatchMsg
    case BatchConfirmation => BatchConfirmationMsg
    case Finalization => FinalizationMsg
    case GetWinners => GetWinnersMsg
    case NoWinnersYet => NoWinnersYetMsg
    case Winners => WinnersMsg
  }

  /** The kind an opcode names, if any. */
  function KindOf(op: MessageType): (k: Option<MessageKind>)
    ensures k.Some? <==> op <= 5
    ensures k.Some? ==> Opcode(k.value) == op
  {
    if op == 0 then Some(StoreBetBatch)
    else if op == 1 then Some(BatchConfirmation)
    else if op == 2 then Some(Finalization)
    else if op == 3 then Some(GetWinners)
    else if op == 4 then Some(NoWinnersYet)
    else if op == 5 then Some(Winners)
    else None
  }

  /** Distinct kinds have distinct opcodes, and every opcode is read back as
      its kind; `InvalidMsg` names no kind. */
  lemma OpcodesAreACode(k: MessageKind, k': MessageKind)
    ensures KindOf(Opcode(k)) == Some(k)
    ensures Opcode(k) == Opcode(k') ==> k == k'
    ensures KindOf(InvalidMsg) == None
  {
  }

  /** A wager as the client sends it: six strings, in the order the
      serialiser writes them. */
  datatype BetInfo = BetInfo(
    agency: GoString,
    name: GoString,
    lastName: GoString,
    document: GoString,
    dateOfBirth: GoString,
    number: GoString)

  /** The six fields of a bet, in declaration order. */
  function BetFields(b: BetInfo): (fs: seq<GoString>)
    ensures |fs| == 6
    ensures fs[0] == b.agency && fs[5] == b.number
  {
    [b.agency, b.name, b.lastName, b.document, b.dateOfBirth, b.number]
  }

  /** A bet is determined by its field list. */
  lemma FieldsDetermineBet(b: BetInfo, b': BetInfo)
    requires BetFields(b) == BetFields(b')
    ensures b == b'
  {
    assert b.name == BetFields(b)[1] && b.lastName == BetFields(b)[2];
    assert b.document == BetFields(b)[3] && b.dateOfBirth == BetFields(b)[4];
  }
}
