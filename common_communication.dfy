/** client/common/communication.go: the older client's connection handler,
    which sends one message and reads one bet confirmation. */
module CommonCommunication {
  import opened Wire
  import opened Wrappers
  import opened Socket
  import opened CommonMessage
  import CommonSerialize

  /** `BetConfirmed`: the document and number the service echoes back. */
  datatype BetConfirmed = BetConfirmed(document: GoString, number: GoString)

  /** Errors the handler returns.  `Panic` stands for a run-time panic: the
      type assertion in the serialiser, or a call on the nil connection a
      failed dial leaves behind. */
  datatype Error =
    | WriteError
    | ShortWrite(expected: nat, sent: nat)
    | InvalidMessageType(received: MessageType)
    | Panic

  /** The verdict of `send` on `conn.Write`'s answer for a message of
      `length` bytes: the write error if any, otherwise an error when fewer
      bytes than the message went out. */
  function SendVerdict(length: nat, outcome: WriteOutcome): (err: Option<Error>)
    ensures err == None <==> !outcome.failed && outcome.written >= length
    ensures !outcome.failed && outcome.written < length ==> err == Some(ShortWrite(length, outcome.written))
  {
    if outcome.failed then Some(WriteError)
    else if outcome.written < length then Some(ShortWrite(length, outcome.written))
    else None
  }

  /** Under io.Writer's promise `n <= len(p)`, `send` succeeds exactly when
      every byte of the message went out without an error. */
  lemma SendSucceedsIffAllWritten(length: nat, outcome: WriteOutcome)
    requires outcome.written <= length
    ensures SendVerdict(length, outcome) == None <==> !outcome.failed && outcome.written == length
  {
  }

  /** What `recvConfirmedBetMsg` reads at `pos`: a document field, then a
      number field; never an error. */
  function DecodeConfirmedBet(input: seq<byte>, pos: nat): (r: (BetConfirmed, nat))
    requires pos <= |input|
    ensures pos <= r.1 <= |input|
  {
    var (document, p) := RecvField(input, pos);
    var (number, end) := RecvField(input, p);
    (BetConfirmed(document, number), end)
  }

  /** What `recvMsg` reads at `pos`: the opcode, then a confirmation when it
      is `ConfirmedBet`, otherwise an "invalid message type" error with only
      the opcode consumed. */
  function DecodeMsg(input: seq<byte>, pos: nat): (r: (Option<BetConfirmed>, Option<Error>, nat))
    requires pos <= |input|
    ensures r.0.Some? <==> r.1.None?
    ensures r.1.Some? ==> r.1.value.InvalidMessageType? && r.1.value.received != ConfirmedBet
    ensures pos <= r.2 <= |input|
  {
    var op := RecvByteAt(input, pos);
    var p := RecvEnd(input, pos, 1);
    if op == ConfirmedBet then
      var (confirmed, end) := DecodeConfirmedBet(input, p);
      (Some(confirmed), None, end)
    else (None, Some(InvalidMessageType(op)), p)
  }

  /** The layout a confirmation is sent in: the opcode, then document and
      number as length-prefixed fields. */
  function EncodeConfirmedBet(c: BetConfirmed): (r: seq<byte>)
    ensures |r| == 3 + |c.document| + |c.number|
  {
    [ConfirmedBet] + Field(c.document) + Field(c.number)
  }

  /** Round trip: a confirmation whose fields are at most 255 bytes long is
      read back exactly, with no error, consuming the opcode and
      `2 + len(document) + len(number)` bytes, whatever follows. */
  lemma DecodeEncodedConfirmedBet(c: BetConfirmed, rest: seq<byte>)
    requires |c.document| < 256 && |c.number| < 256
    ensures DecodeMsg(EncodeConfirmedBet(c) + rest, 0) == (Some(c), None, |EncodeConfirmedBet(c)|)
  {
    var input := EncodeConfirmedBet(c) + rest;
    assert input == [ConfirmedBet] + Field(c.document) + (Field(c.number) + rest);
    RecvFieldAfterField([ConfirmedBet], c.document, Field(c.number) + rest);
    assert input == ([ConfirmedBet] + Field(c.document)) + Field(c.number) + rest;
    RecvFieldAfterField([ConfirmedBet] + Field(c.document), c.number, rest);
  }

  /** Any other first byte, including `StoreBet`, is rejected after reading
      only that byte; a peer that closes without answering is read as opcode
      0 and rejected too. */
  lemma OtherOpcodesRejected(op: byte, rest: seq<byte>)
    requires op != ConfirmedBet
    ensures DecodeMsg([op] + rest, 0) == (None, Some(InvalidMessageType(op)), 1)
    ensures DecodeMsg([], 0) == (None, Some(InvalidMessageType(StoreBet)), 0)
  {
  }

  /** A confirmation cut off after its opcode reads as an empty document and
      number, with no error. */
  lemma TruncatedConfirmationIsEmpty()
    ensures DecodeMsg([ConfirmedBet], 0) == (Some(BetConfirmed([], [])), None, 1)
  {
  }

  class CommunicationHandler {
    const id: GoString
    var conn: Connection?

    constructor (id: GoString)
      ensures this.id == id && conn == null
    {
      this.id := id;
      conn := null;
    }

    /** `connect`: dials, keeps whatever connection it got (nil on failure,
        after logging) and always reports success. */
    method Connect(dial: Dial) returns (err: Option<Error>)
      modifies this`conn
      ensures err == None
      ensures dial.Refused? ==> conn == null
      ensures dial.Accepted? ==> (conn != null && fresh(conn) && conn.Valid()
        && conn.input == dial.reply && conn.cursor == 0 && conn.sent == [] && !conn.closed)
    {
      if dial.Accepted? {
        conn := new Connection(dial.reply);
      } else {
        conn := null;
      }
      err := None;
    }

    /** `send`: serialises the message, writes it, and judges the write. */
    method Send(msg: Message, write: WriteOutcome) returns (err: Option<Error>)
      requires CommonSerialize.SerializeMessage(msg).Some? ==> write.written <= |CommonSerialize.SerializeMessage(msg).value|
      modifies conn
      ensures CommonSerialize.SerializeMessage(msg).None? || conn == null ==> err == Some(Panic)
      ensures (CommonSerialize.SerializeMessage(msg).Some? && conn != null ==>
        var bytes := CommonSerialize.SerializeMessage(msg).value;
        && conn.sent == old(conn.sent) + bytes[..write.written]
        && conn.cursor == old(conn.cursor) && conn.closed == old(conn.closed)
        && err == SendVerdict(|bytes|, write))
    {
      var serialized := CommonSerialize.SerializeMessage(msg);
      if serialized.None? || conn == null {
        return Some(Panic);
      }
      var serializedMsg := serialized.value;
      var n, failed := conn.Write(serializedMsg, write);
      if failed {
        return Some(WriteError);
      }
      if n < |serializedMsg| {
        return Some(ShortWrite(|serializedMsg|, n));
      }
      return None;
    }

    /** `disconnect`. */
    method Disconnect() returns (err: Option<Error>)
      modifies conn
      ensures conn == null ==> err == Some(Panic)
      ensures conn != null ==> (err == None && conn.closed
        && conn.cursor == old(conn.cursor) && conn.sent == old(conn.sent))
    {
      if conn == null {
        return Some(Panic);
      }
      conn.Close();
      return None;
    }

    /** `recvMsg`: reads the opcode and, for `ConfirmedBet`, the
        confirmation, advancing the cursor exactly as `DecodeMsg` says. */
    method RecvMsg() returns (confirmed: Option<BetConfirmed>, err: Option<Error>)
      requires conn != null && conn.Valid()
      modifies conn`cursor
      ensures conn.Valid()
      ensures (confirmed, err, conn.cursor) == DecodeMsg(conn.input, old(conn.cursor))
    {
      var msgType := conn.RecvByte();
      if msgType == ConfirmedBet {
        var c := RecvConfirmedBetMsg();
        return Some(c), None;
      }
      return None, Some(InvalidMessageType(msgType));
    }

    /** `recvConfirmedBetMsg`: a length byte and the document, then a length
        byte and the number. */
    method RecvConfirmedBetMsg() returns (confirmed: BetConfirmed)
      requires conn != null && conn.Valid()
      modifies conn`cursor
      ensures conn.Valid()
      ensures (confirmed, conn.cursor) == DecodeConfirmedBet(conn.input, old(conn.cursor))
    {
      var documentLen := conn.RecvByte();
      var document := conn.Recv(documentLen);
      var numberLen := conn.RecvByte();
      var number := conn.Recv(numberLen);
      confirmed := BetConfirmed(document, number);
    }
  }
}
