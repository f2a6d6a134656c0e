/** client/communication/communication.go: the client's connection handler,
    its reply decoder and the verdicts it draws from a reply. */
module CommCommunication {
  import opened Wire
  import opened Wrappers
  import opened CommMessage
  import opened Socket

  /** What `RecvMsg` returns, message type and payload together: a batch
      confirmation with its status byte, "no winners yet", the list of winning
      documents, or an invalid message type (returned as `InvalidMsg` with an
      error). */
  datatype Reply =
    | Confirmation(status: BatchStatus)
    | NoWinners
    | WinnerList(documents: seq<GoString>)
    | Invalid(received: MessageType)

  /** The message type `RecvMsg` returns beside the payload. */
  function ReplyType(r: Reply): (t: MessageType)
    ensures r.Invalid? <==> t == InvalidMsg
    ensures !r.Invalid? ==> KindOf(t).Some?
    ensures r.Confirmation? <==> t == BatchConfirmationMsg
    ensures r.NoWinners? <==> t == NoWinnersYetMsg
    ensures r.WinnerList? <==> t == WinnersMsg
  {
    match r
    case Confirmation(_) => BatchConfirmationMsg
    case NoWinners => NoWinnersYetMsg
    case WinnerList(_) => WinnersMsg
    case Invalid(_) => InvalidMsg
  }

  /** What `RecvMsg` reads, as a function of the bytes the peer sends and the
      cursor: the reply, and where the cursor ends.  Every read is a `recv`,
      so a reply cut short reads as zeros, never as an error. */
  function DecodeReply(input: seq<byte>, pos: nat): (r: (Reply, nat))
    requires pos <= |input|
    ensures pos <= r.1 <= |input|
  {
    var op := RecvByteAt(input, pos);
    var p := RecvEnd(input, pos, 1);
    if op == BatchConfirmationMsg then
      (Confirmation(RecvByteAt(input, p)), RecvEnd(input, p, 1))
    else if op == NoWinnersYetMsg then
      (NoWinners, p)
    else if op == WinnersMsg then
      var (documents, end) := RecvFields(input, RecvEnd(input, p, 1), RecvByteAt(input, p));
      (WinnerList(documents), end)
    else
      (Invalid(op), p)
  }

  /** The message type `RecvMsg` returns with an accepted reply is the
      opcode byte it read, and a rejected reply carries that opcode too. */
  lemma ReplyTypeIsOpcode(input: seq<byte>, pos: nat)
    requires pos <= |input|
    ensures var r := DecodeReply(input, pos).0;
      if r.Invalid? then r.received == RecvByteAt(input, pos)
      else ReplyType(r) == RecvByteAt(input, pos)
  {
  }

  /** The layout `RecvMsg` reads for each reply: an opcode, then a status
      byte, nothing, or a count byte and that many length-prefixed
      documents. */
  function EncodeReply(r: Reply): seq<byte>
  {
    match r
    case Confirmation(status) => [BatchConfirmationMsg, status]
    case NoWinners => [NoWinnersYetMsg]
    case WinnerList(documents) => [WinnersMsg, LengthByte(|documents|)] + Layout(documents)
    case Invalid(op) => [op]
  }

  /** The replies that layout can carry: at most 255 documents of at most 255
      bytes each, and an invalid opcode is one the decoder does not accept. */
  predicate Encodable(r: Reply)
  {
    match r
    case WinnerList(documents) => |documents| < 256 && AllFit(documents)
    case Invalid(op) => op != BatchConfirmationMsg && op != NoWinnersYetMsg && op != WinnersMsg
    case _ => true
  }

  /** Round trip: decoding an encodable reply, whatever follows it, gives the
      reply back and consumes exactly its encoding.  So a confirmation consumes
      one byte after the opcode and returns it unchecked, "no winners yet"
      consumes nothing more, a winners list returns its documents in wire
      order, and any other opcode consumes only itself. */
  lemma DecodeEncodedReply(r: Reply, rest: seq<byte>)
    requires Encodable(r)
    ensures DecodeReply(EncodeReply(r) + rest, 0) == (r, |EncodeReply(r)|)
  {
    var input := EncodeReply(r) + rest;
    match r
    case Confirmation(status) =>
    case NoWinners =>
    case WinnerList(documents) =>
      assert input == [WinnersMsg, |documents|] + Layout(documents) + rest;
      RecvFieldsAfterLayout([WinnersMsg, |documents|], documents, rest);
    case Invalid(op) =>
  }

  /** A peer that closes without answering is read as opcode 0, which is not
      a reply: `RecvMsg` reports an invalid message type. */
  lemma SilentPeerIsInvalid()
    ensures DecodeReply([], 0) == (Invalid(0), 0)
  {
  }

  /** A winners reply cut right after its opcode reads as an empty winners
      list, with no error: the missing count byte reads as zero. */
  lemma TruncatedWinnersIsEmpty()
    ensures DecodeReply([WinnersMsg], 0) == (WinnerList([]), 1)
  {
  }

  /** A winners reply whose documents were cut off still yields as many
      documents as announced, the missing ones empty. */
  lemma TruncatedWinnersKeepsCount(k: byte)
    ensures DecodeReply([WinnersMsg, k], 0).0 == WinnerList(NoFields(k))
  {
    var input: seq<byte> := [WinnersMsg, k];
    var docs := RecvFields(input, 2, k).0;
    AllEmptyAtEnd(input, k);
    assert docs == NoFields(k);
  }

  /** `k` empty fields. */
  function NoFields(k: nat): (r: seq<GoString>)
    ensures |r| == k && forall i :: 0 <= i < k ==> r[i] == []
  {
    seq(k, _ => [])
  }

  /** Reading fields once the peer is done yields empty fields. */
  lemma {:induction false} AllEmptyAtEnd(input: seq<byte>, k: nat)
    ensures RecvFields(input, |input|, k) == (NoFields(k), |input|)
    decreases k
  {
    if k > 0 {
      RecvFieldsStep(input, |input|, k);
      AllEmptyAtEnd(input, k - 1);
      assert RecvField(input, |input|) == ([], |input|);
      assert [[]] + NoFields(k - 1) == NoFields(k);
    }
  }

  /** Errors the handler returns.  `NilConnection` stands for the run-time
      panic of a call on the nil connection a failed dial leaves behind. */
  datatype Error =
    | WriteFailed
    | InvalidMessageType(received: MessageType)
    | FailureStatus
    | UnexpectedOpcode(received: MessageType)
    | NilConnection

  /** The verdict `SendBatch` draws from the reply to a batch. */
  function BatchVerdict(reply: Reply): (err: Option<Error>)
    ensures err == None <==> reply.Confirmation? && reply.status != Failure
    ensures reply.Confirmation? && reply.status == Failure ==> err == Some(FailureStatus)
    ensures reply.Invalid? ==> err == Some(InvalidMessageType(reply.received))
  {
    match reply
    case Invalid(op) => Some(InvalidMessageType(op))
    case Confirmation(status) => if status == Failure then Some(FailureStatus) else None
    case _ => Some(UnexpectedOpcode(ReplyType(reply)))
  }

  /** Every status byte other than `Failure` counts as success, not only
      `Success`. */
  lemma AnyNonFailureStatusAccepted(status: BatchStatus)
    requires status != Failure
    ensures BatchVerdict(DecodeReply([BatchConfirmationMsg, status], 0).0) == None
  {
  }

  /** `GetWinnersResponse`: the message type and the payload, uninterpreted. */
  datatype GetWinnersResponse = GetWinnersResponse(messageType: MessageType, payload: Reply)

  /** How `GetWinners` shapes what `RecvMsg` returned. */
  function WinnersResult(reply: Reply): (r: (Option<GetWinnersResponse>, Option<Error>))
    ensures r.1.Some? <==> reply.Invalid?
    ensures r.0.Some? <==> r.1.None?
    ensures r.0.Some? ==> r.0.value.payload == reply && r.0.value.messageType == ReplyType(reply)
  {
    if reply.Invalid? then (None, Some(InvalidMessageType(reply.received)))
    else (Some(GetWinnersResponse(ReplyType(reply), reply)), None)
  }

  class CommunicationHandler {
    const id: GoString
    const serverAddress: string
    var conn: Connection?

    constructor (id: GoString, serverAddress: string)
      ensures this.id == id && this.serverAddress == serverAddress && conn == null
    {
      this.id := id;
      this.serverAddress := serverAddress;
      conn := null;
    }

    /** `Connect`: dials, keeps whatever connection it got (nil on failure,
        after logging) and always reports success. */
    method Connect(dial: Dial) returns (err: Option<Error>)
      modifies this`conn
      ensures err == None
      ensures dial.Refused? ==> conn == null
      ensures dial.Accepted? ==> (conn != null && fresh(conn) && conn.Valid()
        && conn.input == dial.reply && conn.cursor == 0 && conn.sent == [] && !conn.closed)
    {
      if dial.Accepted? {
        conn := new Connection(dial.reply);
      } else {
        conn := null;
      }
      err := None;
    }

    /** `Disconnect`: closes the connection; on the nil connection a refused
        dial leaves behind, `c.conn.Close()` panics. */
    method Disconnect() returns (err: Option<Error>)
      modifies conn
      ensures conn == null ==> err == Some(NilConnection)
      ensures conn != null ==> (err == None && conn.closed
        && conn.cursor == old(conn.cursor) && conn.sent == old(conn.sent))
    {
      if conn == null {
        return Some(NilConnection);
      }
      conn.Close();
      return None;
    }

    /** `RecvMsg`: reads the opcode and what follows it, advancing the
        connection's cursor exactly as `DecodeReply` says. */
    method RecvMsg() returns (reply: Reply)
      requires conn != null && conn.Valid()
      modifies conn`cursor
      ensures conn.Valid()
      ensures (reply, conn.cursor) == DecodeReply(conn.input, old(conn.cursor))
    {
      var msgType := conn.RecvByte();
      if msgType == BatchConfirmationMsg {
        var status := conn.RecvByte();
        return Confirmation(status);
      } else if msgType == NoWinnersYetMsg {
        return NoWinners;
      } else if msgType == WinnersMsg {
        var numberOfWinners := conn.RecvByte();
        var documents := RecvDocuments(numberOfWinners);
        return WinnerList(documents);
      }
      return Invalid(msgType);
    }

    /** The loop of `RecvMsg` that reads `count` length-prefixed documents
        and appends them in the order they arrive. */
    method RecvDocuments(count: byte) returns (documents: seq<GoString>)
      requires conn != null && conn.Valid()
      modifies conn`cursor
      ensures conn.Valid()
      ensures (documents, conn.cursor) == RecvFields(conn.input, old(conn.cursor), count)
    {
      ghost var expected := RecvFields(conn.input, conn.cursor, count);
      documents := [];
      var i := 0;
      while i < count
        invariant 0 <= i <= count
        invariant conn.Valid()
        invariant documents + RecvFields(conn.input, conn.cursor, count - i).0 == expected.0
        invariant RecvFields(conn.input, conn.cursor, count - i).1 == expected.1
      {
        RecvFieldsStep(conn.input, conn.cursor, count - i);
        ghost var pos := conn.cursor;
        var documentLength := conn.RecvByte();
        var documentBytes := conn.Recv(documentLength);
        assert (documentBytes, conn.cursor) == RecvField(conn.input, pos);
        ghost var rest := RecvFields(conn.input, conn.cursor, count - i - 1).0;
        Associative(documents, [documentBytes], rest);
        documents := documents + [documentBytes];
        i := i + 1;
      }
      assert documents + [] == documents;
    }

    /** `SendBatch`, given the already serialised batch (its serialiser is not
        part of this model): connect, write, read the reply and judge it; the
        connection is closed on every path.  A refused dial leaves a nil
        connection, and the write on it panics. */
    method SendBatch(serializedMsg: seq<byte>, dial: Dial, write: WriteOutcome) returns (err: Option<Error>)
      requires write.written <= |serializedMsg|
      modifies this`conn
      ensures dial.Refused? ==> conn == null && err == Some(NilConnection)
      ensures dial.Accepted? ==> (conn != null && fresh(conn) && conn.closed && conn.input == dial.reply
        && conn.sent == serializedMsg[..write.written])
      ensures dial.Accepted? && write.failed ==> err == Some(WriteFailed) && conn.cursor == 0
      ensures dial.Accepted? && !write.failed ==>
        err == BatchVerdict(DecodeReply(dial.reply, 0).0) && conn.cursor == DecodeReply(dial.reply, 0).1
    {
      var _ := Connect(dial);
      if conn == null {
        return Some(NilConnection);
      }
      var _, failed := conn.Write(serializedMsg, write);
      if failed {
        var _ := Disconnect();
        return Some(WriteFailed);
      }
      var reply := RecvMsg();
      var _ := Disconnect();
      if reply.Invalid? {
        return Some(InvalidMessageType(reply.received));
      }
      if ReplyType(reply) == BatchConfirmationMsg {
        if reply.status == Failure {
          return Some(FailureStatus);
        }
      } else {
        return Some(UnexpectedOpcode(ReplyType(reply)));
      }
      return None;
    }

    /** `SendFinalizationMsg`, given the serialised message: connect, write,
        close; only a write error is reported. */
    method SendFinalizationMsg(serializedMsg: seq<byte>, dial: Dial, write: WriteOutcome) returns (err: Option<Error>)
      requires write.written <= |serializedMsg|
      modifies this`conn
      ensures dial.Refused? ==> conn == null && err == Some(NilConnection)
      ensures dial.Accepted? ==> (conn != null && fresh(conn) && conn.closed && conn.cursor == 0
        && conn.sent == serializedMsg[..write.written]
        && err == (if write.failed then Some(WriteFailed) else None))
    {
      var _ := Connect(dial);
      if conn == null {
        return Some(NilConnection);
      }
      var _, failed := conn.Write(serializedMsg, write);
      var _ := Disconnect();
      err := if failed then Some(WriteFailed) else None;
    }

    /** `SendGetWinnersMsg`, given the serialised message: a write on the
        current connection. */
    method SendGetWinnersMsg(serializedMsg: seq<byte>, write: WriteOutcome) returns (err: Option<Error>)
      requires write.written <= |serializedMsg|
      modifies conn
      ensures conn == null ==> err == Some(NilConnection)
      ensures conn != null ==> (conn.cursor == old(conn.cursor) && conn.closed == old(conn.closed)
        && conn.sent == old(conn.sent) + serializedMsg[..write.written]
        && err == (if write.failed then Some(WriteFailed) else None))
    {
      if conn == null {
        return Some(NilConnection);
      }
      var _, failed := conn.Write(serializedMsg, write);
      err := if failed then Some(WriteFailed) else None;
    }

    /** `GetWinners`, given the serialised request: connect, send the request,
        read the reply and return it uninterpreted; an error exactly when the
        write fails or `RecvMsg` reports one. */
    method GetWinners(serializedMsg: seq<byte>, dial: Dial, write: WriteOutcome)
      returns (response: Option<GetWinnersResponse>, err: Option<Error>)
      requires write.written <= |serializedMsg|
      modifies this`conn
      ensures dial.Refused? ==> conn == null && response == None && err == Some(NilConnection)
      ensures dial.Accepted? ==> (conn != null && fresh(conn) && conn.closed && conn.input == dial.reply
        && conn.sent == serializedMsg[..write.written])
      ensures dial.Accepted? && write.failed ==> response == None && err == Some(WriteFailed)
      ensures dial.Accepted? && !write.failed ==>
        (response, err) == WinnersResult(DecodeReply(dial.reply, 0).0)
        && conn.cursor == DecodeReply(dial.reply, 0).1
    {
      var _ := Connect(dial);
      if conn == null {
        return None, Some(NilConnection);
      }
      err := SendGetWinnersMsg(serializedMsg, write);
      if err.Some? {
        var _ := Disconnect();
        return None, err;
      }
      var reply := RecvMsg();
      var _ := Disconnect();
      response, err := WinnersResult(reply).0, WinnersResult(reply).1;
    }
  }
}
