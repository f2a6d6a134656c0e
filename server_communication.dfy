/** server/common/communication.py: how the server reads a bet from an
    accepted client socket. */
module ServerCommunication {
  import opened Wire
  import opened Wrappers
  import CommMessage
  import CommSerialize
  import Socket

  /** The only message type the server decodes. */
  const BetInfoMsgType: byte := 0

  /** The agency every decoded bet is given: the one-character string "1". */
  const AgencyOne: seq<byte> := [49]

  /** A bet as the server builds it (`Bet` in `common.utils`, whose own
      conversions are not part of this model): six strings, agency first. */
  datatype Bet = Bet(
    agency: seq<byte>,
    firstName: seq<byte>,
    lastName: seq<byte>,
    document: seq<byte>,
    birthdate: seq<byte>,
    number: seq<byte>)

  /** `sock.recv(n)` when the bytes the peer has sent and the server has not
      read yet are `pending`: the next bytes, up to `n` of them (the stream is
      taken to hand over all it has at once), and `b''` once the peer closed
      and everything was read.  When the peer reset the connection (`reset`),
      asking for bytes once everything was read raises `OSError`, here `None`.
      Returns what `recv` gives and the bytes still pending after it. */
  function RecvChunk(pending: seq<byte>, reset: bool, n: nat): (Option<seq<byte>>, seq<byte>)
  {
    if pending == [] then (if reset && n > 0 then None else Some([]), [])
    else if n <= |pending| then (Some(pending[..n]), pending[n..])
    else (Some(pending), [])
  }

  /** What `recv(n)` returns is exactly the peer's next bytes, at most `n`
      of them, and they are no longer pending; it falls short only when the
      peer has nothing more to send, and it raises only when asked for bytes
      after a reset peer sent everything. */
  lemma RecvChunkReadsNextBytes(pending: seq<byte>, reset: bool, n: nat)
    ensures var r := RecvChunk(pending, reset, n);
      && (r.0.None? <==> reset && n > 0 && pending == [])
      && (r.0.Some? ==> r.0.value + r.1 == pending && |r.0.value| <= n)
      && (r.0.Some? && |r.0.value| < n ==> r.1 == [])
  {
    var r := RecvChunk(pending, reset, n);
    if pending != [] && n <= |pending| {
      assert r.0.value + r.1 == pending[..n] + pending[n..];
    }
  }

  /** `int.from_bytes(bs, "big")` for what `recv(1)` returns: the byte, or 0
      for `b''`. */
  function FromByte(bs: seq<byte>): byte
    requires |bs| <= 1
  {
    if bs == [] then 0 else bs[0]
  }

  /** Reading one field: `recv(1)` for the length, then `recv` of that many
      bytes; `None` when either raised. */
  function ReadField(pending: seq<byte>, reset: bool): (Option<seq<byte>>, seq<byte>)
  {
    var lengthBytes := RecvChunk(pending, reset, 1);
    if lengthBytes.0.None? then (None, lengthBytes.1)
    else
      RecvChunkReadsNextBytes(pending, reset, 1);
      RecvChunk(lengthBytes.1, reset, FromByte(lengthBytes.0.value))
  }

  /** `__decode_bet_info`: five fields, in the order first name, last name,
      document, birthdate and number, and the agency "1" whatever was read;
      `None` when a read raised. */
  function ReadBetInfo(pending: seq<byte>, reset: bool): (r: (Option<Bet>, seq<byte>))
    ensures r.0.Some? ==> r.0.value.agency == AgencyOne
  {
    var name := ReadField(pending, reset);
    if name.0.None? then (None, name.1) else
    var lastName := ReadField(name.1, reset);
    if lastName.0.None? then (None, lastName.1) else
    var document := ReadField(lastName.1, reset);
    if document.0.None? then (None, document.1) else
    var birthdate := ReadField(document.1, reset);
    if birthdate.0.None? then (None, birthdate.1) else
    var number := ReadField(birthdate.1, reset);
    if number.0.None? then (None, number.1) else
    (Some(Bet(AgencyOne, name.0.value, lastName.0.value, document.0.value,
      birthdate.0.value, number.0.value)), number.1)
  }

  /** `__decode_bet_info` reads five fields one after another and builds
      the bet from them, in order. */
  lemma ReadBetInfoReadsFiveFields(pending: seq<byte>, reset: bool)
    ensures var r := ReadFields(pending, reset, 5);
      ReadBetInfo(pending, reset)
        == if r.0.None? then (None, r.1)
           else (Some(Bet(AgencyOne, r.0.value[0], r.0.value[1], r.0.value[2], r.0.value[3], r.0.value[4])), r.1)
  {
    var p1 := ReadField(pending, reset).1;
    var p2 := ReadField(p1, reset).1;
    var p3 := ReadField(p2, reset).1;
    var p4 := ReadField(p3, reset).1;
    ReadFieldsStep(pending, reset, 5);
    ReadFieldsStep(p1, reset, 4);
    ReadFieldsStep(p2, reset, 3);
    ReadFieldsStep(p3, reset, 2);
    ReadFieldsStep(p4, reset, 1);
  }

  /** `k` fields read one after another, stopping at the first read that
      raised. */
  function ReadFields(pending: seq<byte>, reset: bool, k: nat): (r: (Option<seq<seq<byte>>>, seq<byte>))
    ensures r.0.Some? ==> |r.0.value| == k
    decreases k
  {
    if k == 0 then (Some([]), pending)
    else
      var first := ReadField(pending, reset);
      if first.0.None? then (None, first.1)
      else
        var rest := ReadFields(first.1, reset, k - 1);
        if rest.0.None? then (None, rest.1)
        else (Some([first.0.value] + rest.0.value), rest.1)
  }

  /** `recv_msg`: a type byte, `b''` reading as type 0, and a bet only for
      type 0; every other type, and every `OSError`, gives `None`. */
  function ReadMsg(pending: seq<byte>, reset: bool): (Option<Bet>, seq<byte>)
  {
    var messageType := RecvChunk(pending, reset, 1);
    if messageType.0.None? then (None, messageType.1)
    else
      RecvChunkReadsNextBytes(pending, reset, 1);
      if FromByte(messageType.0.value) == BetInfoMsgType then ReadBetInfo(messageType.1, reset)
      else (None, messageType.1)
  }

  /** One step of `ReadFields`: the first field, then the others from what
      the first left pending; a raise in either is a raise. */
  lemma ReadFieldsStep(pending: seq<byte>, reset: bool, k: nat)
    requires k > 0
    ensures var first := ReadField(pending, reset);
      var rest := ReadFields(first.1, reset, k - 1);
      ReadFields(pending, reset, k)
        == if first.0.None? then (None, first.1)
           else if rest.0.None? then (None, rest.1)
           else (Some([first.0.value] + rest.0.value), rest.1)
  {
  }

  /** A field written with a length that fits in a byte is read back, and
      what follows it is left pending, whether or not the peer later
      resets. */
  lemma ReadFieldOfField(f: seq<byte>, after: seq<byte>, reset: bool)
    requires |f| < 256
    ensures ReadField(Field(f) + after, reset) == (Some(f), after)
  {
    var pending := Field(f) + after;
    assert pending[..1] == [|f|];
    assert pending[1..] == f + after;
    assert (f + after)[..|f|] == f && (f + after)[|f|..] == after;
  }

  /** Reading `k` fields where a layout of fields that fit in a byte was
      written returns the layout's first `k` fields, in order, and leaves the
      remaining fields pending. */
  lemma {:induction false} ReadFieldsOfLayout(fs: seq<seq<byte>>, after: seq<byte>, reset: bool, k: nat)
    requires k <= |fs| && AllFit(fs)
    ensures ReadFields(Layout(fs) + after, reset, k) == (Some(fs[..k]), Layout(fs[k..]) + after)
    decreases k
  {
    if k == 0 {
      assert fs[..0] == [] && fs[0..] == fs;
    } else {
      Socket.AllFitTail(fs);
      ReadFieldsOfLayout(fs[1..], after, reset, k - 1);
      var rest := Layout(fs[1..]) + after;
      var left := Layout(fs[1..][k - 1..]) + after;
      assert ReadFields(rest, reset, k - 1) == (Some(fs[1..][..k - 1]), left);
      LayoutCons(fs, after);
      ReadFieldOfField(fs[0], rest, reset);
      assert ReadField(Layout(fs) + after, reset) == (Some(fs[0]), rest);
      ReadFieldsCons(Layout(fs) + after, reset, k, fs[0], rest, fs[1..][..k - 1], left);
      TakeDropTail(fs, k);
      assert left == Layout(fs[k..]) + after;
    }
  }

  /** A layout followed by more bytes, cut after its first field. */
  lemma LayoutCons(fs: seq<seq<byte>>, after: seq<byte>)
    requires fs != []
    ensures Layout(fs) + after == Field(fs[0]) + (Layout(fs[1..]) + after)
  {
  }

  /** The first `k` elements are the head and the tail's first `k - 1`; the
      tail's elements from `k - 1` on are the elements from `k` on. */
  lemma TakeDropTail<T>(s: seq<T>, k: nat)
    requires 0 < k <= |s|
    ensures [s[0]] + s[1..][..k - 1] == s[..k]
    ensures s[1..][k - 1..] == s[k..]
  {
  }

  /** `ReadFields` from what the first field and the others read. */
  lemma ReadFieldsCons(pending: seq<byte>, reset: bool, k: nat, f: seq<byte>, next: seq<byte>,
                       fs: seq<seq<byte>>, left: seq<byte>)
    requires k > 0
    requires ReadField(pending, reset) == (Some(f), next)
    requires ReadFields(next, reset, k - 1) == (Some(fs), left)
    ensures ReadFields(pending, reset, k) == (Some([f] + fs), left)
  {
  }

  /** Round trip: type byte 0 followed by a layout of at least five fields
      that fit in a byte decodes to the bet with agency "1" and the first five
      fields in order, leaving the other fields pending. */
  lemma DecodeWrittenBet(fs: seq<seq<byte>>, after: seq<byte>, reset: bool)
    requires |fs| >= 5 && AllFit(fs)
    ensures ReadMsg([BetInfoMsgType] + Layout(fs) + after, reset)
      == (Some(Bet(AgencyOne, fs[0], fs[1], fs[2], fs[3], fs[4])), Layout(fs[5..]) + after)
  {
    var rest := Layout(fs) + after;
    assert [BetInfoMsgType] + Layout(fs) + after == [BetInfoMsgType] + rest;
    ReadBetInfoOfLayout(fs, after, reset);
    ReadMsgOfTypeByte(rest, reset);
  }

  lemma ReadBetInfoOfLayout(fs: seq<seq<byte>>, after: seq<byte>, reset: bool)
    requires |fs| >= 5 && AllFit(fs)
    ensures ReadBetInfo(Layout(fs) + after, reset)
      == (Some(Bet(AgencyOne, fs[0], fs[1], fs[2], fs[3], fs[4])), Layout(fs[5..]) + after)
  {
    ReadFieldsOfLayout(fs, after, reset, 5);
    ReadBetInfoReadsFiveFields(Layout(fs) + after, reset);
  }

  lemma ReadMsgOfTypeByte(rest: seq<byte>, reset: bool)
    ensures ReadMsg([BetInfoMsgType] + rest, reset) == ReadBetInfo(rest, reset)
  {
    var pending := [BetInfoMsgType] + rest;
    assert pending[..1] == [BetInfoMsgType];
    assert pending[1..] == rest;
  }

  /** The client's six-field bet, as the server reads it: the client's agency
      lands in the first name, every field shifts by one, the agency becomes
      "1", and the number's field is left unread on the socket. */
  lemma ClientBetMisread(b: CommMessage.BetInfo, reset: bool)
    requires AllFit(CommMessage.BetFields(b))
    ensures ReadMsg(CommSerialize.SerializeBet(b), reset)
      == (Some(Bet(AgencyOne, b.agency, b.name, b.lastName, b.document, b.dateOfBirth)), Field(b.number))
  {
    var fs := CommMessage.BetFields(b);
    ClientBytes(b);
    DecodeWrittenBet(fs, [], reset);
  }

  /** The client's bytes as a layout, and the layout of its last field. */
  lemma ClientBytes(b: CommMessage.BetInfo)
    ensures CommSerialize.SerializeBet(b) == [BetInfoMsgType] + Layout(CommMessage.BetFields(b)) + []
    ensures Layout(CommMessage.BetFields(b)[5..]) + [] == Field(b.number)
  {
    var fs := CommMessage.BetFields(b);
    CommSerialize.SerializeBetLayout(b);
    assert fs[5..] == [b.number];
    assert Layout(fs[5..]) == Field(b.number) + Layout([]);
  }

  /** A client that closes without sending anything is read as type 0 with
      five empty fields: a bet of empty strings, not `None`. */
  lemma SilentClientGivesEmptyBet()
    ensures ReadMsg([], false) == (Some(Bet(AgencyOne, [], [], [], [], [])), [])
  {
  }

  /** A reset during reception is caught: `recv_msg` returns `None`, here for
      a reset before the type byte and one right after it. */
  lemma ResetGivesNone()
    ensures ReadMsg([], true).0 == None
    ensures ReadMsg([BetInfoMsgType], true).0 == None
  {
    assert [BetInfoMsgType][..1] == [BetInfoMsgType];
  }

  /** A reset inside the bet is caught too: a name announced as three bytes
      of which one arrived gives `None`, where a clean close gives a bet with
      a one-byte name and four empty fields. */
  lemma ResetInsideBetGivesNone()
    ensures ReadMsg([BetInfoMsgType, 3, 65], true).0 == None
    ensures ReadMsg([BetInfoMsgType, 3, 65], false).0 == Some(Bet(AgencyOne, [65], [], [], [], []))
  {
    var p: seq<byte> := [BetInfoMsgType, 3, 65];
    assert p[..1] == [BetInfoMsgType] && p[1..] == [3, 65];
    assert [3, 65][..1] == [3] && [3, 65][1..] == [65];
  }

  /** A reset changes what `recv_msg` returns only into `None`, and only
      where a clean close would have returned a bet read up to the end of the
      stream: every read is the same until one asks for bytes after the
      last, where the reset raises and the clean close gives `b''`. */
  lemma ResetOnlyAddsNone(p: seq<byte>)
    ensures ReadMsg(p, true) == ReadMsg(p, false)
      || (ReadMsg(p, true).0 == None && ReadMsg(p, false).0.Some? && ReadMsg(p, false).1 == [])
  {
    if p != [] {
      RecvChunkReadsNextBytes(p, true, 1);
      var rest := RecvChunk(p, true, 1).1;
      if FromByte(RecvChunk(p, true, 1).0.value) == BetInfoMsgType {
        ReadFieldsReset(rest, 5);
        ReadBetInfoReadsFiveFields(rest, true);
        ReadBetInfoReadsFiveFields(rest, false);
      }
    } else {
      ReadFieldsReset([], 5);
      ReadBetInfoReadsFiveFields([], false);
    }
  }

  /** Reading one field with and without a reset: without one it never
      raises; with one it reads the same unless it raised, in which case the
      clean close has read everything. */
  lemma ReadFieldReset(pending: seq<byte>)
    ensures ReadField(pending, false).0.Some?
    ensures ReadField(pending, true) == ReadField(pending, false)
      || (ReadField(pending, true).0 == None && ReadField(pending, false).1 == [])
  {
    RecvChunkReadsNextBytes(pending, true, 1);
  }

  /** The same for `k` fields read one after another. */
  lemma {:induction false} ReadFieldsReset(pending: seq<byte>, k: nat)
    ensures ReadFields(pending, false, k).0.Some?
    ensures ReadFields(pending, true, k) == ReadFields(pending, false, k)
      || (ReadFields(pending, true, k).0 == None && ReadFields(pending, false, k).1 == [])
    decreases k
  {
    if k > 0 {
      ReadFieldReset(pending);
      ReadFieldsStep(pending, true, k);
      ReadFieldsStep(pending, false, k);
      var next := ReadField(pending, false).1;
      ReadFieldsReset(next, k - 1);
      if ReadField(pending, true) != ReadField(pending, false) {
        ReadFieldsAtEnd(k - 1);
      }
    }
  }

  /** Once a cleanly closed stream is exhausted, fields read as empty and
      nothing is left. */
  lemma {:induction false} ReadFieldsAtEnd(k: nat)
    ensures ReadFields([], false, k).0.Some? && ReadFields([], false, k).1 == []
    decreases k
  {
    if k > 0 {
      ReadFieldsStep([], false, k);
      ReadFieldsAtEnd(k - 1);
    }
  }

  /** Any type byte other than 0 gives `None` after reading only that byte. */
  lemma OtherTypesIgnored(op: byte, rest: seq<byte>, reset: bool)
    requires op != BetInfoMsgType
    ensures ReadMsg([op] + rest, reset) == (None, rest)
  {
    assert ([op] + rest)[..1] == [op];
    assert ([op] + rest)[1..] == rest;
  }

  /** An accepted client socket: the bytes the peer has sent that were not
      read yet, whether the peer resets once they are read, and whether the
      socket was closed. */
  class ClientSocket {
    var pending: seq<byte>
    const reset: bool
    var closed: bool

    constructor (input: seq<byte>, reset: bool)
      ensures pending == input && this.reset == reset && !closed
    {
      pending := input;
      this.reset := reset;
      closed := false;
    }

    /** `recv(n)`; `None` is the `OSError` it raises. */
    method Recv(n: nat) returns (data: Option<seq<byte>>)
      modifies this`pending
      ensures (data, pending) == RecvChunk(old(pending), reset, n)
    {
      data, pending := RecvChunk(pending, reset, n).0, RecvChunk(pending, reset, n).1;
    }

    /** `close`. */
    method Close()
      modifies this`closed
      ensures closed
    {
      closed := true;
    }
  }

  /** The server's communication handler, with the socket of the client being
      served. */
  class CommunicationHandler {
    var clientSock: ClientSocket?

    constructor ()
      ensures clientSock == null
    {
      clientSock := null;
    }

    /** `recv_msg`: reads the type byte and, for type 0, the bet; an `OSError`
        anywhere is caught and gives `None`. */
    method RecvMsg() returns (bet: Option<Bet>)
      requires clientSock != null
      modifies clientSock`pending
      ensures (bet, clientSock.pending) == ReadMsg(old(clientSock.pending), clientSock.reset)
    {
      ghost var pending := clientSock.pending;
      var messageType := clientSock.Recv(1);
      if messageType.None? {
        return None;
      }
      RecvChunkReadsNextBytes(pending, clientSock.reset, 1);
      if FromByte(messageType.value) == BetInfoMsgType {
        bet := DecodeBetInfo();
        return;
      }
      return None;
    }

    /** `__decode_bet_info`: five fields read one after another; an `OSError`
        stops it (and reaches `recv_msg`'s handler). */
    method DecodeBetInfo() returns (bet: Option<Bet>)
      requires clientSock != null
      modifies clientSock`pending
      ensures (bet, clientSock.pending) == ReadBetInfo(old(clientSock.pending), clientSock.reset)
    {
      var name := RecvField();
      if name.None? { return None; }
      var lastName := RecvField();
      if lastName.None? { return None; }
      var document := RecvField();
      if document.None? { return None; }
      var birthdate := RecvField();
      if birthdate.None? { return None; }
      var number := RecvField();
      if number.None? { return None; }
      bet := Some(Bet(AgencyOne, name.value, lastName.value, document.value, birthdate.value, number.value));
    }

    /** One field of `__decode_bet_info`: the length, then the bytes. */
    method RecvField() returns (field: Option<seq<byte>>)
      requires clientSock != null
      modifies clientSock`pending
      ensures (field, clientSock.pending) == ReadField(old(clientSock.pending), clientSock.reset)
    {
      ghost var pending := clientSock.pending;
      var length := clientSock.Recv(1);
      if length.None? {
        return None;
      }
      RecvChunkReadsNextBytes(pending, clientSock.reset, 1);
      field := clientSock.Recv(FromByte(length.value));
    }

    /** `close_current_connection`. */
    method CloseCurrentConnection()
      requires clientSock != null
      modifies clientSock`closed
      ensures clientSock.closed
    {
      clientSock.Close();
    }
  }
}
