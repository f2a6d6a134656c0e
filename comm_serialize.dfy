/** client/communication/serialize.go: the single-bet serialiser built on the
    length-prefixed field codec. */
module CommSerialize {
  import opened Wire
  import opened Wrappers
  import opened CommMessage
  import Socket

  /** `serializeField`: appends one length byte, `len(field)` truncated to
      eight bits with no error for long fields, then the field's bytes. */
  function SerializeField(buf: seq<byte>, field: GoString): seq<byte>
  {
    buf + [LengthByte(|field|)] + field
  }

  /** `BetInfo.serialize`: the opcode, then the six fields in declaration
      order, each through `serializeField`. */
  function SerializeBet(b: BetInfo): seq<byte>
  {
    var buf := [StoreBetMsg];
    var buf := SerializeField(buf, b.agency);
    var buf := SerializeField(buf, b.name);
    var buf := SerializeField(buf, b.lastName);
    var buf := SerializeField(buf, b.document);
    var buf := SerializeField(buf, b.dateOfBirth);
    SerializeField(buf, b.number)
  }

  /** `serializeField` keeps the buffer and appends one field as the
      protocol lays it out: the length byte, then the field's bytes. */
  lemma SerializeFieldAppends(buf: seq<byte>, field: GoString)
    ensures SerializeField(buf, field) == buf + Field(field)
    ensures |SerializeField(buf, field)| == |buf| + 1 + |field|
    ensures SerializeField(buf, field)[..|buf|] == buf
    ensures SerializeField(buf, field)[|buf|] == LengthByte(|field|)
    ensures SerializeField(buf, field)[|buf| + 1..] == field
  {
    assert buf + [LengthByte(|field|)] + field == buf + ([LengthByte(|field|)] + field);
  }

  /** The serialised bet is the opcode followed by its six fields, each laid
      out as a length byte and its bytes, in declaration order. */
  lemma SerializeBetFields(b: BetInfo)
    ensures SerializeBet(b) == [StoreBetMsg] + Field(b.agency) + Field(b.name) + Field(b.lastName)
      + Field(b.document) + Field(b.dateOfBirth) + Field(b.number)
  {
    var buf0 := [StoreBetMsg];
    SerializeFieldAppends(buf0, b.agency);
    var buf1 := SerializeField(buf0, b.agency);
    SerializeFieldAppends(buf1, b.name);
    var buf2 := SerializeField(buf1, b.name);
    SerializeFieldAppends(buf2, b.lastName);
    var buf3 := SerializeField(buf2, b.lastName);
    SerializeFieldAppends(buf3, b.document);
    var buf4 := SerializeField(buf3, b.document);
    SerializeFieldAppends(buf4, b.dateOfBirth);
    var buf5 := SerializeField(buf4, b.dateOfBirth);
    SerializeFieldAppends(buf5, b.number);
  }

  /** The same, as the field layout of the bet's field list. */
  lemma SerializeBetLayout(b: BetInfo)
    ensures SerializeBet(b) == [StoreBetMsg] + Layout(BetFields(b))
  {
    SerializeBetFields(b);
    Reassociate([StoreBetMsg], Field(b.agency), Field(b.name), Field(b.lastName),
      Field(b.document), Field(b.dateOfBirth), Field(b.number));
    LayoutOfSix(BetFields(b));
  }

  /** The serialised bet is seven bytes (the opcode and six length bytes)
      longer than its fields together, whatever their lengths. */
  lemma SerializeBetLength(b: BetInfo)
    ensures |SerializeBet(b)| == 7 + TotalLength(BetFields(b))
  {
    SerializeBetLayout(b);
    LayoutLength(BetFields(b));
  }

  lemma Reassociate(op: seq<byte>, f0: seq<byte>, f1: seq<byte>, f2: seq<byte>, f3: seq<byte>, f4: seq<byte>, f5: seq<byte>)
    ensures op + f0 + f1 + f2 + f3 + f4 + f5 == op + (f0 + (f1 + (f2 + (f3 + (f4 + f5)))))
  {
  }

  /** The layout of six fields, written out. */
  lemma LayoutOfSix(fs: seq<GoString>)
    requires |fs| == 6
    ensures Layout(fs) == Field(fs[0]) + (Field(fs[1]) + (Field(fs[2]) + (Field(fs[3])
      + (Field(fs[4]) + Field(fs[5])))))
  {
    assert Layout(fs[5..]) == Field(fs[5]) + Layout(fs[6..]);
    assert Layout(fs[6..]) == [];
    assert Layout(fs[4..]) == Field(fs[4]) + Layout(fs[5..]) by { assert fs[4..][1..] == fs[5..]; }
    assert Layout(fs[3..]) == Field(fs[3]) + Layout(fs[4..]) by { assert fs[3..][1..] == fs[4..]; }
    assert Layout(fs[2..]) == Field(fs[2]) + Layout(fs[3..]) by { assert fs[2..][1..] == fs[3..]; }
    assert Layout(fs[1..]) == Field(fs[1]) + Layout(fs[2..]) by { assert fs[1..][1..] == fs[2..]; }
  }

  /** Reading an opcode byte and six length-prefixed fields. */
  function ParseBet(input: seq<byte>): (r: (MessageType, BetInfo, nat))
    ensures r.2 <= |input|
  {
    var op := Socket.RecvByteAt(input, 0);
    var (fs, end) := Socket.RecvFields(input, Socket.RecvEnd(input, 0, 1), 6);
    (op, BetInfo(fs[0], fs[1], fs[2], fs[3], fs[4], fs[5]), end)
  }

  /** Round trip: when every field fits in its length byte, parsing the
      serialised bet gives back the `StoreBetMsg` opcode and the same bet,
      having consumed the whole encoding. */
  lemma ParseSerializedBet(b: BetInfo)
    requires AllFit(BetFields(b))
    ensures ParseBet(SerializeBet(b)) == (StoreBetMsg, b, |SerializeBet(b)|)
  {
    var fs := BetFields(b);
    var input := [StoreBetMsg] + Layout(fs) + [];
    SerializeBetLayout(b);
    assert SerializeBet(b) == input;
    RecvOpcodeAndLayout(fs);
    ParseBetOfFields(input, fs, |input|);
  }

  /** After the opcode byte, the fields of a layout are read back. */
  lemma RecvOpcodeAndLayout(fs: seq<GoString>)
    requires AllFit(fs)
    ensures var input := [StoreBetMsg] + Layout(fs) + [];
      Socket.RecvFields(input, 1, |fs|) == (fs, |input|)
  {
    var input := [StoreBetMsg] + Layout(fs) + [];
    Socket.RecvFieldsAfterLayout([StoreBetMsg], fs, []);
    assert |input| == 1 + |Layout(fs)|;
  }

  /** `ParseBet` from what the opcode byte and the six fields read. */
  lemma ParseBetOfFields(input: seq<byte>, fs: seq<GoString>, end: nat)
    requires |input| > 0 && |fs| == 6
    requires Socket.RecvFields(input, 1, |fs|) == (fs, end)
    ensures ParseBet(input) == (input[0], BetInfo(fs[0], fs[1], fs[2], fs[3], fs[4], fs[5]), end)
  {
  }

  /** Without the fit condition the round trip fails: a 256-byte name is
      announced with length byte 0 and is read back as the empty name. */
  lemma LongFieldBreaksRoundTrip(b: BetInfo)
    requires |b.agency| < 256 && |b.name| == 256
    ensures SerializeBet(b)[2 + |b.agency|] == 0
    ensures ParseBet(SerializeBet(b)).1.name == []
    ensures ParseBet(SerializeBet(b)).1 != b
  {
    var s := SerializeBet(b);
    var p := 2 + |b.agency|;
    assert s[1] == |b.agency|;
    assert s[p] == 0;
    var (f0, p0) := Socket.RecvField(s, 1);
    assert p0 == p;
    var (f1, p1) := Socket.RecvField(s, p0);
    assert f1 == [];
  }

  /** What can follow the message type in package `communication`'s
      `Message` (an `interface{}`): a bet, or anything else. */
  datatype Payload = BetPayload(bet: BetInfo) | OtherPayload

  /** A message: its type byte and its payload.  (The serialiser refers to a
      `Message` type that this package does not declare; this is the shape
      it uses.) */
  datatype Message = Message(messageType: MessageType, payload: Payload)

  /** `Message.serialize`: a bet message serialises as its bet; every other
      message type serialises as nothing.  `None` stands for the run-time
      panic of the type assertion when a `StoreBetMsg` carries no bet. */
  function SerializeMessage(m: Message): (r: Option<seq<byte>>)
    ensures m.messageType != StoreBetMsg ==> r == Some([])
    ensures m.messageType == StoreBetMsg && m.payload.BetPayload? ==> r == Some(SerializeBet(m.payload.bet))
    ensures r == None <==> m.messageType == StoreBetMsg && m.payload.OtherPayload?
  {
    if m.messageType == StoreBetMsg then
      match m.payload
      case BetPayload(bet) => Some(SerializeBet(bet))
      case OtherPayload => None
    else Some([])
  }
}
