/** The Go client's view of a TCP connection.

    The peer's side of a connection is the finite sequence of bytes it sends
    before closing (`input`); reading advances a cursor over it.  What the
    network answers to a dial or a write is given to the model as data. */
module Socket {
  import opened Wire

  /** The network's answer to `net.Dial`: a connection on which the peer will
      send `reply`, or a refusal. */
  datatype Dial = Accepted(reply: seq<byte>) | Refused

  /** The network's answer to `conn.Write(p)`: the count `n` and whether an
      error came back (io.Writer promises `n <= len(p)`). */
  datatype WriteOutcome = WriteOutcome(written: nat, failed: bool)

  /** The bytes `recv(size)` returns when the cursor stands at `pos`: what the
      peer still has to give, then zeros where `io.ReadFull` fell short (the
      buffer is allocated zeroed and the read error is only logged). */
  function RecvBytes(input: seq<byte>, pos: nat, size: nat): (r: seq<byte>)
    requires pos <= |input|
    ensures |r| == size
  {
    if pos + size <= |input| then input[pos..pos + size]
    else input[pos..] + Zeros(pos + size - |input|)
  }

  /** Byte `i` of what `recv(size)` returns is the peer's next byte while
      there is one, and zero after that. */
  lemma RecvBytesZeroFilled(input: seq<byte>, pos: nat, size: nat, i: nat)
    requires pos <= |input| && i < size
    ensures RecvBytes(input, pos, size)[i] == if pos + i < |input| then input[pos + i] else 0
  {
    if pos + size > |input| && pos + i >= |input| {
      assert RecvBytes(input, pos, size)[i] == Zeros(pos + size - |input|)[pos + i - |input|];
    }
  }

  /** Where the cursor stands after that `recv(size)`: `io.ReadFull` consumes
      everything it could read, up to `size` bytes. */
  function RecvEnd(input: seq<byte>, pos: nat, size: nat): nat
    requires pos <= |input|
  {
    if pos + size <= |input| then pos + size else |input|
  }

  /** `recvByte`: the first byte of `recv(1)`; zero once the peer is done. */
  function RecvByteAt(input: seq<byte>, pos: nat): (b: byte)
    requires pos <= |input|
    ensures b == if pos < |input| then input[pos] else 0
  {
    RecvBytesZeroFilled(input, pos, 1, 0);
    RecvBytes(input, pos, 1)[0]
  }

  /** Reading one length-prefixed field: a length byte, then that many bytes.
      Returns the field and the new cursor. */
  function RecvField(input: seq<byte>, pos: nat): (r: (GoString, nat))
    requires pos <= |input|
    ensures pos <= r.1 <= |input|
    ensures r.1 == pos ==> pos == |input| && r.0 == Zeros(|r.0|)
  {
    var len := RecvByteAt(input, pos);
    var p := RecvEnd(input, pos, 1);
    (RecvBytes(input, p, len), RecvEnd(input, p, len))
  }

  /** Round trip of the field layout: reading a field written with a length
      that fits in a byte, at the place it was written, returns exactly that
      field and stops right after it. */
  lemma RecvFieldAfterField(before: seq<byte>, f: GoString, after: seq<byte>)
    requires |f| < 256
    ensures RecvField(before + Field(f) + after, |before|) == (f, |before| + 1 + |f|)
  {
    var input := before + Field(f) + after;
    assert input[|before|] == |f|;
    assert input[|before| + 1..|before| + 1 + |f|] == f;
  }

  /** A field whose length does not fit in a byte is read back as a different
      field: its length byte is `len % 256`, so a 256-byte field reads as the
      empty field. */
  lemma OversizedFieldReadsEmpty(f: GoString, after: seq<byte>)
    requires |f| == 256
    ensures RecvField(Field(f) + after, 0) == ([], 1)
    ensures RecvField(Field(f) + after, 0).0 != f
  {
    var input := Field(f) + after;
    assert input[0] == 0;
  }

  /** Reading `k` length-prefixed fields one after another. */
  function RecvFields(input: seq<byte>, pos: nat, k: nat): (r: (seq<GoString>, nat))
    requires pos <= |input|
    ensures |r.0| == k
    ensures pos <= r.1 <= |input|
    decreases k
  {
    if k == 0 then ([], pos)
    else
      var first := RecvField(input, pos);
      var rest := RecvFields(input, first.1, k - 1);
      ([first.0] + rest.0, rest.1)
  }

  /** One step of `RecvFields`: the first field, then the rest from where it ended. */
  lemma RecvFieldsStep(input: seq<byte>, pos: nat, k: nat)
    requires pos <= |input| && k > 0
    ensures RecvFields(input, pos, k).0
      == [RecvField(input, pos).0] + RecvFields(input, RecvField(input, pos).1, k - 1).0
    ensures RecvFields(input, pos, k).1 == RecvFields(input, RecvField(input, pos).1, k - 1).1
  {
  }

  /** One step of `RecvFields`, from what the first field and the rest
      read. */
  lemma RecvFieldsCons(input: seq<byte>, pos: nat, k: nat, f: GoString, p: nat, rest: seq<GoString>, end: nat)
    requires pos <= |input| && k > 0
    requires RecvField(input, pos) == (f, p)
    requires RecvFields(input, p, k - 1) == (rest, end)
    ensures RecvFields(input, pos, k) == ([f] + rest, end)
  {
  }

  /** Round trip of a run of fields: reading as many fields as were written
      returns them all, in order, and stops right after the last one. */
  lemma RecvFieldsAfterLayout(before: seq<byte>, fs: seq<GoString>, after: seq<byte>)
    requires AllFit(fs)
    ensures RecvFields(before + Layout(fs) + after, |before|, |fs|) == (fs, |before| + |Layout(fs)|)
  {
    var input := before + Layout(fs) + after;
    assert input[|before|..|before| + |Layout(fs)|] == Layout(fs);
    RecvFieldsOfLayoutAt(input, |before|, fs);
  }

  /** The same, for a layout found anywhere in the input. */
  lemma {:induction false} RecvFieldsOfLayoutAt(input: seq<byte>, pos: nat, fs: seq<GoString>)
    requires AllFit(fs)
    requires pos + |Layout(fs)| <= |input| && input[pos..pos + |Layout(fs)|] == Layout(fs)
    ensures RecvFields(input, pos, |fs|) == (fs, pos + |Layout(fs)|)
    decreases |fs|
  {
    if fs != [] {
      var next := pos + 1 + |fs[0]|;
      FirstFieldAt(input, pos, fs);
      AllFitTail(fs);
      RecvFieldsOfLayoutAt(input, next, fs[1..]);
      RecvFieldsCons(input, pos, |fs|, fs[0], next, fs[1..], next + |Layout(fs[1..])|);
      HeadTail(fs);
    }
  }

  /** Reading the first field of a layout found in the input returns that
      field, and the rest of the layout follows it. */
  lemma FirstFieldAt(input: seq<byte>, pos: nat, fs: seq<GoString>)
    requires fs != [] && |fs[0]| < 256
    requires pos + |Layout(fs)| <= |input| && input[pos..pos + |Layout(fs)|] == Layout(fs)
    ensures RecvField(input, pos) == (fs[0], pos + 1 + |fs[0]|)
    ensures |Layout(fs)| == 1 + |fs[0]| + |Layout(fs[1..])|
    ensures input[pos + 1 + |fs[0]|..pos + |Layout(fs)|] == Layout(fs[1..])
  {
    var n := |fs[0]|;
    LayoutSlices(input, pos, fs);
    RecvFieldPresent(input, pos, fs[0]);
  }

  /** The pieces of a layout found in the input: the first field's length
      byte and bytes, then the layout of the rest. */
  lemma LayoutSlices(input: seq<byte>, pos: nat, fs: seq<GoString>)
    requires fs != [] && |fs[0]| < 256
    requires pos + |Layout(fs)| <= |input| && input[pos..pos + |Layout(fs)|] == Layout(fs)
    ensures |Layout(fs)| == 1 + |fs[0]| + |Layout(fs[1..])|
    ensures input[pos] == |fs[0]|
    ensures input[pos + 1..pos + 1 + |fs[0]|] == fs[0]
    ensures input[pos + 1 + |fs[0]|..pos + |Layout(fs)|] == Layout(fs[1..])
  {
    var l := Layout(fs);
    var n := |fs[0]|;
    LayoutHead(fs);
    FieldThenRest(fs[0], Layout(fs[1..]));
    SliceOfSlice(input, pos, l, 0, 1);
    SliceOfSlice(input, pos, l, 1, 1 + n);
    SliceOfSlice(input, pos, l, 1 + n, |l|);
    assert input[pos] == input[pos..pos + 1][0];
  }

  /** A non-empty layout is its first field followed by the layout of the
      others. */
  lemma LayoutHead(fs: seq<GoString>)
    requires fs != []
    ensures Layout(fs) == Field(fs[0]) + Layout(fs[1..])
  {
  }

  /** The pieces of a field followed by more bytes. */
  lemma FieldThenRest(f: GoString, rest: seq<byte>)
    requires |f| < 256
    ensures |Field(f) + rest| == 1 + |f| + |rest|
    ensures (Field(f) + rest)[0..1] == [|f| as byte]
    ensures (Field(f) + rest)[1..1 + |f|] == f
    ensures (Field(f) + rest)[1 + |f|..] == rest
  {
    var l := Field(f) + rest;
    assert l[1..1 + |f|] == Field(f)[1..];
  }

  /** A piece of a sequence found in the input is found at the matching place. */
  lemma SliceOfSlice(input: seq<byte>, pos: nat, l: seq<byte>, a: nat, b: nat)
    requires pos + |l| <= |input| && input[pos..pos + |l|] == l
    requires a <= b <= |l|
    ensures input[pos + a..pos + b] == l[a..b]
  {
    forall i | 0 <= i < b - a
      ensures input[pos + a..pos + b][i] == l[a..b][i]
    {
      assert input[pos..pos + |l|][a + i] == l[a + i];
    }
  }

  /** A field present in the input after its length byte is read back. */
  lemma RecvFieldPresent(input: seq<byte>, pos: nat, f: GoString)
    requires pos + 1 + |f| <= |input| && input[pos] == |f|
    requires input[pos + 1..pos + 1 + |f|] == f
    ensures RecvField(input, pos) == (f, pos + 1 + |f|)
  {
  }

  /** The fields after the first fit too. */
  lemma AllFitTail(fs: seq<GoString>)
    requires fs != [] && AllFit(fs)
    ensures |fs[0]| < 256 && AllFit(fs[1..])
  {
    forall i | 0 <= i < |fs[1..]| ensures |fs[1..][i]| < 256 {
      assert fs[1..][i] == fs[i + 1];
    }
  }

  class Connection {
    /** Everything the peer sends on this connection before closing it. */
    const input: seq<byte>
    /** How many of those bytes have been read. */
    var cursor: nat
    /** Everything this side has written. */
    var sent: seq<byte>
    var closed: bool

    ghost predicate Valid()
      reads this
    {
      cursor <= |input|
    }

    constructor (input: seq<byte>)
      ensures Valid() && this.input == input
      ensures cursor == 0 && sent == [] && !closed
    {
      this.input := input;
      cursor := 0;
      sent := [];
      closed := false;
    }

    /** `recv(size)`: always `size` bytes, zero-filled past what was available;
        a failed read is only logged. */
    method Recv(size: nat) returns (bytes: seq<byte>)
      requires Valid()
      modifies this`cursor
      ensures Valid()
      ensures bytes == RecvBytes(input, old(cursor), size)
      ensures cursor == RecvEnd(input, old(cursor), size)
    {
      bytes := RecvBytes(input, cursor, size);
      cursor := RecvEnd(input, cursor, size);
    }

    /** `recvByte`: `recv(1)[0]`. */
    method RecvByte() returns (b: byte)
      requires Valid()
      modifies this`cursor
      ensures Valid()
      ensures b == RecvByteAt(input, old(cursor))
      ensures cursor == RecvEnd(input, old(cursor), 1)
    {
      var bytes := Recv(1);
      b := bytes[0];
    }

    /** `conn.Write(p)`: the network says how many bytes went out and whether
        it reported an error; the bytes that went out are appended to `sent`. */
    method Write(p: seq<byte>, outcome: WriteOutcome) returns (n: nat, failed: bool)
      requires outcome.written <= |p|
      modifies this`sent
      ensures n == outcome.written && failed == outcome.failed
      ensures sent == old(sent) + p[..n]
    {
      n, failed := outcome.written, outcome.failed;
      sent := sent + p[..n];
    }

    /** `conn.Close()`. */
    method Close()
      modifies this`closed
      ensures closed
    {
      closed := true;
    }
  }
}
