/** Option, used wherever the source returns "nothing" (a nil pointer, None, or no error). */
module Wrappers {
  datatype Option<+T> = None | Some(value: T)
}

/** The byte-level vocabulary shared by the Go client and the Python server. */
module Wire {

  /** A Go `byte` (`uint8`); also one byte read from a Python socket. */
  type byte = x: int | 0 <= x < 256

  /** A Go string is an immutable byte sequence and `len` counts its bytes. */
  type GoString = seq<byte>

  /** Go's conversion `byte(n)` of a length: only the low eight bits survive. */
  function LengthByte(n: nat): (b: byte)
    ensures n < 256 ==> b == n
    ensures (n - b) % 256 == 0
  {
    n % 256
  }

  /** What `make([]byte, n)` holds before anything is read into it. */
  function Zeros(n: nat): (z: seq<byte>)
    ensures |z| == n
  {
    seq(n, _ => 0)
  }

  /** One length-prefixed field as every writer of the protocol lays it out:
      a length byte, then the raw bytes. */
  function Field(f: GoString): (r: seq<byte>)
    ensures |r| == 1 + |f|
    ensures r[0] == LengthByte(|f|) && r[1..] == f
  {
    [LengthByte(|f|)] + f
  }

  /** Several fields laid out one after another. */
  function Layout(fs: seq<GoString>): seq<byte>
  {
    if fs == [] then [] else Field(fs[0]) + Layout(fs[1..])
  }

  /** A layout takes one length byte per field plus the fields' bytes. */
  lemma {:induction false} LayoutLength(fs: seq<GoString>)
    ensures |Layout(fs)| == |fs| + TotalLength(fs)
  {
    if fs != [] {
      LayoutLength(fs[1..]);
    }
  }

  /** A layout cut after `k` fields is the layout of the first `k` fields
      followed by the layout of the others. */
  lemma {:induction false} LayoutSplit(fs: seq<GoString>, k: nat)
    requires k <= |fs|
    ensures Layout(fs) == Layout(fs[..k]) + Layout(fs[k..])
    decreases k
  {
    if k == 0 {
      assert fs[..0] == [] && fs[0..] == fs;
    } else {
      LayoutSplit(fs[1..], k - 1);
      assert fs[..k][0] == fs[0] && fs[..k][1..] == fs[1..][..k - 1];
      assert Layout(fs[..k]) == Field(fs[0]) + Layout(fs[1..][..k - 1]);
      assert fs[1..][k - 1..] == fs[k..];
      Associative(Field(fs[0]), Layout(fs[1..][..k - 1]), Layout(fs[k..]));
    }
  }

  /** A non-empty sequence is its head followed by its tail. */
  lemma HeadTail<T>(s: seq<T>)
    requires s != []
    ensures [s[0]] + s[1..] == s
  {
  }

  /** Concatenation is associative. */
  lemma Associative<T>(x: seq<T>, y: seq<T>, z: seq<T>)
    ensures x + (y + z) == (x + y) + z
  {
  }

  /** The sum of the lengths of some fields. */
  function TotalLength(fs: seq<GoString>): nat
  {
    if fs == [] then 0 else |fs[0]| + TotalLength(fs[1..])
  }

  /** Whether every field's length fits in its length byte. */
  predicate AllFit(fs: seq<GoString>)
  {
    forall i :: 0 <= i < |fs| ==> |fs[i]| < 256
  }
}
