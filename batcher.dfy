/** client/common/batcher.go: reads the agency's bet file line by line and
    hands out batches of at most `batchSize` bets. */
module Batcher {
  import opened Wire
  import opened Wrappers
  import opened CommMessage

  /** The separator of a bet line. */
  const Comma: byte := 44

  /** The number of times `x` occurs in `s`. */
  function Count(s: seq<byte>, x: byte): nat
  {
    if s == [] then 0 else (if s[0] == x then 1 else 0) + Count(s[1..], x)
  }

  /** The pieces glued back together, separated by `sep`. */
  function Join(parts: seq<GoString>, sep: byte): GoString
    requires |parts| >= 1
  {
    if |parts| == 1 then parts[0] else parts[0] + [sep] + Join(parts[1..], sep)
  }

  /** `strings.Split(s, sep)` for a one-byte separator: the pieces between
      separators; one more piece than there are separators, so the empty line
      is one empty piece. */
  function Split(s: GoString, sep: byte): (parts: seq<GoString>)
    ensures |parts| >= 1
    decreases |s|
  {
    if s == [] then [[]]
    else
      var rest := Split(s[1..], sep);
      if s[0] == sep then [[]] + rest
      else
        assert rest == [rest[0]] + rest[1..];
        [[s[0]] + rest[0]] + rest[1..]
  }

  /** `Split` yields one more piece than there are separators. */
  lemma {:induction false} SplitCount(s: GoString, sep: byte)
    ensures |Split(s, sep)| == Count(s, sep) + 1
    decreases |s|
  {
    if s != [] {
      SplitCount(s[1..], sep);
    }
  }

  /** Joining the pieces of `Split` gives back the line. */
  lemma {:induction false} SplitJoin(s: GoString, sep: byte)
    ensures Join(Split(s, sep), sep) == s
    decreases |s|
  {
    if s != [] {
      SplitJoin(s[1..], sep);
      if s[0] == sep {
        JoinAfterSeparator(s, sep);
      } else {
        JoinAfterByte(s, sep);
      }
    }
  }

  /** The step of `SplitJoin` for a line that starts with the separator. */
  lemma JoinAfterSeparator(s: GoString, sep: byte)
    requires s != [] && s[0] == sep
    requires Join(Split(s[1..], sep), sep) == s[1..]
    ensures Join(Split(s, sep), sep) == s
  {
    var rest := Split(s[1..], sep);
    var parts := Split(s, sep);
    assert parts == [[]] + rest;
    assert parts[1..] == rest;
    assert Join(parts, sep) == [] + [sep] + Join(rest, sep);
    assert s == [sep] + s[1..];
  }

  /** The step of `SplitJoin` for a line that starts with another byte. */
  lemma JoinAfterByte(s: GoString, sep: byte)
    requires s != [] && s[0] != sep
    requires Join(Split(s[1..], sep), sep) == s[1..]
    ensures Join(Split(s, sep), sep) == s
  {
    var rest := Split(s[1..], sep);
    assert Split(s, sep) == [[s[0]] + rest[0]] + rest[1..];
    JoinConsHead(s[0], rest, sep);
    assert s == [s[0]] + s[1..];
  }

  /** Putting a byte in front of the first piece puts it in front of the
      joined line. */
  lemma JoinConsHead(c: byte, parts: seq<GoString>, sep: byte)
    requires |parts| >= 1
    ensures Join([[c] + parts[0]] + parts[1..], sep) == [c] + Join(parts, sep)
  {
    var longer := [[c] + parts[0]] + parts[1..];
    assert longer[0] == [c] + parts[0];
    assert longer[1..] == parts[1..];
    if |parts| > 1 {
      assert ([c] + parts[0]) + [sep] + Join(parts[1..], sep) == [c] + (parts[0] + [sep] + Join(parts[1..], sep));
    }
  }

  /** No piece of `Split` holds the separator. */
  lemma {:induction false} SplitNoSeparator(s: GoString, sep: byte)
    ensures forall i :: 0 <= i < |Split(s, sep)| ==> sep !in Split(s, sep)[i]
    decreases |s|
  {
    if s != [] {
      SplitNoSeparator(s[1..], sep);
      var rest := Split(s[1..], sep);
      var parts := Split(s, sep);
      if s[0] == sep {
        assert parts == [[]] + rest;
        forall i | 0 <= i < |parts| ensures sep !in parts[i] {
          if i > 0 { assert parts[i] == rest[i - 1]; }
        }
      } else {
        assert parts == [[s[0]] + rest[0]] + rest[1..];
        forall i | 0 <= i < |parts| ensures sep !in parts[i] {
          if i > 0 { assert parts[i] == rest[i]; }
        }
      }
    }
  }

  /** One line of the file turned into a bet: the first five comma-separated
      fields are name, last name, document, date of birth and number, and the
      agency is the batcher's; a line with fewer than five fields is no bet. */
  function ParseLine(line: GoString, agencyId: GoString): Option<BetInfo>
  {
    var fields := Split(line, Comma);
    if |fields| < 5 then None
    else Some(BetInfo(agencyId, fields[0], fields[1], fields[2], fields[3], fields[4]))
  }

  /** A line is a bet exactly when it holds at least four commas; the bet
      carries the batcher's agency, and its fields hold no comma. */
  lemma ParseLineWellFormed(line: GoString, agencyId: GoString)
    ensures ParseLine(line, agencyId).Some? <==> Count(line, Comma) >= 4
    ensures ParseLine(line, agencyId).Some? ==>
      (var b := ParseLine(line, agencyId).value;
       b.agency == agencyId && Comma !in b.name && Comma !in b.lastName && Comma !in b.document
       && Comma !in b.dateOfBirth && Comma !in b.number)
  {
    SplitCount(line, Comma);
    SplitNoSeparator(line, Comma);
  }

  /** The bet of one line, if it is one, as a sequence of at most one bet. */
  function LineBets(line: GoString, agencyId: GoString): seq<BetInfo>
  {
    match ParseLine(line, agencyId)
    case Some(b) => [b]
    case None => []
  }

  /** The bets of some lines, in line order, malformed lines left out. */
  function ParseLines(lines: seq<GoString>, agencyId: GoString): (bets: seq<BetInfo>)
    ensures |bets| <= |lines|
  {
    if lines == [] then []
    else
      LineBets(lines[0], agencyId) + ParseLines(lines[1..], agencyId)
  }

  lemma {:induction false} ParseLinesAppend(a: seq<GoString>, b: seq<GoString>, agencyId: GoString)
    ensures ParseLines(a + b, agencyId) == ParseLines(a, agencyId) + ParseLines(b, agencyId)
    decreases |a|
  {
    if a == [] {
      assert a + b == b;
    } else {
      assert (a + b)[0] == a[0];
      assert (a + b)[1..] == a[1..] + b;
      ParseLinesAppend(a[1..], b, agencyId);
      Associative(LineBets(a[0], agencyId), ParseLines(a[1..], agencyId), ParseLines(b, agencyId));
    }
  }

  /** The bets of one more line: its bet when it splits into at least five
      fields, nothing otherwise. */
  lemma ParseLinesExtend(lines: seq<GoString>, from: nat, next: nat, agencyId: GoString)
    requires from < next <= |lines|
    ensures var fields := Split(lines[next - 1], Comma);
      |fields| < 5 ==> ParseLines(lines[from..next], agencyId) == ParseLines(lines[from..next - 1], agencyId)
    ensures var fields := Split(lines[next - 1], Comma);
      |fields| >= 5 ==>
        (ParseLines(lines[from..next], agencyId) == ParseLines(lines[from..next - 1], agencyId)
          + [BetInfo(agencyId, fields[0], fields[1], fields[2], fields[3], fields[4])])
  {
    assert lines[from..next] == lines[from..next - 1] + [lines[next - 1]];
    ParseLinesAppend(lines[from..next - 1], [lines[next - 1]], agencyId);
    var none: seq<GoString> := [];
    assert [lines[next - 1]][1..] == none;
    var prefix := ParseLines(lines[from..next - 1], agencyId);
    assert prefix + [] == prefix;
  }

  /** What one `GetBatch` call returns and leaves behind. */
  datatype Step = Step(bets: seq<BetInfo>, scanned: nat, finished: bool)

  /** `GetBatch` as a function of the file's lines, the scanner's position,
      the batch size, the agency and the old `Finished` flag.  A non-positive
      batch size runs no iteration; otherwise `batchSize` lines are consumed
      (well-formed or not) unless the file ends first, and `Finished` records
      whether it did. */
  function NextBatch(lines: seq<GoString>, scanned: nat, batchSize: int, agencyId: GoString, finished: bool): Step
    requires scanned <= |lines|
  {
    if batchSize <= 0 then Step([], scanned, finished)
    else if |lines| - scanned < batchSize then Step(ParseLines(lines[scanned..], agencyId), |lines|, true)
    else Step(ParseLines(lines[scanned..scanned + batchSize], agencyId), scanned + batchSize, false)
  }

  /** A batch holds at most `batchSize` bets, taken from at most `batchSize`
      lines that follow the scanner's position, in their order. */
  lemma NextBatchBounds(lines: seq<GoString>, scanned: nat, batchSize: int, agencyId: GoString, finished: bool)
    requires scanned <= |lines|
    ensures var st := NextBatch(lines, scanned, batchSize, agencyId, finished);
      && scanned <= st.scanned <= |lines|
      && (batchSize > 0 ==> st.scanned - scanned <= batchSize && |st.bets| <= batchSize)
      && st.bets == ParseLines(lines[scanned..st.scanned], agencyId)
  {
    assert lines[scanned..scanned] == [];
    assert lines[scanned..] == lines[scanned..|lines|];
  }

  /** `Finished` becomes true exactly when the file ends within the call:
      reading exactly `batchSize` remaining lines leaves it false, and once
      the file is exhausted every call returns nothing and keeps it true. */
  lemma FinishedExactlyAtEnd(lines: seq<GoString>, scanned: nat, batchSize: int, agencyId: GoString)
    requires scanned <= |lines| && batchSize > 0
    ensures NextBatch(lines, scanned, batchSize, agencyId, false).finished <==> |lines| - scanned < batchSize
    ensures NextBatch(lines, |lines|, batchSize, agencyId, true) == Step([], |lines|, true)
  {
    assert lines[|lines|..] == [];
  }

  /** With a batch size of zero or less, `GetBatch` scans nothing and leaves
      `Finished` as it was, so a caller that calls it until `Finished` never
      stops. */
  lemma NonPositiveBatchNeverFinishes(lines: seq<GoString>, scanned: nat, batchSize: int, agencyId: GoString,
                                      finished: bool)
    requires scanned <= |lines| && batchSize <= 0
    ensures NextBatch(lines, scanned, batchSize, agencyId, finished) == Step([], scanned, finished)
  {
  }

  /** A malformed line costs a slot: with a batch size of 1 and a malformed
      next line, the call returns no bet and `Finished` stays false. */
  lemma MalformedLineUsesASlot(lines: seq<GoString>, scanned: nat, agencyId: GoString)
    requires scanned < |lines| && Count(lines[scanned], Comma) < 4
    ensures NextBatch(lines, scanned, 1, agencyId, false) == Step([], scanned + 1, false)
  {
    ParseLineWellFormed(lines[scanned], agencyId);
    assert lines[scanned..scanned + 1] == [lines[scanned]];
  }

  /** The batches a caller obtains by calling `GetBatch` until `Finished`
      (no caller of the batcher is part of this model).  Only a positive
      batch size is considered: with any other, the loop never ends. */
  function Batches(lines: seq<GoString>, scanned: nat, batchSize: int, agencyId: GoString): seq<seq<BetInfo>>
    requires scanned <= |lines| && batchSize > 0
    decreases |lines| - scanned
  {
    var st := NextBatch(lines, scanned, batchSize, agencyId, false);
    if st.finished then [st.bets] else [st.bets] + Batches(lines, st.scanned, batchSize, agencyId)
  }

  function Flatten<T>(xss: seq<seq<T>>): seq<T>
  {
    if xss == [] then [] else xss[0] + Flatten(xss[1..])
  }

  /** All batches together are exactly the bets of the well-formed lines, in
      file order. */
  lemma {:induction false} BatchesDeliverEveryBet(lines: seq<GoString>, scanned: nat, batchSize: int, agencyId: GoString)
    requires scanned <= |lines| && batchSize > 0
    ensures Flatten(Batches(lines, scanned, batchSize, agencyId)) == ParseLines(lines[scanned..], agencyId)
    decreases |lines| - scanned
  {
    var st := NextBatch(lines, scanned, batchSize, agencyId, false);
    NextBatchBounds(lines, scanned, batchSize, agencyId, false);
    if st.finished {
      assert Batches(lines, scanned, batchSize, agencyId) == [st.bets] + [];
      FlattenCons(st.bets, []);
      assert st.bets + [] == st.bets;
      assert lines[scanned..st.scanned] == lines[scanned..];
    } else {
      var next := st.scanned;
      var rest := Batches(lines, next, batchSize, agencyId);
      assert Batches(lines, scanned, batchSize, agencyId) == [st.bets] + rest;
      BatchesDeliverEveryBet(lines, next, batchSize, agencyId);
      FlattenCons(st.bets, rest);
      SliceSplit(lines, scanned, next);
      ParseLinesAppend(lines[scanned..next], lines[next..], agencyId);
    }
  }

  lemma SliceSplit<T>(s: seq<T>, i: nat, j: nat)
    requires i <= j <= |s|
    ensures s[i..] == s[i..j] + s[j..]
  {
  }

  lemma FlattenCons<T>(xs: seq<T>, xss: seq<seq<T>>)
    ensures Flatten([xs] + xss) == xs + Flatten(xss)
  {
    assert ([xs] + xss)[1..] == xss;
  }

  /** A caller that calls `GetBatch` until `Finished` makes ⌊n/k⌋ + 1 calls
      for n remaining lines and batch size k, that is the call count c
      satisfies (c-1)·k <= n < c·k: when k divides n, the last call returns
      an empty batch. */
  lemma {:induction false} BatchCount(lines: seq<GoString>, scanned: nat, batchSize: int, agencyId: GoString)
    requires scanned <= |lines| && batchSize > 0
    ensures var c := |Batches(lines, scanned, batchSize, agencyId)|;
      (c - 1) * batchSize <= |lines| - scanned < c * batchSize
    decreases |lines| - scanned
  {
    var st := NextBatch(lines, scanned, batchSize, agencyId, false);
    var n := |lines| - scanned;
    if st.finished {
      assert |Batches(lines, scanned, batchSize, agencyId)| == 1;
      assert n < batchSize;
      MulStep(0, batchSize);
    } else {
      BatchCount(lines, st.scanned, batchSize, agencyId);
      var c := |Batches(lines, st.scanned, batchSize, agencyId)|;
      assert |Batches(lines, scanned, batchSize, agencyId)| == c + 1;
      assert n == |lines| - st.scanned + batchSize;
      MulStep(c - 1, batchSize);
      MulStep(c, batchSize);
    }
  }

  lemma MulStep(c: int, k: int)
    ensures (c + 1) * k == c * k + k
    ensures 0 * k == 0
  {
  }

  /** Where the scan of `GetBatch` stops: the file's end (the flag set), or
      after `batchSize` lines (the flag clear), or at once for a non-positive
      batch size (the flag untouched). */
  lemma NextBatchOfScan(lines: seq<GoString>, start: nat, scanned: nat, batchSize: int, agencyId: GoString,
                        oldFinished: bool, finished: bool)
    requires start <= scanned <= |lines|
    requires batchSize <= 0 ==> scanned == start && finished == oldFinished
    requires batchSize > 0 ==>
      (finished && scanned == |lines| && scanned - start < batchSize) || (!finished && scanned - start == batchSize)
    ensures Step(ParseLines(lines[start..scanned], agencyId), scanned, finished)
      == NextBatch(lines, start, batchSize, agencyId, oldFinished)
  {
    assert lines[start..] == lines[start..|lines|];
    assert lines[start..start] == [];
  }

  /** Holds the scanner over the bet file and the `Finished` flag. */
  class Batcher {
    var finished: bool
    /** The file, as the scanner splits it into lines. */
    const lines: seq<GoString>
    /** How many lines the scanner has handed out. */
    var scanned: nat
    const batchSize: int
    const agencyId: GoString

    ghost predicate Valid()
      reads this
    {
      scanned <= |lines|
    }

    /** `NewBatcher` on a file that opened. */
    constructor (lines: seq<GoString>, batchSize: int, agencyId: GoString)
      ensures Valid() && !finished && scanned == 0
      ensures this.lines == lines && this.batchSize == batchSize && this.agencyId == agencyId
    {
      finished := false;
      this.lines := lines;
      scanned := 0;
      this.batchSize := batchSize;
      this.agencyId := agencyId;
    }

    /** `GetBatch`: up to `batchSize` iterations, each scanning one line,
        setting `Finished` to whether the scan failed, and keeping the line's
        bet when it has at least five fields. */
    method GetBatch() returns (bets: seq<BetInfo>)
      requires Valid()
      modifies this`finished, this`scanned
      ensures Valid()
      ensures Step(bets, scanned, finished) == NextBatch(lines, old(scanned), batchSize, agencyId, old(finished))
    {
      bets := [];
      var start := scanned;
      var i := 0;
      while i < batchSize
        invariant 0 <= i && (batchSize > 0 ==> i <= batchSize) && (batchSize <= 0 ==> i == 0)
        invariant scanned == start + i <= |lines|
        invariant bets == ParseLines(lines[start..scanned], agencyId)
        invariant i == 0 ==> finished == old(finished)
        invariant i > 0 ==> !finished
      {
        finished := scanned == |lines|;
        if finished {
          break;
        }
        var line := lines[scanned];
        var next := scanned + 1;
        scanned := next;
        ParseLinesExtend(lines, start, next, agencyId);
        var fields := Split(line, Comma);
        if |fields| < 5 {
          i := i + 1;
          continue;
        }
        var bet := BetInfo(agencyId, fields[0], fields[1], fields[2], fields[3], fields[4]);
        bets := bets + [bet];
        i := i + 1;
      }
      NextBatchOfScan(lines, start, scanned, batchSize, agencyId, old(finished), finished);
    }
  }
}
