/** Bounded line framing over a buffered reader: the MCP adapter's `read_frame`/`drain_frame` and the wire's
    `read_line_bounded`, against the newline split of the bytes, whatever chunks they arrive in. */
module Framing {
  import opened Prelude

  const NEWLINE: byte := 10
  const MAX_MESSAGE_LEN: nat := 1024 * 1024
  const FRAME_CAP: nat := MAX_MESSAGE_LEN
  const DRAIN_CAP: nat := MAX_MESSAGE_LEN

  datatype Frame = Line(payload: Bytes) | Eof | Oversize(resynced: bool)

  function Concat(chunks: seq<Bytes>): Bytes {
    if chunks == [] then [] else chunks[0] + Concat(chunks[1..])
  }

  /** A `BufRead` over a stream that arrives in non-empty chunks of at most `chunkMax` bytes and then ends. */
  class Reader {
    ghost const stream: Bytes
    ghost const chunkMax: nat
    ghost var pos: nat
    var chunks: seq<Bytes>

    ghost predicate Valid()
      reads this
    {
      && pos <= |stream| && Concat(chunks) == stream[pos..]
      && forall c :: c in chunks ==> 0 < |c| <= chunkMax
    }

    constructor (chunks: seq<Bytes>, ghost chunkMax: nat)
      requires forall c :: c in chunks ==> 0 < |c| <= chunkMax
      ensures Valid() && this.chunks == chunks && stream == Concat(chunks) && pos == 0 && this.chunkMax == chunkMax
    {
      this.chunks, this.stream, this.pos, this.chunkMax := chunks, Concat(chunks), 0, chunkMax;
    }

    /** `fill_buf`: the next bytes of the stream, none only at its end. */
    function FillBuf(): (available: Bytes)
      requires Valid()
      reads this
      ensures available == [] <==> pos == |stream|
      ensures |available| <= chunkMax && AtHand(stream, pos, available)
      ensures chunks != [] ==> available == chunks[0]
    {
      if chunks == [] then [] else
        assert chunks[0] in chunks;
        assert forall i :: 0 <= i < |chunks[0]| ==> chunks[0][i] == Concat(chunks)[i];
        chunks[0]
    }

    method Consume(n: nat)
      requires Valid() && n <= |FillBuf()|
      modifies this`pos, this`chunks
      ensures Valid() && pos == old(pos) + n
      ensures chunks == if old(chunks) == [] then [] else After(old(chunks), n)
    {
      if chunks != [] {
        var first, others := chunks[0][n..], chunks[1..];
        assert chunks[0] in chunks && forall c :: c in others ==> c in chunks;
        DropFront(chunks, n, stream, pos);
        chunks := if first == [] then others else [first] + others;
      }
      pos := pos + n;
    }
  }

  /** What `consume(n)` leaves. */
  function After(chunks: seq<Bytes>, n: nat): seq<Bytes>
    requires chunks != [] && n <= |chunks[0]|
  {
    if n == |chunks[0]| then chunks[1..] else [chunks[0][n..]] + chunks[1..]
  }

  lemma DropFront(chunks: seq<Bytes>, n: nat, stream: Bytes, pos: nat)
    requires chunks != [] && n <= |chunks[0]| && pos <= |stream| && Concat(chunks) == stream[pos..]
    ensures pos + n <= |stream| && Concat(After(chunks, n)) == stream[pos + n..]
  {
    var kept, rest := chunks[0][n..], Concat(chunks[1..]);
    assert ([kept] + chunks[1..])[1..] == chunks[1..];
    assert stream[pos + n..] == (chunks[0] + rest)[n..] == kept + rest;
    if kept == [] { assert [] + rest == rest; }
  }

  // ----- lines -----------------------------------------------------------------------------

  predicate Plain(s: Bytes, from: nat, to: nat)
    requires from <= to <= |s|
  {
    forall i :: from <= i < to ==> s[i] != NEWLINE
  }

  /** The first newline at or after `from`, or the end. */
  function LineEnd(s: Bytes, from: nat): (k: nat)
    requires from <= |s|
    ensures from <= k <= |s| && (k < |s| ==> s[k] == NEWLINE) && Plain(s, from, k)
    decreases |s| - from
  {
    if from == |s| || s[from] == NEWLINE then from else LineEnd(s, from + 1)
  }

  /** Past the line that starts at `from` and its newline. */
  function NextLine(s: Bytes, from: nat): nat
    requires from <= |s|
  {
    if LineEnd(s, from) < |s| then LineEnd(s, from) + 1 else |s|
  }

  lemma LineEndIs(s: Bytes, from: nat, k: nat)
    requires from <= k <= |s| && (k < |s| ==> s[k] == NEWLINE) && Plain(s, from, k)
    ensures LineEnd(s, from) == k
  {
    hide LineEnd;
  }

  lemma NothingRead(s: Bytes, from: nat)
    requires from <= |s|
    ensures Plain(s, from, from)
  {
  }

  /** A line without a newline so far is at least that long. */
  lemma LineEndBeyond(s: Bytes, from: nat, at: nat)
    requires from <= at <= |s| && Plain(s, from, at)
    ensures LineEnd(s, from) >= at
  {
    hide LineEnd;
  }

  /** `position(|&b| b == b'\n')` in the buffered bytes, or their number. */
  function NewlineIn(available: Bytes): (n: nat)
    ensures n <= |available| && (n < |available| ==> available[n] == NEWLINE) && Plain(available, 0, n)
  {
    LineEnd(available, 0)
  }

  /** The buffered bytes are the ones the stream has at `at`. */
  predicate AtHand(s: Bytes, at: nat, available: Bytes) {
    at + |available| <= |s| && forall i :: 0 <= i < |available| ==> available[i] == s[at + i]
  }

  /** Reading on, up to the newline at hand if there is one. */
  lemma ReadOn(s: Bytes, from: nat, at: nat, available: Bytes)
    requires from <= at && AtHand(s, at, available) && Plain(s, from, at)
    ensures var n := NewlineIn(available);
            && Plain(s, from, at + n) && s[from..at] + available[..n] == s[from..at + n]
            && (n < |available| ==> LineEnd(s, from) == at + n < |s|)
  {
    hide LineEnd;
    hide NewlineIn;
    var n := NewlineIn(available);
    forall i | from <= i < at + n ensures s[i] != NEWLINE {
      if i >= at { assert available[i - at] == s[at + (i - at)]; }
    }
    if n < |available| { LineEndIs(s, from, at + n); }
  }

  // ----- the MCP reader ---------------------------------------------------------------------

  /** What one read makes of the stream from `from`, leaving the reader at `to`. Only the fate of a line longer than
      both caps together depends on how it was chunked. */
  predicate Read(s: Bytes, from: nat, frame: Frame, to: nat)
    requires from <= |s|
  {
    match frame
    case Eof => from == |s| && to == |s|
    case Line(p) => from < |s| && p == s[from..LineEnd(s, from)] && |p| <= FRAME_CAP && to == NextLine(s, from)
    case Oversize(true) => LineEnd(s, from) - from > FRAME_CAP && to == NextLine(s, from)
    case Oversize(false) => LineEnd(s, from) - from > FRAME_CAP + DRAIN_CAP && from < to <= |s|
  }

  /** A read and the chunks it leaves. */
  datatype Taken = Taken(frame: Frame, rest: seq<Bytes>)

  /** `drain_frame` as a function of the chunks. */
  function Drained(chunks: seq<Bytes>, skipped: nat): Taken {
    if chunks == [] then Taken(Oversize(true), [])
    else
      var n := NewlineIn(chunks[0]);
      if n < |chunks[0]| then Taken(Oversize(true), After(chunks, n + 1))
      else if skipped + |chunks[0]| >= DRAIN_CAP then Taken(Oversize(false), chunks[1..])
      else Drained(chunks[1..], skipped + |chunks[0]|)
  }

  /** `read_frame` as a function of the chunks, having buffered `buf`. */
  function Framed(chunks: seq<Bytes>, buf: Bytes): Taken {
    if chunks == [] then Taken(if buf == [] then Eof else Line(buf), [])
    else
      var n := NewlineIn(chunks[0]);
      var grown := buf + chunks[0][..n];
      if n < |chunks[0]| then Taken(if |grown| > FRAME_CAP then Oversize(true) else Line(grown), After(chunks, n + 1))
      else if |grown| > FRAME_CAP then Drained(chunks[1..], 0)
      else Framed(chunks[1..], grown)
  }

  predicate NonEmpty(chunks: seq<Bytes>) { forall c :: c in chunks ==> c != [] }

  /** The chunks hold what the stream has from `at` on. */
  predicate Splits(s: Bytes, at: nat, chunks: seq<Bytes>) { at <= |s| && NonEmpty(chunks) && Concat(chunks) == s[at..] }

  lemma FirstAtHand(s: Bytes, at: nat, chunks: seq<Bytes>)
    requires Splits(s, at, chunks)
    ensures chunks == [] <==> at == |s|
    ensures chunks != [] ==> AtHand(s, at, chunks[0]) && chunks[0] != []
  {
    if chunks != [] {
      assert chunks[0] in chunks;
      assert |s| - at == |chunks[0]| + |Concat(chunks[1..])|;
      forall i | 0 <= i < |chunks[0]| ensures chunks[0][i] == s[at + i] { assert s[at..][i] == Concat(chunks)[i]; }
    }
  }

  lemma AfterSplits(s: Bytes, at: nat, chunks: seq<Bytes>, n: nat)
    requires Splits(s, at, chunks) && chunks != [] && n <= |chunks[0]|
    ensures Splits(s, at + n, After(chunks, n))
  {
    DropFront(chunks, n, s, at);
    assert forall c :: c in chunks[1..] ==> c in chunks;
  }

  lemma {:induction false} DrainedReads(s: Bytes, from: nat, at: nat, chunks: seq<Bytes>, skipped: nat) returns (to: nat)
    requires Splits(s, at, chunks) && from + FRAME_CAP + skipped < at && Plain(s, from, at)
    ensures Splits(s, to, Drained(chunks, skipped).rest)
    ensures Read(s, from, Drained(chunks, skipped).frame, to) && Drained(chunks, skipped).frame.Oversize?
    decreases chunks
  {
    hide Concat;
    hide Splits;
    hide LineEnd;
    hide NewlineIn;
    hide Plain;
    hide After;
    SplitsWithin(s, at, chunks);
    FirstAtHand(s, at, chunks);
    LineEndBeyond(s, from, at);
    if chunks == [] { return at; }
    var n := NewlineIn(chunks[0]);
    ReadOn(s, from, at, chunks[0]);
    if n < |chunks[0]| {
      AfterSplits(s, at, chunks, n + 1);
      return at + n + 1;
    }
    AfterSplits(s, at, chunks, n);
    AfterAll(chunks);
    LineEndBeyond(s, from, at + n);
    if skipped + n >= DRAIN_CAP { return at + n; }
    to := DrainedReads(s, from, at + n, chunks[1..], skipped + n);
  }

  lemma SplitsWithin(s: Bytes, at: nat, chunks: seq<Bytes>)
    requires Splits(s, at, chunks)
    ensures at <= |s|
  {
  }

  lemma AfterAll(chunks: seq<Bytes>)
    requires chunks != []
    ensures After(chunks, |chunks[0]|) == chunks[1..]
  {
  }

  /** Whatever the chunks, one read takes the line at `from`, within what `Read` allows. */
  lemma {:induction false} FramedReads(s: Bytes, from: nat, at: nat, chunks: seq<Bytes>) returns (to: nat)
    requires from <= at && Splits(s, at, chunks) && Plain(s, from, at) && at - from <= FRAME_CAP
    ensures Splits(s, to, Framed(chunks, s[from..at]).rest)
    ensures Read(s, from, Framed(chunks, s[from..at]).frame, to)
    decreases chunks
  {
    hide Concat;
    hide Splits;
    hide LineEnd;
    hide NewlineIn;
    hide Plain;
    hide After;
    hide Drained;
    FirstAtHand(s, at, chunks);
    LineEndBeyond(s, from, at);
    if chunks == [] { return at; }
    var n := NewlineIn(chunks[0]);
    ReadOn(s, from, at, chunks[0]);
    if n < |chunks[0]| {
      AfterSplits(s, at, chunks, n + 1);
      return at + n + 1;
    }
    AfterSplits(s, at, chunks, n);
    AfterAll(chunks);
    if at + n - from > FRAME_CAP {
      to := DrainedReads(s, from, at + n, chunks[1..], 0);
    } else {
      to := FramedReads(s, from, at + n, chunks[1..]);
    }
  }

  lemma FramedReadsHere(s: Bytes, from: nat, chunks: seq<Bytes>) returns (to: nat)
    requires Splits(s, from, chunks)
    ensures Splits(s, to, Framed(chunks, []).rest) && Read(s, from, Framed(chunks, []).frame, to)
  {
    hide Concat;
    NothingRead(s, from);
    assert s[from..from] == [];
    to := FramedReads(s, from, from, chunks);
  }

  /** `drain_frame`. */
  method DrainFrame(reader: Reader) returns (frame: Frame)
    requires reader.Valid()
    modifies reader`pos, reader`chunks
    ensures reader.Valid() && reader.pos >= old(reader.pos)
    ensures Taken(frame, reader.chunks) == Drained(old(reader.chunks), 0)
  {
    hide Concat;
    hide LineEnd;
    hide NewlineIn;
    hide After;
    var skipped: nat := 0;
    while true
      invariant reader.Valid() && reader.pos >= old(reader.pos) && skipped < DRAIN_CAP
      invariant Drained(reader.chunks, skipped) == Drained(old(reader.chunks), 0)
      decreases |reader.stream| - reader.pos
    {
      var available := reader.FillBuf();
      if available == [] { return Oversize(true); }
      var n := NewlineIn(available);
      AfterAll(reader.chunks);
      if n < |available| {
        reader.Consume(n + 1);
        return Oversize(true);
      }
      reader.Consume(|available|);
      skipped := skipped + |available|;
      if skipped >= DRAIN_CAP { return Oversize(false); }
    }
  }

  /** `read_frame`. `peak` is the largest the buffer ever was: the cap and one chunk at most. */
  method ReadFrame(reader: Reader) returns (frame: Frame, ghost peak: nat)
    requires reader.Valid()
    modifies reader`pos, reader`chunks
    ensures reader.Valid() && reader.pos >= old(reader.pos)
    ensures Taken(frame, reader.chunks) == Framed(old(reader.chunks), [])
    ensures Read(reader.stream, old(reader.pos), frame, reader.pos)
    ensures peak <= FRAME_CAP + reader.chunkMax
  {
    hide Concat;
    hide LineEnd;
    hide NewlineIn;
    hide After;
    hide Drained;
    hide Read;
    ghost var s, from, before := reader.stream, reader.pos, reader.chunks;
    var buf: Bytes := [];
    peak := 0;
    while true
      invariant reader.Valid() && reader.pos >= from && reader.stream == s && peak <= FRAME_CAP + reader.chunkMax
      invariant |buf| <= FRAME_CAP && Framed(reader.chunks, buf) == Framed(before, [])
      decreases |s| - reader.pos
    {
      var available := reader.FillBuf();
      if available == [] {
        frame := if buf == [] then Eof else Line(buf);
        break;
      }
      var n := NewlineIn(available);
      AfterAll(reader.chunks);
      if n < |available| {
        buf := buf + available[..n];
        peak := if |buf| > peak then |buf| else peak;
        reader.Consume(n + 1);
        frame := if |buf| > FRAME_CAP then Oversize(true) else Line(buf);
        break;
      }
      assert available[..n] == available;
      buf := buf + available;
      peak := if |buf| > peak then |buf| else peak;
      reader.Consume(|available|);
      if |buf| > FRAME_CAP {
        frame := DrainFrame(reader);
        break;
      }
    }
    ReaderTook(s, from, before, reader.pos, reader.chunks, frame);
  }

  /** Where the reader stands is what its chunks say. */
  lemma ReaderTook(s: Bytes, from: nat, before: seq<Bytes>, pos: nat, chunks: seq<Bytes>, frame: Frame)
    requires Splits(s, from, before) && Splits(s, pos, chunks) && Taken(frame, chunks) == Framed(before, [])
    ensures Read(s, from, frame, pos)
  {
    hide Concat;
    hide Framed;
    hide Read;
    var to := FramedReadsHere(s, from, before);
    assert |s[to..]| == |s[pos..]|;
  }

  // ----- whole sessions -----------------------------------------------------------------------

  /** The newline split, each over-long line replaced by one `Oversize`. */
  function Frames(s: Bytes, from: nat): seq<Frame>
    requires from <= |s|
    decreases |s| - from
  {
    if from == |s| then []
    else
      var k := LineEnd(s, from);
      [if k - from <= FRAME_CAP then Line(s[from..k]) else Oversize(true)] + Frames(s, NextLine(s, from))
  }

  /** Some line is too long even for draining. */
  predicate Floods(s: Bytes, from: nat)
    requires from <= |s|
    decreases |s| - from
  {
    from < |s| && (LineEnd(s, from) - from > FRAME_CAP + DRAIN_CAP || Floods(s, NextLine(s, from)))
  }

  /** What the read loop of `serve` sees of the chunks. */
  function Session(chunks: seq<Bytes>): seq<Frame>
    requires NonEmpty(chunks)
    decreases |Concat(chunks)|
  {
    var t := Framed(chunks, []);
    SessionMovesOn(chunks);
    if t.frame.Eof? then [] else [t.frame] + if t.frame == Oversize(false) then [] else Session(t.rest)
  }

  lemma SessionMovesOn(chunks: seq<Bytes>)
    requires NonEmpty(chunks)
    ensures var t := Framed(chunks, []);
            t.frame.Eof? || (NonEmpty(t.rest) && |Concat(t.rest)| < |Concat(chunks)|)
  {
    hide Framed;
    hide LineEnd;
    var s := Concat(chunks);
    assert s[0..] == s;
    var to := FramedReadsHere(s, 0, chunks);
    assert |s[to..]| == |s| - to;
  }

  /** One read takes one frame off the split. */
  lemma ReadTakesOneFrame(s: Bytes, from: nat, frame: Frame, to: nat)
    requires from <= |s| && Read(s, from, frame, to)
    ensures frame.Eof? <==> Frames(s, from) == []
    ensures frame.Eof? ==> !Floods(s, from)
    ensures frame == Oversize(false) ==> Frames(s, from) != [] && Frames(s, from)[0] == Oversize(true) && Floods(s, from)
    ensures frame.Line? || frame == Oversize(true) ==>
              from < to <= |s| && Frames(s, from) == [frame] + Frames(s, to) && (Floods(s, to) ==> Floods(s, from))
  {
    hide LineEnd;
  }

  /** Whatever the chunks, the session sees the newline split of the stream, or a part of it up to a line longer than
      both caps together. */
  lemma {:induction false} SessionSeesTheSplit(s: Bytes, from: nat, chunks: seq<Bytes>)
    requires Splits(s, from, chunks)
    ensures var seen := Session(chunks);
            || seen == Frames(s, from)
            || (&& seen != [] && seen[|seen| - 1] == Oversize(false) && seen[..|seen| - 1] < Frames(s, from)
                && Frames(s, from)[|seen| - 1] == Oversize(true) && Floods(s, from))
    decreases |s| - from
  {
    hide Concat;
    hide Framed;
    hide Frames;
    hide Floods;
    var t := Framed(chunks, []);
    var to := FramedReadsHere(s, from, chunks);
    ReadTakesOneFrame(s, from, t.frame, to);
    hide Read;
    hide Splits;
    SplitsWithin(s, from, chunks);
    if t.frame.Eof? {
    } else if t.frame == Oversize(false) {
      assert [t.frame][..0] == [];
    } else {
      SessionSeesTheSplit(s, to, t.rest);
      var seen, rest := Session(chunks), Session(t.rest);
      assert seen == [t.frame] + rest;
      if rest != Frames(s, to) {
        assert seen[..|seen| - 1] == [t.frame] + rest[..|rest| - 1];
        assert seen[|seen| - 1] == rest[|rest| - 1];
      }
    }
  }

  /** One byte at a time. */
  function Bytewise(s: Bytes): seq<Bytes> { seq(|s|, i requires 0 <= i < |s| => [s[i]]) }

  predicate SingleBytes(chunks: seq<Bytes>) { forall c :: c in chunks ==> |c| == 1 }

  lemma {:induction false} BytewiseSplits(s: Bytes)
    ensures Concat(Bytewise(s)) == s && SingleBytes(Bytewise(s))
  {
    if s == [] {
    } else {
      assert Bytewise(s)[1..] == Bytewise(s[1..]);
      BytewiseSplits(s[1..]);
      assert s == [s[0]] + s[1..];
    }
  }

  /** The first byte of single-byte chunks, when it is no newline. */
  lemma SingleByteOn(s: Bytes, at: nat, chunks: seq<Bytes>)
    requires Splits(s, at, chunks) && SingleBytes(chunks) && at < |s| && s[at] != NEWLINE
    ensures chunks != [] && chunks[0] == [s[at]] && NewlineIn(chunks[0]) == 1
    ensures Splits(s, at + 1, chunks[1..]) && SingleBytes(chunks[1..])
  {
    FirstAtHand(s, at, chunks);
    assert chunks[0] in chunks;
    assert chunks[0] == [s[at]];
    AfterSplits(s, at, chunks, 1);
  }

  lemma {:induction false} BytewiseDrainGivesUp(s: Bytes, at: nat, chunks: seq<Bytes>, skipped: nat)
    requires Splits(s, at, chunks) && SingleBytes(chunks) && skipped < DRAIN_CAP
    requires at + (DRAIN_CAP - skipped) <= |s| && Plain(s, at, at + (DRAIN_CAP - skipped))
    ensures Drained(chunks, skipped).frame == Oversize(false)
    decreases DRAIN_CAP - skipped
  {
    hide Concat;
    hide Splits;
    hide NewlineIn;
    SingleByteOn(s, at, chunks);
    if skipped + 1 >= DRAIN_CAP {
    } else {
      BytewiseDrainGivesUp(s, at + 1, chunks[1..], skipped + 1);
    }
  }

  lemma {:induction false} BytewiseReadGivesUp(s: Bytes, from: nat, at: nat, chunks: seq<Bytes>)
    requires from <= at && Splits(s, at, chunks) && SingleBytes(chunks) && at - from <= FRAME_CAP
    requires from + FRAME_CAP + DRAIN_CAP < |s| && Plain(s, at, from + FRAME_CAP + DRAIN_CAP + 1)
    ensures Framed(chunks, s[from..at]).frame == Oversize(false)
    decreases FRAME_CAP - (at - from)
  {
    hide Concat;
    hide Splits;
    hide NewlineIn;
    hide Drained;
    SingleByteOn(s, at, chunks);
    assert s[from..at] + chunks[0][..1] == s[from..at + 1];
    if at + 1 - from > FRAME_CAP {
      BytewiseDrainGivesUp(s, at + 1, chunks[1..], 0);
    } else {
      BytewiseReadGivesUp(s, from, at + 1, chunks[1..]);
    }
  }

  lemma SingleBytesStay(chunks: seq<Bytes>, n: nat)
    requires chunks != [] && n <= |chunks[0]| && 0 < n && SingleBytes(chunks)
    ensures SingleBytes(After(chunks, n))
  {
    assert chunks[0] in chunks;
  }

  lemma {:induction false} DrainedKeepsSingle(chunks: seq<Bytes>, skipped: nat)
    requires SingleBytes(chunks)
    ensures SingleBytes(Drained(chunks, skipped).rest)
  {
    if chunks == [] {
    } else {
      var n := NewlineIn(chunks[0]);
      if n < |chunks[0]| { SingleBytesStay(chunks, n + 1); }
      DrainedKeepsSingle(chunks[1..], skipped + |chunks[0]|);
    }
  }

  lemma {:induction false} FramedKeepsSingle(chunks: seq<Bytes>, buf: Bytes)
    requires SingleBytes(chunks)
    ensures SingleBytes(Framed(chunks, buf).rest)
  {
    hide Drained;
    if chunks == [] {
    } else {
      var n := NewlineIn(chunks[0]);
      if n < |chunks[0]| { SingleBytesStay(chunks, n + 1); }
      DrainedKeepsSingle(chunks[1..], 0);
      FramedKeepsSingle(chunks[1..], buf + chunks[0][..n]);
    }
  }

  /** Fed single bytes, a session is cut short by every line longer than both caps together. */
  lemma {:induction false} BytewiseFloodCutsShort(s: Bytes, from: nat, chunks: seq<Bytes>)
    requires Splits(s, from, chunks) && SingleBytes(chunks) && Floods(s, from)
    ensures Oversize(false) in Session(chunks)
    decreases |s| - from
  {
    hide Concat;
    hide Framed;
    var t := Framed(chunks, []);
    var to := FramedReadsHere(s, from, chunks);
    FramedKeepsSingle(chunks, []);
    hide LineEnd;
    if LineEnd(s, from) - from > FRAME_CAP + DRAIN_CAP {
      assert s[from..from] == [];
      BytewiseReadGivesUp(s, from, from, chunks);
    } else {
      hide Splits;
      BytewiseFloodCutsShort(s, to, t.rest);
    }
  }

  lemma {:induction false} FramesAreResynced(s: Bytes, from: nat)
    requires from <= |s|
    ensures Oversize(false) !in Frames(s, from)
    decreases |s| - from
  {
    if from == |s| {
    } else {
      FramesAreResynced(s, NextLine(s, from));
    }
  }

  /** The chunks a stream arrives in make no difference exactly when no line of it is longer than both caps
      together. */
  lemma ChunksMatterOnlyInFloods(s: Bytes)
    ensures (forall chunks :: Splits(s, 0, chunks) ==> Session(chunks) == Frames(s, 0)) <==> !Floods(s, 0)
  {
    if Floods(s, 0) {
      BytewiseSplits(s);
      assert s[0..] == s && Splits(s, 0, Bytewise(s));
      BytewiseFloodCutsShort(s, 0, Bytewise(s));
      FramesAreResynced(s, 0);
    } else {
      forall chunks | Splits(s, 0, chunks) ensures Session(chunks) == Frames(s, 0) {
        SessionSeesTheSplit(s, 0, chunks);
      }
    }
  }

  /** The shortest such line, skipped when it arrives whole and fatal byte by byte. */
  lemma OneFloodTwoOutcomes(line: Bytes)
    requires |line| == FRAME_CAP + DRAIN_CAP + 1 && Plain(line, 0, |line|)
    ensures Session([line + [NEWLINE]]) == [Oversize(true)]
    ensures Session(Bytewise(line + [NEWLINE])) == [Oversize(false)]
  {
    var s := line + [NEWLINE];
    LineEndIs(s, 0, |line|);
    assert s[0..] == s && s[..|s|] == s;
    WholeLineIsSkipped(s, |line|);
    BytewiseSplits(s);
    assert Splits(s, 0, Bytewise(s));
    BytewiseReadGivesUp(s, 0, 0, Bytewise(s));
    hide Framed;
    hide LineEnd;
    assert s[0..0] == [];
  }

  lemma WholeLineIsSkipped(s: Bytes, k: nat)
    requires k > FRAME_CAP && k + 1 == |s| && LineEnd(s, 0) == k && NonEmpty([s])
    ensures Session([s]) == [Oversize(true)]
  {
    hide LineEnd;
    var chunks: seq<Bytes> := [s];
    assert chunks[1..] == [] && After(chunks, k + 1) == [];
    assert Framed([s], []) == Taken(Oversize(true), []);
    assert Framed([], []) == Taken(Eof, []);
  }

  /** The read loop of `serve`: it stops at the end, or at a flood it could not get past. */
  method ReadSession(reader: Reader) returns (frames: seq<Frame>)
    requires reader.Valid()
    modifies reader`pos, reader`chunks
    ensures frames == Session(old(reader.chunks))
    ensures !Floods(reader.stream, old(reader.pos)) ==> frames == Frames(reader.stream, old(reader.pos))
  {
    hide Concat;
    hide Framed;
    hide Read;
    ghost var s, from, before := reader.stream, reader.pos, reader.chunks;
    frames := [];
    SessionSeesTheSplit(s, from, before);
    while true
      invariant reader.Valid() && reader.stream == s && NonEmpty(reader.chunks)
      invariant Session(before) == frames + Session(reader.chunks)
      decreases |s| - reader.pos
    {
      ghost var at, sofar := reader.pos, frames;
      var frame, _ := ReadFrame(reader);
      ReadTakesOneFrame(s, at, frame, reader.pos);
      if frame.Eof? { return; }
      frames := frames + [frame];
      if frame == Oversize(false) { return; }
      assert sofar + ([frame] + Session(reader.chunks)) == frames + Session(reader.chunks);
    }
  }

  // ----- the wire reader ----------------------------------------------------------------------------

  datatype WireError = Closed | Unterminated | TooLarge

  /** `read_line_bounded` as a function of the bytes alone. */
  function WireLine(s: Bytes, from: nat): Result<Bytes, WireError>
    requires from <= |s|
  {
    var k := LineEnd(s, from);
    if from == |s| then Err(Closed)
    else if k - from > MAX_MESSAGE_LEN then Err(TooLarge)
    else if k == |s| then Err(Unterminated)
    else Ok(s[from..k])
  }

  method ReadLineBounded(reader: Reader) returns (r: Result<Bytes, WireError>)
    requires reader.Valid()
    modifies reader`pos, reader`chunks
    ensures reader.Valid() && r == WireLine(reader.stream, old(reader.pos))
    ensures r.Ok? ==> reader.pos == NextLine(reader.stream, old(reader.pos))
  {
    hide Concat;
    hide Reader.FillBuf;
    hide LineEnd;
    hide NewlineIn;
    hide Plain;
    ghost var s, from := reader.stream, reader.pos;
    NothingRead(s, from);
    var buf: Bytes := [];
    while true
      invariant reader.Valid()
      invariant from <= reader.pos && buf == s[from..reader.pos] && |buf| <= MAX_MESSAGE_LEN
      invariant Plain(s, from, reader.pos)
      decreases |s| - reader.pos
    {
      var available := reader.FillBuf();
      if available == [] {
        LineEndBeyond(s, from, reader.pos);
        return Err(if buf == [] then Closed else Unterminated);
      }
      var n := NewlineIn(available);
      ReadOn(s, from, reader.pos, available);
      if n < |available| {
        buf := buf + available[..n];
        reader.Consume(n + 1);
        return if |buf| > MAX_MESSAGE_LEN then Err(TooLarge) else Ok(buf);
      }
      assert available[..n] == available;
      buf := buf + available;
      reader.Consume(|available|);
      if |buf| > MAX_MESSAGE_LEN {
        LineEndBeyond(s, from, reader.pos);
        return Err(TooLarge);
      }
    }
  }

  /** The two readers agree on every terminated line within the cap, and on nothing else do they both yield a
      line: the adapter also accepts a last line without a newline. */
  lemma ReadersAgree(s: Bytes, from: nat, frame: Frame, to: nat)
    requires from <= |s| && Read(s, from, frame, to)
    ensures WireLine(s, from).Ok? <==> frame.Line? && LineEnd(s, from) < |s|
    ensures WireLine(s, from).Ok? ==> frame == Line(WireLine(s, from).value) && to == NextLine(s, from)
  {
    hide LineEnd;
  }

  lemma WholeStreamIsSkipped(s: Bytes, from: nat)
    requires from <= |s| && LineEnd(s, from) - from > FRAME_CAP
    ensures Splits(s, from, [s[from..]]) && Framed([s[from..]], []).frame == Oversize(true)
  {
    hide LineEnd;
    var whole := s[from..];
    var chunks: seq<Bytes> := [whole];
    assert chunks[0] == whole && chunks[0][..|whole|] == whole && chunks[1..] == [] && Concat([]) == [];
    LineEndIs(whole, 0, LineEnd(s, from) - from);
    assert Drained([], 0) == Taken(Oversize(true), []);
  }

  lemma BytewiseReadIsCutShort(s: Bytes, from: nat)
    requires from <= |s| && LineEnd(s, from) - from > FRAME_CAP + DRAIN_CAP
    ensures Splits(s, from, Bytewise(s[from..])) && Framed(Bytewise(s[from..]), []).frame == Oversize(false)
  {
    hide LineEnd;
    hide Framed;
    BytewiseSplits(s[from..]);
    assert s[from..from] == [];
    BytewiseReadGivesUp(s, from, from, Bytewise(s[from..]));
  }

  /** The chunks make no difference to a read exactly when its line is within both caps together. */
  lemma ReadIsDeterministic(s: Bytes, from: nat)
    requires from <= |s|
    ensures (forall one, other :: Splits(s, from, one) && Splits(s, from, other) ==>
               Framed(one, []).frame == Framed(other, []).frame)
       <==> LineEnd(s, from) - from <= FRAME_CAP + DRAIN_CAP
  {
    hide LineEnd;
    hide Framed;
    hide Splits;
    if LineEnd(s, from) - from <= FRAME_CAP + DRAIN_CAP {
      forall one, other | Splits(s, from, one) && Splits(s, from, other)
        ensures Framed(one, []).frame == Framed(other, []).frame
      {
        var to1 := FramedReadsHere(s, from, one);
        var to2 := FramedReadsHere(s, from, other);
      }
    } else {
      WholeStreamIsSkipped(s, from);
      BytewiseReadIsCutShort(s, from);
    }
  }

  function Joined(frames: seq<Frame>): Bytes {
    if frames == [] then []
    else (if frames[0].Line? then frames[0].payload else []) + [NEWLINE] + Joined(frames[1..])
  }

  predicate Terminated(s: Bytes) { s == [] || s[|s| - 1] == NEWLINE }

  /** Joining the split with newlines gives the stream back, so no byte of a kept line is lost or invented. */
  lemma {:induction false} SplitLosesNothing(s: Bytes, from: nat)
    requires from <= |s| && forall i :: 0 <= i < |Frames(s, from)| ==> Frames(s, from)[i].Line?
    ensures Joined(Frames(s, from)) == if from == |s| || Terminated(s) then s[from..] else s[from..] + [NEWLINE]
    decreases |s| - from
  {
    if from == |s| {
    } else {
      var k, to := LineEnd(s, from), NextLine(s, from);
      assert Frames(s, from)[0].Line? && Frames(s, from)[1..] == Frames(s, to);
      forall i | 0 <= i < |Frames(s, to)| ensures Frames(s, to)[i].Line? { assert Frames(s, from)[i + 1].Line?; }
      SplitLosesNothing(s, to);
      hide LineEnd;
      hide Frames;
      OneLine(s, from, k, to);
    }
  }

  lemma OneLine(s: Bytes, from: nat, k: nat, to: nat)
    requires from < |s| && from <= k <= |s| && to == (if k < |s| then k + 1 else |s|)
    requires k < |s| ==> s[k] == NEWLINE
    requires k == |s| ==> !Terminated(s)
    ensures s[from..k] + [NEWLINE] + (if to == |s| || Terminated(s) then s[to..] else s[to..] + [NEWLINE])
         == if Terminated(s) then s[from..] else s[from..] + [NEWLINE]
  {
    if k < |s| {
      assert s[from..] == s[from..k] + [s[k]] + s[k + 1..];
      if !Terminated(s) { assert to < |s|; }
    } else {
      assert s[from..k] == s[from..];
    }
  }
}
