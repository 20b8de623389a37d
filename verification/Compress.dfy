/** The copy loops of internal/compress/compress.go: `CopyObserved` and `Decopy`, over a scripted
    source and a destination that may take part of a write. */
module Compress {
  import opened Bytes
  import opened BlockFormat
  import opened AdaptivePlan

  // ---- The outside world ---------------------------------------------------------------------

  datatype ReadEnd = More | EndOfFile | Broken

  /** One `src.Read`: data and error may come together, and both may be empty. */
  datatype Read = Read(data: seq<byte>, end: ReadEnd)

  ghost predicate ReadsFit(script: seq<Read>)
  {
    forall i :: 0 <= i < |script| ==> |script[i].data| <= BLOCK_SIZE
  }

  /** One `dst.Write`: how many bytes it took and whether it reported an error. */
  datatype Taken = Taken(n: nat, failed: bool)

  /** The destination's answer to its k-th write. */
  type Sink = nat -> Taken

  /** `writeFull` succeeds: no error, and the count reported is the length. */
  predicate Full(t: Taken, len: nat)
  {
    !t.failed && t.n == len
  }

  /** The bytes that reached the destination. */
  function Reached(t: Taken, data: seq<byte>): seq<byte>
  {
    if t.n >= |data| then data else data[..t.n]
  }

  /** The non-empty reads, each of which is one block. */
  function Blocks(script: seq<Read>): seq<seq<byte>>
  {
    if |script| == 0 then []
    else if Last(script).data == [] then Blocks(Init(script))
    else Blocks(Init(script)) + [Last(script).data]
  }

  /** How many reads at the end brought neither data nor an error. */
  function EmptyRun(script: seq<Read>): nat
  {
    if |script| == 0 || Last(script) != Read([], More) then 0 else 1 + EmptyRun(Init(script))
  }

  const MAX_EMPTY_READS: nat := 100

  lemma {:induction false} BlocksLegal(script: seq<Read>)
    requires ReadsFit(script)
    ensures Legal(Blocks(script)) && |Blocks(script)| <= |Source(Blocks(script))|
  {
    if |script| > 0 {
      BlocksLegal(Init(script));
      var blocks := Blocks(script);
      if Last(script).data != [] {
        assert Init(blocks) == Blocks(Init(script));
      } else {
        assert blocks == Blocks(Init(script));
      }
    }
  }

  // ---- Encoding one block in place -----------------------------------------------------------

  /** `copy(frame[5:], data)`. */
  method Place(frame: array<byte>, data: seq<byte>)
    requires 5 + |data| <= frame.Length
    modifies frame
    ensures frame[..5] == old(frame[..5])
    ensures frame[5..5 + |data|] == data
  {
    var i := 0;
    while i < |data|
      invariant 0 <= i <= |data|
      invariant frame[..5] == old(frame[..5])
      invariant frame[5..5 + i] == data[..i]
    {
      frame[5 + i] := data[i];
      i := i + 1;
      assert frame[5..5 + i] == frame[5..5 + (i - 1)] + [frame[5 + (i - 1)]];
    }
  }

  method PutHeader(frame: array<byte>, mode: byte, rawLen: uint16, encLen: uint16)
    requires 5 + encLen <= frame.Length
    modifies frame
    ensures frame[..5] == Header(mode, rawLen, encLen)
    ensures frame[5..5 + encLen] == old(frame[5..5 + encLen])
  {
    frame[0] := mode;
    frame[1], frame[2] := rawLen / 256, rawLen % 256;
    frame[3], frame[4] := encLen / 256, encLen % 256;
    HeaderInRange(mode, rawLen, encLen);
  }

  /** The choice between raw and DEFLATE for one block. */
  method Choose(c: Codec, block: seq<byte>, misses: nat, skipBytes: nat)
    returns (mode: byte, data: seq<byte>, misses': nat, skipBytes': nat, choice: Choice)
    requires 1 <= |block| <= BLOCK_SIZE
    ensures FrameOf(c, Adaptive(misses, skipBytes), block) == Frame(mode, block, data) && |data| <= BLOCK_SIZE
    ensures mode == MARKER_FLATE || data == block
    ensures Adaptive(misses', skipBytes') == Next(c, Adaptive(misses, skipBytes), block)
    ensures choice == ChoiceOf(c, Adaptive(misses, skipBytes), block)
  {
    var n := |block|;
    mode, data := MARKER_RAW, block;
    misses', skipBytes', choice := misses, skipBytes, Skipped;
    if n < TINY || skipBytes > 0 {
      skipBytes' := if skipBytes <= n then 0 else skipBytes - n;
    } else {
      var compressed := c.deflate(block);
      if |compressed| * 100 < n * 90 {
        mode, data := MARKER_FLATE, compressed;
        misses' := 0;
        choice := Saved;
      } else {
        misses' := misses + 1;
        choice := Missed;
        if misses' >= MISS_LIMIT {
          skipBytes' := BACKOFF;
        }
      }
    }
  }

  lemma FrontAndData(buffer: seq<byte>, len: nat, f: Frame)
    requires 5 + len <= |buffer| && len == |f.data|
    requires buffer[..5] == Header(f.mode, |f.raw|, |f.data|) && buffer[5..5 + len] == f.data
    ensures buffer[..5 + len] == Wire(f)
  {
  }

  /** The body of the copy loop between the read and the write: the block was read into
      `frame[5:]`; afterwards the first `5 + len` bytes of `frame` are the frame to send. */
  method EncodeBlock(c: Codec, frame: array<byte>, block: seq<byte>, misses: nat, skipBytes: nat)
    returns (misses': nat, skipBytes': nat, len: nat, choice: Choice)
    requires frame.Length == BLOCK_SIZE + 5 && 1 <= |block| <= BLOCK_SIZE && frame[5..5 + |block|] == block
    modifies frame
    ensures 5 + len <= frame.Length && len == |FrameOf(c, Adaptive(misses, skipBytes), block).data|
    ensures frame[..5 + len] == Wire(FrameOf(c, Adaptive(misses, skipBytes), block))
    ensures Adaptive(misses', skipBytes') == Next(c, Adaptive(misses, skipBytes), block)
    ensures choice == ChoiceOf(c, Adaptive(misses, skipBytes), block)
  {
    var mode, data;
    mode, data, misses', skipBytes', choice := Choose(c, block, misses, skipBytes);
    len := |data|;
    PutHeader(frame, mode, |block|, len);
    if mode == MARKER_FLATE {
      Place(frame, data);
    }
    FrontAndData(frame[..], len, Frame(mode, block, data));
  }

  // ---- CopyObserved --------------------------------------------------------------------------

  datatype Exit = Finished | ReadFailed | WriteFailed | NoProgress | Waiting

  /** The counters of one aggregation period (`Stats`, without the encoder's clock). */
  datatype Stats = Stats(inputBytes: nat, outputBytes: nat, attempted: nat, skipped: nat, compressed: nat)

  datatype Counter = InputBytes | OutputBytes | Attempted | Untried | Compressed

  function Get(s: Stats, k: Counter): nat
  {
    match k
    case InputBytes => s.inputBytes
    case OutputBytes => s.outputBytes
    case Attempted => s.attempted
    case Untried => s.skipped
    case Compressed => s.compressed
  }

  /** The counters with some more bytes, and one more block treated as chosen. */
  function Add(s: Stats, input: nat, output: nat, choice: Choice): Stats
  {
    Stats(s.inputBytes + input, s.outputBytes + output,
          s.attempted + (if choice.Skipped? then 0 else 1),
          s.skipped + (if choice.Skipped? then 1 else 0),
          s.compressed + (if choice.Saved? then 1 else 0))
  }

  /** What a counter has come to when the blocks of `p` were sent. */
  function Booked(p: Plan, k: Counter): nat
  {
    match k
    case InputBytes => |p.source|
    case OutputBytes => |p.wire|
    case Attempted => p.attempted
    case Untried => p.skipped
    case Compressed => p.compressed
  }

  /** What the copy has handed out: wire bytes, the running total, the payload callbacks, the
      periods given to the observer, and the current period. */
  datatype Books = Books(out: seq<byte>, total: nat, payloads: seq<nat>, flushed: seq<Stats>, stats: Stats)

  /** `flush`: hands a non-empty period to the observer. */
  function Flush(observing: bool, b: Books): Books
  {
    if observing && b.stats.inputBytes > 0 then b.(flushed := b.flushed + [b.stats], stats := Stats(0, 0, 0, 0, 0)) else b
  }

  const PERIOD: nat := 0x10_0000

  /** A period is handed out by the block that fills it. */
  predicate FullPeriod(s: Stats)
  {
    PERIOD <= s.inputBytes < PERIOD + BLOCK_SIZE
  }

  /** While the copy goes on, every period handed out was full and the current one is not. */
  ghost predicate Filling(observing: bool, b: Books)
  {
    (forall i :: 0 <= i < |b.flushed| ==> FullPeriod(b.flushed[i])) && (observing ==> b.stats.inputBytes < PERIOD)
  }

  /** Only the last period may be short. */
  ghost predicate Periodic(flushed: seq<Stats>)
  {
    forall i :: 0 <= i < |flushed| - 1 ==> FullPeriod(flushed[i])
  }

  lemma FlushPeriodic(observing: bool, b: Books, stats: Stats)
    requires Filling(observing, b)
    ensures Periodic(Flush(observing, b.(stats := stats)).flushed)
    ensures Periodic(b.flushed)
  {
  }

  lemma EnterFilling(observing: bool, b: Books, choice: Choice, block: seq<byte>, wire: seq<byte>)
    requires Filling(observing, b) && |block| <= BLOCK_SIZE
    ensures var b' := Entered(b, choice, block, wire);
            && (b'.stats.inputBytes < PERIOD ==> Filling(observing, b'))
            && (b'.stats.inputBytes >= PERIOD ==> Filling(observing, Flush(observing, b')))
  {
  }

  /** One counter over the first `n` periods. */
  function SumFirst(ss: seq<Stats>, n: nat, k: Counter): nat
    requires n <= |ss|
  {
    if n == 0 then 0 else SumFirst(ss, n - 1, k) + Get(ss[n - 1], k)
  }

  function SumOf(ss: seq<Stats>, k: Counter): nat
  {
    SumFirst(ss, |ss|, k)
  }

  lemma {:induction false} SumFirstStays(ss: seq<Stats>, more: seq<Stats>, n: nat, k: Counter)
    requires n <= |ss|
    ensures SumFirst(ss + more, n, k) == SumFirst(ss, n, k)
    decreases n
  {
    if n > 0 {
      SumFirstStays(ss, more, n - 1, k);
    }
  }

  lemma SumOfSnoc(ss: seq<Stats>, x: Stats, k: Counter)
    ensures SumOf(ss + [x], k) == SumOf(ss, k) + Get(x, k)
  {
    SumFirstStays(ss, [x], |ss|, k);
  }

  /** The destination took each frame whole. */
  ghost predicate Accepted(sink: Sink, frames: seq<Frame>)
  {
    forall j :: 0 <= j < |frames| ==> Full(sink(j), |Wire(frames[j])|)
  }

  /** One payload callback a frame, with the length of its block. */
  ghost predicate Called(frames: seq<Frame>, payloads: seq<nat>)
  {
    |payloads| == |frames| && forall j :: 0 <= j < |frames| ==> payloads[j] == |frames[j].raw|
  }

  /** The wire bytes are those of the plan's frames, each taken whole. */
  ghost predicate Wired(sink: Sink, p: Plan, out: seq<byte>)
  {
    out == p.wire && Accepted(sink, p.frames)
  }

  /** The total and the callbacks are those of the plan. */
  ghost predicate Told(p: Plan, total: nat, payloads: seq<nat>)
  {
    total == |p.source| && Called(p.frames, payloads)
  }

  /** The periods given to the observer and the current one make up the plan's counters. */
  ghost predicate Counted(observing: bool, p: Plan, flushed: seq<Stats>, stats: Stats)
  {
    && (forall k :: SumOf(flushed, k) + Get(stats, k) == Booked(p, k))
    && (stats.inputBytes == 0 ==> forall k :: Get(stats, k) == 0)
    && (!observing ==> |flushed| == 0)
  }

  /** Every account describes the same plan, whose frames were all written whole. */
  ghost predicate Balanced(sink: Sink, observing: bool, p: Plan, b: Books)
  {
    Wired(sink, p, b.out) && Told(p, b.total, b.payloads) && Counted(observing, p, b.flushed, b.stats)
  }

  lemma FlushKeepsSum(observing: bool, b: Books, k: Counter)
    ensures var b' := Flush(observing, b); SumOf(b'.flushed, k) + Get(b'.stats, k) == SumOf(b.flushed, k) + Get(b.stats, k)
  {
    SumOfSnoc(b.flushed, b.stats, k);
  }

  /** Everything counted has been given to the observer. */
  ghost predicate Observed(p: Plan, flushed: seq<Stats>)
  {
    forall k :: SumOf(flushed, k) == Booked(p, k)
  }

  lemma FlushCounted(observing: bool, p: Plan, b: Books)
    requires Counted(observing, p, b.flushed, b.stats)
    ensures var b' := Flush(observing, b);
            Counted(observing, p, b'.flushed, b'.stats) && (observing ==> Observed(p, b'.flushed))
  {
    var b' := Flush(observing, b);
    forall k ensures SumOf(b'.flushed, k) + Get(b'.stats, k) == Booked(p, k) {
      FlushKeepsSum(observing, b, k);
    }
    assert observing ==> forall k :: Get(b'.stats, k) == 0;
  }

  lemma FlushBalanced(sink: Sink, observing: bool, p: Plan, b: Books)
    requires Balanced(sink, observing, p, b)
    ensures Balanced(sink, observing, p, Flush(observing, b))
    ensures observing ==> Observed(p, Flush(observing, b).flushed)
  {
    FlushCounted(observing, p, b);
  }

  /** The books after a block was written whole. */
  function Entered(b: Books, choice: Choice, block: seq<byte>, wire: seq<byte>): Books
  {
    Books(b.out + wire, b.total + |block|, b.payloads + [|block|], b.flushed,
          Add(b.stats, |block|, |wire|, choice))
  }

  lemma EnterWired(sink: Sink, frames: seq<Frame>, f: Frame)
    requires Accepted(sink, frames) && Full(sink(|frames|), |Wire(f)|)
    ensures Accepted(sink, frames + [f])
  {
  }

  lemma EnterCalled(frames: seq<Frame>, payloads: seq<nat>, f: Frame)
    requires Called(frames, payloads)
    ensures Called(frames + [f], payloads + [|f.raw|])
  {
  }

  lemma EnterCounted(c: Codec, observing: bool, p: Plan, flushed: seq<Stats>, stats: Stats, block: seq<byte>)
    requires Counted(observing, p, flushed, stats) && block != []
    ensures var f := FrameOf(c, p.a, block);
            Counted(observing, Extend(c, p, block), flushed, Add(stats, |block|, |Wire(f)|, ChoiceOf(c, p.a, block)))
  {
    var f, choice := FrameOf(c, p.a, block), ChoiceOf(c, p.a, block);
    var more := Add(stats, |block|, |Wire(f)|, choice);
    forall k ensures SumOf(flushed, k) + Get(more, k) == Booked(Extend(c, p, block), k) {
      assert SumOf(flushed, k) + Get(stats, k) == Booked(p, k);
    }
  }

  lemma EnterBalanced(c: Codec, sink: Sink, observing: bool, p: Plan, b: Books, block: seq<byte>, f: Frame)
    requires Balanced(sink, observing, p, b) && block != []
    requires f == FrameOf(c, p.a, block) && Full(sink(|p.frames|), |Wire(f)|)
    ensures Balanced(sink, observing, Extend(c, p, block), Entered(b, ChoiceOf(c, p.a, block), block, Wire(f)))
  {
    EnterWired(sink, p.frames, f);
    EnterCalled(p.frames, b.payloads, f);
    EnterCounted(c, observing, p, b.flushed, b.stats, block);
  }

  /** The byte counters given to the observer. */
  ghost predicate BytesCounted(observing: bool, p: Plan, flushed: seq<Stats>)
  {
    && (observing ==> SumOf(flushed, InputBytes) == |p.source| && SumOf(flushed, OutputBytes) == |p.wire|)
    && (!observing ==> |flushed| == 0)
  }

  /** After a failed write the books are balanced on all but the last block, of whose frame `f` only what
      the destination took got through. */
  ghost predicate Broke(sink: Sink, observing: bool, p: Plan, f: Frame, b: Books)
  {
    && Accepted(sink, p.frames) && !Full(sink(|p.frames|), |Wire(f)|)
    && b.out == p.wire + Reached(sink(|p.frames|), Wire(f))
    && Told(p, b.total, b.payloads)
    && BytesCounted(observing, p, b.flushed)
  }

  /** The state in which the loop returned: with the books balanced on everything read, or after a
      failed write. */
  ghost predicate Closed(c: Codec, sink: Sink, observing: bool, blocks: seq<seq<byte>>, exit: Exit, b: Books)
  {
    if exit == WriteFailed then
      blocks != [] && var p := PlanOf(c, Init(blocks)); Broke(sink, observing, p, FrameOf(c, p.a, Last(blocks)), b)
    else
      && Balanced(sink, observing, PlanOf(c, blocks), b)
      && (observing && exit != Waiting ==> Observed(PlanOf(c, blocks), b.flushed))
  }

  lemma BreakCounted(observing: bool, p: Plan, b: Books, choice: Choice)
    requires Counted(observing, p, b.flushed, b.stats)
    ensures BytesCounted(observing, p, Flush(observing, b.(stats := Add(b.stats, 0, 0, choice))).flushed)
  {
    var b' := b.(stats := Add(b.stats, 0, 0, choice));
    assert forall k :: SumOf(b.flushed, k) + Get(b.stats, k) == Booked(p, k);
    FlushKeepsSum(observing, b', InputBytes);
    FlushKeepsSum(observing, b', OutputBytes);
    assert b.stats.inputBytes == 0 ==> Get(b.stats, OutputBytes) == 0;
  }

  /** One non-empty read: encode it in the frame buffer, write the frame once, and book it. */
  method CopyBlock(c: Codec, frame: array<byte>, sink: Sink, observing: bool, ghost p: Plan,
                   b: Books, block: seq<byte>, misses: nat, skipBytes: nat)
    returns (ok: bool, b': Books, misses': nat, skipBytes': nat)
    requires frame.Length == BLOCK_SIZE + 5 && 1 <= |block| <= BLOCK_SIZE
    requires Adaptive(misses, skipBytes) == p.a && Balanced(sink, observing, p, b) && Filling(observing, b)
    modifies frame
    ensures Adaptive(misses', skipBytes') == Next(c, p.a, block)
    ensures ok ==> Balanced(sink, observing, Extend(c, p, block), b') && Filling(observing, b')
    ensures !ok ==> Broke(sink, observing, p, FrameOf(c, p.a, block), b') && Periodic(b'.flushed)
  {
    ghost var f := FrameOf(c, p.a, block);
    Place(frame, block);
    var len, choice;
    misses', skipBytes', len, choice := EncodeBlock(c, frame, block, misses, skipBytes);
    var wire := frame[..5 + len];
    var answer := sink(|b.payloads|);
    ok := Full(answer, |wire|);
    if ok {
      EnterBalanced(c, sink, observing, p, b, block, f);
      EnterFilling(observing, b, choice, block, wire);
      b' := Entered(b, choice, block, wire);
      if b'.stats.inputBytes >= PERIOD {
        FlushBalanced(sink, observing, Extend(c, p, block), b');
        b' := Flush(observing, b');
      }
    } else {
      BreakCounted(observing, p, b, choice);
      FlushPeriodic(observing, b, Add(b.stats, 0, 0, choice));
      b' := Flush(observing, b.(stats := Add(b.stats, 0, 0, choice)));
      b' := b'.(out := b.out + Reached(answer, wire));
    }
  }

  // ---- The loop ------------------------------------------------------------------------------

  /** None of the first `used` reads was a reason to stop. */
  ghost predicate Calm(script: seq<Read>, used: nat)
    requires used <= |script|
  {
    used == 0 ||
    (Calm(script, used - 1) && script[used - 1].end == More && EmptyRun(script[..used]) < MAX_EMPTY_READS)
  }

  lemma NextRead(script: seq<Read>, used: nat)
    requires used < |script|
    ensures var r := script[used];
            && Blocks(script[..used + 1]) == (if r.data == [] then Blocks(script[..used]) else Blocks(script[..used]) + [r.data])
            && EmptyRun(script[..used + 1]) == if r == Read([], More) then 1 + EmptyRun(script[..used]) else 0
  {
    assert Init(script[..used + 1]) == script[..used] && Last(script[..used + 1]) == script[used];
  }

  lemma PayForRead(used: nat, blocks: nat, empty: nat, blocks': nat, empty': nat)
    requires used <= MAX_EMPTY_READS * blocks + empty && empty < MAX_EMPTY_READS
    requires (blocks' == blocks && empty' == empty + 1) || blocks' == blocks + 1
    ensures used + 1 <= MAX_EMPTY_READS * blocks' + empty'
  {
  }

  /** How many blocks the first `used` reads brought, and how many of the last ones were empty. */
  function BlockCount(script: seq<Read>, used: nat): nat
    requires used <= |script|
  {
    |Blocks(script[..used])|
  }

  function EmptyCount(script: seq<Read>, used: nat): nat
    requires used <= |script|
  {
    EmptyRun(script[..used])
  }

  lemma OneReadMore(script: seq<Read>, used: nat)
    requires used < |script| && script[used].end == More
    ensures (BlockCount(script, used + 1) == BlockCount(script, used) && EmptyCount(script, used + 1) == EmptyCount(script, used) + 1)
            || BlockCount(script, used + 1) == BlockCount(script, used) + 1
  {
    NextRead(script, used);
  }

  lemma {:induction false} ReadsPaidFor(script: seq<Read>, used: nat)
    requires used <= |script| && Calm(script, used)
    ensures used <= MAX_EMPTY_READS * BlockCount(script, used) + EmptyCount(script, used)
  {
    if used > 0 {
      ReadsPaidFor(script, used - 1);
      FewEmpty(script, used - 1);
      OneReadMore(script, used - 1);
      PayForRead(used - 1, BlockCount(script, used - 1), EmptyCount(script, used - 1),
                 BlockCount(script, used), EmptyCount(script, used));
    }
  }

  lemma FewEmpty(script: seq<Read>, used: nat)
    requires used <= |script| && Calm(script, used)
    ensures EmptyRun(script[..used]) < MAX_EMPTY_READS
  {
    if used == 0 {
      assert script[..used] == [];
    }
  }

  lemma PaidBySource(script: seq<Read>, used: nat)
    requires ReadsFit(script) && 0 < used <= |script|
    ensures |Blocks(script[..used - 1])| <= |Source(Blocks(script[..used]))|
  {
    NextRead(script, used - 1);
    BlocksLegal(script[..used]);
  }

  /** A source of L bytes is finished within 100 * (L + 1) reads, however they are chunked. */
  lemma FinishesInTime(script: seq<Read>, used: nat, exit: Exit)
    requires ReadsFit(script) && used <= |script| && Stopped(script, used, exit)
    ensures used <= MAX_EMPTY_READS * (|Source(Blocks(script[..used]))| + 1)
  {
    if used > 0 {
      ReadsPaidFor(script, used - 1);
      FewEmpty(script, used - 1);
      PaidBySource(script, used);
      InTime(used, |Blocks(script[..used - 1])|, EmptyRun(script[..used - 1]), |Source(Blocks(script[..used]))|);
    }
  }

  lemma InTime(used: nat, blocks: nat, empty: nat, length: nat)
    requires used <= MAX_EMPTY_READS * blocks + empty + 1 && empty < MAX_EMPTY_READS && blocks <= length
    ensures used <= MAX_EMPTY_READS * (length + 1)
  {
  }

  /** Why the loop stopped after `used` reads, and that no earlier read was a reason to. */
  ghost predicate Stopped(script: seq<Read>, used: nat, exit: Exit)
    requires used <= |script|
  {
    && (used > 0 ==> Calm(script, used - 1))
    && match exit
       case Finished => used > 0 && script[used - 1].end == EndOfFile
       case ReadFailed => used > 0 && script[used - 1].end == Broken
       case WriteFailed => used > 0 && script[used - 1].data != []
       case NoProgress => EmptyRun(script[..used]) == MAX_EMPTY_READS
       case Waiting => used == |script| && Calm(script, used)
  }

  /** The loop invariant: after `used` reads the copy is still going and every account agrees. */
  ghost predicate Going(c: Codec, sink: Sink, observing: bool, script: seq<Read>, used: nat, b: Books, a: Adaptive, emptyReads: nat)
  {
    && used <= |script| && Calm(script, used)
    && a == PlanOf(c, Blocks(script[..used])).a
    && Balanced(sink, observing, PlanOf(c, Blocks(script[..used])), b) && Filling(observing, b)
    && emptyReads == EmptyRun(script[..used]) < MAX_EMPTY_READS
  }

  /** What a copy that returned after `used` reads has done. */
  ghost predicate Done(c: Codec, sink: Sink, observing: bool, script: seq<Read>, used: nat, b: Books, exit: Exit)
  {
    && used <= |script| && Stopped(script, used, exit)
    && Closed(c, sink, observing, Blocks(script[..used]), exit, b) && Periodic(b.flushed)
  }

  lemma PlanGrows(c: Codec, blocks: seq<seq<byte>>, block: seq<byte>)
    ensures PlanOf(c, blocks + [block]) == Extend(c, PlanOf(c, blocks), block)
    ensures Init(blocks + [block]) == blocks && Last(blocks + [block]) == block
  {
    assert Init(blocks + [block]) == blocks;
  }

  lemma AfterData(c: Codec, sink: Sink, observing: bool, script: seq<Read>, used: nat, b: Books, a: Adaptive)
    requires used < |script| && Calm(script, used) && script[used].data != []
    requires var p := Extend(c, PlanOf(c, Blocks(script[..used])), script[used].data);
             a == p.a && Balanced(sink, observing, p, b) && Filling(observing, b)
    ensures script[used].end == More ==> Going(c, sink, observing, script, used + 1, b, a, 0)
    ensures script[used].end == EndOfFile ==> Done(c, sink, observing, script, used + 1, Flush(observing, b), Finished)
    ensures script[used].end == Broken ==> Done(c, sink, observing, script, used + 1, Flush(observing, b), ReadFailed)
  {
    NextRead(script, used);
    PlanGrows(c, Blocks(script[..used]), script[used].data);
    FlushBalanced(sink, observing, PlanOf(c, Blocks(script[..used + 1])), b);
    FlushPeriodic(observing, b, b.stats);
  }

  lemma AfterNothing(c: Codec, sink: Sink, observing: bool, script: seq<Read>, used: nat, b: Books, a: Adaptive, emptyReads: nat)
    requires Going(c, sink, observing, script, used, b, a, emptyReads) && used < |script| && script[used].data == []
    ensures script[used].end == More && emptyReads + 1 < MAX_EMPTY_READS ==>
              Going(c, sink, observing, script, used + 1, b, a, emptyReads + 1)
    ensures script[used].end == More && emptyReads + 1 >= MAX_EMPTY_READS ==>
              Done(c, sink, observing, script, used + 1, Flush(observing, b), NoProgress)
    ensures script[used].end == EndOfFile ==> Done(c, sink, observing, script, used + 1, Flush(observing, b), Finished)
    ensures script[used].end == Broken ==> Done(c, sink, observing, script, used + 1, Flush(observing, b), ReadFailed)
  {
    NextRead(script, used);
    FlushBalanced(sink, observing, PlanOf(c, Blocks(script[..used + 1])), b);
    FlushPeriodic(observing, b, b.stats);
  }

  lemma AfterFailedWrite(c: Codec, sink: Sink, observing: bool, script: seq<Read>, used: nat, b: Books)
    requires used < |script| && Calm(script, used) && script[used].data != []
    requires var p := PlanOf(c, Blocks(script[..used])); Broke(sink, observing, p, FrameOf(c, p.a, script[used].data), b)
    requires Periodic(b.flushed)
    ensures Done(c, sink, observing, script, used + 1, b, WriteFailed)
  {
    NextRead(script, used);
    PlanGrows(c, Blocks(script[..used]), script[used].data);
  }

  predicate Blank(b: Books)
  {
    |b.out| == 0 && b.total == 0 && |b.payloads| == 0 && |b.flushed| == 0 && b.stats == Stats(0, 0, 0, 0, 0)
  }

  method OpenBooks() returns (b: Books)
    ensures Blank(b)
  {
    b := Books([], 0, [], [], Stats(0, 0, 0, 0, 0));
  }

  lemma NothingRead(script: seq<Read>)
    requires |script| == 0
    ensures |Blocks(script)| == 0 && EmptyRun(script) == 0
  {
  }

  lemma GoingAtStart(c: Codec, sink: Sink, observing: bool, script: seq<Read>, b: Books)
    requires Blank(b)
    ensures Going(c, sink, observing, script, 0, b, Adaptive(0, 0), 0)
  {
    NothingRead(script[..0]);
  }

  /** The variables before the first read. */
  method Open(c: Codec, sink: Sink, observing: bool, script: seq<Read>)
    returns (b: Books, used: nat, misses: nat, skipBytes: nat, emptyReads: nat)
    ensures Going(c, sink, observing, script, used, b, Adaptive(misses, skipBytes), emptyReads)
  {
    used, misses, skipBytes, emptyReads := 0, 0, 0, 0;
    b := OpenBooks();
    GoingAtStart(c, sink, observing, script, b);
  }

  lemma DoneAtEnd(c: Codec, sink: Sink, observing: bool, script: seq<Read>, used: nat, b: Books, a: Adaptive, emptyReads: nat)
    requires Going(c, sink, observing, script, used, b, a, emptyReads) && used >= |script|
    ensures Done(c, sink, observing, script, used, b, Waiting)
  {
  }

  /** One turn of the loop. */
  method CopyStep(c: Codec, frame: array<byte>, sink: Sink, observing: bool, script: seq<Read>, used: nat,
                  b: Books, misses: nat, skipBytes: nat, emptyReads: nat)
    returns (b': Books, exit: Exit, misses': nat, skipBytes': nat, emptyReads': nat)
    requires frame.Length == BLOCK_SIZE + 5 && ReadsFit(script) && used < |script|
    requires Going(c, sink, observing, script, used, b, Adaptive(misses, skipBytes), emptyReads)
    modifies frame
    ensures exit == Waiting ==> Going(c, sink, observing, script, used + 1, b', Adaptive(misses', skipBytes'), emptyReads')
    ensures exit != Waiting ==> Done(c, sink, observing, script, used + 1, b', exit)
  {
    var data, end := script[used].data, script[used].end;
    b', misses', skipBytes', emptyReads' := b, misses, skipBytes, emptyReads;
    if data != [] {
      emptyReads' := 0;
      var ok;
      ok, b', misses', skipBytes' := CopyBlock(c, frame, sink, observing, PlanOf(c, Blocks(script[..used])), b, data, misses, skipBytes);
      if !ok {
        AfterFailedWrite(c, sink, observing, script, used, b');
        exit := WriteFailed;
        return;
      }
      AfterData(c, sink, observing, script, used, b', Adaptive(misses', skipBytes'));
    } else {
      AfterNothing(c, sink, observing, script, used, b, Adaptive(misses, skipBytes), emptyReads);
      if end == More {
        emptyReads' := emptyReads + 1;
        if emptyReads' >= MAX_EMPTY_READS {
          b', exit := Flush(observing, b), NoProgress;
          return;
        }
      }
    }
    exit := Waiting;
    if end != More {
      b', exit := Flush(observing, b'), if end == EndOfFile then Finished else ReadFailed;
    }
  }

  /** The loop, with its frame buffer. */
  method CopyLoop(c: Codec, frame: array<byte>, script: seq<Read>, sink: Sink, observing: bool)
    returns (b: Books, exit: Exit, used: nat)
    requires frame.Length == BLOCK_SIZE + 5 && ReadsFit(script)
    modifies frame
    ensures Done(c, sink, observing, script, used, b, exit)
  {
    var misses, skipBytes, emptyReads;
    b, used, misses, skipBytes, emptyReads := Open(c, sink, observing, script);
    while used < |script|
      invariant Going(c, sink, observing, script, used, b, Adaptive(misses, skipBytes), emptyReads)
    {
      b, exit, misses, skipBytes, emptyReads :=
        CopyStep(c, frame, sink, observing, script, used, b, misses, skipBytes, emptyReads);
      used := used + 1;
      if exit != Waiting {
        return;
      }
    }
    DoneAtEnd(c, sink, observing, script, used, b, Adaptive(misses, skipBytes), emptyReads);
    exit := Waiting;
  }

  /** `CopyObserved`, run on the reads the source has answered so far. `Waiting` means that all of
      them were served and the loop is in its next `Read`; every other exit returns. */
  method CopyObserved(c: Codec, script: seq<Read>, sink: Sink, observing: bool)
    returns (b: Books, exit: Exit, used: nat)
    requires ReadsFit(script)
    ensures Done(c, sink, observing, script, used, b, exit)
  {
    var frame := new byte[BLOCK_SIZE + 5];
    b, exit, used := CopyLoop(c, frame, script, sink, observing);
  }

  // ---- What a finished copy amounts to -------------------------------------------------------

  /** The observer hears of at least 1 MiB at a time, and of less than a block more, but for the last time. */
  lemma ReportedInPeriods(c: Codec, sink: Sink, observing: bool, script: seq<Read>, used: nat, b: Books, exit: Exit)
    requires Done(c, sink, observing, script, used, b, exit)
    ensures forall i :: 0 <= i < |b.flushed| - 1 ==> 1048576 <= b.flushed[i].inputBytes < 1048576 + 32768
  {
    assert forall i :: 0 <= i < |b.flushed| - 1 ==> FullPeriod(b.flushed[i]);
  }

  function Sum(ns: seq<nat>): nat
  {
    if |ns| == 0 then 0 else ns[0] + Sum(ns[1..])
  }

  lemma {:induction false} CallbacksAddUp(frames: seq<Frame>, payloads: seq<nat>)
    requires Called(frames, payloads)
    ensures Sum(payloads) == |RawAll(frames)|
  {
    if |frames| > 0 {
      CallbacksAddUp(frames[1..], payloads[1..]);
    }
  }

  /** The blocks that reached the destination whole. */
  function SentBlocks(blocks: seq<seq<byte>>, exit: Exit): seq<seq<byte>>
  {
    if exit == WriteFailed && blocks != [] then Init(blocks) else blocks
  }

  /** Copy accounting on every exit: the returned total, the payload callbacks and the flushed
      counters all equal the source bytes of the fully written frames, and framing adds at most 5
      bytes to each of them. */
  lemma AccountsAgree(c: Codec, sink: Sink, observing: bool, script: seq<Read>, used: nat, b: Books, exit: Exit)
    requires Done(c, sink, observing, script, used, b, exit)
    ensures var sent := SentBlocks(Blocks(script[..used]), exit);
            && b.total == |Source(sent)| == Sum(b.payloads) && |b.payloads| == |sent|
            && (observing && exit != Waiting ==>
                  && SumOf(b.flushed, InputBytes) == b.total
                  && SumOf(b.flushed, OutputBytes) == |PlanOf(c, sent).wire| <= b.total + 5 * |b.payloads|)
  {
    var sent := SentBlocks(Blocks(script[..used]), exit);
    PlanMeaning(c, sent);
    CallbacksAddUp(PlanOf(c, sent).frames, b.payloads);
  }

  /** Decoding what a copy wrote yields the data of every read it served, in order. */
  lemma CopyThenDecode(c: Codec, sink: Sink, observing: bool, script: seq<Read>, used: nat, b: Books, exit: Exit)
    requires Faithful(c) && ReadsFit(script)
    requires Done(c, sink, observing, script, used, b, exit) && exit != WriteFailed
    ensures WireAll(Decodable(c, b.out)) == b.out
    ensures RawAll(Decodable(c, b.out)) == DataRead(script[..used])
  {
    var blocks := Blocks(script[..used]);
    BlocksLegal(script[..used]);
    RoundTrip(c, blocks);
    BlocksAreData(script[..used]);
  }

  /** Less than a whole frame is no frame. */
  lemma PartIsNoFrame(c: Codec, f: Frame, m: nat)
    requires WellFormed(c, f) && m < |Wire(f)|
    ensures FrameAt(c, Wire(f)[..m]).None?
  {
    HeaderInRange(f.mode, |f.raw|, |f.data|);
  }

  /** What decodes after a failed write: the fully written blocks, and the last one too exactly when all of its
      frame reached the destination although the write was reported as failed. */
  lemma BrokenCopyDecodes(c: Codec, sink: Sink, observing: bool, script: seq<Read>, used: nat, b: Books)
    requires Faithful(c) && ReadsFit(script)
    requires Done(c, sink, observing, script, used, b, WriteFailed)
    ensures var blocks := Blocks(script[..used]);
            && |blocks| > 0
            && var sent := Init(blocks);
            && var frames := PlanOf(c, sent).frames;
            && var whole := |Wire(FrameOf(c, PlanOf(c, sent).a, Last(blocks)))|;
            && RawAll(frames) == Source(sent)
            && (Decodable(c, b.out) == frames <==> sink(|frames|).n < whole)
            && (sink(|frames|).n >= whole ==> Decodable(c, b.out) == PlanOf(c, blocks).frames)
  {
    var blocks := Blocks(script[..used]);
    var sent := Init(blocks);
    var p := PlanOf(c, sent);
    var f := FrameOf(c, p.a, Last(blocks));
    BlocksLegal(script[..used]);
    PlanMeaning(c, sent);
    FramesWellFormed(c, sent);
    FrameOfWellFormed(c, p.a, Last(blocks));
    TailDecodes(c, p.frames, f, sink(|p.frames|));
  }

  lemma TailDecodes(c: Codec, frames: seq<Frame>, f: Frame, t: Taken)
    requires AllWellFormed(c, frames) && WellFormed(c, f)
    ensures t.n < |Wire(f)| ==> Decodable(c, WireAll(frames) + Reached(t, Wire(f))) == frames
    ensures t.n >= |Wire(f)| ==> Decodable(c, WireAll(frames) + Reached(t, Wire(f))) == frames + [f]
  {
    var tail := Reached(t, Wire(f));
    DecodableLongest(c, frames, tail);
    if t.n < |Wire(f)| {
      PartIsNoFrame(c, f, t.n);
      assert Decodable(c, tail) == [];
    } else {
      OneFrame(c, f);
    }
  }

  lemma OneFrame(c: Codec, f: Frame)
    requires WellFormed(c, f)
    ensures Decodable(c, Wire(f)) == [f]
  {
    var none := Wire(f)[|Wire(f)|..];
    assert Wire(f) + none == Wire(f);
    DecodableCons(c, f, none);
  }

  /** The bytes of all reads, in order. */
  function DataRead(script: seq<Read>): seq<byte>
  {
    if |script| == 0 then [] else DataRead(Init(script)) + Last(script).data
  }

  lemma {:induction false} BlocksAreData(script: seq<Read>)
    ensures Source(Blocks(script)) == DataRead(script)
  {
    if |script| > 0 {
      BlocksAreData(Init(script));
      if Last(script).data != [] {
        assert Init(Blocks(script)) == Blocks(Init(script));
      }
    }
  }

  // ---- Decopy --------------------------------------------------------------------------------

  datatype DecopyExit =
    | Clean
    | Truncated(atStart: bool)   // io.EOF when no byte of the payload came, else io.ErrUnexpectedEOF
    | SourceBroken
    | BadLength
    | RawMismatch
    | BadCompressed
    | UnknownMode
    | SinkFailed

  /** Why `rest`, which does not start with a well-formed frame, is refused. */
  function Refusal(rest: seq<byte>, broken: bool): DecopyExit
  {
    if |rest| < 5 then
      if broken then SourceBroken else if rest == [] then Clean else Truncated(false)
    else
      var rawLen: nat := GetUint16(rest[1], rest[2]);
      var encLen: nat := GetUint16(rest[3], rest[4]);
      if !LegalLengths(rawLen, encLen) then BadLength
      else if |rest| < 5 + encLen then (if broken then SourceBroken else Truncated(|rest| == 5))
      else if rest[0] == MARKER_RAW then RawMismatch
      else if rest[0] == MARKER_FLATE then BadCompressed
      else UnknownMode
  }

  /** One turn of the loop up to the write: the next block, or the reason to stop. */
  method DecodeBlock(c: Codec, rest: seq<byte>, broken: bool) returns (data: seq<byte>, used: nat, exit: DecopyExit)
    ensures FrameAt(c, rest).Some? ==> exit == Clean && 5 <= used == 5 + |FrameAt(c, rest).value.data| && data == FrameAt(c, rest).value.raw
    ensures FrameAt(c, rest).None? ==> used == 0 && exit == Refusal(rest, broken)
  {
    data, used := [], 0;
    if rest == [] && !broken { return data, 0, Clean; }
    if |rest| < 5 { return data, 0, if broken then SourceBroken else Truncated(false); }
    var rawLen: nat, encLen: nat := GetUint16(rest[1], rest[2]), GetUint16(rest[3], rest[4]);
    if rawLen == 0 || rawLen > BLOCK_SIZE || encLen == 0 || encLen > BLOCK_SIZE { return data, 0, BadLength; }
    if |rest| < 5 + encLen { return data, 0, if broken then SourceBroken else Truncated(|rest| == 5); }
    var encoded := rest[5..5 + encLen];
    if rest[0] == MARKER_RAW {
      if rawLen != encLen { return data, 0, RawMismatch; }
      return encoded, 5 + encLen, Clean;
    } else if rest[0] == MARKER_FLATE {
      var inflated := c.inflate(encoded);
      if |inflated.output| != rawLen || !inflated.ended || inflated.unread != 0 { return data, 0, BadCompressed; }
      return inflated.output, 5 + encLen, Clean;
    }
    return data, 0, UnknownMode;
  }

  /** The first `n` frames of `src` have been decoded to `out`, each taken whole; `rest` is left. */
  ghost predicate Decoding(c: Codec, src: seq<byte>, sink: Sink, n: nat, rest: seq<byte>, out: seq<byte>)
  {
    var fs := Decodable(c, src);
    && n <= |fs| && fs[n..] == Decodable(c, rest) && src == WireAll(fs[..n]) + rest
    && out == RawAll(fs[..n])
    && forall j :: 0 <= j < n ==> Full(sink(j), |fs[j].raw|)
  }

  lemma DecodingFromStart(c: Codec, src: seq<byte>, sink: Sink, out: seq<byte>)
    requires |out| == 0
    ensures Decoding(c, src, sink, 0, src, out)
  {
    var fs := Decodable(c, src);
    assert fs[..0] == [] && fs[0..] == fs;
  }

  lemma DecodingNext(c: Codec, src: seq<byte>, sink: Sink, n: nat, rest: seq<byte>, out: seq<byte>)
    requires Decoding(c, src, sink, n, rest, out) && FrameAt(c, rest).Some?
    ensures n < |Decodable(c, src)| && Decodable(c, src)[n] == FrameAt(c, rest).value
  {
    assert Decodable(c, src)[n..][0] == FrameAt(c, rest).value;
  }

  lemma FramesStep(fs: seq<Frame>, n: nat, f: Frame, gs: seq<Frame>)
    requires n <= |fs| && fs[n..] == [f] + gs
    ensures n < |fs| && fs[n] == f && fs[n + 1..] == gs && fs[..n + 1] == fs[..n] + [f]
  {
    assert fs[n] == fs[n..][0];
    assert fs[n + 1..] == fs[n..][1..];
  }

  lemma BytesStep(before: seq<Frame>, f: Frame, src: seq<byte>, rest: seq<byte>, after: seq<byte>)
    requires src == WireAll(before) + rest && rest == Wire(f) + after
    ensures src == WireAll(before + [f]) + after
  {
    WireAllSnoc(before, f);
    Assoc(WireAll(before), Wire(f), after);
  }

  lemma DecodingStep(c: Codec, src: seq<byte>, sink: Sink, n: nat, rest: seq<byte>, out: seq<byte>, f: Frame)
    requires Decoding(c, src, sink, n, rest, out) && FrameAt(c, rest) == Some(f) && Full(sink(n), |f.raw|)
    ensures Decoding(c, src, sink, n + 1, rest[5 + |f.data|..], out + f.raw)
  {
    var fs, after := Decodable(c, src), rest[5 + |f.data|..];
    FramesStep(fs, n, f, Decodable(c, after));
    FrameAtSound(c, rest);
    BytesStep(fs[..n], f, src, rest, after);
    WireAllSnoc(fs[..n], f);
  }

  /** What `Decopy` has done when it returns: written exactly the decoding of the longest well-formed
      frame prefix, or of its first `n` frames when the destination refused the next one. */
  ghost predicate Decoded(c: Codec, src: seq<byte>, broken: bool, sink: Sink, out: seq<byte>, total: nat, exit: DecopyExit, n: nat)
  {
    var fs := Decodable(c, src);
    && n <= |fs| && total == |RawAll(fs[..n])|
    && (forall j :: 0 <= j < n ==> Full(sink(j), |fs[j].raw|))
    && if exit == SinkFailed then
         n < |fs| && !Full(sink(n), |fs[n].raw|) && out == RawAll(fs[..n]) + Reached(sink(n), fs[n].raw)
       else
         && n == |fs| && out == RawAll(fs)
         && |WireAll(fs)| <= |src| && exit == Refusal(src[|WireAll(fs)|..], broken)
  }

  lemma DecodingRefused(c: Codec, src: seq<byte>, broken: bool, sink: Sink, n: nat, rest: seq<byte>, out: seq<byte>)
    requires Decoding(c, src, sink, n, rest, out) && FrameAt(c, rest).None?
    ensures Decoded(c, src, broken, sink, out, |out|, Refusal(rest, broken), n)
  {
    var fs := Decodable(c, src);
    assert fs[n..] == [];
    assert fs[..n] == fs;
    PrefixOf(WireAll(fs), rest);
  }

  lemma DecodingBlocked(c: Codec, src: seq<byte>, broken: bool, sink: Sink, n: nat, rest: seq<byte>, out: seq<byte>, f: Frame)
    requires Decoding(c, src, sink, n, rest, out) && FrameAt(c, rest) == Some(f) && !Full(sink(n), |f.raw|)
    ensures Decoded(c, src, broken, sink, out + Reached(sink(n), f.raw), |out|, SinkFailed, n)
  {
    DecodingNext(c, src, sink, n, rest, out);
  }

  /** `Decopy` on arbitrary bytes. */
  method Decopy(c: Codec, src: seq<byte>, broken: bool, sink: Sink)
    returns (out: seq<byte>, total: nat, exit: DecopyExit, n: nat)
    ensures Decoded(c, src, broken, sink, out, total, exit, n)
  {
    out, total, n := [], 0, 0;
    var rest := src;
    DecodingFromStart(c, src, sink, out);
    while true
      invariant Decoding(c, src, sink, n, rest, out) && total == |out|
      decreases |rest|
    {
      var data, used;
      data, used, exit := DecodeBlock(c, rest, broken);
      if used == 0 {
        DecodingRefused(c, src, broken, sink, n, rest, out);
        return;
      }
      if !Full(sink(n), |data|) {
        DecodingBlocked(c, src, broken, sink, n, rest, out, FrameAt(c, rest).value);
        out, exit := out + Reached(sink(n), data), SinkFailed;
        return;
      }
      DecodingStep(c, src, sink, n, rest, out, FrameAt(c, rest).value);
      out, total := out + data, total + |data|;
      rest, n := rest[used..], n + 1;
    }
  }

  /** The decoder reads to the end exactly on a stream. */
  lemma ReadsToEnd(c: Codec, src: seq<byte>)
    ensures IsStream(c, src) <==> WireAll(Decodable(c, src)) == src
  {
    DecodableSound(c, src);
    if IsStream(c, src) {
      var gs :| AllWellFormed(c, gs) && WireAll(gs) == src;
      StreamExact(c, src, gs);
    }
  }

  lemma CleanAtEnd(w: seq<byte>, src: seq<byte>, broken: bool)
    requires |w| <= |src| && src[..|w|] == w
    ensures Refusal(src[|w|..], broken) == Clean <==> !broken && w == src
  {
    if |w| == |src| {
      assert src[..|w|] == src;
    }
  }

  /** Decoder exactness: `Decopy` succeeds iff its input is a concatenation of well-formed frames,
      the source ended without an error and the destination took every block. */
  lemma DecopyExact(c: Codec, src: seq<byte>, broken: bool, sink: Sink, out: seq<byte>, total: nat, exit: DecopyExit, n: nat)
    requires Decoded(c, src, broken, sink, out, total, exit, n)
    ensures exit == Clean <==>
            && !broken && IsStream(c, src)
            && forall j :: 0 <= j < |Decodable(c, src)| ==> Full(sink(j), |Decodable(c, src)[j].raw|)
  {
    var fs := Decodable(c, src);
    DecodableSound(c, src);
    ReadsToEnd(c, src);
    CleanAtEnd(WireAll(fs), src, broken);
  }

  /** And then it has written what the frames carry, whichever way the input is taken apart. */
  lemma DecopyOutput(c: Codec, src: seq<byte>, broken: bool, sink: Sink, out: seq<byte>, total: nat, exit: DecopyExit, n: nat,
                     fs: seq<Frame>)
    requires Decoded(c, src, broken, sink, out, total, exit, n) && exit == Clean
    requires AllWellFormed(c, fs) && WireAll(fs) == src
    ensures total == |out| && out == RawAll(fs)
  {
    StreamExact(c, src, fs);
    assert Decodable(c, src)[..n] == Decodable(c, src);
  }
}
