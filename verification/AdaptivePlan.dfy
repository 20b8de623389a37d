/** How internal/compress/compress.go picks raw or DEFLATE for each block, as a function of the
    blocks seen so far: the frames produced, the round trip, and the amortised cost of probing. */
module AdaptivePlan {
  import opened Bytes
  import opened BlockFormat

  const TINY: nat := 256
  const MISS_LIMIT: nat := 3
  const BACKOFF: nat := 262144

  /** The encoder's adaptive state. */
  datatype Adaptive = Adaptive(misses: nat, skipBytes: nat)

  /** Whether a block of `n` bytes is tried with DEFLATE at all. */
  predicate Probes(a: Adaptive, n: nat)
  {
    n >= TINY && a.skipBytes == 0
  }

  /** Whether DEFLATE saves more than a tenth. */
  predicate Pays(c: Codec, block: seq<byte>)
  {
    |c.deflate(block)| * 100 < |block| * 90
  }

  function FrameOf(c: Codec, a: Adaptive, block: seq<byte>): Frame
  {
    if Probes(a, |block|) && Pays(c, block) then Frame(MARKER_FLATE, block, c.deflate(block))
    else Frame(MARKER_RAW, block, block)
  }

  function Next(c: Codec, a: Adaptive, block: seq<byte>): Adaptive
  {
    if !Probes(a, |block|) then a.(skipBytes := if a.skipBytes <= |block| then 0 else a.skipBytes - |block|)
    else if Pays(c, block) then a.(misses := 0)
    else Adaptive(a.misses + 1, if a.misses + 1 >= MISS_LIMIT then BACKOFF else a.skipBytes)
  }

  /** What choosing how to send a block adds to the counters of blocks. */
  datatype Choice = Skipped | Missed | Saved

  function ChoiceOf(c: Codec, a: Adaptive, block: seq<byte>): Choice
  {
    if !Probes(a, |block|) then Skipped else if Pays(c, block) then Saved else Missed
  }

  /** Everything the blocks read so far determine: the adaptive state, the frames sent and their bytes, the
      source they carry, and how many blocks were tried, were not tried, and were worth it. */
  datatype Plan = Plan(a: Adaptive, frames: seq<Frame>, wire: seq<byte>, source: seq<byte>,
                       attempted: nat, skipped: nat, compressed: nat)

  function Extend(c: Codec, p: Plan, block: seq<byte>): Plan
  {
    var f, choice := FrameOf(c, p.a, block), ChoiceOf(c, p.a, block);
    Plan(Next(c, p.a, block), p.frames + [f], p.wire + Wire(f), p.source + block,
         p.attempted + (if choice.Skipped? then 0 else 1),
         p.skipped + (if choice.Skipped? then 1 else 0),
         p.compressed + (if choice.Saved? then 1 else 0))
  }

  function PlanOf(c: Codec, blocks: seq<seq<byte>>): Plan
  {
    var n := |blocks|;
    if n == 0 then Plan(Adaptive(n, n), [], [], [], n, n, n) else Extend(c, PlanOf(c, Init(blocks)), Last(blocks))
  }

  /** The adaptive state after `blocks`. */
  function After(c: Codec, blocks: seq<seq<byte>>): Adaptive
  {
    PlanOf(c, blocks).a
  }

  /** The source bytes that `blocks` chunk. */
  function Source(blocks: seq<seq<byte>>): seq<byte>
  {
    if |blocks| == 0 then [] else Source(Init(blocks)) + Last(blocks)
  }

  /** Every read fills at most one block, and an empty read makes none. */
  ghost predicate Legal(blocks: seq<seq<byte>>)
  {
    forall i :: 0 <= i < |blocks| ==> 1 <= |blocks[i]| <= BLOCK_SIZE
  }

  /** The parts of a plan belong together: the bytes are those of the frames, the source is what the
      blocks chunk, and the counters count the blocks, with at most 5 bytes
      of overhead a frame. */
  lemma {:induction false} PlanMeaning(c: Codec, blocks: seq<seq<byte>>)
    ensures var p := PlanOf(c, blocks);
            && |p.frames| == |blocks| && p.wire == WireAll(p.frames) && p.source == RawAll(p.frames) == Source(blocks)
            && |p.wire| <= |p.source| + 5 * |blocks| && p.attempted + p.skipped == |blocks|
  {
    if |blocks| > 0 {
      PlanMeaning(c, Init(blocks));
      var p := PlanOf(c, Init(blocks));
      var f := FrameOf(c, p.a, Last(blocks));
      WireAllSnoc(p.frames, f);
      assert |Wire(f)| == 5 + |f.data|;
    }
  }

  // ---- Round trip ----------------------------------------------------------------------------

  lemma FrameOfWellFormed(c: Codec, a: Adaptive, block: seq<byte>)
    requires Faithful(c) && 1 <= |block| <= BLOCK_SIZE
    ensures WellFormed(c, FrameOf(c, a, block))
  {
  }

  lemma {:induction false} FramesWellFormed(c: Codec, blocks: seq<seq<byte>>)
    requires Faithful(c) && Legal(blocks)
    ensures AllWellFormed(c, PlanOf(c, blocks).frames)
  {
    if |blocks| > 0 {
      FramesWellFormed(c, Init(blocks));
      FrameOfWellFormed(c, After(c, Init(blocks)), Last(blocks));
    }
  }

  /** Whatever chunks the source was read in and whatever was chosen per block, the decoder reads
      back exactly the frames sent, which carry exactly the source, and reaches the end cleanly. */
  lemma RoundTrip(c: Codec, blocks: seq<seq<byte>>)
    requires Faithful(c) && Legal(blocks)
    ensures var wire := PlanOf(c, blocks).wire;
            && Decodable(c, wire) == PlanOf(c, blocks).frames
            && WireAll(Decodable(c, wire)) == wire
            && RawAll(Decodable(c, wire)) == Source(blocks)
  {
    PlanMeaning(c, blocks);
    FramesWellFormed(c, blocks);
    StreamExact(c, PlanOf(c, blocks).wire, PlanOf(c, blocks).frames);
  }

  // ---- Cost ----------------------------------------------------------------------------------

  /** DEFLATE attempts that did not pay. */
  function Failed(c: Codec, blocks: seq<seq<byte>>): nat
  {
    if |blocks| == 0 then 0
    else Failed(c, Init(blocks)) + if Probes(After(c, Init(blocks)), |Last(blocks)|) && !Pays(c, Last(blocks)) then 1 else 0
  }

  /** DEFLATE attempts that paid. */
  function Succeeded(c: Codec, blocks: seq<seq<byte>>): nat
  {
    if |blocks| == 0 then 0
    else Succeeded(c, Init(blocks)) + if Probes(After(c, Init(blocks)), |Last(blocks)|) && Pays(c, Last(blocks)) then 1 else 0
  }

  /** Bytes sent in blocks that were not tried. */
  function SkippedBytes(c: Codec, blocks: seq<seq<byte>>): nat
  {
    if |blocks| == 0 then 0
    else SkippedBytes(c, Init(blocks)) + if Probes(After(c, Init(blocks)), |Last(blocks)|) then 0 else |Last(blocks)|
  }

  /** Failed attempts that armed the back-off. */
  function Armed(c: Codec, blocks: seq<seq<byte>>): nat
  {
    if |blocks| == 0 then 0
    else
      var a := After(c, Init(blocks));
      Armed(c, Init(blocks)) +
      if Probes(a, |Last(blocks)|) && !Pays(c, Last(blocks)) && a.misses + 1 >= MISS_LIMIT then 1 else 0
  }

  /** Each success buys two free failures; every other failure is paid for by a back-off, and every
      back-off but the current one by the bytes it skipped. */
  lemma {:induction false} ProbingPotential(c: Codec, blocks: seq<seq<byte>>)
    ensures var a := After(c, blocks);
            && Failed(c, blocks) <= 2 * Succeeded(c, blocks) + (if a.misses < 2 then a.misses else 2) + Armed(c, blocks)
            && BACKOFF * Armed(c, blocks) <= SkippedBytes(c, blocks) + a.skipBytes
            && a.skipBytes <= BACKOFF
  {
    if |blocks| > 0 {
      ProbingPotential(c, Init(blocks));
    }
  }

  /** Amortised probing: at every point of every copy the failed attempts are at most two per
      success, three in hand, and one for every 256 KiB sent without trying. */
  lemma AmortisedProbing(c: Codec, blocks: seq<seq<byte>>)
    ensures Failed(c, blocks) <= 2 * Succeeded(c, blocks) + 3 + SkippedBytes(c, blocks) / BACKOFF
    ensures Failed(c, blocks) + Succeeded(c, blocks) == PlanOf(c, blocks).attempted
    ensures Succeeded(c, blocks) == PlanOf(c, blocks).compressed
  {
    ProbingPotential(c, blocks);
    AttemptsSplit(c, blocks);
  }

  lemma {:induction false} AttemptsSplit(c: Codec, blocks: seq<seq<byte>>)
    ensures Failed(c, blocks) + Succeeded(c, blocks) == PlanOf(c, blocks).attempted
    ensures Succeeded(c, blocks) == PlanOf(c, blocks).compressed
  {
    if |blocks| > 0 {
      AttemptsSplit(c, Init(blocks));
    }
  }

  /** Bytes sent untried because of the latest back-off. */
  function BackoffBytes(c: Codec, blocks: seq<seq<byte>>): nat
  {
    if |blocks| == 0 then 0
    else
      var a := After(c, Init(blocks));
      if a.skipBytes > 0 then BackoffBytes(c, Init(blocks)) + |Last(blocks)|
      else if Next(c, a, Last(blocks)).skipBytes > 0 then 0
      else BackoffBytes(c, Init(blocks))
  }

  /** One back-off skips 256 KiB, plus at most the rest of the block that reaches that point. */
  lemma {:induction false} BackoffBounded(c: Codec, blocks: seq<seq<byte>>)
    requires Legal(blocks)
    ensures BackoffBytes(c, blocks) <= BACKOFF + BLOCK_SIZE - 1
    ensures After(c, blocks).skipBytes > 0 ==> BackoffBytes(c, blocks) + After(c, blocks).skipBytes == BACKOFF
  {
    if |blocks| > 0 {
      BackoffBounded(c, Init(blocks));
    }
  }
}
