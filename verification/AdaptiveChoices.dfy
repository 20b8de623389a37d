/** The choices of the adaptive encoder (internal/compress/compress.go) from their history alone: a block is sent
    untried exactly if it is small or close behind a run of misses, and otherwise exactly as DEFLATE pays. */
module AdaptiveChoices {
  import opened Bytes
  import opened BlockFormat
  import opened AdaptivePlan

  /** What was done with block `k`. */
  function ChoiceAt(c: Codec, blocks: seq<seq<byte>>, k: nat): Choice
    requires k < |blocks|
  {
    ChoiceOf(c, After(c, blocks[..k]), blocks[k])
  }

  /** Attempts among the first `n` blocks that missed since the latest one that saved. */
  function MissesSince(c: Codec, blocks: seq<seq<byte>>, n: nat): nat
    requires n <= |blocks|
  {
    if n == 0 then 0
    else
      match ChoiceAt(c, blocks, n - 1)
      case Saved => 0
      case Missed => MissesSince(c, blocks, n - 1) + 1
      case Skipped => MissesSince(c, blocks, n - 1)
  }

  /** Block `j` missed, and was at least the third to since one last saved. */
  predicate Third(c: Codec, blocks: seq<seq<byte>>, j: nat)
    requires j < |blocks|
  {
    ChoiceAt(c, blocks, j).Missed? && MissesSince(c, blocks, j + 1) >= 3
  }

  /** The bytes of blocks `i` to `j`, the latter not included. */
  function Between(blocks: seq<seq<byte>>, i: nat, j: nat): nat
    requires i <= j <= |blocks|
    decreases j
  {
    if i == j then 0 else Between(blocks, i, j - 1) + |blocks[j - 1]|
  }

  /** Fewer than 262144 bytes lie between block `j`, where three attempts had missed, and block `n`. */
  predicate CloseBehind(c: Codec, blocks: seq<seq<byte>>, j: nat, n: nat)
    requires n <= |blocks|
  {
    j < n && Third(c, blocks, j) && Between(blocks, j + 1, n) < 262144
  }

  // ---- The encoder's counters say just that --------------------------------------------------

  lemma NextPlan(c: Codec, blocks: seq<seq<byte>>, n: nat)
    requires n < |blocks|
    ensures PlanOf(c, blocks[..n + 1]) == Extend(c, PlanOf(c, blocks[..n]), blocks[n])
  {
    var more := blocks[..n + 1];
    assert Init(more) == blocks[..n] && Last(more) == blocks[n];
  }

  lemma NextState(c: Codec, blocks: seq<seq<byte>>, n: nat)
    requires n < |blocks|
    ensures After(c, blocks[..n + 1]) == Next(c, After(c, blocks[..n]), blocks[n])
  {
    NextPlan(c, blocks, n);
  }

  lemma StartState(c: Codec, blocks: seq<seq<byte>>)
    ensures After(c, blocks[..0]) == Adaptive(0, 0)
  {
    assert |blocks[..0]| == 0;
  }

  lemma {:induction false} MissesAre(c: Codec, blocks: seq<seq<byte>>, n: nat)
    requires n <= |blocks|
    ensures After(c, blocks[..n]).misses == MissesSince(c, blocks, n)
    decreases n
  {
    if n == 0 {
      StartState(c, blocks);
    } else {
      MissesAre(c, blocks, n - 1);
      NextState(c, blocks, n - 1);
    }
  }

  /** What is left to skip is what a run of misses still asks for, and no run asks for more. */
  ghost predicate SkipIs(c: Codec, blocks: seq<seq<byte>>, n: nat, skip: nat)
    requires n <= |blocks|
  {
    && (forall j: nat :: j < n && Third(c, blocks, j) ==> 262144 <= Between(blocks, j + 1, n) + skip)
    && (skip > 0 ==> exists j: nat :: j < n && Third(c, blocks, j) && Between(blocks, j + 1, n) + skip == 262144)
  }

  lemma SkipMoves(c: Codec, blocks: seq<seq<byte>>, n: nat, skip: nat)
    requires n < |blocks| && SkipIs(c, blocks, n, skip) && !Third(c, blocks, n)
    ensures SkipIs(c, blocks, n + 1, if skip <= |blocks[n]| then 0 else skip - |blocks[n]|)
  {
    var rest := if skip <= |blocks[n]| then 0 else skip - |blocks[n]|;
    forall j: nat | j < n + 1 && Third(c, blocks, j) ensures 262144 <= Between(blocks, j + 1, n + 1) + rest {
      assert 262144 <= Between(blocks, j + 1, n) + skip;
    }
    if rest > 0 {
      var j: nat :| j < n && Third(c, blocks, j) && Between(blocks, j + 1, n) + skip == 262144;
      assert Between(blocks, j + 1, n + 1) + rest == 262144;
    }
  }

  lemma SkipArms(c: Codec, blocks: seq<seq<byte>>, n: nat)
    requires n < |blocks| && SkipIs(c, blocks, n, 0) && Third(c, blocks, n)
    ensures SkipIs(c, blocks, n + 1, 262144)
  {
    assert Between(blocks, n + 1, n + 1) == 0;
  }

  lemma SkipStep(c: Codec, blocks: seq<seq<byte>>, n: nat)
    requires n < |blocks| && SkipIs(c, blocks, n, After(c, blocks[..n]).skipBytes)
    ensures SkipIs(c, blocks, n + 1, After(c, blocks[..n + 1]).skipBytes)
  {
    NextState(c, blocks, n);
    MissesAre(c, blocks, n);
    MissesAre(c, blocks, n + 1);
    if Third(c, blocks, n) {
      SkipArms(c, blocks, n);
    } else {
      SkipMoves(c, blocks, n, After(c, blocks[..n]).skipBytes);
    }
  }

  lemma {:induction false} SkipAlways(c: Codec, blocks: seq<seq<byte>>, n: nat)
    requires n <= |blocks|
    ensures SkipIs(c, blocks, n, After(c, blocks[..n]).skipBytes)
    decreases n
  {
    if n == 0 {
      StartState(c, blocks);
    } else {
      SkipAlways(c, blocks, n - 1);
      SkipStep(c, blocks, n - 1);
    }
  }

  // ---- What a maintainer gets ----------------------------------------------------------------

  /** A block is sent untried if and only if it is under 256 bytes or fewer than 262144 bytes lie between it and a
      block where at least three attempts had missed since one last saved; a block that is tried is sent compressed
      if and only if that saves more than a tenth. */
  lemma ChoiceExactly(c: Codec, blocks: seq<seq<byte>>, k: nat)
    requires k < |blocks|
    ensures ChoiceAt(c, blocks, k).Skipped? <==> |blocks[k]| < 256 || exists j: nat :: CloseBehind(c, blocks, j, k)
    ensures ChoiceAt(c, blocks, k).Saved? ==> |c.deflate(blocks[k])| * 100 < |blocks[k]| * 90
    ensures ChoiceAt(c, blocks, k).Missed? ==> |c.deflate(blocks[k])| * 100 >= |blocks[k]| * 90
  {
    var skip := After(c, blocks[..k]).skipBytes;
    SkipAlways(c, blocks, k);
    if skip > 0 {
      var j: nat :| j < k && Third(c, blocks, j) && Between(blocks, j + 1, k) + skip == 262144;
      assert CloseBehind(c, blocks, j, k);
    }
    if j: nat :| CloseBehind(c, blocks, j, k) {
      assert 262144 <= Between(blocks, j + 1, k) + skip;
    }
  }

  function ChosenFrame(c: Codec, blocks: seq<seq<byte>>, k: nat): Frame
    requires k < |blocks|
  {
    if ChoiceAt(c, blocks, k).Saved? then Frame(MARKER_FLATE, blocks[k], c.deflate(blocks[k]))
    else Frame(MARKER_RAW, blocks[k], blocks[k])
  }

  lemma NextFrame(c: Codec, blocks: seq<seq<byte>>, n: nat)
    requires n < |blocks|
    ensures PlanOf(c, blocks[..n + 1]).frames == PlanOf(c, blocks[..n]).frames + [ChosenFrame(c, blocks, n)]
  {
    NextPlan(c, blocks, n);
  }

  /** What is sent is what was chosen: the frame of each block is compressed iff it saved, and carries the block. */
  ghost predicate AsChosen(c: Codec, blocks: seq<seq<byte>>, frames: seq<Frame>)
  {
    |frames| <= |blocks| && forall k :: 0 <= k < |frames| ==> frames[k] == ChosenFrame(c, blocks, k)
  }

  lemma ChosenSnoc(c: Codec, blocks: seq<seq<byte>>, frames: seq<Frame>)
    requires AsChosen(c, blocks, frames) && |frames| < |blocks|
    ensures AsChosen(c, blocks, frames + [ChosenFrame(c, blocks, |frames|)])
  {
  }

  lemma {:induction false} FramesUpTo(c: Codec, blocks: seq<seq<byte>>, n: nat)
    requires n <= |blocks|
    ensures |PlanOf(c, blocks[..n]).frames| == n && AsChosen(c, blocks, PlanOf(c, blocks[..n]).frames)
    decreases n
  {
    if n > 0 {
      FramesUpTo(c, blocks, n - 1);
      ChosenSnoc(c, blocks, PlanOf(c, blocks[..n - 1]).frames);
      NextFrame(c, blocks, n - 1);
    } else {
      PlanMeaning(c, blocks[..n]);
    }
  }

  /** Over every list of blocks, the frames sent are those chosen. */
  lemma FramesExactly(c: Codec, blocks: seq<seq<byte>>)
    ensures |PlanOf(c, blocks).frames| == |blocks| && AsChosen(c, blocks, PlanOf(c, blocks).frames)
  {
    FramesUpTo(c, blocks, |blocks|);
    assert blocks[..|blocks|] == blocks;
  }
}
