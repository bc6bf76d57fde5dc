/** Difficulty retargeting (crates/consensus/src/difficulty.rs) over a window of
    block timestamps (crates/node/src/node.rs). */
module Difficulty {
  import opened Numbers
  import opened IntegerSqrt
  import opened Emission

  const EPOCH: u64 := 960
  const BLOCK_TARGET_TIME_MS: u64 := 90_000
  const BLOCK_TARGET_TIME_SECS: u64 := 90
  const WINDOW: nat := 961

  function MinimumTimestampDelta(): u64 { Max(BLOCK_TARGET_TIME_SECS / 2, 1) }

  function ConsensusFloor(issued: u64, bonded: u64): u64 {
    if bonded == 0 then 0 else Share(issued, bonded)
  }

  function Share(issued: u64, bonded: u64): u64
    requires bonded > 0
  {
    BaseShareFits(issued, bonded);
    issued / bonded
  }

  /** Round-to-nearest quotient, cast to u64 by truncation. */
  function Rescale(difficulty: u64, actualMs: u64): u64
    requires actualMs > 0
  {
    var numerator := difficulty * (EPOCH * BLOCK_TARGET_TIME_MS);
    Wrap64(Quotient(numerator + actualMs / 2, actualMs))
  }

  function Retarget(difficulty: u64, height: u64, timestamps: seq<u64>): u64 {
    var hold := Max(difficulty, MIN_DIFFICULTY);
    if height < EPOCH then hold
    else
      var windowStart := Max(SatAdd64(height, 1) - |timestamps|, 0);
      var epochStart := height - EPOCH;
      if epochStart < windowStart then hold
      else
        var start, end := epochStart - windowStart, |timestamps| - 1;
        if end <= start then hold
        else
          var actualMs := SatMul64(SatSub64(timestamps[end], timestamps[start]), 1000);
          if actualMs == 0 then SatMul64(difficulty, 4)
          else Max(Rescale(difficulty, actualMs), MIN_DIFFICULTY)
  }

  function NextDifficulty(difficulty: u64, height: u64, timestamps: seq<u64>, issued: u64, bonded: u64): u64 {
    Max(Max(Retarget(difficulty, height, timestamps), ConsensusFloor(issued, bonded)), MIN_DIFFICULTY)
  }

  /** `prune_block_timestamps`: only the last EPOCH + 1 timestamps are kept. */
  function Prune(timestamps: seq<u64>): seq<u64> {
    if |timestamps| <= WINDOW then timestamps else timestamps[|timestamps| - WINDOW..]
  }

  /** Pruning after every push keeps exactly the pruned full history. */
  lemma PruneAppend(history: seq<u64>, t: u64)
    ensures Prune(Prune(history) + [t]) == Prune(history + [t])
    ensures Prune(Prune(history)) == Prune(history)
  {
    if |history| > WINDOW {
      assert Prune(history) + [t] == (history + [t])[|history| - WINDOW..];
    }
  }

  /** The pruned window is as good as the whole chain: the retarget never looks
      at a timestamp that pruning dropped. */
  lemma RetargetOnWindow(difficulty: u64, height: u64, history: seq<u64>)
    requires |history| == height + 1 && height < U64_MAX
    ensures Retarget(difficulty, height, Prune(history)) == Retarget(difficulty, height, history)
  {
    hide Rescale;
    if height >= EPOCH && |history| > WINDOW {
      var window := Prune(history);
      assert window[WINDOW - 1] == history[height];
      assert window[0] == history[height - EPOCH];
    }
  }

  /** Consecutive timestamps at least half a target interval apart. */
  ghost predicate Spaced(history: seq<u64>) {
    forall i :: 0 <= i && i + 1 < |history| ==> (history[i] as int) + MinimumTimestampDelta() <= history[i + 1]
  }

  lemma {:induction false} SpacedGap(history: seq<u64>, i: nat, j: nat)
    requires Spaced(history) && i <= j < |history|
    ensures history[i] + (j - i) * 45 <= history[j]
  {
    if i < j {
      SpacedGap(history, i, j - 1);
      assert (history[j - 1] as int) + 45 <= history[j - 1 + 1];
    }
  }

  /** No epoch of spaced blocks is short enough to reach the zero-time branch, to
      more than double the difficulty, or to truncate the u64 cast. */
  lemma RetargetAtMostDoubles(difficulty: u64, height: u64, history: seq<u64>)
    requires Spaced(history) && |history| == height + 1 && height < U64_MAX
    requires difficulty < 0x8000_0000_0000_0000
    ensures Retarget(difficulty, height, history) <= 2 * Max(difficulty, MIN_DIFFICULTY)
    ensures height >= EPOCH ==>
              var actualMs := SatMul64(SatSub64(history[height], history[height - EPOCH]), 1000);
              && actualMs >= EPOCH * BLOCK_TARGET_TIME_MS / 2
              && Retarget(difficulty, height, history) == Max(Quotient(difficulty * (EPOCH * BLOCK_TARGET_TIME_MS) + actualMs / 2, actualMs), 1)
  {
    if height >= EPOCH {
      SpacedGap(history, height - EPOCH, height);
      var actualMs := SatMul64(SatSub64(history[height], history[height - EPOCH]), 1000);
      RescaleAtMostDoubles(difficulty, actualMs);
      hide Rescale;
    }
  }

  lemma RescaleAtMostDoubles(difficulty: u64, actualMs: u64)
    requires difficulty < 0x8000_0000_0000_0000
    requires actualMs >= EPOCH * BLOCK_TARGET_TIME_MS / 2
    ensures Rescale(difficulty, actualMs) <= 2 * difficulty
    ensures Rescale(difficulty, actualMs) == Quotient(difficulty * (EPOCH * BLOCK_TARGET_TIME_MS) + actualMs / 2, actualMs)
  {
    var a := difficulty * (EPOCH * BLOCK_TARGET_TIME_MS) + actualMs / 2;
    assert a < actualMs * (2 * difficulty + 1) by {
      MulMonotone(2 * difficulty, 43_200_000, actualMs);
      assert actualMs * (2 * difficulty + 1) == 2 * difficulty * actualMs + actualMs;
    }
    DivBelow(a, actualMs, 2 * difficulty + 1);
  }
}
