/** The timestamps of a run, and the difficulty they lead to. */
module History {
  import opened Numbers
  import opened Emission
  import opened Difficulty
  import opened Types
  import opened Refiner
  import opened BlockValidation
  import opened BlockApplication
  import opened Supply
  import opened BlockLaws
  import opened Genesis
  import opened Runs

  /** Every block timestamp since genesis, nothing pruned. */
  ghost function AllTimestamps(c: Crypto, n: NodeState, calls: seq<Call>): seq<u64> {
    if calls == [] then n.chain.timestamps
    else
      var init, last := calls[..|calls| - 1], calls[|calls| - 1];
      if Accepts(c, Run(c, n, init), last) then AllTimestamps(c, n, init) + [last.block.header.timestamp]
      else AllTimestamps(c, n, init)
  }

  /** How one call moves the height and the window. */
  lemma StepWindow(c: Crypto, n: NodeState, call: Call)
    requires MoneyInv(n) && PowSound(c) && RoomFor(c, n, call.block, call.now)
    ensures var m, header := After(c, n, call), call.block.header;
      if Accepts(c, n, call) then
        && m.chain.height == n.chain.height + 1 && m.chain.height == header.height
        && m.chain.timestamps == Prune(n.chain.timestamps + [header.timestamp])
        && m.chain.difficulty == header.difficulty
        && AdmissionError(c, n, call.block, call.now).None?
      else m.chain.height == n.chain.height && m.chain.timestamps == n.chain.timestamps && m.chain.difficulty == n.chain.difficulty
  {
    if Accepts(c, n, call) {
      var kind, tr := AcceptedTrace(c, n, call.block, call.now);
      hide ApplyBlock, MoneyInv, Traced, PowSound, RoomFor;
      AcceptedFields(c, n, call.block, kind, call.now, tr);
      hide Close, AfterAttesting, Prune, AdmissionError, Attested, ProducerError;
    } else {
      StepConserves(c, n, call);
      hide ApplyBlock, MoneyInv;
    }
  }

  /** The pruned window refines the whole history: it is always its last EPOCH + 1
      timestamps, so the retarget on the window is the retarget on the chain. */
  lemma {:induction false} WindowIsPrunedHistory(c: Crypto, n: NodeState, calls: seq<Call>)
    requires IsGenesis(n) && PowSound(c) && Roomy(c, n, calls)
    ensures var m, history := Run(c, n, calls), AllTimestamps(c, n, calls);
      && |history| == m.chain.height + 1
      && m.chain.timestamps == Prune(history)
      && (m.chain.height < U64_MAX ==>
            Retarget(m.chain.difficulty, m.chain.height, m.chain.timestamps) == Retarget(m.chain.difficulty, m.chain.height, history))
  {
    hide IsGenesis, PowSound, RoomFor, Accepts, After, Prune, Retarget;
    if calls == [] {
      GenesisBalances(n);
      ShortHistory(n.chain.timestamps);
    } else {
      var init, last := calls[..|calls| - 1], calls[|calls| - 1];
      WindowIsPrunedHistory(c, n, init);
      SupplyConserved(c, n, init);
      StepWindow(c, Run(c, n, init), last);
      PruneAppend(AllTimestamps(c, n, init), last.block.header.timestamp);
    }
    var m, history := Run(c, n, calls), AllTimestamps(c, n, calls);
    if m.chain.height < U64_MAX { RetargetOnWindow(m.chain.difficulty, m.chain.height, history); }
  }

  lemma ShortHistory(s: seq<u64>)
    requires |s| <= WINDOW
    ensures Prune(s) == s
  {
  }

  /** Clocks far enough from the end of u64 that no timestamp comparison saturates. */
  ghost predicate ClocksSane(n: NodeState, calls: seq<Call>) {
    && LastTimestamp(n.chain.timestamps) <= U64_MAX - MinimumTimestampDelta()
    && forall i :: 0 <= i < |calls| ==> calls[i].now <= U64_MAX - MAX_FUTURE_BLOCK_TIME_SECS - MinimumTimestampDelta()
  }

  lemma AdmittedTimestamp(c: Crypto, n: NodeState, block: Block, now: u64)
    requires AdmissionError(c, n, block, now).None? && n.chain.height < U64_MAX
    requires LastTimestamp(n.chain.timestamps) <= U64_MAX - MinimumTimestampDelta()
    requires now <= U64_MAX - MAX_FUTURE_BLOCK_TIME_SECS - MinimumTimestampDelta()
    ensures (LastTimestamp(n.chain.timestamps) as int) + MinimumTimestampDelta() <= block.header.timestamp <= U64_MAX - MinimumTimestampDelta()
  {
    hide BodyError, ProofError, NextDifficulty, TotalBonded;
  }

  /** Consecutive blocks of a run are at least 45 seconds apart. */
  lemma {:induction false} HistorySpaced(c: Crypto, n: NodeState, calls: seq<Call>)
    requires IsGenesis(n) && PowSound(c) && Roomy(c, n, calls) && ClocksSane(n, calls)
    ensures Spaced(AllTimestamps(c, n, calls))
    ensures LastTimestamp(AllTimestamps(c, n, calls)) <= U64_MAX - MinimumTimestampDelta()
    ensures LastTimestamp(Run(c, n, calls).chain.timestamps) == LastTimestamp(AllTimestamps(c, n, calls))
  {
    hide IsGenesis, PowSound, RoomFor, Accepts, After, AdmissionError;
    WindowIsPrunedHistory(c, n, calls);
    if calls == [] {
      GenesisBalances(n);
    } else {
      var init, last := calls[..|calls| - 1], calls[|calls| - 1];
      HistorySpaced(c, n, init);
      SupplyConserved(c, n, init);
      WindowIsPrunedHistory(c, n, init);
      var m := Run(c, n, init);
      StepWindow(c, m, last);
      if Accepts(c, m, last) {
        assert last.now == calls[|calls| - 1].now;
        RoomLeft(c, m, last.block, last.now);
        AdmittedTimestamp(c, m, last.block, last.now);
        SpacedAppend(AllTimestamps(c, n, init), last.block.header.timestamp);
      }
    }
  }

  lemma SpacedAppend(history: seq<u64>, t: u64)
    requires Spaced(history) && history != []
    requires (LastTimestamp(history) as int) + MinimumTimestampDelta() <= t
    ensures Spaced(history + [t])
  {
  }

  /** The last epoch of a history took at least half its target time. */
  ghost predicate EpochLasts(history: seq<u64>, height: nat) {
    EPOCH <= height < |history| ==> (history[height - EPOCH] as int) + 43_200 <= history[height]
  }

  lemma SpacedEpochLasts(history: seq<u64>, height: nat)
    requires Spaced(history)
    ensures EpochLasts(history, height)
  {
    if EPOCH <= height < |history| { SpacedGap(history, height - EPOCH, height); }
  }

  lemma SpacedRetarget(difficulty: u64, height: u64, history: seq<u64>)
    requires Spaced(history) && |history| == height + 1 && height < U64_MAX
    requires difficulty < 0x8000_0000_0000_0000
    ensures Retarget(difficulty, height, history) <= 2 * Max(difficulty, MIN_DIFFICULTY)
    ensures EpochLasts(history, height)
  {
    RetargetAtMostDoubles(difficulty, height, history);
    SpacedEpochLasts(history, height);
  }

  /** In a run with sane clocks no epoch is short enough for the retarget to reach
      its zero-time branch, and it never more than doubles the difficulty. */
  lemma RunRetargetAtMostDoubles(c: Crypto, n: NodeState, calls: seq<Call>)
    requires IsGenesis(n) && PowSound(c) && Roomy(c, n, calls) && ClocksSane(n, calls)
    requires Run(c, n, calls).chain.difficulty < 0x8000_0000_0000_0000 && Run(c, n, calls).chain.height < U64_MAX
    ensures var chain := Run(c, n, calls).chain;
      Retarget(chain.difficulty, chain.height, chain.timestamps) <= 2 * Max(chain.difficulty, MIN_DIFFICULTY)
    ensures EpochLasts(AllTimestamps(c, n, calls), Run(c, n, calls).chain.height)
  {
    hide IsGenesis, PowSound, Roomy, Run, AllTimestamps, Retarget, ClocksSane, EpochLasts, Spaced, Prune;
    var chain, history := Run(c, n, calls).chain, AllTimestamps(c, n, calls);
    WindowIsPrunedHistory(c, n, calls);
    HistorySpaced(c, n, calls);
    SpacedRetarget(chain.difficulty, chain.height, history);
  }
}
