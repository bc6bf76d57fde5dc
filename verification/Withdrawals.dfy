/** The unbonding delay over runs: every withdrawal waits exactly one epoch. */
module Withdrawals {
  import opened Numbers
  import opened Difficulty
  import opened Collections
  import opened Ledger
  import opened Types
  import opened Refiner
  import opened RefinerInvariant
  import opened Dispatcher
  import opened Chain
  import opened BlockApplication
  import opened Supply
  import opened BlockLaws
  import opened Genesis
  import opened Runs
  import opened UnbondingQueue

  /** Between blocks nothing queued is overdue or later than one epoch away. */
  ghost predicate QueueWindow(n: NodeState) {
    QueueOk(n.refiners.queue, n.chain.height, n.chain.height + EPOCH)
  }

  /** The unbonds a block's transactions queue up. */
  ghost function BlockUnbonds(c: Crypto, block: Block, tr: Trace): seq<PendingUnbond> {
    NewUnbonds(c, block.transactions, StartTally(tr.slashed, tr.rewarded), ContextOf(tr.slashed, block.header))
  }

  lemma StartQueue(c: Crypto, n: NodeState, block: Block, kind: ProductionKind, tr: Trace, lo: int, id: ObjectId, at: nat)
    requires RefInv(n.refiners) && QueueOk(n.refiners.queue, lo, lo + EPOCH)
    requires TracedStart(c, n, block, kind, tr)
    requires block.header.height == lo + 1 && lo + 1 + EPOCH <= U64_MAX
    ensures QueueOk(tr.tally.refiners.queue, lo, lo + 1 + EPOCH)
    ensures IsSlashed(n.refiners, id) ==> IsSlashed(tr.slashed.refiners, id)
    ensures !IsSlashed(tr.slashed.refiners, id) ==>
              QueuedAt(tr.tally.refiners.queue, id, at) == QueuedAt(n.refiners.queue, id, at) + QueuedAt(BlockUnbonds(c, block, tr), id, at)
    ensures at != lo + 1 + EPOCH ==> QueuedAt(BlockUnbonds(c, block, tr), id, at) == 0
  {
    var t, ctx := StartTally(tr.slashed, tr.rewarded), ContextOf(tr.slashed, block.header);
    SlashAllQueue(c, block.slashEvidence, {}, Slashing(n.refiners, n.chain.burned, 0), lo, lo + EPOCH, id, at);
    assert ctx == ContextOf(n, block.header);
    var more := BlockUnbonds(c, block, tr);
    hide SlashAll, RefInv, IsSlashed, QueuedAt, QueueOk, PayProducer, BlockFlows, NetReward, NoteSignature;
    RunTransactionsQueue(c, block.transactions, t, ctx);
    hide RunTransactions, NewUnbonds;
    AppendOk(tr.slashed.refiners.queue, more, lo, lo + EPOCH, lo + 1 + EPOCH);
    QueuedAtAppend(tr.slashed.refiners.queue, more, id, at);
    QueuedAtWithin(more, id, at);
  }

  lemma EndQueue(c: Crypto, block: Block, now: u64, tr: Trace, lo: int, id: ObjectId, at: nat)
    requires TracedEnd(c, block, now, tr) && QueueOk(tr.tally.refiners.queue, lo, lo + 1 + EPOCH)
    requires block.header.height == lo + 1
    requires Holdings(tr.settled.accounts, tr.settled.refiners) <= U64_MAX
    ensures QueueOk(tr.paid.refiners.queue, lo + 1, lo + 1 + EPOCH)
    ensures QueuedAt(tr.paid.refiners.queue, id, at) == if at <= lo + 1 then 0 else QueuedAt(tr.tally.refiners.queue, id, at)
    ensures BalanceOf(tr.paid.accounts, id) == BalanceOf(tr.settled.accounts, id) + QueuedAt(tr.tally.refiners.queue, id, lo + 1)
  {
    var queue, height := tr.tally.refiners.queue, block.header.height;
    assert tr.settled.refiners.queue == queue && tr.settled.chain.height == height;
    assert tr.paid.accounts == CreditAll(tr.settled.accounts, Matured(queue, height)).0 && tr.paid.refiners.queue == StillQueued(queue, height);
    MaturesOnTime(queue, height, id);
    StillQueuedOrder(queue, height, lo, lo + 1 + EPOCH);
    StillQueuedAt(queue, height, id, at);
    MaturedSplits(queue, height);
    hide TracedEnd, QueueOk, QueuedAt, CreditAll, Matured, StillQueued, TotalBalance;
    CreditAllPays(tr.settled.accounts, Matured(queue, height), id);
  }

  lemma SeatingKeepsQueue(r: RefinerState, height: u64, issued: u64, id: ObjectId)
    requires RefInv(r)
    ensures Reseated(r, height, issued).queue == r.queue
    ensures IsSlashed(r, id) ==> IsSlashed(Reseated(r, height, issued), id)
  {
    hide Reseated, RefInv;
    ReseatedKeeps(r, height, issued);
  }

  /** How the queue and the accounts of one refiner stand after a block, given the
      pieces of its trace. */
  ghost predicate QueueMoved(n: NodeState, tr: Trace, added: seq<PendingUnbond>, m: NodeState, id: ObjectId, at: nat) {
    var next := n.chain.height + 1;
    && QueueWindow(m)
    && (!IsSlashed(m.refiners, id) ==>
          && QueuedAt(m.refiners.queue, id, at) == (if at <= next then 0 else QueuedAt(n.refiners.queue, id, at) + QueuedAt(added, id, at))
          && BalanceOf(m.accounts, id) == BalanceOf(tr.settled.accounts, id) + QueuedAt(n.refiners.queue, id, next))
    && (at != next + EPOCH ==> QueuedAt(added, id, at) == 0)
  }

  lemma TracedHalves(c: Crypto, n: NodeState, block: Block, kind: ProductionKind, now: u64, tr: Trace, id: ObjectId)
    requires MoneyInv(n) && QueueWindow(n)
    requires Traced(c, n, block, kind, now, tr) && SoundTrace(tr)
    ensures TracedStart(c, n, block, kind, tr) && TracedEnd(c, block, now, tr)
    ensures RefInv(n.refiners) && QueueOk(n.refiners.queue, n.chain.height, n.chain.height + EPOCH)
    ensures Holdings(tr.settled.accounts, tr.settled.refiners) <= U64_MAX && RefInv(tr.paid.refiners)
    ensures IsSlashed(tr.slashed.refiners, id) ==> IsSlashed(tr.paid.refiners, id)
  {
    hide TracedStart, TracedEnd, RefInv, AccountsOk, Holdings, QueueOk, IsSlashed, Execute, Close;
  }

  lemma PaidMoves(n: NodeState, tr: Trace, added: seq<PendingUnbond>, m: NodeState, id: ObjectId, at: nat)
    requires var lo := n.chain.height;
      && QueueOk(tr.paid.refiners.queue, lo + 1, lo + 1 + EPOCH)
      && m.chain.height == lo + 1 && m.accounts == tr.paid.accounts && m.refiners.queue == tr.paid.refiners.queue
      && (IsSlashed(tr.paid.refiners, id) ==> IsSlashed(m.refiners, id))
      && (IsSlashed(tr.slashed.refiners, id) ==> IsSlashed(tr.paid.refiners, id))
      && (at != lo + 1 + EPOCH ==> QueuedAt(added, id, at) == 0)
      && QueuedAt(added, id, lo + 1) == 0
      && (!IsSlashed(tr.slashed.refiners, id) ==>
            && QueuedAt(tr.tally.refiners.queue, id, at) == QueuedAt(n.refiners.queue, id, at) + QueuedAt(added, id, at)
            && QueuedAt(tr.tally.refiners.queue, id, lo + 1) == QueuedAt(n.refiners.queue, id, lo + 1) + QueuedAt(added, id, lo + 1))
      && QueuedAt(tr.paid.refiners.queue, id, at) == (if at <= lo + 1 then 0 else QueuedAt(tr.tally.refiners.queue, id, at))
      && BalanceOf(tr.paid.accounts, id) == BalanceOf(tr.settled.accounts, id) + QueuedAt(tr.tally.refiners.queue, id, lo + 1)
    ensures QueueMoved(n, tr, added, m, id, at)
  {
    hide QueueOk, QueuedAt, IsSlashed, BalanceOf;
  }

  lemma TracedQueue(c: Crypto, n: NodeState, block: Block, kind: ProductionKind, now: u64, tr: Trace, id: ObjectId, at: nat)
    requires MoneyInv(n) && QueueWindow(n) && n.chain.height < U64_MAX - EPOCH
    requires Traced(c, n, block, kind, now, tr) && SoundTrace(tr)
    requires block.header.height == n.chain.height + 1
    ensures QueueMoved(n, tr, BlockUnbonds(c, block, tr), Close(c, tr.paid, block, tr.flows), id, at)
  {
    var lo := n.chain.height;
    assert lo + 1 + EPOCH <= U64_MAX && EPOCH > 0;
    hide *;
    TracedHalves(c, n, block, kind, now, tr, id);
    StartQueue(c, n, block, kind, tr, lo, id, at);
    StartQueue(c, n, block, kind, tr, lo, id, lo + 1);
    EndQueue(c, block, now, tr, lo, id, at);
    SeatingKeepsQueue(tr.paid.refiners, tr.paid.chain.height, tr.paid.chain.issued, id);
    CloseFields(c, tr.paid, block, tr.flows);
    EndFields(c, block, now, tr);
    PaidMoves(n, tr, BlockUnbonds(c, block, tr), Close(c, tr.paid, block, tr.flows), id, at);
  }

  /** One accepted block: what was due now for a refiner it does not slash is paid in
      full, the rest waits, and only the block's own unbonds join it, a full epoch
      out. */
  lemma AcceptedQueue(c: Crypto, n: NodeState, call: Call, id: ObjectId, at: nat) returns (kind: ProductionKind, tr: Trace)
    requires MoneyInv(n) && PowSound(c) && RoomFor(c, n, call.block, call.now) && QueueWindow(n)
    requires Accepts(c, n, call)
    ensures Traced(c, AfterAttesting(c, n, call.block), call.block, kind, call.now, tr)
    ensures QueueMoved(n, tr, BlockUnbonds(c, call.block, tr), After(c, n, call), id, at)
  {
    hide *;
    CallIsApply(c, n, call);
    kind, tr := AcceptedTrace(c, n, call.block, call.now);
    AttestedQueue(n, AfterAttesting(c, n, call.block), tr, BlockUnbonds(c, call.block, tr), After(c, n, call), id, at);
    RoomLeft(c, n, call.block, call.now);
    TracedQueue(c, AfterAttesting(c, n, call.block), call.block, kind, call.now, tr, id, at);
  }

  lemma AttestedQueue(n: NodeState, k: NodeState, tr: Trace, added: seq<PendingUnbond>, m: NodeState, id: ObjectId, at: nat)
    requires OnlyAttested(n, k)
    ensures QueueWindow(n) <==> QueueWindow(k)
    ensures k.chain.height == n.chain.height
    ensures QueueMoved(k, tr, added, m, id, at) <==> QueueMoved(n, tr, added, m, id, at)
  {
    hide QueueOk, QueuedAt, IsSlashed, BalanceOf;
  }

  lemma RefusedQueue(c: Crypto, n: NodeState, call: Call)
    requires MoneyInv(n) && PowSound(c) && RoomFor(c, n, call.block, call.now)
    requires !Accepts(c, n, call)
    ensures var m := After(c, n, call); m.refiners.queue == n.refiners.queue && m.accounts == n.accounts && m.chain.height == n.chain.height
  {
    StepConserves(c, n, call);
    hide MoneyInv, PowSound, RoomFor, Accepts, After, StoppedAt;
  }

  // ---- Runs ----

  /** In every reachable state the queue is sorted by maturity, and every withdrawal
      in it matures after this block and at most one epoch later. */
  lemma {:induction false} QueueInWindow(c: Crypto, n: NodeState, calls: seq<Call>)
    requires IsGenesis(n) && PowSound(c) && Roomy(c, n, calls)
    ensures QueueWindow(Run(c, n, calls))
  {
    hide IsGenesis, PowSound, RoomFor, After, Accepts;
    if calls == [] {
      GenesisBalances(n);
    } else {
      var init, last := calls[..|calls| - 1], calls[|calls| - 1];
      var m := Run(c, n, init);
      QueueInWindow(c, n, init);
      SupplyConserved(c, n, init);
      WindowStep(c, m, last);
    }
  }

  lemma WindowStep(c: Crypto, n: NodeState, call: Call)
    requires MoneyInv(n) && PowSound(c) && RoomFor(c, n, call.block, call.now) && QueueWindow(n)
    ensures QueueWindow(After(c, n, call))
  {
    if Accepts(c, n, call) {
      hide *;
      var kind, tr := AcceptedQueue(c, n, call, 0, 0);
      MovedWindow(n, tr, BlockUnbonds(c, call.block, tr), After(c, n, call), 0, 0);
    } else {
      hide After, Accepts, MoneyInv, PowSound, RoomFor;
      RefusedQueue(c, n, call);
    }
  }

  lemma MovedWindow(n: NodeState, tr: Trace, added: seq<PendingUnbond>, m: NodeState, id: ObjectId, at: nat)
    requires QueueMoved(n, tr, added, m, id, at)
    ensures QueueWindow(m)
    ensures !IsSlashed(m.refiners, id) && at > n.chain.height + 1 && at <= n.chain.height + EPOCH ==>
              QueuedAt(m.refiners.queue, id, at) == QueuedAt(n.refiners.queue, id, at)
    ensures !IsSlashed(m.refiners, id) ==>
              BalanceOf(m.accounts, id) == BalanceOf(tr.settled.accounts, id) + QueuedAt(n.refiners.queue, id, n.chain.height + 1)
  {
    hide QueueWindow, QueuedAt, IsSlashed, BalanceOf;
  }

  lemma StepWaits(c: Crypto, n: NodeState, call: Call, id: ObjectId, due: nat)
    requires MoneyInv(n) && PowSound(c) && RoomFor(c, n, call.block, call.now) && QueueWindow(n)
    requires After(c, n, call).chain.height < due <= n.chain.height + EPOCH
    requires !IsSlashed(After(c, n, call).refiners, id)
    ensures QueuedAt(After(c, n, call).refiners.queue, id, due) == QueuedAt(n.refiners.queue, id, due)
  {
    if Accepts(c, n, call) {
      hide *;
      var kind, tr := AcceptedQueue(c, n, call, id, due);
      MovedWindow(n, tr, BlockUnbonds(c, call.block, tr), After(c, n, call), id, due);
      AcceptedHeight(c, n, call);
    } else {
      hide After, Accepts, MoneyInv, PowSound, RoomFor, QueuedAt, QueueWindow;
      RefusedQueue(c, n, call);
    }
  }

  lemma {:induction false} AllDueTogether(queue: seq<PendingUnbond>, id: ObjectId, at: nat)
    requires forall i :: 0 <= i < |queue| ==> queue[i].maturesAt == at
    ensures QueuedAt(queue, id, at) == QueuedFor(queue, id)
  {
    if queue != [] { AllDueTogether(queue[..|queue| - 1], id, at); }
  }

  /** What an accepted block at height `h` leaves queued for `h + EPOCH` is exactly
      what its own transactions unbonded. */
  lemma UnbondsJoinForOneEpoch(c: Crypto, n: NodeState, call: Call, id: ObjectId) returns (kind: ProductionKind, tr: Trace)
    requires MoneyInv(n) && PowSound(c) && RoomFor(c, n, call.block, call.now) && QueueWindow(n)
    requires Accepts(c, n, call) && !IsSlashed(After(c, n, call).refiners, id)
    ensures Traced(c, AfterAttesting(c, n, call.block), call.block, kind, call.now, tr)
    ensures var due := n.chain.height + 1 + EPOCH;
      QueuedAt(After(c, n, call).refiners.queue, id, due) == QueuedFor(BlockUnbonds(c, call.block, tr), id)
  {
    hide *;
    var due := n.chain.height + 1 + EPOCH;
    DueFits(c, n, call.block, call.now);
    NoneDueBeyond(n, id, due);
    kind, tr := AcceptedQueue(c, n, call, id, due);
    var added := BlockUnbonds(c, call.block, tr);
    JoinAt(n, tr, added, After(c, n, call), id, due);
    CallIsApply(c, n, call);
    var k, t := AcceptedTrace(c, n, call.block, call.now);
    AllUnbondsDue(c, call.block, tr);
    AllDueTogether(added, id, due);
  }

  lemma DueFits(c: Crypto, n: NodeState, block: Block, now: u64)
    requires RoomFor(c, n, block, now)
    ensures n.chain.height + EPOCH < n.chain.height + 1 + EPOCH <= U64_MAX
  {
    hide GrossReward;
  }

  lemma NoneDueBeyond(n: NodeState, id: ObjectId, at: nat)
    requires QueueWindow(n) && at > n.chain.height + EPOCH
    ensures QueuedAt(n.refiners.queue, id, at) == 0
  {
    QueuedAtWithin(n.refiners.queue, id, at);
  }

  lemma JoinAt(n: NodeState, tr: Trace, added: seq<PendingUnbond>, m: NodeState, id: ObjectId, at: nat)
    requires QueueMoved(n, tr, added, m, id, at) && at == n.chain.height + 1 + EPOCH
    ensures !IsSlashed(m.refiners, id) ==> QueuedAt(m.refiners.queue, id, at) == QueuedAt(n.refiners.queue, id, at) + QueuedAt(added, id, at)
  {
    hide QueueWindow, QueuedAt, IsSlashed, BalanceOf;
  }

  lemma AllUnbondsDue(c: Crypto, block: Block, tr: Trace)
    requires block.header.height <= U64_MAX - EPOCH
    ensures forall i :: 0 <= i < |BlockUnbonds(c, block, tr)| ==> BlockUnbonds(c, block, tr)[i].maturesAt == block.header.height + EPOCH
  {
    hide NewUnbonds, RunTransactions, StartTally;
    RunTransactionsQueue(c, block.transactions, StartTally(tr.slashed, tr.rewarded), ContextOf(tr.slashed, block.header));
  }

  lemma AcceptedHeight(c: Crypto, n: NodeState, call: Call)
    requires MoneyInv(n) && PowSound(c) && RoomFor(c, n, call.block, call.now) && Accepts(c, n, call)
    ensures After(c, n, call).chain.height == n.chain.height + 1
  {
    hide *;
    CallIsApply(c, n, call);
    var kind, tr := AcceptedMoves(c, n, call.block, call.now);
    MovedHeight(c, n, call.block, tr, After(c, n, call));
  }

  lemma MovedHeight(c: Crypto, n: NodeState, block: Block, tr: Trace, m: NodeState)
    requires ChainMoved(c, n, block, tr, m)
    ensures m.chain.height == block.header.height
  {
    hide AfterAttesting, Reseated, RecordReceipt, ReceiptOf, Saved, Difficulty.Prune;
  }

  /** A withdrawal waits untouched for as long as it is not due and its refiner is
      not slashed, whatever else the chain does. */
  lemma {:induction false} WithdrawalWaits(c: Crypto, n: NodeState, calls: seq<Call>, more: seq<Call>, id: ObjectId, due: nat)
    requires IsGenesis(n) && PowSound(c) && Roomy(c, n, calls + more)
    requires Run(c, n, calls + more).chain.height < due <= Run(c, n, calls).chain.height + EPOCH
    requires !IsSlashed(Run(c, n, calls + more).refiners, id)
    ensures QueuedAt(Run(c, n, calls + more).refiners.queue, id, due) == QueuedAt(Run(c, n, calls).refiners.queue, id, due)
    ensures Run(c, n, calls).chain.height <= Run(c, n, calls + more).chain.height
    decreases |more|
  {
    hide *;
    if more == [] {
      assert calls + more == calls;
    } else {
      var init, last := more[..|more| - 1], more[|more| - 1];
      var m := Run(c, n, calls + init);
      assert (calls + more)[..|calls + more| - 1] == calls + init;
      RunStep(c, n, calls + more);
      SupplyConserved(c, n, calls + init);
      QueueInWindow(c, n, calls + init);
      StepConserves(c, m, last);
      HeightStep(c, m, last);
      WithdrawalWaits(c, n, calls, init, id, due);
      StepWaits(c, m, last, id, due);
    }
  }

  lemma HeightStep(c: Crypto, n: NodeState, call: Call)
    requires MoneyInv(n) && PowSound(c) && RoomFor(c, n, call.block, call.now)
    ensures After(c, n, call).chain.height == if Accepts(c, n, call) then n.chain.height + 1 else n.chain.height
  {
    hide *;
    if Accepts(c, n, call) { AcceptedHeight(c, n, call); } else { RefusedQueue(c, n, call); }
  }

  /** The whole life of an unbond: what the block at height `h` queued for a refiner
      is still there just before height `h + EPOCH`, and the block accepted at that
      height credits all of it, unless the refiner is slashed first. */
  lemma UnbondPaidOneEpochLater(c: Crypto, n: NodeState, calls: seq<Call>, more: seq<Call>, call: Call, id: ObjectId) returns (kind: ProductionKind, tr: Trace)
    requires IsGenesis(n) && PowSound(c) && Roomy(c, n, calls + more + [call])
    requires Run(c, n, calls + more).chain.height + 1 == Run(c, n, calls).chain.height + EPOCH
    requires Accepts(c, Run(c, n, calls + more), call)
    requires !IsSlashed(Run(c, n, calls + more + [call]).refiners, id)
    ensures Traced(c, AfterAttesting(c, Run(c, n, calls + more), call.block), call.block, kind, call.now, tr)
    ensures var queued := QueuedAt(Run(c, n, calls).refiners.queue, id, Run(c, n, calls).chain.height + EPOCH);
            var m := Run(c, n, calls + more + [call]);
      && m.chain.height == Run(c, n, calls).chain.height + EPOCH
      && BalanceOf(m.accounts, id) == BalanceOf(tr.settled.accounts, id) + queued
  {
    hide *;
    var before := calls + more;
    var m := Run(c, n, before);
    assert (before + [call])[..|before + [call]| - 1] == before;
    RunStep(c, n, before + [call]);
    SupplyConserved(c, n, before);
    QueueInWindow(c, n, before);
    StepConserves(c, m, call);
    HeightStep(c, m, call);
    WithdrawalWaits(c, n, calls, more, id, m.chain.height + 1);
    kind, tr := AcceptedQueue(c, m, call, id, 0);
    MovedWindow(m, tr, BlockUnbonds(c, call.block, tr), After(c, m, call), id, 0);
  }
}
