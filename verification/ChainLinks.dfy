/** The chain of accepted blocks: links, state roots, signatures and the pool. */
module ChainLinks {
  import opened Numbers
  import opened Emission
  import opened Difficulty
  import opened Collections
  import opened Ledger
  import opened Types
  import opened Refiner
  import opened RefinerInvariant
  import opened BlockValidation
  import opened Chain
  import opened BlockApplication
  import opened Supply
  import opened BlockLaws
  import opened Genesis
  import opened Runs
  import opened History

  /** The root of a node's state, were its refiner records `infos`. */
  function RootOver(c: Crypto, n: NodeState, infos: Infos): Hash {
    c.stateRoot(n.accounts, infos, n.refiners.queue, n.chain.issued, n.chain.burned, n.chain.height)
  }

  /** The chain's state root is that of the node's present state. */
  ghost predicate RootCurrent(c: Crypto, n: NodeState) {
    n.chain.stateRoot == RootOver(c, n, n.refiners.infos)
  }

  /** How an accepted block extends the chain. */
  ghost predicate Extends(c: Crypto, n: NodeState, block: Block, now: u64, m: NodeState) {
    var header := block.header;
    && header.previousHash == n.chain.latestHash && header.stateRoot == n.chain.stateRoot
    && m.chain.latestHash == c.blockHash(header)
    && RootCurrent(c, m)
    && m.pool == PoolAfter(n.pool - TxIds(block.transactions), header.height, now)
    && (forall k :: k in n.chain.signatures ==> k in m.chain.signatures && m.chain.signatures[k] == n.chain.signatures[k])
    && m.chain.suggestedFee >= MIN_FEE
  }

  lemma AdmittedLink(c: Crypto, n: NodeState, block: Block, now: u64)
    requires AdmissionError(c, n, block, now).None?
    ensures block.header.previousHash == n.chain.latestHash && block.header.stateRoot == n.chain.stateRoot
  {
    hide BodyError, ProofError, NextDifficulty, TotalBonded, KindOf;
  }

  lemma ClosedRoot(c: Crypto, n: NodeState, block: Block, f: Flows)
    ensures var m := Close(c, n, block, f);
      && m.chain.latestHash == n.chain.latestHash && m.chain.signatures == n.chain.signatures
      && m.chain.suggestedFee == n.chain.suggestedFee && m.pool == n.pool
      && (RefInv(n.refiners) ==> RootCurrent(c, m))
  {
    if RefInv(n.refiners) { ReseatedKeeps(n.refiners, n.chain.height, n.chain.issued); }
    hide Reseated, RecordReceipt, ReceiptOf, Saved, RefInv, OnlyStatuses, Custody;
  }

  lemma SlashedSignatures(c: Crypto, n: NodeState, block: Block)
    ensures forall k :: k in n.chain.signatures ==>
              k in AfterSlashing(c, n, block).chain.signatures && AfterSlashing(c, n, block).chain.signatures[k] == n.chain.signatures[k]
    ensures AfterSlashing(c, n, block).pool == n.pool
  {
    hide Slashings;
  }

  lemma SettledTip(c: Crypto, block: Block, now: u64, tr: Trace)
    requires TracedEnd(c, block, now, tr)
    ensures tr.paid.chain.latestHash == c.blockHash(block.header)
    ensures tr.paid.chain.signatures == tr.slashed.chain.signatures
    ensures tr.paid.chain.suggestedFee >= MIN_FEE
    ensures tr.paid.pool == PoolAfter(tr.tally.pool, block.header.height, now)
  {
    hide PayProducer, PoolAfter, Prune, CreditAll, PlanCredits, PlanCreditable, ProcessMatured, Matured;
  }

  lemma {:induction false} PoolAfterRun(c: Crypto, txs: seq<Transaction>, t: Tally, ctx: Dispatcher.Context)
    ensures RunTransactions(c, txs, t, ctx).1.None? ==> RunTransactions(c, txs, t, ctx).0.pool == t.pool - TxIds(txs)
    decreases |txs|
  {
    hide Executed, ResultOf;
    if txs == [] {
      assert t.pool - TxIds(txs) == t.pool;
    } else {
      var charged := Charge(Executed(c, txs[0], t, ctx), ResultOf(c, txs[0], t, ctx), txs[0].fee);
      ExecutedPool(c, txs[0], t, ctx);
      if charged.Some? {
        assert charged.value.pool == t.pool;
        PoolAfterRun(c, txs[1..], charged.value.(pool := charged.value.pool - {txs[0].txId}), ctx);
        RemainingIds(txs);
        assert t.pool - {txs[0].txId} - TxIds(txs[1..]) == t.pool - TxIds(txs);
      }
    }
  }

  lemma ExecutedPool(c: Crypto, tx: Transaction, t: Tally, ctx: Dispatcher.Context)
    ensures Executed(c, tx, t, ctx).pool == t.pool
  {
    hide Dispatcher.ApplyTransaction;
  }

  lemma StartPool(c: Crypto, n: NodeState, block: Block, kind: ProductionKind, tr: Trace)
    requires TracedStart(c, n, block, kind, tr)
    ensures tr.tally.pool == n.pool - TxIds(block.transactions)
    ensures forall k :: k in n.chain.signatures ==> k in tr.slashed.chain.signatures && tr.slashed.chain.signatures[k] == n.chain.signatures[k]
  {
    hide AfterSlashing, RunTransactions, PayProducer, BlockFlows, NetReward, TxIds;
    SlashedSignatures(c, n, block);
    PoolAfterRun(c, block.transactions, StartTally(tr.slashed, tr.rewarded), ContextOf(n, block.header));
  }

  lemma TracedTip(c: Crypto, n: NodeState, block: Block, kind: ProductionKind, now: u64, tr: Trace)
    requires Traced(c, n, block, kind, now, tr) && SoundTrace(tr)
    requires block.header.previousHash == n.chain.latestHash && block.header.stateRoot == n.chain.stateRoot
    ensures Extends(c, n, block, now, Close(c, tr.paid, block, tr.flows))
  {
    hide TracedStart, TracedEnd, Execute, RefInv, AccountsOk, Balanced, IsSlashed, Close, RootCurrent, PoolAfter, TxIds;
    StartPool(c, n, block, kind, tr);
    SettledTip(c, block, now, tr);
    ClosedRoot(c, tr.paid, block, tr.flows);
  }

  lemma ExtendsFrom(c: Crypto, n: NodeState, k: NodeState, block: Block, now: u64, m: NodeState)
    requires OnlyAttested(n, k) && Extends(c, k, block, now, m)
    ensures Extends(c, n, block, now, m)
  {
    hide OnlyLiveness, RootCurrent, PoolAfter, TxIds;
  }

  lemma ClearedAdmitted(c: Crypto, n: NodeState, block: Block, now: u64, kind: ProductionKind)
    requires Cleared(c, n, block, now, kind)
    ensures AdmissionError(c, n, block, now).None?
  {
    hide AdmissionError, Attested, ProducerError, KindOf;
  }

  lemma AttestedTip(n: NodeState, k: NodeState)
    requires OnlyAttested(n, k)
    ensures k.chain.latestHash == n.chain.latestHash && k.chain.stateRoot == n.chain.stateRoot
  {
    hide OnlyLiveness;
  }

  /** An accepted block names its parent by hash and commits to the state root before
      it; afterwards the tip is its hash, the state root is that of the new state, the
      pool holds none of its transactions, and no recorded signature was replaced. */
  lemma AcceptedExtends(c: Crypto, n: NodeState, call: Call)
    requires MoneyInv(n) && PowSound(c) && RoomFor(c, n, call.block, call.now) && Accepts(c, n, call)
    ensures Extends(c, n, call.block, call.now, After(c, n, call))
    ensures call.block.header.height == n.chain.height + 1
  {
    hide *;
    CallIsApply(c, n, call);
    var k := AfterAttesting(c, n, call.block);
    var kind, tr := AcceptedTrace(c, n, call.block, call.now);
    ClearedAdmitted(c, n, call.block, call.now, kind);
    AdmittedLink(c, n, call.block, call.now);
    AttestedTip(n, k);
    TracedTip(c, k, call.block, kind, call.now, tr);
    ExtendsFrom(c, n, k, call.block, call.now, After(c, n, call));
  }

  lemma OnlyAttestedRoot(c: Crypto, n: NodeState, m: NodeState)
    requires OnlyAttested(n, m) && RootCurrent(c, n)
    ensures m.chain.stateRoot == n.chain.stateRoot
    ensures RootCurrent(c, m) <==> RootOver(c, m, m.refiners.infos) == RootOver(c, m, n.refiners.infos)
    ensures m.refiners.infos == n.refiners.infos ==> RootCurrent(c, m)
  {
  }

  /** A refused block leaves the state root as it was. It still is the root of the
      node's state exactly when the records it left hash like the old ones, so in
      particular when no attestation was counted before the refusal. */
  lemma RefusedRoot(c: Crypto, n: NodeState, call: Call)
    requires MoneyInv(n) && PowSound(c) && RoomFor(c, n, call.block, call.now) && !Accepts(c, n, call) && RootCurrent(c, n)
    ensures var m := After(c, n, call);
      && m.chain.stateRoot == n.chain.stateRoot
      && (RootCurrent(c, m) <==> RootOver(c, m, m.refiners.infos) == RootOver(c, m, n.refiners.infos))
      && (m.refiners.infos == n.refiners.infos ==> RootCurrent(c, m))
  {
    hide *;
    StepConserves(c, n, call);
    OnlyAttestedRoot(c, n, After(c, n, call));
  }

  // ---- Runs ----

  /** The blocks a run accepted, in order. */
  ghost function AcceptedBlocks(c: Crypto, n: NodeState, calls: seq<Call>): seq<Block> {
    if calls == [] then []
    else
      var init, last := calls[..|calls| - 1], calls[|calls| - 1];
      if Accepts(c, Run(c, n, init), last) then AcceptedBlocks(c, n, init) + [last.block] else AcceptedBlocks(c, n, init)
  }

  /** Hash of block `i`, the genesis hash for -1. */
  ghost function LinkHash(c: Crypto, genesis: Hash, blocks: seq<Block>, i: int): Hash
    requires -1 <= i < |blocks|
  {
    if i < 0 then genesis else c.blockHash(blocks[i].header)
  }

  ghost predicate Linked(c: Crypto, genesis: Hash, blocks: seq<Block>) {
    forall i :: 0 <= i < |blocks| ==>
      blocks[i].header.previousHash == LinkHash(c, genesis, blocks, i - 1) && blocks[i].header.height == i + 1
  }

  lemma LinkAppend(c: Crypto, genesis: Hash, blocks: seq<Block>, block: Block)
    requires Linked(c, genesis, blocks)
    requires block.header.previousHash == LinkHash(c, genesis, blocks, |blocks| - 1) && block.header.height == |blocks| + 1
    ensures Linked(c, genesis, blocks + [block])
    ensures LinkHash(c, genesis, blocks + [block], |blocks|) == c.blockHash(block.header)
  {
    var longer := blocks + [block];
    forall i | 0 <= i < |longer| ensures longer[i].header.previousHash == LinkHash(c, genesis, longer, i - 1) && longer[i].header.height == i + 1 {
      assert i > 0 ==> longer[i - 1] == blocks[i - 1];
    }
  }

  /** The accepted blocks of a run form one hash chain from genesis, at heights
      1, 2, 3, …, and the tip is always the last of them. */
  lemma {:induction false} ChainIsLinked(c: Crypto, n: NodeState, calls: seq<Call>)
    requires IsGenesis(n) && PowSound(c) && Roomy(c, n, calls)
    ensures var blocks, m := AcceptedBlocks(c, n, calls), Run(c, n, calls);
      && Linked(c, n.chain.latestHash, blocks)
      && m.chain.height == |blocks|
      && m.chain.latestHash == LinkHash(c, n.chain.latestHash, blocks, |blocks| - 1)
  {
    hide IsGenesis, PowSound, RoomFor, After, Accepts;
    if calls == [] {
      GenesisBalances(n);
    } else {
      var init, last := calls[..|calls| - 1], calls[|calls| - 1];
      var m := Run(c, n, init);
      ChainIsLinked(c, n, init);
      SupplyConserved(c, n, init);
      LinkStep(c, m, last);
      if Accepts(c, m, last) { LinkAppend(c, n.chain.latestHash, AcceptedBlocks(c, n, init), last.block); }
    }
  }

  lemma LinkStep(c: Crypto, n: NodeState, call: Call)
    requires MoneyInv(n) && PowSound(c) && RoomFor(c, n, call.block, call.now)
    ensures var m, header := After(c, n, call), call.block.header;
      if Accepts(c, n, call) then
        && header.previousHash == n.chain.latestHash && header.height == n.chain.height + 1
        && m.chain.latestHash == c.blockHash(header) && m.chain.height == n.chain.height + 1
      else m.chain.latestHash == n.chain.latestHash && m.chain.height == n.chain.height
  {
    hide *;
    StepWindow(c, n, call);
    if Accepts(c, n, call) {
      AcceptedExtends(c, n, call);
      ExtendsLink(c, n, call.block, call.now, After(c, n, call));
    } else {
      StepConserves(c, n, call);
      AttestedTip(n, After(c, n, call));
    }
  }

  lemma ExtendsLink(c: Crypto, n: NodeState, block: Block, now: u64, m: NodeState)
    requires Extends(c, n, block, now, m)
    ensures block.header.previousHash == n.chain.latestHash && m.chain.latestHash == c.blockHash(block.header)
  {
    hide RootCurrent, PoolAfter, TxIds;
  }
}
