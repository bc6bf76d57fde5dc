/** What one call of `apply_block` guarantees, accepted or refused. */
module BlockLaws {
  import opened Numbers
  import opened Emission
  import opened Difficulty
  import opened Ledger
  import opened Types
  import opened Refiner
  import opened RefinerInvariant
  import opened BlockValidation
  import opened Chain
  import opened Finality
  import opened BlockApplication
  import opened Supply

  /** A refused block moves no money, changes no account, pool entry or stored
      block, and leaves the tip where it was; at most it recorded attestations,
      advanced finality on them and pruned the index. */
  ghost predicate OnlyAttested(n: NodeState, m: NodeState) {
    && m.accounts == n.accounts && m.pool == n.pool && m.store == n.store
    && m.chain == n.chain.(finality := m.chain.finality, finalizedHeight := m.chain.finalizedHeight)
    && OnlyLiveness(n.refiners, m.refiners)
  }

  /** The three places a refused block can stop. */
  ghost predicate StoppedAt(c: Crypto, n: NodeState, block: Block, now: u64, m: NodeState) {
    || m == n
    || (AdmissionError(c, n, block, now).None? && (m == WithProgress(n, Attested(c, n, block).0) || m == AfterAttesting(c, n, block)))
  }

  /** The checks a block has passed when it starts executing. */
  ghost predicate Cleared(c: Crypto, n: NodeState, block: Block, now: u64, kind: ProductionKind) {
    && AdmissionError(c, n, block, now).None?
    && Attested(c, n, block).1.None?
    && KindOf(block.header) == Some(kind)
    && ProducerError(c, AfterAttesting(c, n, block), block.header, kind).None?
  }

  /** The node once the attestations are counted and finality has advanced. */
  ghost function AfterAttesting(c: Crypto, n: NodeState, block: Block): NodeState {
    var progress := Attested(c, n, block).0;
    Finalized(WithProgress(n, progress), progress.touched, Threshold(n.refiners.infos))
  }

  /** Room for one more block: heights stay an epoch away from wrapping, and if the
      block passes its checks its gross reward fits the issuance counter. */
  ghost predicate RoomFor(c: Crypto, n: NodeState, block: Block, now: u64) {
    && n.chain.height < U64_MAX - EPOCH
    && forall kind :: Cleared(c, n, block, now, kind) ==>
         (n.chain.issued as int) + GrossReward(c, n.chain.baseReward, block.header, kind) <= U64_MAX
  }

  lemma RoomLeft(c: Crypto, n: NodeState, block: Block, now: u64)
    requires RoomFor(c, n, block, now)
    ensures n.chain.height < U64_MAX - EPOCH
  {
    hide Cleared, GrossReward;
  }

  lemma AttestingIsOnlyAttested(c: Crypto, n: NodeState, block: Block)
    ensures OnlyAttested(n, WithProgress(n, Attested(c, n, block).0))
    ensures OnlyAttested(n, AfterAttesting(c, n, block))
  {
    AttestOnlyLiveness(c, block.header.height, Blocks(n), Begin(n), block.attestations);
    hide Attest, NewlyFinalized, PruneIndex, OnlyLiveness, Threshold;
  }

  lemma OnlyAttestedKeepsMoney(n: NodeState, m: NodeState)
    requires MoneyInv(n) && OnlyAttested(n, m)
    ensures MoneyInv(m)
    ensures forall j :: IsSlashed(n.refiners, j) ==> IsSlashed(m.refiners, j)
  {
    LivenessKeeps(n.refiners, m.refiners);
    hide RefInv, Custody, TotalBalance, AccountsOk;
  }

  lemma AdmittedFacts(c: Crypto, n: NodeState, block: Block, now: u64)
    requires AdmissionError(c, n, block, now).None? && PowSound(c) && n.chain.height < U64_MAX
    ensures |block.transactions| <= MAX_TRANSACTIONS_PER_BLOCK
    ensures block.header.height == n.chain.height + 1
    ensures KindOf(block.header).Some? && !KindOf(block.header).value.GenesisKind? && block.header.producer != 0
    ensures KindOf(block.header) == Some(Mined) ==> block.header.difficulty <= 256
  {
    hide Validate, PowSound, NextDifficulty, TotalBonded, KindOf;
    ValidBlockFacts(c, block, ExpectedOf(n, now));
  }

  /** A cleared block is executable. */
  lemma ClearedExecutable(c: Crypto, n: NodeState, block: Block, now: u64, kind: ProductionKind)
    requires Cleared(c, n, block, now, kind) && PowSound(c) && RoomFor(c, n, block, now)
    ensures Executable(c, AfterAttesting(c, n, block), block, kind)
    ensures block.header.height == n.chain.height + 1
    ensures !kind.GenesisKind?
  {
    AdmittedFacts(c, n, block, now);
    AttestingIsOnlyAttested(c, n, block);
    hide AdmissionError, PowSound, GrossReward, AfterAttesting, ProducerError, Attested, OnlyLiveness, KindOf;
  }

  /** Either the block is refused early and only attestations were recorded, or
      it is cleared and `Execute` decides. */
  lemma ApplyBlockCases(c: Crypto, n: NodeState, block: Block, now: u64) returns (kind: Option<ProductionKind>)
    ensures kind.Some? ==>
              && Cleared(c, n, block, now, kind.value)
              && ApplyBlock(c, n, block, now) == Execute(c, AfterAttesting(c, n, block), block, kind.value, now)
    ensures kind.None? ==>
              && ApplyBlock(c, n, block, now).result.Err?
              && OnlyAttested(n, ApplyBlock(c, n, block, now).node)
              && StoppedAt(c, n, block, now, ApplyBlock(c, n, block, now).node)
              && (forall k :: !Cleared(c, n, block, now, k))
  {
    AttestingIsOnlyAttested(c, n, block);
    hide AdmissionError, Attested, Finalized, ProducerError, Execute, OnlyLiveness, Threshold;
    kind := KindOf(block.header);
    if AdmissionError(c, n, block, now).Some? || Attested(c, n, block).1.Some? {
      kind := None;
      if AdmissionError(c, n, block, now).Some? { NothingAttested(n); }
    } else {
      AdmittedKind(c, n, block, now);
      if ProducerError(c, AfterAttesting(c, n, block), block.header, kind.value).Some? { kind := None; }
    }
  }

  lemma NothingAttested(n: NodeState)
    ensures OnlyAttested(n, n)
  {
  }

  lemma AdmittedKind(c: Crypto, n: NodeState, block: Block, now: u64)
    requires AdmissionError(c, n, block, now).None?
    ensures KindOf(block.header).Some?
  {
  }

  /** Supply is conserved by every call, accepted or refused. A call that is refused
      moved nothing, so no overflow check can leave a block half applied. */
  lemma ApplyBlockConserves(c: Crypto, n: NodeState, block: Block, now: u64)
    requires MoneyInv(n) && PowSound(c) && RoomFor(c, n, block, now)
    ensures MoneyInv(ApplyBlock(c, n, block, now).node)
    ensures ApplyBlock(c, n, block, now).result.Err? ==>
              OnlyAttested(n, ApplyBlock(c, n, block, now).node) && StoppedAt(c, n, block, now, ApplyBlock(c, n, block, now).node)
    ensures forall j :: IsSlashed(n.refiners, j) ==> IsSlashed(ApplyBlock(c, n, block, now).node.refiners, j)
  {
    var kind := ApplyBlockCases(c, n, block, now);
    hide ApplyBlock, MoneyInv, IsSlashed, OnlyAttested, Cleared, StoppedAt;
    if kind.Some? {
      var m := AfterAttesting(c, n, block);
      AttestingIsOnlyAttested(c, n, block);
      OnlyAttestedKeepsMoney(n, m);
      ClearedExecutable(c, n, block, now, kind.value);
      var tr := ExecuteSucceeds(c, m, block, kind.value, now);
    } else {
      OnlyAttestedKeepsMoney(n, ApplyBlock(c, n, block, now).node);
    }
  }

  /** An accepted block went through every stage. */
  lemma AcceptedTrace(c: Crypto, n: NodeState, block: Block, now: u64) returns (kind: ProductionKind, tr: Trace)
    requires MoneyInv(n) && PowSound(c) && RoomFor(c, n, block, now)
    requires ApplyBlock(c, n, block, now).result.Ok?
    ensures Cleared(c, n, block, now, kind) && !kind.GenesisKind?
    ensures block.header.height == n.chain.height + 1
    ensures OnlyAttested(n, AfterAttesting(c, n, block)) && MoneyInv(AfterAttesting(c, n, block))
    ensures Traced(c, AfterAttesting(c, n, block), block, kind, now, tr) && SoundTrace(tr)
    ensures Executable(c, AfterAttesting(c, n, block), block, kind)
    ensures ApplyBlock(c, n, block, now).node == Close(c, tr.paid, block, tr.flows)
  {
    var k := ApplyBlockCases(c, n, block, now);
    hide ApplyBlock, MoneyInv, OnlyAttested, Cleared;
    kind := k.value;
    var m := AfterAttesting(c, n, block);
    AttestingIsOnlyAttested(c, n, block);
    OnlyAttestedKeepsMoney(n, m);
    ClearedExecutable(c, n, block, now, kind);
    tr := ExecuteSucceeds(c, m, block, kind, now);
    hide SoundTrace, Traced, AfterAttesting;
    TraceIsSound(c, m, block, kind, now, tr);
  }

  /** A block is accepted exactly when it passes every check made before anything
      but attestations is touched. */
  lemma AcceptedIffCleared(c: Crypto, n: NodeState, block: Block, now: u64)
    requires MoneyInv(n) && PowSound(c) && RoomFor(c, n, block, now)
    ensures ApplyBlock(c, n, block, now).result.Ok? <==> exists kind :: Cleared(c, n, block, now, kind)
  {
    var kind := ApplyBlockCases(c, n, block, now);
    AttestingIsOnlyAttested(c, n, block);
    hide ApplyBlock, MoneyInv, OnlyAttested, Cleared;
    if kind.Some? {
      OnlyAttestedKeepsMoney(n, AfterAttesting(c, n, block));
      ClearedExecutable(c, n, block, now, kind.value);
      var tr := ExecuteSucceeds(c, AfterAttesting(c, n, block), block, kind.value, now);
    }
  }

  /** Where every field of the chain state ends up after an accepted block. */
  ghost predicate ChainMoved(c: Crypto, n: NodeState, block: Block, tr: Trace, m: NodeState) {
    var header, f, attested := block.header, tr.flows, AfterAttesting(c, n, block).chain;
    && m.chain.height == header.height
    && m.chain.difficulty == header.difficulty
    && m.chain.timestamps == Prune(n.chain.timestamps + [header.timestamp])
    && m.chain.latestHash == c.blockHash(header)
    && m.chain.issued == (n.chain.issued as int) + f.gross
    && m.chain.burned == (n.chain.burned as int) + f.slashed + f.feesBurned + f.assays + f.mineAssay
    && m.chain.baseReward == n.chain.baseReward
    && m.chain.finalizedHeight == attested.finalizedHeight
    && m.chain.finality == attested.finality
    && m.chain.ledger == RecordReceipt(n.chain.ledger, ReceiptOf(c, header, f))
    && m.store == Saved(n.store, block, ReceiptOf(c, header, f), SnapshotOf(m))
    && m.accounts == tr.paid.accounts
    && m.refiners == Reseated(tr.paid.refiners, header.height, m.chain.issued)
    && m.pool == tr.settled.pool
  }

  lemma StartFields(c: Crypto, n: NodeState, block: Block, kind: ProductionKind, tr: Trace)
    requires MoneyInv(n) && TracedStart(c, n, block, kind, tr)
    ensures tr.slashed.chain == n.chain.(burned := tr.slashed.chain.burned, signatures := tr.slashed.chain.signatures)
    ensures tr.slashed.chain.burned == (n.chain.burned as int) + tr.flows.slashed
    ensures tr.slashed.store == n.store && tr.slashed.pool == n.pool && tr.slashed.accounts == n.accounts
    ensures tr.flows.kind == kind && tr.flows.gross == Gross(c, n, block, kind)
  {
    SlashStageKeeps(c, n, block);
    FlowsAddUp(Gross(c, n, block, kind), block.header.difficulty, kind, tr.tally, |n.refiners.active|, ActiveLimit(n.chain.issued), Slashings(c, n, block).slashed);
    hide MoneyInv, PayProducer, RunTransactions, NetReward, GrossReward, SlashAll, NoteSignature, FlowsOf, ActiveLimit;
  }

  lemma EndFields(c: Crypto, block: Block, now: u64, tr: Trace)
    requires TracedEnd(c, block, now, tr)
    ensures var before, after := tr.slashed.chain, tr.paid.chain;
      && after.height == block.header.height && after.difficulty == block.header.difficulty
      && after.timestamps == Prune(before.timestamps + [block.header.timestamp])
      && after.latestHash == c.blockHash(block.header)
      && after.issued == (before.issued as int) + tr.flows.gross
      && after.burned == (before.burned as int) + tr.flows.feesBurned + tr.flows.assays + tr.flows.mineAssay
      && after.baseReward == before.baseReward && after.ledger == before.ledger
      && after.finalizedHeight == before.finalizedHeight && after.finality == before.finality
    ensures tr.paid.store == tr.slashed.store && tr.paid.pool == tr.settled.pool && tr.paid.chain == tr.settled.chain
  {
    hide PayProducer, PoolAfter, SuggestedFee, Prune, CreditAll, PlanCredits, PlanCreditable, ProcessMatured, Matured;
  }

  lemma CloseFields(c: Crypto, n: NodeState, block: Block, f: Flows)
    ensures var m, receipt := Close(c, n, block, f), ReceiptOf(c, block.header, f);
      && m.chain == n.chain.(stateRoot := m.chain.stateRoot, ledger := RecordReceipt(n.chain.ledger, receipt))
      && m.store == Saved(n.store, block, receipt, SnapshotOf(m))
      && m.accounts == n.accounts && m.pool == n.pool
      && m.refiners == Reseated(n.refiners, n.chain.height, n.chain.issued)
  {
    hide Reseated, ReceiptOf, RecordReceipt, Saved;
  }

  lemma AcceptedFields(c: Crypto, n: NodeState, block: Block, kind: ProductionKind, now: u64, tr: Trace)
    requires OnlyAttested(n, AfterAttesting(c, n, block)) && MoneyInv(AfterAttesting(c, n, block))
    requires Traced(c, AfterAttesting(c, n, block), block, kind, now, tr)
    ensures ChainMoved(c, n, block, tr, Close(c, tr.paid, block, tr.flows))
    ensures tr.flows.kind == kind && tr.flows.gross == GrossReward(c, n.chain.baseReward, block.header, kind)
  {
    var m := AfterAttesting(c, n, block);
    hide TracedStart, TracedEnd, MoneyInv, AfterAttesting, OnlyLiveness, Execute;
    StartFields(c, m, block, kind, tr);
    EndFields(c, block, now, tr);
    CloseFields(c, tr.paid, block, tr.flows);
    hide Close, Reseated, RecordReceipt, ReceiptOf, Saved, Prune, GrossReward;
  }

  /** Everything known about an accepted block: its trace and where it leaves the
      node. */
  lemma AcceptedMoves(c: Crypto, n: NodeState, block: Block, now: u64) returns (kind: ProductionKind, tr: Trace)
    requires MoneyInv(n) && PowSound(c) && RoomFor(c, n, block, now)
    requires ApplyBlock(c, n, block, now).result.Ok?
    ensures Cleared(c, n, block, now, kind) && !kind.GenesisKind? && block.header.height == n.chain.height + 1
    ensures OnlyAttested(n, AfterAttesting(c, n, block)) && MoneyInv(AfterAttesting(c, n, block))
    ensures Traced(c, AfterAttesting(c, n, block), block, kind, now, tr) && SoundTrace(tr)
    ensures Executable(c, AfterAttesting(c, n, block), block, kind)
    ensures ChainMoved(c, n, block, tr, ApplyBlock(c, n, block, now).node)
    ensures tr.flows.kind == kind && tr.flows.gross == GrossReward(c, n.chain.baseReward, block.header, kind)
  {
    hide *;
    kind, tr := AcceptedTrace(c, n, block, now);
    AcceptedFields(c, n, block, kind, now, tr);
  }
}
