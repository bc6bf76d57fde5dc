/** The active-refiner limit, the fee market of refiner blocks and the mint ledger
    over runs. */
module Economy {
  import opened Numbers
  import opened Emission
  import opened Difficulty
  import opened Collections
  import opened Ledger
  import opened Types
  import opened Refiner
  import opened RefinerInvariant
  import opened EpochRanking
  import opened Dispatcher
  import opened Chain
  import opened BlockApplication
  import opened Supply
  import opened BlockLaws
  import opened Genesis
  import opened Runs
  import opened UnbondingQueue

  // ---- The active count through a block ----

  lemma {:induction false} SlashAllSeats(c: Crypto, evidence: seq<DoubleSignEvidence>, seen: set<(ObjectId, u64)>, s: Slashing)
    ensures |SlashAll(c, evidence, seen, s).refiners.active| <= |s.refiners.active|
    decreases |evidence|
  {
    hide SlashOne, EvidenceHolds;
    if evidence != [] {
      var e := evidence[0];
      if (e.producer, e.height) in seen || !EvidenceHolds(c, e) {
        SlashAllSeats(c, evidence[1..], seen, s);
      } else {
        SlashOneSeats(s, e.producer);
        SlashAllSeats(c, evidence[1..], seen + {(e.producer, e.height)}, SlashOne(s, e.producer));
      }
    }
  }

  lemma SlashOneSeats(s: Slashing, id: ObjectId)
    ensures |SlashOne(s, id).refiners.active| <= |s.refiners.active|
  {
    RetainKeeps(s.refiners.active, {id});
    hide Retain, WithoutAccount, QueuedFor, TotalStake, Zeroed;
  }

  lemma ExecutedSeats(c: Crypto, tx: Transaction, t: Tally, ctx: Context)
    ensures |Executed(c, tx, t, ctx).refiners.active| <= |t.refiners.active|
  {
    RetainKeeps(t.refiners.active, {tx.sender});
    hide Retain, BondAssay, UnbondAssay, MinimumBond, DropFlakes, AddEntry, Ledger.Transfer, Verified;
  }

  lemma {:induction false} RunTransactionsSeats(c: Crypto, txs: seq<Transaction>, t: Tally, ctx: Context)
    ensures |RunTransactions(c, txs, t, ctx).0.refiners.active| <= |t.refiners.active|
    decreases |txs|
  {
    hide Charge, Executed, ResultOf;
    if txs != [] {
      var executed := Executed(c, txs[0], t, ctx);
      ExecutedSeats(c, txs[0], t, ctx);
      ChargeKeepsRefiners(executed, ResultOf(c, txs[0], t, ctx), txs[0].fee);
      var charged := Charge(executed, ResultOf(c, txs[0], t, ctx), txs[0].fee);
      if charged.Some? {
        RunTransactionsSeats(c, txs[1..], charged.value.(pool := charged.value.pool - {txs[0].txId}), ctx);
      }
    }
  }

  lemma ReseatedSeats(r: RefinerState, height: u64, issued: u64)
    requires RefInv(r) && Staked(r.infos) <= U64_MAX
    ensures |Reseated(r, height, issued).active| <= Max(|r.active|, ActiveLimit(issued))
  {
    ActivationKeeps(r, height);
    var activated := ActivateMatured(r, height);
    assert PlainStakes(activated.infos) == PlainStakes(r.infos);
    hide RefInv, ActiveLimit, Rerank, PlainStakes;
    RerankBounded(activated, issued);
  }

  lemma StartSeats(c: Crypto, n: NodeState, block: Block, kind: ProductionKind, tr: Trace)
    requires TracedStart(c, n, block, kind, tr)
    ensures |tr.tally.refiners.active| <= |n.refiners.active|
  {
    SlashAllSeats(c, block.slashEvidence, {}, Slashing(n.refiners, n.chain.burned, 0));
    RunTransactionsSeats(c, block.transactions, StartTally(tr.slashed, tr.rewarded), ContextOf(n, block.header));
    hide RunTransactions, SlashAll, PayProducer, NetReward, BlockFlows, NoteSignature;
  }

  lemma EndSeats(c: Crypto, block: Block, now: u64, tr: Trace)
    requires TracedEnd(c, block, now, tr)
    ensures |tr.paid.refiners.active| <= |tr.tally.refiners.active|
  {
    var r, height := tr.settled.refiners, tr.settled.chain.height;
    RetainKeeps(r.active, Departing(r, height, Matured(r.queue, height)));
    hide Retain, Departing, CreditAll, PlanCredits, PlanCreditable, PayProducer, PoolAfter, SuggestedFee, Prune;
  }

  lemma TracedSeats(c: Crypto, n: NodeState, block: Block, kind: ProductionKind, now: u64, tr: Trace)
    requires Traced(c, n, block, kind, now, tr) && SoundTrace(tr)
    ensures var m := Close(c, tr.paid, block, tr.flows);
      |m.refiners.active| <= Max(|n.refiners.active|, ActiveLimit(m.chain.issued))
  {
    hide TracedStart, TracedEnd, Execute, SoundTrace, RefInv, ActiveLimit, Staked, Close, Reseated;
    SoundPaid(tr);
    StartSeats(c, n, block, kind, tr);
    EndSeats(c, block, now, tr);
    ReseatedSeats(tr.paid.refiners, tr.paid.chain.height, tr.paid.chain.issued);
    CloseFields(c, tr.paid, block, tr.flows);
  }

  lemma SoundPaid(tr: Trace)
    requires SoundTrace(tr)
    ensures RefInv(tr.paid.refiners) && Staked(tr.paid.refiners.infos) <= U64_MAX
  {
    hide RefInv, AccountsOk, Staked, QueueTotal, TotalBalance, IsSlashed;
  }

  // ---- One call ----

  /** What an accepted block reports and burns. */
  ghost predicate FlowsReported(c: Crypto, n: NodeState, block: Block, f: Flows, m: NodeState) {
    var receipt := ReceiptOf(c, block.header, f);
    && m.chain.ledger == RecordReceipt(n.chain.ledger, receipt)
    && (m.store.Some? ==> m.chain.height in m.store.value.receipts && m.store.value.receipts[m.chain.height] == receipt)
    && m.chain.issued == (n.chain.issued as int) + f.gross
    && m.chain.burned == (n.chain.burned as int) + f.slashed + f.feesBurned + f.assays + f.mineAssay
    && receipt.totalBurned == m.chain.burned - n.chain.burned
    && (f.feesBurned as int) + f.refinerIncome == f.fees
    && (f.mineAssay as int) + f.minerCredit == f.gross
    && (!f.kind.Mined? ==> f.gross == 0) && (!f.kind.Refined? ==> f.refinerIncome == 0)
    && (f.kind.Refined? && |n.refiners.active| <= ActiveLimit(n.chain.issued) ==> 2 * f.feesBurned <= f.fees)
  }

  lemma ReceiptTotals(c: Crypto, header: BlockHeader, f: Flows)
    requires (f.slashed as int) + f.feesBurned + f.assays + f.mineAssay <= U64_MAX
    ensures ReceiptOf(c, header, f).totalBurned == (f.slashed as int) + f.feesBurned + f.assays + f.mineAssay
  {
    hide VeinYieldMilli;
  }

  lemma MovedTotals(c: Crypto, n: NodeState, block: Block, tr: Trace, m: NodeState)
    requires ChainMoved(c, n, block, tr, m)
    ensures (tr.flows.slashed as int) + tr.flows.feesBurned + tr.flows.assays + tr.flows.mineAssay <= U64_MAX
    ensures n.chain.issued <= m.chain.issued
  {
    hide AfterAttesting, Reseated, RecordReceipt, ReceiptOf, Saved, Prune;
  }

  lemma SameSeats(n: NodeState, k: NodeState)
    requires OnlyAttested(n, k)
    ensures k.refiners.active == n.refiners.active && k.chain.issued == n.chain.issued
  {
  }

  lemma AssembleReport(c: Crypto, n: NodeState, block: Block, tr: Trace, m: NodeState)
    requires ChainMoved(c, n, block, tr, m)
    requires var f := tr.flows;
      && ReceiptOf(c, block.header, f).totalBurned == (f.slashed as int) + f.feesBurned + f.assays + f.mineAssay
      && (f.feesBurned as int) + f.refinerIncome == f.fees
      && (f.mineAssay as int) + f.minerCredit == f.gross
      && (!f.kind.Mined? ==> f.gross == 0) && (!f.kind.Refined? ==> f.refinerIncome == 0)
      && (f.kind.Refined? && |n.refiners.active| <= ActiveLimit(n.chain.issued) ==> 2 * f.feesBurned <= f.fees)
    ensures FlowsReported(c, n, block, tr.flows, m)
  {
    hide AfterAttesting, Reseated, RecordReceipt, ReceiptOf, Prune, ActiveLimit;
  }

  lemma ReportMoves(c: Crypto, n: NodeState, block: Block, kind: ProductionKind, now: u64, tr: Trace, m: NodeState)
    requires ChainMoved(c, n, block, tr, m) && OnlyAttested(n, AfterAttesting(c, n, block))
    requires Executable(c, AfterAttesting(c, n, block), block, kind)
    requires Traced(c, AfterAttesting(c, n, block), block, kind, now, tr)
    ensures FlowsReported(c, n, block, tr.flows, m)
  {
    hide *;
    var k := AfterAttesting(c, n, block);
    SameSeats(n, k);
    TracedParts(c, k, block, kind, now, tr);
    BlockFlowsAddUp(c, k, block, kind, tr.tally);
    MovedTotals(c, n, block, tr, m);
    ReceiptTotals(c, block.header, tr.flows);
    AssembleReport(c, n, block, tr, m);
  }

  ghost predicate SeatsOk(n: NodeState) { |n.refiners.active| <= ActiveLimit(n.chain.issued) }

  lemma SeatsMove(c: Crypto, n: NodeState, block: Block, kind: ProductionKind, now: u64, tr: Trace, m: NodeState)
    requires ChainMoved(c, n, block, tr, m) && OnlyAttested(n, AfterAttesting(c, n, block))
    requires Traced(c, AfterAttesting(c, n, block), block, kind, now, tr) && SoundTrace(tr)
    requires m == Close(c, tr.paid, block, tr.flows) && SeatsOk(n)
    ensures SeatsOk(m)
  {
    hide AfterAttesting, Traced, SoundTrace, Close, ActiveLimit, ChainMoved, OnlyAttested;
    SameSeats(n, AfterAttesting(c, n, block));
    MovedTotals(c, n, block, tr, m);
    TracedSeats(c, AfterAttesting(c, n, block), block, kind, now, tr);
    ActiveLimitMonotone(n.chain.issued, m.chain.issued);
  }

  /** The fee income reaches the producer's balance and no other. */
  ghost predicate IncomePaid(block: Block, tr: Trace) {
    var before, after, producer := tr.tally.accounts, tr.settled.accounts, block.header.producer;
    && BalanceOf(after, producer) == BalanceOf(before, producer) + tr.flows.refinerIncome
    && after - {producer} == before - {producer}
  }

  lemma PayProducerPays(a: Accounts, producer: ObjectId, amount: u64)
    requires producer != 0 && PayProducer(a, producer, amount).Ok?
    ensures var b := PayProducer(a, producer, amount).value;
      BalanceOf(b, producer) == BalanceOf(a, producer) + amount && b - {producer} == a - {producer}
  {
  }

  lemma TracedIncome(c: Crypto, n: NodeState, block: Block, kind: ProductionKind, now: u64, tr: Trace)
    requires Traced(c, n, block, kind, now, tr) && Executable(c, n, block, kind) && !kind.GenesisKind?
    ensures IncomePaid(block, tr)
  {
    TracedParts(c, n, block, kind, now, tr);
    hide Traced, AfterSlashing, RunTransactions, PayProducer, PayMatured, BlockFlows, NetReward, GrossReward, BalanceOf;
    PayProducerPays(tr.tally.accounts, block.header.producer, tr.flows.refinerIncome);
  }

  /** Every accepted block reports exactly what it issued, paid and burned, pays its
      producer the reported fee income, and, as a refiner block within the seat limit,
      burns at most half its fees. */
  lemma AcceptedReport(c: Crypto, n: NodeState, call: Call) returns (tr: Trace)
    requires MoneyInv(n) && PowSound(c) && RoomFor(c, n, call.block, call.now) && Accepts(c, n, call)
    ensures FlowsReported(c, n, call.block, tr.flows, After(c, n, call))
    ensures KindOf(call.block.header) == Some(tr.flows.kind)
    ensures Traced(c, AfterAttesting(c, n, call.block), call.block, tr.flows.kind, call.now, tr) && IncomePaid(call.block, tr)
  {
    hide *;
    CallIsApply(c, n, call);
    var kind, t := AcceptedMoves(c, n, call.block, call.now);
    tr := t;
    ReportMoves(c, n, call.block, kind, call.now, tr, After(c, n, call));
    ClearedKind(c, n, call.block, call.now, kind);
    TracedIncome(c, AfterAttesting(c, n, call.block), call.block, kind, call.now, tr);
  }

  lemma ClearedKind(c: Crypto, n: NodeState, block: Block, now: u64, kind: ProductionKind)
    requires Cleared(c, n, block, now, kind)
    ensures KindOf(block.header) == Some(kind)
  {
    hide AdmissionError, Attested, ProducerError, KindOf;
  }

  lemma SeatsStep(c: Crypto, n: NodeState, call: Call)
    requires MoneyInv(n) && PowSound(c) && RoomFor(c, n, call.block, call.now) && SeatsOk(n)
    ensures SeatsOk(After(c, n, call))
  {
    hide *;
    CallIsApply(c, n, call);
    if Accepts(c, n, call) {
      var kind, tr := AcceptedTrace(c, n, call.block, call.now);
      AcceptedFields(c, n, call.block, kind, call.now, tr);
      SeatsMove(c, n, call.block, kind, call.now, tr, After(c, n, call));
    } else {
      StepConserves(c, n, call);
      RefusedSeats(n, After(c, n, call));
    }
  }

  lemma RefusedSeats(n: NodeState, m: NodeState)
    requires OnlyAttested(n, m)
    ensures SeatsOk(n) <==> SeatsOk(m)
    ensures m.chain.ledger == n.chain.ledger && m.chain.issued == n.chain.issued && m.chain.burned == n.chain.burned
  {
    hide ActiveLimit;
  }

  // ---- Runs ----

  /** In every reachable state at most `active_refiner_limit(total_issued)` refiners
      are active. */
  lemma {:induction false} ActiveWithinLimit(c: Crypto, n: NodeState, calls: seq<Call>)
    requires IsGenesis(n) && PowSound(c) && Roomy(c, n, calls)
    ensures SeatsOk(Run(c, n, calls))
  {
    hide IsGenesis, PowSound, RoomFor, After, ActiveLimit;
    if calls == [] {
      GenesisBalances(n);
    } else {
      var init, last := calls[..|calls| - 1], calls[|calls| - 1];
      ActiveWithinLimit(c, n, init);
      SupplyConserved(c, n, init);
      hide SeatsOk;
      SeatsStep(c, Run(c, n, init), last);
    }
  }

  /** A refiner block never burns more than half of its ordinary fees, and what it
      does not burn is exactly what its producer's balance gains. */
  lemma RefinerBlockBurnsAtMostHalf(c: Crypto, n: NodeState, calls: seq<Call>, call: Call) returns (tr: Trace)
    requires IsGenesis(n) && PowSound(c) && Roomy(c, n, calls + [call])
    requires Accepts(c, Run(c, n, calls), call) && KindOf(call.block.header) == Some(Refined)
    ensures Traced(c, AfterAttesting(c, Run(c, n, calls), call.block), call.block, Refined, call.now, tr)
    ensures FlowsReported(c, Run(c, n, calls), call.block, tr.flows, After(c, Run(c, n, calls), call))
    ensures var f, producer := tr.flows, call.block.header.producer;
      && 2 * f.feesBurned <= f.fees
      && BalanceOf(tr.settled.accounts, producer) == BalanceOf(tr.tally.accounts, producer) + (f.fees - f.feesBurned)
      && tr.settled.accounts - {producer} == tr.tally.accounts - {producer}
      && f.gross == 0
  {
    hide *;
    assert (calls + [call])[..|calls + [call]| - 1] == calls;
    RunStep(c, n, calls + [call]);
    SupplyConserved(c, n, calls);
    ActiveWithinLimit(c, n, calls);
    tr := AcceptedReport(c, Run(c, n, calls), call);
    ReportedHalf(c, Run(c, n, calls), call.block, tr.flows, After(c, Run(c, n, calls), call));
    IncomeParts(call.block, tr);
  }

  lemma IncomeParts(block: Block, tr: Trace)
    requires IncomePaid(block, tr)
    ensures BalanceOf(tr.settled.accounts, block.header.producer) == BalanceOf(tr.tally.accounts, block.header.producer) + tr.flows.refinerIncome
    ensures tr.settled.accounts - {block.header.producer} == tr.tally.accounts - {block.header.producer}
  {
    hide BalanceOf;
  }

  lemma ReportedHalf(c: Crypto, n: NodeState, block: Block, f: Flows, m: NodeState)
    requires FlowsReported(c, n, block, f, m) && SeatsOk(n) && f.kind.Refined?
    ensures 2 * f.feesBurned <= f.fees == (f.feesBurned as int) + f.refinerIncome
    ensures f.gross == 0
  {
    hide ReceiptOf, RecordReceipt, ActiveLimit;
  }

  /** The observability ledger adds up to the consensus totals. */
  ghost predicate LedgerAgrees(n: NodeState) {
    LedgerIssued(n.chain.ledger) == n.chain.issued && LedgerBurned(n.chain.ledger) == n.chain.burned
  }

  lemma LedgerMoves(c: Crypto, n: NodeState, block: Block, f: Flows, m: NodeState)
    requires FlowsReported(c, n, block, f, m) && LedgerAgrees(n)
    ensures LedgerAgrees(m)
  {
    RecordReceiptMoves(n.chain.ledger, ReceiptOf(c, block.header, f));
    hide RecordReceipt, LedgerIssued, LedgerBurned, VeinYieldMilli, ActiveLimit;
  }

  /** The mint ledger agrees with the chain totals after every call of a run. */
  lemma {:induction false} LedgerAlwaysAgrees(c: Crypto, n: NodeState, calls: seq<Call>)
    requires IsGenesis(n) && PowSound(c) && Roomy(c, n, calls)
    ensures LedgerAgrees(Run(c, n, calls))
  {
    hide IsGenesis, PowSound, RoomFor, After, Accepts;
    if calls == [] {
      GenesisBalances(n);
    } else {
      var init, last := calls[..|calls| - 1], calls[|calls| - 1];
      LedgerAlwaysAgrees(c, n, init);
      SupplyConserved(c, n, init);
      hide LedgerAgrees;
      LedgerStep(c, Run(c, n, init), last);
    }
  }

  lemma LedgerStep(c: Crypto, n: NodeState, call: Call)
    requires MoneyInv(n) && PowSound(c) && RoomFor(c, n, call.block, call.now) && LedgerAgrees(n)
    ensures LedgerAgrees(After(c, n, call))
  {
    hide MoneyInv, PowSound, RoomFor, After, Accepts, FlowsReported, StoppedAt, OnlyAttested;
    if Accepts(c, n, call) {
      var tr := AcceptedReport(c, n, call);
      LedgerMoves(c, n, call.block, tr.flows, After(c, n, call));
    } else {
      StepConserves(c, n, call);
      RefusedSeats(n, After(c, n, call));
    }
  }
}
