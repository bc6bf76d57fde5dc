/** What a whole run leaves alone: liveness counters rise only with attestations, a
    registered key is never unset, and the base reward is fixed. */
module Liveness {
  import opened Numbers
  import opened Collections
  import opened Ledger
  import opened Types
  import opened Refiner
  import opened Dispatcher
  import opened Chain
  import opened Finality
  import opened BlockApplication
  import opened Supply
  import opened BlockLaws
  import opened Genesis
  import opened Runs
  import opened UnbondingQueue
  import opened Refusals

  // ---- Counters ----

  ghost predicate CountersAtMost(infos: Infos, bound: nat) {
    forall id :: id in infos ==> infos[id].attestations <= bound
  }

  lemma {:induction false} TimesWithin(done: seq<BlockAttestation>, id: ObjectId)
    ensures TimesCounted(done, id) <= |done|
  {
    if done != [] { TimesWithin(done[..|done| - 1], id); }
  }

  lemma ProgressCounters(n: NodeState, done: seq<BlockAttestation>, p: Progress, bound: nat)
    requires ProgressOf(n, done, p) && CountersAtMost(n.refiners.infos, bound)
    ensures CountersAtMost(p.refiners.infos, bound + |done|)
  {
    forall id ensures TimesCounted(done, id) <= |done| { TimesWithin(done, id); }
    hide TimesCounted, SeenIn, KeysIn, RefinersIn, AttestersIn;
  }

  lemma AttestedCounters(c: Crypto, n: NodeState, block: Block, bound: nat)
    requires CountersAtMost(n.refiners.infos, bound)
    ensures CountersAtMost(Attested(c, n, block).0.refiners.infos, bound + |block.attestations|)
    ensures CountersAtMost(AfterAttesting(c, n, block).refiners.infos, bound + |block.attestations|)
  {
    hide Attested, ProgressOf, CountersAtMost, Threshold;
    AttestedCounts(c, n, block);
    var done := CountedOf(c, n, block);
    ProgressCounters(n, done, Attested(c, n, block).0, bound);
    WidenCounters(Attested(c, n, block).0.refiners.infos, bound + |done|, bound + |block.attestations|);
  }

  lemma WidenCounters(infos: Infos, bound: nat, more: nat)
    requires CountersAtMost(infos, bound) && bound <= more
    ensures CountersAtMost(infos, more)
  {
  }

  lemma {:induction false} SlashAllCounters(c: Crypto, evidence: seq<DoubleSignEvidence>, seen: set<(ObjectId, u64)>, s: Slashing, bound: nat)
    requires CountersAtMost(s.refiners.infos, bound)
    ensures CountersAtMost(SlashAll(c, evidence, seen, s).refiners.infos, bound)
    decreases |evidence|
  {
    hide SlashOne, EvidenceHolds, CountersAtMost;
    if evidence != [] {
      var e := evidence[0];
      if (e.producer, e.height) in seen || !EvidenceHolds(c, e) {
        SlashAllCounters(c, evidence[1..], seen, s, bound);
      } else {
        SlashOneCounters(s, e.producer, bound);
        SlashAllCounters(c, evidence[1..], seen + {(e.producer, e.height)}, SlashOne(s, e.producer), bound);
      }
    }
  }

  lemma SlashOneCounters(s: Slashing, id: ObjectId, bound: nat)
    requires CountersAtMost(s.refiners.infos, bound)
    ensures CountersAtMost(SlashOne(s, id).refiners.infos, bound)
  {
    hide Retain, WithoutAccount, QueuedFor, TotalStake, Zeroed;
  }

  lemma ExecutedCounters(c: Crypto, tx: Transaction, t: Tally, ctx: Context, bound: nat)
    requires CountersAtMost(t.refiners.infos, bound)
    ensures CountersAtMost(Executed(c, tx, t, ctx).refiners.infos, bound)
  {
    hide Retain, BondAssay, UnbondAssay, MinimumBond, DropFlakes, AddEntry, Ledger.Transfer, Verified;
  }

  lemma {:induction false} RunTransactionsCounters(c: Crypto, txs: seq<Transaction>, t: Tally, ctx: Context, bound: nat)
    requires CountersAtMost(t.refiners.infos, bound)
    ensures CountersAtMost(RunTransactions(c, txs, t, ctx).0.refiners.infos, bound)
    decreases |txs|
  {
    hide Charge, Executed, ResultOf, CountersAtMost;
    if txs != [] {
      var executed := Executed(c, txs[0], t, ctx);
      ExecutedCounters(c, txs[0], t, ctx, bound);
      ChargeKeepsRefiners(executed, ResultOf(c, txs[0], t, ctx), txs[0].fee);
      var charged := Charge(executed, ResultOf(c, txs[0], t, ctx), txs[0].fee);
      if charged.Some? {
        RunTransactionsCounters(c, txs[1..], charged.value.(pool := charged.value.pool - {txs[0].txId}), ctx, bound);
      }
    }
  }

  lemma ReseatedCounters(r: RefinerState, height: u64, issued: u64, bound: nat)
    requires CountersAtMost(r.infos, bound)
    ensures CountersAtMost(Reseated(r, height, issued).infos, bound)
  {
    hide MaturedBond, Ranking, Eligible, ActiveLimit, WithStatus, Only, Retain;
  }

  lemma TracedCounters(c: Crypto, n: NodeState, block: Block, kind: ProductionKind, now: u64, tr: Trace, bound: nat)
    requires Traced(c, n, block, kind, now, tr) && CountersAtMost(n.refiners.infos, bound)
    ensures CountersAtMost(Close(c, tr.paid, block, tr.flows).refiners.infos, bound)
  {
    StartCounters(c, n, block, kind, now, tr, bound);
    EndCounters(c, n, block, kind, now, tr, bound);
    hide Traced, CountersAtMost;
    ReseatedCounters(tr.paid.refiners, tr.paid.chain.height, tr.paid.chain.issued, bound);
    CloseFields(c, tr.paid, block, tr.flows);
    hide Close, Reseated;
  }

  lemma StartCounters(c: Crypto, n: NodeState, block: Block, kind: ProductionKind, now: u64, tr: Trace, bound: nat)
    requires Traced(c, n, block, kind, now, tr) && CountersAtMost(n.refiners.infos, bound)
    ensures CountersAtMost(tr.tally.refiners.infos, bound)
  {
    hide SlashAll, RunTransactions, PayProducer, NetReward, BlockFlows, NoteSignature, CountersAtMost, TracedEnd, Execute;
    SlashAllCounters(c, block.slashEvidence, {}, Slashing(n.refiners, n.chain.burned, 0), bound);
    RunTransactionsCounters(c, block.transactions, StartTally(tr.slashed, tr.rewarded), ContextOf(n, block.header), bound);
  }

  lemma EndCounters(c: Crypto, n: NodeState, block: Block, kind: ProductionKind, now: u64, tr: Trace, bound: nat)
    requires Traced(c, n, block, kind, now, tr) && CountersAtMost(tr.tally.refiners.infos, bound)
    ensures CountersAtMost(tr.paid.refiners.infos, bound)
  {
    hide TracedStart, Execute, PayProducer, Departing, StillQueued, Matured, CreditAll, PlanCredits, PlanCreditable;
  }

  lemma CountersStep(c: Crypto, n: NodeState, call: Call, bound: nat)
    requires MoneyInv(n) && PowSound(c) && RoomFor(c, n, call.block, call.now) && CountersAtMost(n.refiners.infos, bound)
    ensures CountersAtMost(After(c, n, call).refiners.infos, bound + |call.block.attestations|)
  {
    hide *;
    CallIsApply(c, n, call);
    var more := bound + |call.block.attestations|;
    AttestedCounters(c, n, call.block, bound);
    if Accepts(c, n, call) {
      var kind, tr := AcceptedTrace(c, n, call.block, call.now);
      TracedCounters(c, AfterAttesting(c, n, call.block), call.block, kind, call.now, tr, more);
    } else {
      RefusedStops(c, n, call);
      WidenCounters(n.refiners.infos, bound, more);
      StoppedCounters(c, n, call, more);
    }
  }

  lemma StoppedCounters(c: Crypto, n: NodeState, call: Call, bound: nat)
    requires CountersAtMost(n.refiners.infos, bound)
    requires CountersAtMost(Attested(c, n, call.block).0.refiners.infos, bound) && CountersAtMost(AfterAttesting(c, n, call.block).refiners.infos, bound)
    ensures CountersAtMost(Stopped(c, n, call.block, call.now).refiners.infos, bound)
  {
    hide CountersAtMost, Attested, AfterAttesting, AdmissionError;
  }

  /** Attestations carried by all the blocks of a run, accepted or not. */
  function AttestationsIn(calls: seq<Call>): nat {
    if calls == [] then 0 else AttestationsIn(calls[..|calls| - 1]) + |calls[|calls| - 1].block.attestations|
  }

  /** No liveness counter ever exceeds the number of attestations presented so far. */
  lemma {:induction false} CountersWithinAttestations(c: Crypto, n: NodeState, calls: seq<Call>)
    requires IsGenesis(n) && PowSound(c) && Roomy(c, n, calls)
    ensures CountersAtMost(Run(c, n, calls).refiners.infos, AttestationsIn(calls))
  {
    hide IsGenesis, PowSound, RoomFor, After;
    if calls == [] {
      GenesisBalances(n);
    } else {
      var init, last := calls[..|calls| - 1], calls[|calls| - 1];
      CountersWithinAttestations(c, n, init);
      SupplyConserved(c, n, init);
      CountersStep(c, Run(c, n, init), last, AttestationsIn(init));
    }
  }

  // ---- Registered keys ----

  /** The account exists and its public key is registered. */
  predicate Keyed(a: Accounts, id: ObjectId) { id in a && a[id].publicKey.Some? }

  lemma PaidKeyed(a: Accounts, producer: ObjectId, amount: u64, id: ObjectId)
    requires Keyed(a, id)
    ensures PayProducer(a, producer, amount).Ok? ==> Keyed(PayProducer(a, producer, amount).value, id)
  {
  }

  lemma ExecutedKeyed(c: Crypto, tx: Transaction, t: Tally, ctx: Context, id: ObjectId)
    requires Keyed(t.accounts, id)
    ensures Keyed(Executed(c, tx, t, ctx).accounts, id)
  {
    hide Bond, Unbond, BondAssay, UnbondAssay, MinimumBond, Verified;
  }

  lemma {:induction false} RunTransactionsKeyed(c: Crypto, txs: seq<Transaction>, t: Tally, ctx: Context, id: ObjectId)
    requires Keyed(t.accounts, id)
    ensures Keyed(RunTransactions(c, txs, t, ctx).0.accounts, id)
    decreases |txs|
  {
    hide Charge, Executed, ResultOf, Keyed;
    if txs != [] {
      var executed := Executed(c, txs[0], t, ctx);
      ExecutedKeyed(c, txs[0], t, ctx, id);
      ChargeKeepsRefiners(executed, ResultOf(c, txs[0], t, ctx), txs[0].fee);
      var charged := Charge(executed, ResultOf(c, txs[0], t, ctx), txs[0].fee);
      if charged.Some? {
        RunTransactionsKeyed(c, txs[1..], charged.value.(pool := charged.value.pool - {txs[0].txId}), ctx, id);
      }
    }
  }

  lemma {:induction false} CreditAllKeyed(a: Accounts, drained: seq<(ObjectId, u64)>, id: ObjectId)
    requires Keyed(a, id)
    ensures Keyed(CreditAll(a, drained).0, id)
    decreases |drained|
  {
    if drained != [] {
      var credited := CreditOrCreate(a, drained[0].0, drained[0].1);
      if credited.Ok? { CreditAllKeyed(credited.value, drained[1..], id); }
    }
  }

  lemma TracedKeyed(c: Crypto, n: NodeState, block: Block, kind: ProductionKind, now: u64, tr: Trace, id: ObjectId)
    requires Traced(c, n, block, kind, now, tr) && Keyed(n.accounts, id)
    ensures Keyed(tr.paid.accounts, id)
  {
    TracedParts(c, n, block, kind, now, tr);
    var settled := tr.settled;
    assert tr.paid.accounts == CreditAll(settled.accounts, Matured(settled.refiners.queue, settled.chain.height)).0;
    hide Traced, Keyed, PayProducer, RunTransactions, CreditAll, AfterSlashing, NetReward, GrossReward, BlockFlows, PayMatured;
    PaidKeyed(n.accounts, block.header.producer, NetReward(Gross(c, n, block, kind), block.header.difficulty), id);
    RunTransactionsKeyed(c, block.transactions, StartTally(tr.slashed, tr.rewarded), ContextOf(n, block.header), id);
    PaidKeyed(tr.tally.accounts, block.header.producer, tr.flows.refinerIncome, id);
    CreditAllKeyed(settled.accounts, Matured(settled.refiners.queue, settled.chain.height), id);
  }

  /** One call keeps the base reward and every registered account registered. */
  lemma StandingStep(c: Crypto, n: NodeState, call: Call, id: ObjectId)
    requires MoneyInv(n) && PowSound(c) && RoomFor(c, n, call.block, call.now)
    ensures After(c, n, call).chain.baseReward == n.chain.baseReward
    ensures Keyed(n.accounts, id) ==> Keyed(After(c, n, call).accounts, id)
  {
    hide *;
    CallIsApply(c, n, call);
    if Accepts(c, n, call) {
      var kind, tr := AcceptedMoves(c, n, call.block, call.now);
      MovedStanding(c, n, call.block, tr, After(c, n, call));
      if Keyed(n.accounts, id) { TracedKeyed(c, AfterAttesting(c, n, call.block), call.block, kind, call.now, tr, id); }
    } else {
      StepConserves(c, n, call);
      RefusedStanding(n, After(c, n, call));
    }
  }

  lemma MovedStanding(c: Crypto, n: NodeState, block: Block, tr: Trace, m: NodeState)
    requires ChainMoved(c, n, block, tr, m) && OnlyAttested(n, AfterAttesting(c, n, block))
    ensures m.chain.baseReward == n.chain.baseReward && m.accounts == tr.paid.accounts
    ensures AfterAttesting(c, n, block).accounts == n.accounts
  {
    hide AfterAttesting, Reseated, RecordReceipt, ReceiptOf, Saved, OnlyLiveness, Difficulty.Prune;
  }

  lemma RefusedStanding(n: NodeState, m: NodeState)
    requires OnlyAttested(n, m)
    ensures m.chain.baseReward == n.chain.baseReward && m.accounts == n.accounts
  {
    hide OnlyLiveness;
  }

  lemma {:induction false} StandingKept(c: Crypto, n: NodeState, calls: seq<Call>, id: ObjectId)
    requires IsGenesis(n) && PowSound(c) && Roomy(c, n, calls)
    ensures Run(c, n, calls).chain.baseReward == n.chain.baseReward
    ensures Keyed(n.accounts, id) ==> Keyed(Run(c, n, calls).accounts, id)
  {
    hide IsGenesis, PowSound, RoomFor, After, Keyed;
    if calls != [] {
      var init, last := calls[..|calls| - 1], calls[|calls| - 1];
      StandingKept(c, n, init, id);
      SupplyConserved(c, n, init);
      StandingStep(c, Run(c, n, init), last, id);
    }
  }
}
