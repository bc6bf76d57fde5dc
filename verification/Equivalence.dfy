/** Nodes that are equal for consensus stay so. */
module Equivalence {
  import opened Numbers
  import opened Difficulty
  import opened Collections
  import opened Ledger
  import opened Types
  import opened Refiner
  import opened RefinerInvariant
  import opened Dispatcher
  import opened BlockValidation
  import opened Chain
  import opened Finality
  import opened BlockApplication
  import opened Supply
  import opened BlockLaws
  import opened Runs

  /** What one refiner set means for consensus: its records and its queue. The
      active index is determined by the records, the dirty set is bookkeeping. */
  ghost predicate Twin(r: RefinerState, s: RefinerState) {
    RefInv(r) && RefInv(s) && r.infos == s.infos && r.queue == s.queue
  }

  /** Equal for consensus: only the active index order, the dirty set and the pool
      may differ. */
  ghost predicate SameNode(n: NodeState, m: NodeState) {
    n.chain == m.chain && n.accounts == m.accounts && n.store == m.store && Twin(n.refiners, m.refiners)
  }

  lemma TwinTotals(r: RefinerState, s: RefinerState)
    requires Twin(r, s)
    ensures TotalBonded(r) == TotalBonded(s) && |r.active| == |s.active|
  {
    hide StakeMap, Part, OtherIds, AsActive, AsSet;
    SumAlongTotal(r.active, StakeMap(r.infos));
    SumAlongTotal(s.active, StakeMap(s.infos));
    NoRepeatsSize(r.active);
    NoRepeatsSize(s.active);
  }

  lemma TwinBond(r: RefinerState, s: RefinerState, id: ObjectId, stake: u64, height: u64, timestamp: u64, issued: u64)
    requires Twin(r, s)
    ensures var a, b := Bond(r, id, stake, height, timestamp, issued), Bond(s, id, stake, height, timestamp, issued);
      if a.Ok? then b.Ok? && Twin(a.value, b.value) else b == Err(a.error)
  {
    var a, b := Bond(r, id, stake, height, timestamp, issued), Bond(s, id, stake, height, timestamp, issued);
    hide RefInv, MinimumBond, AddEntry;
    if a.Ok? { BondKeeps(r, id, stake, height, timestamp, issued); }
    if b.Ok? { BondKeeps(s, id, stake, height, timestamp, issued); }
  }

  lemma TwinUnbond(r: RefinerState, s: RefinerState, id: ObjectId, amount: u64, height: u64)
    requires Twin(r, s)
    ensures var a, b := Unbond(r, id, amount, height), Unbond(s, id, amount, height);
      if a.Ok? then b.Ok? && Twin(a.value, b.value) else b == Err(a.error)
  {
    var a, b := Unbond(r, id, amount, height), Unbond(s, id, amount, height);
    hide RefInv, DropFlakes, TotalStake;
    if a.Ok? { UnbondKeeps(r, id, amount, height); }
    if b.Ok? { UnbondKeeps(s, id, amount, height); }
  }

  lemma TwinDispatch(tx: Transaction, a: Accounts, r: RefinerState, s: RefinerState, ctx: Context)
    requires Twin(r, s) && tx.sender in a && a[tx.sender].nonce < U64_MAX
    ensures var x, y := Dispatch(tx, a, r, ctx), Dispatch(tx, a, s, ctx);
      x.accounts == y.accounts && x.result == y.result && Twin(x.refiners, y.refiners)
  {
    hide Bond, Unbond, TotalBonded, DynamicAssay, Ledger.Transfer, RefInv, MinimumBond, Twin, BumpNonce;
    TwinTotals(r, s);
    TwinRecords(r, s);
    match tx.action {
      case Transfer(recipient, amount) =>
      case RefinerBond(amount) => TwinBond(r, s, tx.sender, amount, ctx.height, ctx.timestamp, ctx.issued);
      case RefinerUnbond(amount) => TwinUnbond(r, s, tx.sender, amount, ctx.height);
    }
  }

  lemma TwinRecords(r: RefinerState, s: RefinerState)
    requires Twin(r, s)
    ensures r.infos == s.infos && r.queue == s.queue
  {
    hide RefInv;
  }

  lemma TwinTransaction(c: Crypto, tx: Transaction, a: Accounts, r: RefinerState, s: RefinerState, ctx: Context)
    requires Twin(r, s)
    ensures var x, y := ApplyTransaction(c, tx, a, r, ctx), ApplyTransaction(c, tx, a, s, ctx);
      x.accounts == y.accounts && x.result == y.result && Twin(x.refiners, y.refiners)
  {
    hide Dispatch, Twin, StoreKey, Verified;
    if PreCheck(c, tx, a).None? { TwinDispatch(tx, a, r, s, ctx); }
  }

  ghost predicate TwinTally(t: Tally, u: Tally) {
    && t.accounts == u.accounts && Twin(t.refiners, u.refiners)
    && t.fees == u.fees && t.assays == u.assays && t.signal == u.signal && t.successes == u.successes
  }

  lemma {:induction false} TwinTransactions(c: Crypto, txs: seq<Transaction>, t: Tally, u: Tally, ctx: Context)
    requires TwinTally(t, u)
    ensures RunTransactions(c, txs, t, ctx).1 == RunTransactions(c, txs, u, ctx).1
    ensures TwinTally(RunTransactions(c, txs, t, ctx).0, RunTransactions(c, txs, u, ctx).0)
    decreases |txs|
  {
    hide Twin, ApplyTransaction;
    if txs != [] {
      TwinTransaction(c, txs[0], t.accounts, t.refiners, u.refiners, ctx);
      var x, y := Executed(c, txs[0], t, ctx), Executed(c, txs[0], u, ctx);
      var a, b := Charge(x, ResultOf(c, txs[0], t, ctx), txs[0].fee), Charge(y, ResultOf(c, txs[0], u, ctx), txs[0].fee);
      assert a.Some? <==> b.Some?;
      if a.Some? {
        TwinTransactions(c, txs[1..], a.value.(pool := a.value.pool - {txs[0].txId}), b.value.(pool := b.value.pool - {txs[0].txId}), ctx);
      }
    }
  }

  lemma TwinSlash(s: Slashing, t: Slashing, id: ObjectId)
    requires Twin(s.refiners, t.refiners) && s.burned == t.burned && s.slashed == t.slashed
    ensures var x, y := SlashOne(s, id), SlashOne(t, id); Twin(x.refiners, y.refiners) && x.burned == y.burned && x.slashed == y.slashed
  {
    hide RefInv, WithoutAccount, QueuedFor, TotalStake, Zeroed;
    SlashKeeps(s.refiners, id);
    SlashKeeps(t.refiners, id);
  }

  lemma {:induction false} TwinSlashes(c: Crypto, evidence: seq<DoubleSignEvidence>, seen: set<(ObjectId, u64)>, s: Slashing, t: Slashing)
    requires Twin(s.refiners, t.refiners) && s.burned == t.burned && s.slashed == t.slashed
    ensures var x, y := SlashAll(c, evidence, seen, s), SlashAll(c, evidence, seen, t);
      Twin(x.refiners, y.refiners) && x.burned == y.burned && x.slashed == y.slashed
    decreases |evidence|
  {
    hide SlashOne, Twin, EvidenceHolds;
    if evidence != [] {
      var e := evidence[0];
      if (e.producer, e.height) in seen || !EvidenceHolds(c, e) {
        TwinSlashes(c, evidence[1..], seen, s, t);
      } else {
        TwinSlash(s, t, e.producer);
        TwinSlashes(c, evidence[1..], seen + {(e.producer, e.height)}, SlashOne(s, e.producer), SlashOne(t, e.producer));
      }
    }
  }

  ghost predicate TwinProgress(p: Progress, q: Progress) {
    p.index == q.index && p.seen == q.seen && p.touched == q.touched && Twin(p.refiners, q.refiners)
  }

  lemma TwinCount(p: Progress, q: Progress, att: BlockAttestation, canonical: Hash)
    requires TwinProgress(p, q) && att.refiner in p.refiners.infos && p.refiners.infos[att.refiner].status.Active?
    ensures TwinProgress(CountIn(p, att, canonical), CountIn(q, att, canonical))
  {
    hide RefInv;
    AttestationKeeps(p.refiners, att.refiner);
    AttestationKeeps(q.refiners, att.refiner);
  }

  lemma {:induction false} TwinAttest(c: Crypto, height: u64, blocks: Option<map<u64, Block>>, p: Progress, q: Progress, atts: seq<BlockAttestation>)
    requires TwinProgress(p, q)
    ensures Attest(c, height, blocks, p, atts).1 == Attest(c, height, blocks, q, atts).1
    ensures TwinProgress(Attest(c, height, blocks, p, atts).0, Attest(c, height, blocks, q, atts).0)
    decreases |atts|
  {
    hide CheckAttestation, CountIn, RefInv;
    if atts != [] {
      var checked := CheckAttestation(c, atts[0], height, p.seen, blocks, p.refiners.infos);
      if checked.Ok? {
        TwinCount(p, q, atts[0], checked.value);
        TwinAttest(c, height, blocks, CountIn(p, atts[0], checked.value), CountIn(q, atts[0], checked.value), atts[1..]);
      }
    }
  }

  lemma TwinReseated(r: RefinerState, s: RefinerState, height: u64, issued: u64)
    requires Twin(r, s)
    ensures Twin(Reseated(r, height, issued), Reseated(s, height, issued))
  {
    ReseatedKeeps(r, height, issued);
    ReseatedKeeps(s, height, issued);
    hide RefInv, ActiveLimit, Custody, OnlyStatuses, Only, Retain, Ranking, Eligible, MaturedBond, WithStatus;
  }

  lemma TwinMatured(r: RefinerState, s: RefinerState, height: u64)
    requires Twin(r, s)
    ensures Twin(ProcessMatured(r, height), ProcessMatured(s, height))
  {
    MaturityKeeps(r, height);
    MaturityKeeps(s, height);
    assert Departing(r, height, Matured(r.queue, height)) == Departing(s, height, Matured(s.queue, height));
    hide RefInv, Custody, Departing, Retain;
  }

  // ---- Whole blocks ----

  lemma SameAttesting(c: Crypto, n: NodeState, m: NodeState, block: Block)
    requires SameNode(n, m)
    ensures var p, q := Attested(c, n, block), Attested(c, m, block);
      && p.1 == q.1
      && SameNode(WithProgress(n, p.0), WithProgress(m, q.0))
      && SameNode(AfterAttesting(c, n, block), AfterAttesting(c, m, block))
  {
    TwinRecords(n.refiners, m.refiners);
    hide Attest, Twin, NewlyFinalized, PruneIndex, Threshold;
    TwinAttest(c, block.header.height, Blocks(n), Begin(n), Begin(m), block.attestations);
    var p, q := Attested(c, n, block).0, Attested(c, m, block).0;
    TwinRecords(p.refiners, q.refiners);
  }

  lemma SameSlashing(c: Crypto, n: NodeState, m: NodeState, block: Block)
    requires SameNode(n, m)
    ensures SameNode(AfterSlashing(c, n, block), AfterSlashing(c, m, block))
    ensures Slashings(c, n, block).slashed == Slashings(c, m, block).slashed
  {
    hide SlashAll, Twin, NoteSignature;
    TwinSlashes(c, block.slashEvidence, {}, Slashing(n.refiners, n.chain.burned, 0), Slashing(m.refiners, m.chain.burned, 0));
  }

  /** The clock decides nothing but which pool entries have expired. */
  lemma SameSettle(c: Crypto, n: NodeState, m: NodeState, header: BlockHeader, f: Flows, now: u64, later: u64)
    requires SameNode(n, m)
    ensures Settle(c, n, header, f, now).1 == Settle(c, m, header, f, later).1
    ensures SameNode(Settle(c, n, header, f, now).0, Settle(c, m, header, f, later).0)
  {
    hide Twin, PayProducer, PoolAfter, Advance, SatAdd64, CheckedAdd64;
  }

  lemma SamePayout(n: NodeState, m: NodeState)
    requires SameNode(n, m)
    ensures PayMatured(n).1 == PayMatured(m).1
    ensures SameNode(PayMatured(n).0, PayMatured(m).0)
  {
    TwinRecords(n.refiners, m.refiners);
    hide Twin, CreditAll, PlanCredits, Matured, ProcessMatured, CanCredit;
    TwinMatured(n.refiners, m.refiners, n.chain.height);
  }

  lemma SameClose(c: Crypto, n: NodeState, m: NodeState, block: Block, f: Flows)
    requires SameNode(n, m)
    ensures SameNode(Close(c, n, block, f), Close(c, m, block, f))
  {
    hide Twin, Reseated, RecordReceipt, ReceiptOf, Saved;
    TwinReseated(n.refiners, m.refiners, n.chain.height, n.chain.issued);
    TwinRecords(Reseated(n.refiners, n.chain.height, n.chain.issued), Reseated(m.refiners, n.chain.height, n.chain.issued));
  }

  ghost predicate SameOutcome(x: Outcome, y: Outcome) { x.result == y.result && SameNode(x.node, y.node) }

  lemma SameFinish(c: Crypto, n: NodeState, m: NodeState, block: Block, f: Flows, now: u64, later: u64)
    requires SameNode(n, m)
    ensures SameOutcome(Finish(c, n, block, f, now), Finish(c, m, block, f, later))
  {
    hide SameNode, Settle, PayMatured, Close;
    SameSettle(c, n, m, block.header, f, now, later);
    var x, y := Settle(c, n, block.header, f, now).0, Settle(c, m, block.header, f, later).0;
    SamePayout(x, y);
    SameClose(c, PayMatured(x).0, PayMatured(y).0, block, f);
  }

  lemma SameFlows(gross: u64, difficulty: u64, kind: ProductionKind, t: Tally, u: Tally, active: nat, limit: nat, slashed: u64)
    requires TwinTally(t, u)
    ensures FlowsOf(gross, difficulty, kind, t, active, limit, slashed) == FlowsOf(gross, difficulty, kind, u, active, limit, slashed)
  {
    hide Twin, PorFeeSplit, MineAssay;
  }

  /** From paying the producer on, given equivalent slashed nodes. */
  ghost function Rewarded(c: Crypto, slashed: NodeState, block: Block, kind: ProductionKind, gross: u64, active: nat, limit: nat, burned: u64, now: u64): Outcome {
    match PayProducer(slashed.accounts, block.header.producer, NetReward(gross, block.header.difficulty))
    case Err(e) => Outcome(slashed, Err(e))
    case Ok(a) =>
      var (tally, error) := RunTransactions(c, block.transactions, StartTally(slashed, a), ContextOf(slashed, block.header));
      if error.Some? then Outcome(WithTally(slashed, tally), Err(error.value))
      else Finish(c, WithTally(slashed, tally), block, FlowsOf(gross, block.header.difficulty, kind, tally, active, limit, burned), now)
  }

  lemma ExecuteIsRewarded(c: Crypto, n: NodeState, block: Block, kind: ProductionKind, now: u64)
    ensures Execute(c, n, block, kind, now)
         == Rewarded(c, AfterSlashing(c, n, block), block, kind, GrossReward(c, n.chain.baseReward, block.header, kind),
                     |n.refiners.active|, ActiveLimit(n.chain.issued), Slashings(c, n, block).slashed, now)
  {
    hide AfterSlashing, PayProducer, RunTransactions, FlowsOf, Finish, GrossReward, ActiveLimit, Slashings, NetReward;
  }

  lemma SameRewarded(c: Crypto, n: NodeState, m: NodeState, block: Block, kind: ProductionKind, gross: u64, active: nat, limit: nat, burned: u64,
                     now: u64, later: u64)
    requires SameNode(n, m)
    ensures SameOutcome(Rewarded(c, n, block, kind, gross, active, limit, burned, now), Rewarded(c, m, block, kind, gross, active, limit, burned, later))
  {
    hide Twin, PayProducer, RunTransactions, FlowsOf, Finish, NetReward;
    var paid := PayProducer(n.accounts, block.header.producer, NetReward(gross, block.header.difficulty));
    if paid.Ok? {
      var ctx := ContextOf(n, block.header);
      TwinTransactions(c, block.transactions, StartTally(n, paid.value), StartTally(m, paid.value), ctx);
      var t, u := RunTransactions(c, block.transactions, StartTally(n, paid.value), ctx).0, RunTransactions(c, block.transactions, StartTally(m, paid.value), ctx).0;
      SameFlows(gross, block.header.difficulty, kind, t, u, active, limit, burned);
      SameFinish(c, WithTally(n, t), WithTally(m, u), block, FlowsOf(gross, block.header.difficulty, kind, t, active, limit, burned), now, later);
    }
  }

  lemma SameExecute(c: Crypto, n: NodeState, m: NodeState, block: Block, kind: ProductionKind, now: u64, later: u64)
    requires SameNode(n, m)
    ensures SameOutcome(Execute(c, n, block, kind, now), Execute(c, m, block, kind, later))
  {
    TwinTotals(n.refiners, m.refiners);
    SameChain(n, m);
    hide *;
    SameSlashing(c, n, m, block);
    ExecuteIsRewarded(c, n, block, kind, now);
    ExecuteIsRewarded(c, m, block, kind, later);
    SameRewarded(c, AfterSlashing(c, n, block), AfterSlashing(c, m, block), block, kind, GrossReward(c, n.chain.baseReward, block.header, kind),
                 |n.refiners.active|, ActiveLimit(n.chain.issued), Slashings(c, n, block).slashed, now, later);
  }

  lemma SameChain(n: NodeState, m: NodeState)
    requires SameNode(n, m)
    ensures n.chain == m.chain && n.accounts == m.accounts && Blocks(n) == Blocks(m)
    ensures Twin(n.refiners, m.refiners) && n.refiners.infos == m.refiners.infos
  {
    hide RefInv;
  }

  lemma SameChecks(c: Crypto, n: NodeState, m: NodeState, block: Block, now: u64, kind: ProductionKind)
    requires SameNode(n, m)
    ensures AdmissionError(c, n, block, now) == AdmissionError(c, m, block, now)
    ensures ProducerError(c, n, block.header, kind) == ProducerError(c, m, block.header, kind)
  {
    SameChain(n, m);
    TwinTotals(n.refiners, m.refiners);
    hide Twin, SameNode, TotalBonded, NextDifficulty, Validate, SignatureError, MinerError, SelectionError;
  }

  /** Equivalent nodes give the same verdict on every block and stay equivalent. */
  lemma SameApply(c: Crypto, n: NodeState, m: NodeState, block: Block, now: u64)
    requires SameNode(n, m)
    ensures SameOutcome(ApplyBlock(c, n, block, now), ApplyBlock(c, m, block, now))
  {
    hide SameNode, AdmissionError, ProducerError, Attested, WithProgress, Finalized, Execute, Threshold;
    SameChecks(c, n, m, block, now, GenesisKind);
    SameAttesting(c, n, m, block);
    SameRecords(n, m);
    if AdmissionError(c, n, block, now).None? {
      AdmittedKind(c, n, block, now);
      var kind := KindOf(block.header).value;
      SameChecks(c, AfterAttesting(c, n, block), AfterAttesting(c, m, block), block, now, kind);
      SameExecute(c, AfterAttesting(c, n, block), AfterAttesting(c, m, block), block, kind, now, now);
    }
  }

  lemma SameRecords(n: NodeState, m: NodeState)
    requires SameNode(n, m)
    ensures n.refiners.infos == m.refiners.infos
  {
    SameChain(n, m);
  }

  // ---- Runs ----

  lemma {:induction false} SameRun(c: Crypto, n: NodeState, m: NodeState, calls: seq<Call>)
    requires SameNode(n, m)
    ensures SameNode(Run(c, n, calls), Run(c, m, calls))
  {
    hide SameNode, After;
    if calls != [] {
      var init, last := calls[..|calls| - 1], calls[|calls| - 1];
      SameRun(c, n, m, init);
      SameStep(c, Run(c, n, init), Run(c, m, init), last);
    }
  }

  lemma SameStep(c: Crypto, n: NodeState, m: NodeState, call: Call)
    requires SameNode(n, m)
    ensures SameNode(After(c, n, call), After(c, m, call))
    ensures ApplyBlock(c, n, call.block, call.now).result == ApplyBlock(c, m, call.block, call.now).result
  {
    hide SameNode, ApplyBlock;
    SameApply(c, n, m, call.block, call.now);
  }
}
