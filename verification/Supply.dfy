/** Conservation of supply through a block: what each stage of `apply_block` does
    to the money, and why none of its overflow checks can fire. */
module Supply {
  import opened Numbers
  import opened Emission
  import opened Collections
  import opened Ledger
  import opened Types
  import opened Refiner
  import opened RefinerInvariant
  import opened EpochRanking
  import opened Dispatcher
  import opened BlockValidation
  import opened Chain
  import opened Finality
  import opened BlockApplication

  // ---- Attestations ----

  /** Only liveness counters and the dirty set differ. */
  ghost predicate OnlyLiveness(r: RefinerState, s: RefinerState) {
    && s.queue == r.queue && s.active == r.active && s.infos.Keys == r.infos.Keys
    && (forall id :: id in r.infos ==> s.infos[id] == r.infos[id].(attestations := s.infos[id].attestations))
  }

  lemma LivenessKeeps(r: RefinerState, s: RefinerState)
    requires RefInv(r) && OnlyLiveness(r, s)
    ensures RefInv(s) && Custody(s) == Custody(r)
    ensures forall j :: CustodyOf(s, j) == CustodyOf(r, j)
    ensures StakeMap(s.infos) == StakeMap(r.infos) && AsActive(s.infos) == AsActive(r.infos)
    ensures Staked(s.infos) == Staked(r.infos)
  {
    assert AsActive(s.infos) == AsActive(r.infos);
    assert PlainStakes(s.infos) == PlainStakes(r.infos);
    OnlyStatusesKeeps(r, s);
  }

  lemma {:induction false} AttestOnlyLiveness(c: Crypto, height: u64, blocks: Option<map<u64, Block>>, p: Progress, atts: seq<BlockAttestation>)
    ensures OnlyLiveness(p.refiners, Attest(c, height, blocks, p, atts).0.refiners)
    decreases |atts|
  {
    hide CheckAttestation;
    if atts != [] {
      var checked := CheckAttestation(c, atts[0], height, p.seen, blocks, p.refiners.infos);
      if checked.Ok? {
        AttestOnlyLiveness(c, height, blocks, CountIn(p, atts[0], checked.value), atts[1..]);
      }
    }
  }

  // ---- Slashing ----

  lemma SlashOneKeeps(s: Slashing, id: ObjectId)
    requires RefInv(s.refiners) && Custody(s.refiners) + s.burned <= U64_MAX && s.slashed <= s.burned
    ensures var t := SlashOne(s, id);
      && RefInv(t.refiners)
      && Custody(t.refiners) + t.burned == Custody(s.refiners) + s.burned
      && t.burned - s.burned == t.slashed - s.slashed >= 0
      && (forall j :: IsSlashed(s.refiners, j) ==> IsSlashed(t.refiners, j))
  {
    SlashKeeps(s.refiners, id);
    SlashBurnsAll(s.refiners, id);
    SlashSpares(s.refiners, id);
    hide Slash, RefInv, Custody, CustodyOf, IsSlashed;
  }

  lemma SlashSpares(r: RefinerState, id: ObjectId)
    ensures forall j :: IsSlashed(r, j) ==> IsSlashed(Slash(r, id).0, j)
  {
  }

  lemma {:induction false} SlashAllKeeps(c: Crypto, evidence: seq<DoubleSignEvidence>, seen: set<(ObjectId, u64)>, s: Slashing)
    requires RefInv(s.refiners) && Custody(s.refiners) + s.burned <= U64_MAX && s.slashed <= s.burned
    ensures var t := SlashAll(c, evidence, seen, s);
      && RefInv(t.refiners)
      && Custody(t.refiners) + t.burned == Custody(s.refiners) + s.burned
      && t.burned - s.burned == t.slashed - s.slashed >= 0
      && (forall j :: IsSlashed(s.refiners, j) ==> IsSlashed(t.refiners, j))
    decreases |evidence|
  {
    hide SlashOne, RefInv, Custody, IsSlashed, EvidenceHolds;
    if evidence != [] {
      var e := evidence[0];
      if (e.producer, e.height) in seen || !EvidenceHolds(c, e) {
        SlashAllKeeps(c, evidence[1..], seen, s);
      } else {
        SlashOneKeeps(s, e.producer);
        SlashAllKeeps(c, evidence[1..], seen + {(e.producer, e.height)}, SlashOne(s, e.producer));
      }
    }
  }

  // ---- Reward ----

  lemma PayProducerAdds(a: Accounts, producer: ObjectId, amount: u64)
    requires TotalBalance(a) + amount <= U64_MAX && (producer != 0 || amount == 0)
    ensures PayProducer(a, producer, amount).Ok?
    ensures var b := PayProducer(a, producer, amount).value;
      && TotalBalance(b) == TotalBalance(a) + amount
      && BalanceOf(b, producer) == BalanceOf(a, producer) + amount
      && b - {producer} == a - {producer}
      && (forall j :: NonceOf(b, j) == NonceOf(a, j))
      && (AccountsOk(a) ==> AccountsOk(b))
  {
    CreditOrCreateAdds(a, producer, amount);
    hide CreditOrCreate, CanCredit, TotalBalance, AccountsOk;
  }

  // ---- Transactions ----

  ghost function TallyTotal(t: Tally): nat { Holdings(t.accounts, t.refiners) + t.fees + t.assays }

  ghost predicate TallyOk(t: Tally) {
    && RefInv(t.refiners) && AccountsOk(t.accounts)
    && TallyTotal(t) <= U64_MAX
    && t.signal == t.fees
  }

  /** The accounts and refiners one transaction leaves, charged into the tally. */
  lemma ExecutedKeeps(c: Crypto, tx: Transaction, t: Tally, ctx: Context)
    requires TallyOk(t) && t.successes < U64_MAX
    ensures Charge(Executed(c, tx, t, ctx), ResultOf(c, tx, t, ctx), tx.fee).Some?
    ensures var u := Charge(Executed(c, tx, t, ctx), ResultOf(c, tx, t, ctx), tx.fee).value;
      && TallyOk(u) && TallyTotal(u) == TallyTotal(t)
      && u.pool == t.pool
      && u.successes <= t.successes + 1
      && (forall j :: IsSlashed(t.refiners, j) ==> IsSlashed(u.refiners, j))
  {
    if ApplyTransaction(c, tx, t.accounts, t.refiners, ctx).result.TxOk? {
      SuccessSettles(c, tx, t.accounts, t.refiners, ctx);
    } else {
      FailureIsNoOp(c, tx, t.accounts, t.refiners, ctx);
    }
    hide ApplyTransaction, RefInv, AccountsOk, Custody, IsSlashed, TotalBalance;
  }

  function TxIds(txs: seq<Transaction>): set<ObjectId> { set i | 0 <= i < |txs| :: txs[i].txId }

  /** Executing a block's transactions never overflows a total and loses nothing
      but the fees and assays it adds up. */
  lemma {:induction false} RunTransactionsKeeps(c: Crypto, txs: seq<Transaction>, t: Tally, ctx: Context)
    requires TallyOk(t) && t.successes + |txs| <= U64_MAX
    ensures RunTransactions(c, txs, t, ctx).1 == None
    ensures var u := RunTransactions(c, txs, t, ctx).0;
      && TallyOk(u) && TallyTotal(u) == TallyTotal(t)
      && u.pool == t.pool - TxIds(txs)
      && (forall j :: IsSlashed(t.refiners, j) ==> IsSlashed(u.refiners, j))
    decreases |txs|
  {
    hide TallyOk, Charge, Executed, ResultOf, IsSlashed;
    if txs == [] {
      assert t.pool - TxIds(txs) == t.pool;
    } else {
      ExecutedKeeps(c, txs[0], t, ctx);
      var charged := Charge(Executed(c, txs[0], t, ctx), ResultOf(c, txs[0], t, ctx), txs[0].fee).value;
      var next := charged.(pool := charged.pool - {txs[0].txId});
      PoolIrrelevant(charged, next.pool);
      RunTransactionsKeeps(c, txs[1..], next, ctx);
      RemainingIds(txs);
      assert t.pool - {txs[0].txId} - TxIds(txs[1..]) == t.pool - TxIds(txs);
    }
  }

  lemma PoolIrrelevant(t: Tally, pool: TransactionPool.Entries)
    ensures TallyOk(t.(pool := pool)) == TallyOk(t) && TallyTotal(t.(pool := pool)) == TallyTotal(t)
  {
  }

  lemma RemainingIds(txs: seq<Transaction>)
    requires txs != []
    ensures TxIds(txs) == {txs[0].txId} + TxIds(txs[1..])
  {
    forall id | id in TxIds(txs) ensures id in {txs[0].txId} + TxIds(txs[1..]) {
      var i :| 0 <= i < |txs| && txs[i].txId == id;
      if i > 0 { assert txs[1..][i - 1].txId == id; }
    }
    forall id | id in TxIds(txs[1..]) ensures id in TxIds(txs) {
      var i :| 0 <= i < |txs[1..]| && txs[1..][i].txId == id;
      assert txs[i + 1].txId == id;
    }
  }

  // ---- Matured withdrawals ----

  /** The plan holds, per account, exactly what matured for it. */
  lemma {:induction false} PlanIsSum(matured: seq<(ObjectId, u64)>)
    requires MaturedTotal(matured) <= U64_MAX
    ensures PlanCredits(matured).Some?
    ensures forall id :: (if id in PlanCredits(matured).value then PlanCredits(matured).value[id] else 0) == MaturedFor(matured, id)
    ensures forall id :: MaturedFor(matured, id) <= MaturedTotal(matured)
  {
    if matured != [] {
      PlanIsSum(matured[..|matured| - 1]);
    }
  }

  lemma {:induction false} MaturedTotalCons(matured: seq<(ObjectId, u64)>)
    requires matured != []
    ensures MaturedTotal(matured) == matured[0].1 + MaturedTotal(matured[1..])
  {
    if |matured| > 1 {
      MaturedTotalCons(matured[..|matured| - 1]);
      assert matured[1..][..|matured| - 2] == matured[..|matured| - 1][1..];
    } else {
      assert matured[1..] == [] && matured[..0] == [];
    }
  }

  lemma {:induction false} CreditAllAdds(a: Accounts, drained: seq<(ObjectId, u64)>)
    requires TotalBalance(a) + MaturedTotal(drained) <= U64_MAX
    ensures CreditAll(a, drained).1 == None
    ensures var b := CreditAll(a, drained).0;
      && TotalBalance(b) == TotalBalance(a) + MaturedTotal(drained)
      && (forall j :: NonceOf(b, j) == NonceOf(a, j))
      && (AccountsOk(a) ==> AccountsOk(b))
    decreases |drained|
  {
    hide CreditOrCreate, TotalBalance, AccountsOk;
    if drained != [] {
      MaturedTotalCons(drained);
      CreditOrCreateAdds(a, drained[0].0, drained[0].1);
      CreditAllAdds(CreditOrCreate(a, drained[0].0, drained[0].1).value, drained[1..]);
    }
  }

  lemma PlanFits(a: Accounts, matured: seq<(ObjectId, u64)>)
    requires TotalBalance(a) + MaturedTotal(matured) <= U64_MAX
    ensures PlanCredits(matured).Some? && PlanCreditable(a, PlanCredits(matured).value)
  {
    PlanIsSum(matured);
    var plan := PlanCredits(matured).value;
    forall id | id in plan ensures CanCredit(a, id, plan[id]) {
      assert plan[id] == MaturedFor(matured, id);
      CreditOrCreateAdds(a, id, plan[id]);
    }
  }

  lemma PayMaturedKeeps(n: NodeState)
    requires RefInv(n.refiners) && AccountsOk(n.accounts)
    requires Holdings(n.accounts, n.refiners) <= U64_MAX
    ensures PayMatured(n).1 == None
    ensures var m := PayMatured(n).0;
      && m.refiners == ProcessMatured(n.refiners, n.chain.height)
      && m.accounts == CreditAll(n.accounts, Matured(n.refiners.queue, n.chain.height)).0
      && m == n.(accounts := m.accounts, refiners := m.refiners)
      && RefInv(m.refiners) && AccountsOk(m.accounts)
      && Holdings(m.accounts, m.refiners) == Holdings(n.accounts, n.refiners)
  {
    var matured := Matured(n.refiners.queue, n.chain.height);
    MaturityKeeps(n.refiners, n.chain.height);
    hide RefInv, Custody, ProcessMatured, PlanCredits, PlanCreditable, CreditAll, TotalBalance, AccountsOk;
    PlanFits(n.accounts, matured);
    CreditAllAdds(n.accounts, matured);
  }

  // ---- Settling ----

  /** The settled node when nothing overflows. */
  ghost function SettledNode(c: Crypto, n: NodeState, header: BlockHeader, f: Flows, now: u64): NodeState
    requires PayProducer(n.accounts, header.producer, f.refinerIncome).Ok?
    requires (n.chain.burned as int) + f.feesBurned + f.assays + f.mineAssay <= U64_MAX
    requires (n.chain.issued as int) + f.gross <= U64_MAX
  {
    n.(pool := PoolAfter(n.pool, header.height, now),
       accounts := PayProducer(n.accounts, header.producer, f.refinerIncome).value,
       chain := Advance(n.chain.(burned := n.chain.burned + f.feesBurned + f.assays + f.mineAssay, issued := n.chain.issued + f.gross),
                        header, c.blockHash(header), f))
  }

  lemma SettleSucceeds(c: Crypto, n: NodeState, header: BlockHeader, f: Flows, now: u64)
    requires PayProducer(n.accounts, header.producer, f.refinerIncome).Ok?
    requires (n.chain.burned as int) + f.feesBurned + f.assays + f.mineAssay <= U64_MAX
    requires (n.chain.issued as int) + f.gross <= U64_MAX
    requires f.kind.Refined? || f.refinerIncome == 0
    ensures Settle(c, n, header, f, now) == (SettledNode(c, n, header, f, now), None)
  {
    hide Advance, PoolAfter, CanCredit, CreditOrCreate;
  }

  lemma ReseatedKeeps(r: RefinerState, height: u64, issued: u64)
    requires RefInv(r)
    ensures var s := Reseated(r, height, issued);
      && RefInv(s) && Custody(s) == Custody(r) && OnlyStatuses(r, s)
  {
    ActivationKeeps(r, height);
    var activated := ActivateMatured(r, height);
    RerankKeeps(activated, issued);
    hide RefInv, Custody, ActivateMatured, Rerank;
  }

  // ---- The whole block ----

  /** Every flake issued is burned, in a balance, staked or queued. */
  ghost predicate Balanced(n: NodeState) {
    n.chain.issued == n.chain.burned + Holdings(n.accounts, n.refiners)
  }

  ghost predicate MoneyInv(n: NodeState) {
    RefInv(n.refiners) && AccountsOk(n.accounts) && Balanced(n)
  }

  /** What admission guarantees about a block that is about to execute, plus room
      for its gross reward. */
  ghost predicate Executable(c: Crypto, n: NodeState, block: Block, kind: ProductionKind) {
    && |block.transactions| <= MAX_TRANSACTIONS_PER_BLOCK
    && (!kind.GenesisKind? ==> block.header.producer != 0)
    && (kind.Mined? ==> block.header.difficulty <= 256)
    && (n.chain.issued as int) + GrossReward(c, n.chain.baseReward, block.header, kind) <= U64_MAX
  }

  /** The intermediate states of a block that runs to the end. */
  datatype Trace = Trace(slashed: NodeState, rewarded: Accounts, tally: Tally, flows: Flows, settled: NodeState, paid: NodeState)

  ghost function Gross(c: Crypto, n: NodeState, block: Block, kind: ProductionKind): u64 {
    GrossReward(c, n.chain.baseReward, block.header, kind)
  }

  ghost predicate TracedStart(c: Crypto, n: NodeState, block: Block, kind: ProductionKind, tr: Trace) {
    var net := NetReward(Gross(c, n, block, kind), block.header.difficulty);
    && tr.slashed == AfterSlashing(c, n, block)
    && PayProducer(n.accounts, block.header.producer, net) == Ok(tr.rewarded)
    && RunTransactions(c, block.transactions, StartTally(tr.slashed, tr.rewarded), ContextOf(n, block.header)) == (tr.tally, None)
    && tr.flows == BlockFlows(c, n, block, kind, tr.tally)
  }

  ghost predicate TracedEnd(c: Crypto, block: Block, now: u64, tr: Trace) {
    var n := WithTally(tr.slashed, tr.tally);
    && PayProducer(n.accounts, block.header.producer, tr.flows.refinerIncome).Ok?
    && (n.chain.burned as int) + tr.flows.feesBurned + tr.flows.assays + tr.flows.mineAssay <= U64_MAX
    && (n.chain.issued as int) + tr.flows.gross <= U64_MAX
    && tr.settled == SettledNode(c, n, block.header, tr.flows, now)
    && PayMatured(tr.settled) == (tr.paid, None)
  }

  /** A full run of the stages, and the outcome it determines. */
  ghost predicate Traced(c: Crypto, n: NodeState, block: Block, kind: ProductionKind, now: u64, tr: Trace) {
    && TracedStart(c, n, block, kind, tr)
    && TracedEnd(c, block, now, tr)
    && Execute(c, n, block, kind, now) == Outcome(Close(c, tr.paid, block, tr.flows), Ok(c.blockHash(block.header)))
  }

  lemma SlashStageKeeps(c: Crypto, n: NodeState, block: Block)
    requires MoneyInv(n)
    ensures var m := AfterSlashing(c, n, block);
      && MoneyInv(m) && m.accounts == n.accounts && m.chain.issued == n.chain.issued
      && m.chain.burned == (n.chain.burned as int) + Slashings(c, n, block).slashed
      && (forall j :: IsSlashed(n.refiners, j) ==> IsSlashed(m.refiners, j))
  {
    SlashAllKeeps(c, block.slashEvidence, {}, Slashing(n.refiners, n.chain.burned, 0));
    hide SlashAll, RefInv, AccountsOk, Custody, IsSlashed, TotalBalance, NoteSignature;
  }

  lemma RewardSplits(c: Crypto, n: NodeState, block: Block, kind: ProductionKind)
    requires kind.Mined? ==> block.header.difficulty <= 256
    ensures var gross, difficulty := Gross(c, n, block, kind), block.header.difficulty;
      (NetReward(gross, difficulty) as int) + MineAssay(gross, difficulty) == gross
  {
    var gross, difficulty := Gross(c, n, block, kind), block.header.difficulty;
    MineAssayWithinReward(difficulty);
    hide MineAssay, BlockReward;
    if kind.Mined? { assert MineAssay(gross, difficulty) <= gross; } else { NothingAssayed(difficulty); }
  }

  lemma NothingAssayed(difficulty: u64)
    ensures MineAssay(0, difficulty) == 0
  {
  }

  /** Slash, reward and execute: everything issued so far plus the net reward is
      still accounted for. */
  lemma StartSucceeds(c: Crypto, n: NodeState, block: Block, kind: ProductionKind) returns (slashed: NodeState, rewarded: Accounts, tally: Tally)
    requires MoneyInv(n) && Executable(c, n, block, kind)
    ensures slashed == AfterSlashing(c, n, block) && MoneyInv(slashed)
    ensures PayProducer(n.accounts, block.header.producer, NetReward(Gross(c, n, block, kind), block.header.difficulty)) == Ok(rewarded)
    ensures RunTransactions(c, block.transactions, StartTally(slashed, rewarded), ContextOf(n, block.header)) == (tally, None)
    ensures RefInv(tally.refiners) && AccountsOk(tally.accounts)
    ensures TallyTotal(tally) + slashed.chain.burned == (n.chain.issued as int) + NetReward(Gross(c, n, block, kind), block.header.difficulty)
    ensures slashed.accounts == n.accounts && slashed.chain.issued == n.chain.issued
    ensures forall j :: IsSlashed(n.refiners, j) ==> IsSlashed(slashed.refiners, j)
    ensures forall j :: IsSlashed(slashed.refiners, j) ==> IsSlashed(tally.refiners, j)
    ensures tally.pool == n.pool - TxIds(block.transactions)
  {
    var gross, difficulty := Gross(c, n, block, kind), block.header.difficulty;
    var net := NetReward(gross, difficulty);
    RewardSplits(c, n, block, kind);
    SlashStageKeeps(c, n, block);
    slashed := AfterSlashing(c, n, block);
    assert net > 0 ==> block.header.producer != 0 by { NoRewardNoNet(gross, difficulty); }
    assert slashed.pool == n.pool;
    hide AfterSlashing, RefInv, AccountsOk, Custody, TotalBalance, IsSlashed, NetReward, MineAssay, GrossReward;
    PayProducerAdds(n.accounts, block.header.producer, net);
    rewarded := PayProducer(n.accounts, block.header.producer, net).value;
    RunTransactionsKeeps(c, block.transactions, StartTally(slashed, rewarded), ContextOf(n, block.header));
    tally := RunTransactions(c, block.transactions, StartTally(slashed, rewarded), ContextOf(n, block.header)).0;
  }

  lemma NoRewardNoNet(gross: u64, difficulty: u64)
    ensures gross == 0 ==> NetReward(gross, difficulty) == 0
  {
  }

  lemma FlowsAddUp(gross: u64, difficulty: u64, kind: ProductionKind, t: Tally, active: nat, limit: nat, slashed: u64)
    ensures var f := FlowsOf(gross, difficulty, kind, t, active, limit, slashed);
      && (f.feesBurned as int) + f.refinerIncome == f.fees == t.fees
      && f.assays == t.assays && f.gross == gross && f.kind == kind && f.slashed == slashed
      && f.mineAssay == MineAssay(gross, difficulty) && f.minerCredit == NetReward(gross, difficulty)
      && (!kind.Refined? ==> f.refinerIncome == 0)
      && (active <= limit && kind.Refined? ==> 2 * f.feesBurned <= f.fees)
  {
    PorFeeSplitExact(t.fees, active, limit);
    hide PorFeeSplit;
  }

  lemma SettleBalances(c: Crypto, n: NodeState, header: BlockHeader, f: Flows, now: u64)
    requires PayProducer(n.accounts, header.producer, f.refinerIncome).Ok?
    requires (n.chain.burned as int) + f.feesBurned + f.assays + f.mineAssay <= U64_MAX
    requires (n.chain.issued as int) + f.gross <= U64_MAX
    ensures var m := SettledNode(c, n, header, f, now);
      && m.chain.issued == (n.chain.issued as int) + f.gross
      && m.chain.burned == (n.chain.burned as int) + f.feesBurned + f.assays + f.mineAssay
      && m.accounts == PayProducer(n.accounts, header.producer, f.refinerIncome).value
      && m.refiners == n.refiners && m.chain.height == header.height
  {
    hide PayProducer, PoolAfter, SuggestedFee;
  }

  /** Settling and paying out what matured keeps the books balanced. */
  lemma EndSucceeds(c: Crypto, slashed: NodeState, t: Tally, block: Block, f: Flows, now: u64) returns (settled: NodeState, paid: NodeState)
    requires RefInv(t.refiners) && AccountsOk(t.accounts)
    requires (f.feesBurned as int) + f.refinerIncome == f.fees == t.fees && f.assays == t.assays
    requires f.refinerIncome > 0 ==> f.kind.Refined? && block.header.producer != 0
    requires TallyTotal(t) + f.mineAssay + slashed.chain.burned == (slashed.chain.issued as int) + f.gross <= U64_MAX
    ensures var n := WithTally(slashed, t);
      && PayProducer(n.accounts, block.header.producer, f.refinerIncome).Ok?
      && (n.chain.burned as int) + f.feesBurned + f.assays + f.mineAssay <= U64_MAX
      && (n.chain.issued as int) + f.gross <= U64_MAX
      && settled == SettledNode(c, n, block.header, f, now)
      && PayMatured(settled) == (paid, None)
      && Finish(c, n, block, f, now) == Outcome(Close(c, paid, block, f), Ok(c.blockHash(block.header)))
      && MoneyInv(settled) && MoneyInv(paid)
      && (forall j :: IsSlashed(n.refiners, j) ==> IsSlashed(paid.refiners, j))
  {
    var n := WithTally(slashed, t);
    PayProducerAdds(n.accounts, block.header.producer, f.refinerIncome);
    SettleBalances(c, n, block.header, f, now);
    SettleSucceeds(c, n, block.header, f, now);
    settled := SettledNode(c, n, block.header, f, now);
    hide SettledNode, Settle, PayProducer, RefInv, AccountsOk, Custody, TotalBalance, IsSlashed, Close, PayMatured;
    PayMaturedKeeps(settled);
    paid := PayMatured(settled).0;
    MaturityKeeps(settled.refiners, settled.chain.height);
  }

  lemma CloseKeeps(c: Crypto, n: NodeState, block: Block, f: Flows)
    requires MoneyInv(n)
    ensures MoneyInv(Close(c, n, block, f))
    ensures forall j :: IsSlashed(n.refiners, j) ==> IsSlashed(Close(c, n, block, f).refiners, j)
  {
    ReseatedKeeps(n.refiners, n.chain.height, n.chain.issued);
    StatusesSpare(n.refiners, Reseated(n.refiners, n.chain.height, n.chain.issued));
    hide RefInv, AccountsOk, Custody, TotalBalance, IsSlashed, Reseated, ReceiptOf, RecordReceipt, Saved, OnlyStatuses;
  }

  lemma StatusesSpare(r: RefinerState, s: RefinerState)
    requires OnlyStatuses(r, s)
    ensures forall j :: IsSlashed(r, j) ==> IsSlashed(s, j)
  {
  }

  lemma ExecuteIsFinish(c: Crypto, n: NodeState, block: Block, kind: ProductionKind, now: u64, slashed: NodeState, rewarded: Accounts, tally: Tally)
    requires slashed == AfterSlashing(c, n, block)
    requires PayProducer(n.accounts, block.header.producer, NetReward(Gross(c, n, block, kind), block.header.difficulty)) == Ok(rewarded)
    requires RunTransactions(c, block.transactions, StartTally(slashed, rewarded), ContextOf(n, block.header)) == (tally, None)
    ensures Execute(c, n, block, kind, now) == Finish(c, WithTally(slashed, tally), block, BlockFlows(c, n, block, kind, tally), now)
  {
    assert slashed.accounts == n.accounts && slashed.chain.issued == n.chain.issued;
    hide PayProducer, RunTransactions, NetReward, GrossReward, SlashAll, NoteSignature, MineAssay, PorFeeSplit, Finish;
  }

  ghost function BlockFlows(c: Crypto, n: NodeState, block: Block, kind: ProductionKind, tally: Tally): Flows {
    FlowsOf(Gross(c, n, block, kind), block.header.difficulty, kind, tally, |n.refiners.active|, ActiveLimit(n.chain.issued), Slashings(c, n, block).slashed)
  }

  lemma BlockFlowsAddUp(c: Crypto, n: NodeState, block: Block, kind: ProductionKind, t: Tally)
    requires Executable(c, n, block, kind)
    ensures var f := BlockFlows(c, n, block, kind, t);
      && (f.feesBurned as int) + f.refinerIncome == f.fees == t.fees
      && f.assays == t.assays && f.gross == Gross(c, n, block, kind) && f.kind == kind
      && f.slashed == Slashings(c, n, block).slashed
      && f.minerCredit == NetReward(Gross(c, n, block, kind), block.header.difficulty)
      && (f.mineAssay as int) + f.minerCredit == f.gross
      && (!kind.Refined? ==> f.refinerIncome == 0)
      && (!kind.Mined? ==> f.gross == 0)
      && (|n.refiners.active| <= ActiveLimit(n.chain.issued) && kind.Refined? ==> 2 * f.feesBurned <= f.fees)
  {
    RewardSplits(c, n, block, kind);
    FlowsAddUp(Gross(c, n, block, kind), block.header.difficulty, kind, t, |n.refiners.active|, ActiveLimit(n.chain.issued), Slashings(c, n, block).slashed);
    hide FlowsOf, NetReward, MineAssay, Slashings, ActiveLimit, BlockReward;
  }

  /** After its checks a block always runs to the end: no overflow check, planned
      credit or total can fail, and the books balance again. */
  lemma ExecuteSucceeds(c: Crypto, n: NodeState, block: Block, kind: ProductionKind, now: u64) returns (tr: Trace)
    requires MoneyInv(n) && Executable(c, n, block, kind)
    ensures Traced(c, n, block, kind, now, tr)
    ensures Execute(c, n, block, kind, now).result == Ok(c.blockHash(block.header))
    ensures MoneyInv(Execute(c, n, block, kind, now).node)
    ensures forall j :: IsSlashed(n.refiners, j) ==> IsSlashed(Execute(c, n, block, kind, now).node.refiners, j)
  {
    var slashed, rewarded, tally := StartSucceeds(c, n, block, kind);
    BlockFlowsAddUp(c, n, block, kind, tally);
    ExecuteIsFinish(c, n, block, kind, now, slashed, rewarded, tally);
    var f := BlockFlows(c, n, block, kind, tally);
    assert f.refinerIncome > 0 ==> kind.Refined? && block.header.producer != 0;
    hide *;
    var settled, paid := EndSucceeds(c, slashed, tally, block, f, now);
    CloseKeeps(c, paid, block, f);
    tr := Trace(slashed, rewarded, tally, f, settled, paid);
    AssembleTrace(c, n, block, kind, now, tr);
  }

  lemma AssembleTrace(c: Crypto, n: NodeState, block: Block, kind: ProductionKind, now: u64, tr: Trace)
    requires tr.slashed == AfterSlashing(c, n, block)
    requires PayProducer(n.accounts, block.header.producer, NetReward(Gross(c, n, block, kind), block.header.difficulty)) == Ok(tr.rewarded)
    requires RunTransactions(c, block.transactions, StartTally(tr.slashed, tr.rewarded), ContextOf(n, block.header)) == (tr.tally, None)
    requires tr.flows == BlockFlows(c, n, block, kind, tr.tally)
    requires var m := WithTally(tr.slashed, tr.tally);
      && PayProducer(m.accounts, block.header.producer, tr.flows.refinerIncome).Ok?
      && (m.chain.burned as int) + tr.flows.feesBurned + tr.flows.assays + tr.flows.mineAssay <= U64_MAX
      && (m.chain.issued as int) + tr.flows.gross <= U64_MAX
      && tr.settled == SettledNode(c, m, block.header, tr.flows, now)
      && PayMatured(tr.settled) == (tr.paid, None)
    requires Execute(c, n, block, kind, now) == Outcome(Close(c, tr.paid, block, tr.flows), Ok(c.blockHash(block.header)))
    ensures Traced(c, n, block, kind, now, tr)
  {
    hide AfterSlashing, PayProducer, NetReward, Gross, RunTransactions, StartTally, ContextOf, BlockFlows, WithTally, SettledNode, PayMatured, Execute, Close;
  }

  /** The invariant at every stage of an executing block. */
  ghost predicate SoundTrace(tr: Trace) {
    && MoneyInv(tr.slashed)
    && RefInv(tr.tally.refiners) && AccountsOk(tr.tally.accounts)
    && MoneyInv(tr.settled) && MoneyInv(tr.paid)
    && (forall j :: IsSlashed(tr.slashed.refiners, j) ==> IsSlashed(tr.tally.refiners, j))
    && (forall j :: IsSlashed(tr.tally.refiners, j) ==> IsSlashed(tr.paid.refiners, j))
  }

  lemma TraceIsSound(c: Crypto, n: NodeState, block: Block, kind: ProductionKind, now: u64, tr: Trace)
    requires MoneyInv(n) && Executable(c, n, block, kind) && Traced(c, n, block, kind, now, tr)
    ensures SoundTrace(tr)
  {
    var slashed, rewarded, tally := StartSucceeds(c, n, block, kind);
    BlockFlowsAddUp(c, n, block, kind, tally);
    TracedParts(c, n, block, kind, now, tr);
    var f := tr.flows;
    assert f.refinerIncome > 0 ==> kind.Refined? && block.header.producer != 0;
    hide *;
    var settled, paid := EndSucceeds(c, slashed, tally, block, f, now);
    SoundParts(tr);
  }

  lemma TracedParts(c: Crypto, n: NodeState, block: Block, kind: ProductionKind, now: u64, tr: Trace)
    requires Traced(c, n, block, kind, now, tr)
    ensures tr.slashed == AfterSlashing(c, n, block)
    ensures PayProducer(n.accounts, block.header.producer, NetReward(Gross(c, n, block, kind), block.header.difficulty)) == Ok(tr.rewarded)
    ensures RunTransactions(c, block.transactions, StartTally(tr.slashed, tr.rewarded), ContextOf(n, block.header)) == (tr.tally, None)
    ensures tr.flows == BlockFlows(c, n, block, kind, tr.tally)
    ensures var m := WithTally(tr.slashed, tr.tally);
      && PayProducer(m.accounts, block.header.producer, tr.flows.refinerIncome).Ok?
      && (m.chain.burned as int) + tr.flows.feesBurned + tr.flows.assays + tr.flows.mineAssay <= U64_MAX
      && (m.chain.issued as int) + tr.flows.gross <= U64_MAX
      && tr.settled == SettledNode(c, m, block.header, tr.flows, now)
      && PayMatured(tr.settled) == (tr.paid, None)
  {
    hide AfterSlashing, PayProducer, NetReward, Gross, RunTransactions, StartTally, ContextOf, BlockFlows, WithTally, SettledNode, PayMatured, Execute, Close;
  }

  lemma SoundParts(tr: Trace)
    requires MoneyInv(tr.slashed) && RefInv(tr.tally.refiners) && AccountsOk(tr.tally.accounts)
    requires MoneyInv(tr.settled) && MoneyInv(tr.paid)
    requires forall j :: IsSlashed(tr.slashed.refiners, j) ==> IsSlashed(tr.tally.refiners, j)
    requires forall j :: IsSlashed(WithTally(tr.slashed, tr.tally).refiners, j) ==> IsSlashed(tr.paid.refiners, j)
    ensures SoundTrace(tr)
  {
    hide MoneyInv, RefInv, AccountsOk, IsSlashed;
  }
}
