/** Why a block's reward must find room. */
module Room {
  import opened Numbers
  import opened IntegerSqrt
  import opened Emission
  import opened Difficulty
  import opened Collections
  import opened Ledger
  import opened Types
  import opened Refiner
  import opened RefinerInvariant
  import opened Dispatcher
  import opened BlockValidation
  import opened Chain
  import opened Finality
  import opened BlockApplication
  import opened Supply
  import opened BlockLaws
  import opened Genesis
  import opened Runs
  import opened ChainLinks
  import opened LoneRefiner

  /** Everything burned, held, staked or queued. */
  ghost function Held(n: NodeState): nat { n.chain.burned + Holdings(n.accounts, n.refiners) }

  // ---- Stages that succeed, with or without room ----

  lemma PaidExactly(a: Accounts, producer: ObjectId, amount: u64)
    requires PayProducer(a, producer, amount).Ok? && (producer != 0 || amount == 0)
    ensures TotalBalance(PayProducer(a, producer, amount).value) == TotalBalance(a) + amount
  {
    hide CreditOrCreate, CanCredit, TotalBalance;
    if amount > 0 { CreditOrCreateTotal(a, producer, amount); }
  }

  lemma {:induction false} AllCreditedExactly(a: Accounts, drained: seq<(ObjectId, u64)>)
    requires CreditAll(a, drained).1.None?
    ensures TotalBalance(CreditAll(a, drained).0) == TotalBalance(a) + MaturedTotal(drained)
    decreases |drained|
  {
    hide CreditOrCreate, TotalBalance;
    if drained != [] {
      MaturedTotalCons(drained);
      CreditOrCreateTotal(a, drained[0].0, drained[0].1);
      AllCreditedExactly(CreditOrCreate(a, drained[0].0, drained[0].1).value, drained[1..]);
    }
  }

  lemma ChargedExactly(c: Crypto, tx: Transaction, t: Tally, ctx: Context)
    requires RefInv(t.refiners) && Charge(Executed(c, tx, t, ctx), ResultOf(c, tx, t, ctx), tx.fee).Some?
    ensures var u := Charge(Executed(c, tx, t, ctx), ResultOf(c, tx, t, ctx), tx.fee).value;
      RefInv(u.refiners) && TallyTotal(u) == TallyTotal(t)
  {
    if ApplyTransaction(c, tx, t.accounts, t.refiners, ctx).result.TxOk? {
      SuccessSettles(c, tx, t.accounts, t.refiners, ctx);
    } else {
      FailureIsNoOp(c, tx, t.accounts, t.refiners, ctx);
    }
    hide ApplyTransaction, RefInv, AccountsOk, Custody, IsSlashed, TotalBalance;
  }

  lemma {:induction false} RunExactly(c: Crypto, txs: seq<Transaction>, t: Tally, ctx: Context)
    requires RefInv(t.refiners) && RunTransactions(c, txs, t, ctx).1.None?
    ensures var u := RunTransactions(c, txs, t, ctx).0;
      RefInv(u.refiners) && TallyTotal(u) == TallyTotal(t)
    decreases |txs|
  {
    hide Charge, Executed, ResultOf, RefInv, Custody, TotalBalance;
    if txs != [] {
      ChargedExactly(c, txs[0], t, ctx);
      var charged := Charge(Executed(c, txs[0], t, ctx), ResultOf(c, txs[0], t, ctx), txs[0].fee).value;
      RunExactly(c, txs[1..], charged.(pool := charged.pool - {txs[0].txId}), ctx);
    }
  }

  lemma SettledExactly(c: Crypto, n: NodeState, header: BlockHeader, f: Flows, now: u64)
    requires Settle(c, n, header, f, now).1.None? && header.producer != 0
    requires (f.feesBurned as int) + f.refinerIncome == f.fees && (!f.kind.Refined? ==> f.refinerIncome == 0)
    ensures var m := Settle(c, n, header, f, now).0;
      && Held(m) == Held(n) + f.fees + f.assays + f.mineAssay
      && m.chain.issued == SatAdd64(n.chain.issued, f.gross) && m.refiners == n.refiners
  {
    if f.kind.Refined? { PaidExactly(n.accounts, header.producer, f.refinerIncome); }
    hide PayProducer, PoolAfter, SuggestedFee, TotalBalance, Custody;
  }

  lemma PaidOutExactly(n: NodeState)
    requires RefInv(n.refiners) && PayMatured(n).1.None?
    ensures var m := PayMatured(n).0;
      Held(m) == Held(n) && m.chain == n.chain && RefInv(m.refiners)
  {
    hide RefInv, Custody, TotalBalance, PlanCredits, PlanCreditable, ProcessMatured, Matured;
    MaturityKeeps(n.refiners, n.chain.height);
    AllCreditedExactly(n.accounts, Matured(n.refiners.queue, n.chain.height));
  }

  lemma ClosedExactly(c: Crypto, n: NodeState, block: Block, f: Flows)
    requires RefInv(n.refiners)
    ensures Held(Close(c, n, block, f)) == Held(n) && Close(c, n, block, f).chain.issued == n.chain.issued
  {
    CloseFields(c, n, block, f);
    ReseatedKeeps(n.refiners, n.chain.height, n.chain.issued);
    hide RefInv, Custody, TotalBalance, Reseated, Close;
  }

  lemma FinishedExactly(c: Crypto, n: NodeState, block: Block, f: Flows, now: u64)
    requires RefInv(n.refiners) && Finish(c, n, block, f, now).result.Ok? && block.header.producer != 0
    requires (f.feesBurned as int) + f.refinerIncome == f.fees && (!f.kind.Refined? ==> f.refinerIncome == 0)
    ensures var m := Finish(c, n, block, f, now).node;
      Held(m) == Held(n) + f.fees + f.assays + f.mineAssay && m.chain.issued == SatAdd64(n.chain.issued, f.gross)
  {
    hide RefInv, Settle, PayMatured, Close, Held;
    SettledExactly(c, n, block.header, f, now);
    var settled := Settle(c, n, block.header, f, now).0;
    PaidOutExactly(settled);
    ClosedExactly(c, PayMatured(settled).0, block, f);
  }

  /** A block that executes to its end adds exactly its gross reward to what is held
      and burned, whether or not the issuance counter can take it. */
  lemma ExecutedExactly(c: Crypto, n: NodeState, block: Block, kind: ProductionKind, now: u64)
    requires MoneyInv(n) && Execute(c, n, block, kind, now).result.Ok?
    requires block.header.producer != 0 && (kind.Mined? ==> block.header.difficulty <= 256)
    ensures var m, gross := Execute(c, n, block, kind, now).node, GrossReward(c, n.chain.baseReward, block.header, kind);
      Held(m) == Held(n) + gross && m.chain.issued == SatAdd64(n.chain.issued, gross)
  {
    hide *;
    var gross := Gross(c, n, block, kind);
    GrossIs(c, n, block, kind);
    var slashed, a, tally := ExecutedParts(c, n, block, kind, now);
    StartedExactly(c, n, block, kind, slashed, a, tally);
    ExecuteIsFinish(c, n, block, kind, now, slashed, a, tally);
    var f := BlockFlows(c, n, block, kind, tally);
    FlowsOfBlock(c, n, block, kind, tally);
    TalliedHeld(slashed, tally);
    FinishedExactly(c, WithTally(slashed, tally), block, f, now);
  }

  lemma GrossIs(c: Crypto, n: NodeState, block: Block, kind: ProductionKind)
    ensures Gross(c, n, block, kind) == GrossReward(c, n.chain.baseReward, block.header, kind)
  {
    hide GrossReward;
  }

  lemma ExecutedParts(c: Crypto, n: NodeState, block: Block, kind: ProductionKind, now: u64) returns (slashed: NodeState, a: Accounts, tally: Tally)
    requires Execute(c, n, block, kind, now).result.Ok?
    ensures slashed == AfterSlashing(c, n, block)
    ensures PayProducer(n.accounts, block.header.producer, NetReward(Gross(c, n, block, kind), block.header.difficulty)) == Ok(a)
    ensures RunTransactions(c, block.transactions, StartTally(slashed, a), ContextOf(n, block.header)) == (tally, None)
  {
    slashed := AfterSlashing(c, n, block);
    assert slashed.accounts == n.accounts && slashed.chain.issued == n.chain.issued;
    hide AfterSlashing, PayProducer, RunTransactions, NetReward, GrossReward, FlowsOf, Finish;
    a := PayProducer(n.accounts, block.header.producer, NetReward(Gross(c, n, block, kind), block.header.difficulty)).value;
    tally := RunTransactions(c, block.transactions, StartTally(slashed, a), ContextOf(n, block.header)).0;
  }

  lemma StartedExactly(c: Crypto, n: NodeState, block: Block, kind: ProductionKind, slashed: NodeState, a: Accounts, tally: Tally)
    requires MoneyInv(n) && block.header.producer != 0 && (kind.Mined? ==> block.header.difficulty <= 256)
    requires slashed == AfterSlashing(c, n, block)
    requires PayProducer(n.accounts, block.header.producer, NetReward(Gross(c, n, block, kind), block.header.difficulty)) == Ok(a)
    requires RunTransactions(c, block.transactions, StartTally(slashed, a), ContextOf(n, block.header)) == (tally, None)
    ensures RefInv(tally.refiners) && slashed.chain.issued == n.chain.issued
    ensures slashed.chain.burned + TallyTotal(tally) + MineAssay(Gross(c, n, block, kind), block.header.difficulty) == Held(n) + Gross(c, n, block, kind)
  {
    var net := NetReward(Gross(c, n, block, kind), block.header.difficulty);
    RewardSplits(c, n, block, kind);
    SlashStageKeeps(c, n, block);
    hide AfterSlashing, PayProducer, RunTransactions, NetReward, GrossReward, MineAssay, RefInv, AccountsOk, Custody, TotalBalance;
    PaidExactly(n.accounts, block.header.producer, net);
    RunExactly(c, block.transactions, StartTally(slashed, a), ContextOf(n, block.header));
  }

  lemma FlowsOfBlock(c: Crypto, n: NodeState, block: Block, kind: ProductionKind, tally: Tally)
    ensures var f := BlockFlows(c, n, block, kind, tally);
      && (f.feesBurned as int) + f.refinerIncome == f.fees == tally.fees && f.assays == tally.assays
      && f.gross == Gross(c, n, block, kind) && f.mineAssay == MineAssay(f.gross, block.header.difficulty)
      && (!f.kind.Refined? ==> f.refinerIncome == 0)
  {
    hide FlowsOf, Gross, MineAssay, ActiveLimit, Slashings;
    FlowsAddUp(Gross(c, n, block, kind), block.header.difficulty, kind, tally, |n.refiners.active|, ActiveLimit(n.chain.issued), Slashings(c, n, block).slashed);
  }

  lemma TalliedHeld(slashed: NodeState, tally: Tally)
    ensures var n := WithTally(slashed, tally);
      && Held(n) + tally.fees + tally.assays == slashed.chain.burned + TallyTotal(tally)
      && n.refiners == tally.refiners && n.chain == slashed.chain
  {
    hide TotalBalance, Custody;
  }

  // ---- Exactly when conservation holds ----

  /** An accepted block keeps the supply equation if and only if it found room for its
      reward; nothing else can break it. */
  lemma AcceptedBalancedIff(c: Crypto, n: NodeState, call: Call)
    requires MoneyInv(n) && PowSound(c) && n.chain.height < U64_MAX - EPOCH && Accepts(c, n, call)
    ensures Balanced(After(c, n, call)) <==> RoomFor(c, n, call.block, call.now)
  {
    hide *;
    var block, now := call.block, call.now;
    CallIsApply(c, n, call);
    var k := ApplyBlockCases(c, n, block, now);
    var kind, m := k.value, AfterAttesting(c, n, block);
    AttestingIsOnlyAttested(c, n, block);
    OnlyAttestedKeepsMoney(n, m);
    SameTotals(n, m);
    ClearedAdmitted(c, n, block, now, kind);
    AdmittedFacts(c, n, block, now);
    ClearedKind(c, n, block, now, kind);
    ExecutedExactly(c, m, block, kind, now);
    BalancedIs(n);
    BalancedIs(After(c, n, call));
    RoomIs(c, n, block, now, kind);
    CountedIff(n.chain.issued, GrossReward(c, n.chain.baseReward, block.header, kind));
  }

  lemma CountedIff(issued: u64, gross: u64)
    ensures SatAdd64(issued, gross) == (issued as int) + gross <==> (issued as int) + gross <= U64_MAX
  {
  }

  lemma SameTotals(n: NodeState, m: NodeState)
    requires MoneyInv(n) && MoneyInv(m) && OnlyAttested(n, m)
    ensures Held(m) == Held(n) && m.chain.issued == n.chain.issued && m.chain.baseReward == n.chain.baseReward
  {
    hide RefInv, AccountsOk, Custody, TotalBalance, OnlyLiveness;
  }

  lemma BalancedIs(n: NodeState)
    ensures Balanced(n) <==> n.chain.issued == Held(n)
    ensures MoneyInv(n) ==> Balanced(n)
  {
    hide RefInv, AccountsOk, Custody, TotalBalance;
  }

  lemma RoomIs(c: Crypto, n: NodeState, block: Block, now: u64, kind: ProductionKind)
    requires Cleared(c, n, block, now, kind) && n.chain.height < U64_MAX - EPOCH
    ensures RoomFor(c, n, block, now)
       <==> (n.chain.issued as int) + GrossReward(c, n.chain.baseReward, block.header, kind) <= U64_MAX
  {
    forall k | Cleared(c, n, block, now, k) ensures k == kind {
      ClearedKind(c, n, block, now, k);
      ClearedKind(c, n, block, now, kind);
    }
    hide Cleared, GrossReward;
  }

  // ---- A block without room ----

  /** A genesis that issues all that can be counted. */
  function RichGenesis(): GenesisConfig {
    GenesisConfig(1, 10, 0, 0, 0, [GenesisAccount(1, U64_MAX, Zeros(32)), GenesisAccount(2, 0, Zeros(32))])
  }

  function RichAccounts(mined: u64): Accounts {
    map[1 := Account(1, U64_MAX, 0, Some(Zeros(32))), 2 := Account(2, mined, 0, Some(Zeros(32)))]
  }

  function RichStart(): NodeState {
    NodeState(GenesisChain(RichGenesis(), U64_MAX), RichAccounts(0), NO_REFINERS, map[], None)
  }

  function RichCall(): Call {
    Call(Block(BlockHeader(BLOCK_VERSION, 1, 0, 0, 90, 1, 2, Some([]), None), [], [], []), 90)
  }

  lemma RichStartIsGenesis()
    ensures IsGenesis(RichStart())
  {
    var g, store: Option<Storage> := RichGenesis(), None;
    var first: Accounts := Opened(map[], g.accounts[0]);
    var paid := first[1 := first[1].(balance := U64_MAX)];
    assert Credit(first, 1, U64_MAX) == Ok(paid);
    var second := Opened(paid, g.accounts[1]);
    assert second[2 := second[2].(balance := 0)] == second;
    assert Credit(second, 2, 0) == Ok(second);
    assert second == RichAccounts(0);
    var rest := g.accounts[1..];
    assert rest[0] == g.accounts[1] && rest[1..] == [];
    assert Allocate(second, U64_MAX, []) == (second, Some(U64_MAX));
    assert Allocate(paid, U64_MAX, rest) == (second, Some(U64_MAX));
    assert Allocate(map[], 0, g.accounts) == (second, Some(U64_MAX));
    hide Allocate, Opened, Credit;
    assert IsFresh(RichStart(), g, 0, None, store);
  }

  lemma RichReward()
    ensures GrossReward(PlainCrypto(), 10, RichCall().block.header, Mined) == 10
    ensures MineAssay(10, 1) == 0 && NetReward(10, 1) == 10
  {
    VeinYieldBounds(1, 0);
    SqrtFloorUnique(1, 1);
    hide VeinYield, SqrtFloor;
  }

  lemma RichCleared()
    ensures Cleared(PlainCrypto(), RichStart(), RichCall().block, RichCall().now, Mined)
    ensures var m := AfterAttesting(PlainCrypto(), RichStart(), RichCall().block);
      && m.accounts == RichAccounts(0) && m.refiners == NO_REFINERS
      && m.chain.issued == U64_MAX && m.chain.burned == 0 && m.chain.baseReward == 10
  {
    var c, n, call := PlainCrypto(), RichStart(), RichCall();
    UnattestedAt(n, call.block);
    AttestingIsOnlyAttested(c, n, call.block);
    hide AfterAttesting, Attested, OnlyLiveness;
    assert TotalBonded(n.refiners) == 0 by { RichBonded(); }
    hide TotalBonded;
    assert AdmissionError(c, n, call.block, call.now).None?;
    hide AdmissionError;
  }

  lemma RichBonded()
    ensures TotalBonded(NO_REFINERS) == 0
  {
    RichStartIsGenesis();
    GenesisBalances(RichStart());
    TotalBondedIsStaked(NO_REFINERS);
  }

  /** Before settling: the miner has been paid ten flakes, and nothing else happened. */
  ghost predicate Paid(m: NodeState, f: Flows) {
    && m.accounts == RichAccounts(10) && m.refiners == NO_REFINERS && m.chain.issued == U64_MAX && m.chain.burned == 0
    && f.kind.Mined? && f.gross == 10
    && f.mineAssay == f.fees == f.feesBurned == f.refinerIncome == f.assays == f.slashed == 0
  }

  lemma RichStarts(n: NodeState) returns (m: NodeState, f: Flows)
    requires n.accounts == RichAccounts(0) && n.refiners == NO_REFINERS
    requires n.chain.issued == U64_MAX && n.chain.burned == 0 && n.chain.baseReward == 10
    ensures Paid(m, f)
    ensures Execute(PlainCrypto(), n, RichCall().block, Mined, RichCall().now) == Finish(PlainCrypto(), m, RichCall().block, f, RichCall().now)
  {
    RichReward();
    hide GrossReward, NetReward, MineAssay, NoteSignature, Finish, ActiveLimit;
    var c, block := PlainCrypto(), RichCall().block;
    var slashed := AfterSlashing(c, n, block);
    assert RichAccounts(0)[2 := RichAccounts(0)[2].(balance := 10)] == RichAccounts(10);
    assert PayProducer(slashed.accounts, 2, 10) == Ok(RichAccounts(10));
    var tally := StartTally(slashed, RichAccounts(10));
    m := WithTally(slashed, tally);
    f := FlowsOf(10, 1, Mined, tally, 0, ActiveLimit(U64_MAX), 0);
  }

  lemma RichFinishes(m: NodeState, f: Flows)
    requires Paid(m, f)
    ensures var out := Finish(PlainCrypto(), m, RichCall().block, f, RichCall().now);
      && out.result.Ok? && out.node.accounts == RichAccounts(10)
      && out.node.chain.issued == U64_MAX && out.node.chain.burned == 0
      && out.node.refiners.infos == map[] && out.node.refiners.queue == []
  {
    var c, block := PlainCrypto(), RichCall().block;
    hide Close, Advance, PoolAfter, Rerank;
    assert !EpochBoundary(1);
    var (settled, e) := Settle(c, m, block.header, f, RichCall().now);
    assert e.None? && settled.accounts == m.accounts && settled.refiners == NO_REFINERS;
    RichTip(m.chain.(issued := U64_MAX, burned := 0), block.header, f);
    hide Settle;
    var (paid, _) := PayMatured(settled);
    assert paid.refiners.infos == map[] && paid.refiners.queue == [];
    CloseFields(c, paid, block, f);
  }

  lemma RichTip(chain: ChainState, header: BlockHeader, f: Flows)
    ensures var tip := Advance(chain, header, header.height, f);
      tip.issued == chain.issued && tip.burned == chain.burned && tip.height == header.height
  {
  }

  lemma RichBalances(mined: u64)
    ensures TotalBalance(RichAccounts(mined)) == (U64_MAX as int) + mined
  {
    var none: Accounts := map[];
    var one := none[1 := Account(1, U64_MAX, 0, Some(Zeros(32)))];
    assert RichAccounts(mined) == one[2 := Account(2, mined, 0, Some(Zeros(32)))];
    NoAccounts();
    SetBalanceTotal(none, 1, one[1]);
    SetBalanceTotal(one, 2, Account(2, mined, 0, Some(Zeros(32))));
    hide TotalBalance;
  }

  lemma NothingStaked()
    ensures Staked(map[]) == 0 && QueueTotal([]) == 0
  {
    assert PlainStakes(map[]) == map[];
  }

  /** More is held and burned than was ever issued. */
  ghost predicate Exceeded(n: NodeState) {
    n.chain.issued < n.chain.burned + TotalBalance(n.accounts) + Staked(n.refiners.infos) + QueueTotal(n.refiners.queue)
  }

  /** Without room conservation fails: this first block is accepted and pays its miner
      ten flakes that the saturated issuance counter does not show. */
  lemma RoomIsNeeded()
    ensures var c, n, call := PlainCrypto(), RichStart(), RichCall();
      && IsGenesis(n) && PowSound(c) && Accepts(c, n, call) && !RoomFor(c, n, call.block, call.now)
      && Exceeded(Run(c, n, [call]))
  {
    var c, n, call := PlainCrypto(), RichStart(), RichCall();
    hide *;
    RichFacts();
    RichStartIsGenesis();
    RichEnds();
    RichCleared();
    ClearedExecutes(c, n, call.block, call.now, Mined);
    CallIsApply(c, n, call);
    OneCall(c, n, call);
    NoRoom(c, n, call.block, call.now, Mined);
  }

  lemma RichFacts()
    ensures PowSound(PlainCrypto())
    ensures var n, header := RichStart(), RichCall().block.header;
      (n.chain.issued as int) + GrossReward(PlainCrypto(), n.chain.baseReward, header, Mined) > U64_MAX
  {
    RichReward();
    hide GrossReward, RichCall;
  }

  lemma MoreThanIssued(n: NodeState)
    requires n.accounts == RichAccounts(10) && n.chain.issued == U64_MAX && n.chain.burned == 0
    requires n.refiners.infos == map[] && n.refiners.queue == []
    ensures Exceeded(n)
  {
    hide TotalBalance, Staked, QueueTotal;
    RichBalances(10);
    NothingStaked();
  }

  lemma RichEnds()
    ensures var c, n, call := PlainCrypto(), RichStart(), RichCall();
      var out := Execute(c, AfterAttesting(c, n, call.block), call.block, Mined, call.now);
      out.result.Ok? && Exceeded(out.node)
  {
    hide *;
    RichCleared();
    var m, f := RichStarts(AfterAttesting(PlainCrypto(), RichStart(), RichCall().block));
    RichFinishes(m, f);
    MoreThanIssued(Finish(PlainCrypto(), m, RichCall().block, f, RichCall().now).node);
  }

  lemma ClearedExecutes(c: Crypto, n: NodeState, block: Block, now: u64, kind: ProductionKind)
    requires Cleared(c, n, block, now, kind)
    ensures ApplyBlock(c, n, block, now) == Execute(c, AfterAttesting(c, n, block), block, kind, now)
  {
    hide AdmissionError, Attested, ProducerError, Execute, Finalized, Threshold;
  }

  lemma OneCall(c: Crypto, n: NodeState, call: Call)
    ensures Run(c, n, [call]) == After(c, n, call)
  {
    hide After;
    assert [call][..0] == [];
    assert Run(c, n, []) == n;
  }

  lemma NoRoom(c: Crypto, n: NodeState, block: Block, now: u64, kind: ProductionKind)
    requires Cleared(c, n, block, now, kind)
    requires (n.chain.issued as int) + GrossReward(c, n.chain.baseReward, block.header, kind) > U64_MAX
    ensures !RoomFor(c, n, block, now)
  {
    hide Cleared, GrossReward;
  }
}
