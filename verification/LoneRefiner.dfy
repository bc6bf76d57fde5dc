/** A run from genesis in which one refiner bonds, matures, is seated and produces the
    last two blocks, and two calls it can end with: a refused block that leaves
    something behind, and an accepted one that slashes the refiner. */
module LoneRefiner {
  import opened Numbers
  import opened IntegerSqrt
  import opened Emission
  import opened Difficulty
  import opened Collections
  import opened Ledger
  import opened Types
  import opened Refiner
  import opened RefinerInvariant
  import opened EpochRanking
  import opened Selection
  import opened Dispatcher
  import opened BlockValidation
  import opened Chain
  import opened Finality
  import opened BlockApplication
  import opened Supply
  import opened BlockLaws
  import opened Genesis
  import opened Runs
  import opened ChainLinks
  import opened Refusals
  import opened Equivalence
  import opened Liveness
  import opened Restart
  import opened SlashLaws

  function Zeros(n: nat): Bytes { seq(n, _ => 0) }

  /** Every key has id 1, blocks hash to their heights, and of all blocks the refiner
      has signed the two it produces and no other. */
  ghost function PlainCrypto(): Crypto {
    Crypto(_ => 1, _ => 0, _ => true, _ => 0, (header: BlockHeader) => header.height, _ => 0, _ => true, (_, d) => d <= 256, _ => None,
           (_, hash, _) => hash == REFINED || hash == LAST, (_, hash, _) => hash == REFINED || hash == LAST,
           (_, _, _, _) => true, (_, _, _, _, _, _) => 0)
  }

  const STAKE: u64 := 1_000_000
  const SUPPLY: u64 := 2_000_000

  /** Blocks are 90 seconds apart and too hard for the base reward to pay a flake. */
  const DIFFICULTY: u64 := 2

  /** The heights of the two blocks that the refiner produces. */
  const REFINED: u64 := 1_921
  const LAST: u64 := 1_922

  function LoneGenesis(): GenesisConfig {
    GenesisConfig(DIFFICULTY, 1, 0, 0, 0, [GenesisAccount(1, SUPPLY, Zeros(32))])
  }

  function NoBlocks(): Storage { Storage(map[], map[], None) }

  function LoneStart(): NodeState {
    NodeState(GenesisChain(LoneGenesis(), SUPPLY), map[1 := Account(1, SUPPLY, 0, Some(Zeros(32)))], NO_REFINERS, map[], Some(NoBlocks()))
  }

  lemma LoneStartIsFresh()
    ensures IsFresh(LoneStart(), LoneGenesis(), 0, None, Some(NoBlocks()))
  {
    var g := LoneGenesis();
    var ready: Accounts := Opened(map[], g.accounts[0]);
    var credited := ready[1 := ready[1].(balance := SUPPLY)];
    assert Credit(ready, 1, SUPPLY) == Ok(credited);
    assert Allocate(credited, SUPPLY, []) == (credited, Some(SUPPLY));
    assert g.accounts[1..] == [];
    assert Allocate(map[], 0, g.accounts) == (credited, Some(SUPPLY));
    hide Allocate, Opened, Credit;
    assert RegisterLocal(credited, 0, None) == Some(credited);
    assert credited == LoneStart().accounts;
  }

  function BondTx(): Transaction {
    Transaction(0, 1, RefinerBond(STAKE), MIN_FEE, [], 0, 0, MAINNET_CHAIN_ID, [], Zeros(32))
  }

  function HeaderAt(h: u64): BlockHeader
    requires h <= LAST
  {
    BlockHeader(BLOCK_VERSION, h, Max(h - 1, 0), 0, 90 * h, DIFFICULTY, 1,
                if h < REFINED then Some([]) else None, if h < REFINED then None else Some(Zeros(64)))
  }

  function KindAt(h: u64): ProductionKind { if h < REFINED then Mined else Refined }

  /** Block 1 bonds the refiner, the last two are its own, all others are mined. */
  function CallAt(h: u64): Call
    requires h <= LAST
  {
    Call(Block(HeaderAt(h), if h == 1 then [BondTx()] else [], [], []), 90 * h)
  }

  function CallsTo(h: u64): (calls: seq<Call>)
    requires h <= LAST
    ensures |calls| == h
  {
    seq(h, i requires 0 <= i < h => CallAt(i + 1))
  }

  // ---- The state after each block ----

  function StatusAt(h: u64): RefinerStatus {
    if h <= EPOCH then Bonding else if h < 2 * EPOCH then Waiting else Active
  }

  function InfosAt(h: u64): Infos {
    if h == 0 then map[]
    else map[1 := RefinerInfo(1, [BondEntry(STAKE, 1, 90)], StatusAt(h), if h <= EPOCH then 0 else EPOCH + 1, 0)]
  }

  function StampsAt(h: u64): seq<u64>
    requires h <= LAST
  {
    var length := Min(h + 1, WINDOW);
    seq(length, i requires 0 <= i < length => 90 * (h + 1 - length + i))
  }

  predicate ChainAt(chain: ChainState, h: u64)
    requires h <= LAST
  {
    && chain.height == h && chain.difficulty == DIFFICULTY && chain.issued == SUPPLY && chain.baseReward == 1
    && chain.timestamps == StampsAt(h) && chain.latestHash == h && chain.stateRoot == 0
  }

  predicate KeyOfOne(a: Accounts) { a.Keys == {1} && a[1].publicKey == Some(Zeros(32)) }

  ghost predicate At(n: NodeState, h: u64)
    requires h <= LAST
  {
    && MoneyInv(n) && ChainAt(n.chain, h) && KeyOfOne(n.accounts)
    && n.refiners.infos == InfosAt(h) && n.refiners.queue == []
    && n.store.Some? && (h > 0 ==> h in n.store.value.blocks && n.store.value.blocks[h] == CallAt(h).block)
  }

  lemma StartsAt()
    ensures At(LoneStart(), 0) && LoneStart().accounts[1].balance == SUPPLY && LoneStart().accounts[1].nonce == 0
    ensures IsGenesis(LoneStart())
  {
    LoneStartIsFresh();
    hide IsFresh, MoneyInv;
    assert IsGenesis(LoneStart());
    GenesisBalances(LoneStart());
    hide IsGenesis;
    assert StampsAt(0) == [0];
  }

  // ---- Header and difficulty ----

  lemma BondedAt(n: NodeState, h: u64)
    requires h <= LAST && At(n, h)
    ensures TotalBonded(n.refiners) == if h == 0 then 0 else STAKE
    ensures h > 0 ==> TotalStake(n.refiners.infos[1]) == STAKE
  {
    hide RefInv, AccountsOk, Balanced;
    OneStake(h);
    hide Staked;
    TotalBondedIsStaked(n.refiners);
  }

  lemma OneStake(h: u64)
    ensures Staked(InfosAt(h)) == if h == 0 then 0 else STAKE
    ensures h > 0 ==> TotalStake(InfosAt(h)[1]) == STAKE
  {
    var none: Infos := map[];
    assert PlainStakes(none) == map[];
    if h > 0 {
      var infos := InfosAt(h);
      assert StakeSum(infos[1].entries) == STAKE + StakeSum([]);
      StakedUpdate(none, 1, infos[1]);
      assert infos == none[1 := infos[1]];
    }
  }

  lemma DifficultyHolds(h: u64)
    requires h <= LAST
    ensures Retarget(DIFFICULTY, h, StampsAt(h)) == DIFFICULTY
  {
    if h >= EPOCH {
      var stamps := StampsAt(h);
      assert |stamps| == WINDOW && stamps[0] == 90 * (h - EPOCH) && stamps[WINDOW - 1] == 90 * h;
      assert Rescale(DIFFICULTY, 86_400_000) == DIFFICULTY;
    }
  }

  lemma NextStamps(h: u64)
    requires h < LAST
    ensures Prune(StampsAt(h) + [90 * (h + 1)]) == StampsAt(h + 1)
  {
  }

  lemma ExpectedAt(n: NodeState, h: u64, now: u64)
    requires h <= LAST && At(n, h)
    ensures ExpectedOf(n, now) == Expected(h + 1, h, 90 * h, DIFFICULTY, now)
  {
    hide MoneyInv, TotalBonded, Retarget, TotalStake, StampsAt, InfosAt, KeyOfOne;
    BondedAt(n, h);
    DifficultyHolds(h);
    LastStamp(h);
    NextDifficultyAt(h, TotalBonded(n.refiners));
    hide NextDifficulty;
  }

  lemma LastStamp(h: u64)
    requires h <= LAST
    ensures LastTimestamp(StampsAt(h)) == 90 * h
  {
  }

  lemma NextDifficultyAt(h: u64, bonded: u64)
    requires h <= LAST && (bonded == 0 || bonded == STAKE)
    ensures NextDifficulty(DIFFICULTY, h, StampsAt(h), SUPPLY, bonded) == DIFFICULTY
  {
    DifficultyHolds(h);
    hide Retarget, StampsAt;
  }

  lemma NoReward(header: BlockHeader, kind: ProductionKind)
    requires header.difficulty == DIFFICULTY
    ensures GrossReward(PlainCrypto(), 1, header, kind) == 0
    ensures NetReward(0, DIFFICULTY) == 0
  {
    hide VeinYield;
  }

  // ---- Acceptance ----

  lemma AdmittedAt(n: NodeState, h: u64)
    requires h < LAST && At(n, h)
    ensures AdmissionError(PlainCrypto(), n, CallAt(h + 1).block, CallAt(h + 1).now).None?
    ensures KindOf(HeaderAt(h + 1)) == Some(KindAt(h + 1))
  {
    ExpectedAt(n, h, 90 * (h + 1));
    hide ExpectedOf, MoneyInv, StampsAt;
  }

  lemma UnattestedAt(n: NodeState, block: Block)
    requires block.attestations == []
    ensures Attested(PlainCrypto(), n, block).1.None?
    ensures AfterAttesting(PlainCrypto(), n, block).refiners == n.refiners
    ensures AfterAttesting(PlainCrypto(), n, block).accounts == n.accounts
    ensures AfterAttesting(PlainCrypto(), n, block).chain.latestHash == n.chain.latestHash
  {
    hide NewlyFinalized, PruneIndex, Threshold;
  }

  lemma ProducedAt(n: NodeState, m: NodeState, h: u64)
    requires h < LAST && At(n, h)
    requires m.refiners == n.refiners && m.accounts == n.accounts && m.chain.latestHash == n.chain.latestHash
    ensures ProducerError(PlainCrypto(), m, HeaderAt(h + 1), KindAt(h + 1)).None?
  {
    hide MoneyInv, SelectionError, StampsAt, InfosAt, MinerError;
    var c, header := PlainCrypto(), HeaderAt(h + 1);
    assert SignatureError(c, m.accounts, header).None?;
    if h + 1 >= REFINED { Selected(n, h); } else { MinerAt(m.accounts, header); }
    hide SignatureError, HeaderAt, PlainCrypto;
  }

  lemma MinerAt(a: Accounts, header: BlockHeader)
    requires KeyOfOne(a) && header.producer == 1
    ensures MinerError(a, header).None?
  {
  }

  lemma Selected(n: NodeState, h: u64)
    requires REFINED - 1 <= h < LAST && At(n, h)
    ensures SelectionError(n.refiners.infos, h, 1).None?
  {
    var infos := n.refiners.infos;
    BondedAt(n, h);
    assert SelectionSeed(h) == 0;
    hide MoneyInv, SelectionSeed, TotalStake;
    assert Contenders(infos) == {1};
    PartSingle(StakeMap(infos), 1);
    FirstSeedSettles(STAKE);
    hide Settles, Contenders, StakeMap;
    SelectionFindsOwner(infos, 0);
  }

  lemma FirstSeedSettles(upper: u64)
    requires upper > 0
    ensures Settles(SeedBits(0), upper)
  {
    hide MixSeed, UnbiasedZone;
    assert Candidate(SeedBits(0), 0) == 0;
    assert Accepted(Candidate(SeedBits(0), 0), upper);
  }

  lemma AcceptedAt(n: NodeState, h: u64)
    requires h < LAST && At(n, h)
    ensures Accepts(PlainCrypto(), n, CallAt(h + 1)) && RoomFor(PlainCrypto(), n, CallAt(h + 1).block, CallAt(h + 1).now)
  {
    var c, block, now := PlainCrypto(), CallAt(h + 1).block, CallAt(h + 1).now;
    var kind := KindAt(h + 1);
    AdmittedAt(n, h);
    UnattestedAt(n, block);
    ProducedAt(n, AfterAttesting(c, n, block), h);
    assert Cleared(c, n, block, now, kind) by { hide AdmissionError, Attested, ProducerError, AfterAttesting; }
    forall k ensures GrossReward(c, n.chain.baseReward, block.header, k) == 0 { NoReward(block.header, k); }
    assert PowSound(c);
    hide *;
    AcceptedIffCleared(c, n, block, now);
    CallIsApply(c, n, CallAt(h + 1));
  }

  // ---- Execution ----

  lemma NothingMatures(n: NodeState)
    requires n.refiners.queue == []
    ensures PayMatured(n).0.accounts == n.accounts
    ensures PayMatured(n).0.refiners.infos == n.refiners.infos && PayMatured(n).0.refiners.queue == []
  {
    assert Departing(n.refiners, n.chain.height, []) == {};
  }

  /** A block without transactions and evidence that pays nothing. */
  lemma EmptyBlockRuns(n: NodeState, block: Block, kind: ProductionKind, now: u64, tr: Trace)
    requires Traced(PlainCrypto(), n, block, kind, now, tr)
    requires block.transactions == [] && block.slashEvidence == [] && n.refiners.queue == []
    requires block.header.difficulty == DIFFICULTY && n.chain.baseReward == 1
    ensures tr.paid.accounts == n.accounts
    ensures tr.paid.refiners.infos == n.refiners.infos && tr.paid.refiners.queue == []
  {
    NoReward(block.header, kind);
    hide Execute, NetReward, GrossReward, NoteSignature, ActiveLimit;
    NothingMatures(tr.settled);
    hide PayMatured, PoolAfter, Advance;
  }

  lemma MinimumAt()
    ensures MinimumBond(SUPPLY) == STAKE && ActiveLimit(SUPPLY) == EPOCH + 1
  {
    assert SUPPLY / FLAKES_PER_OPL == 2;
    SqrtFloorUnique(2, 1);
    hide SqrtFloor;
  }

  lemma FirstAssay(r: RefinerState)
    requires TotalBonded(r) == 0
    ensures BondAssay(STAKE, r, SUPPLY) == 173
  {
    MinimumAt();
    hide TotalBonded, MinimumBond, ActiveLimit;
    assert ScaledRatio(STAKE, 961_000_000) == 1_040_582_726;
    assert ScaledRatio(961, 1) == 961_000_000_000_000;
    SqrtFloorUnique(1_040_582_726, 32_258);
    SqrtFloorUnique(961_000_000_000_000, 31_000_000);
    assert AssayFrom(STAKE, 32_258, 31_000_000) == 173;
    hide SqrtFloor, ScaledRatio, AssayFrom;
  }

  lemma BondTxSucceeds(a: Accounts, r: RefinerState, ctx: Context)
    requires KeyOfOne(a) && a[1].balance == SUPPLY && a[1].nonce == 0 && r.infos == map[] && TotalBonded(r) == 0
    requires ctx == Context(1, 90, SUPPLY)
    ensures var out := ApplyTransaction(PlainCrypto(), BondTx(), a, r, ctx);
      && out.result == TxOk(MIN_FEE, 173) && KeyOfOne(out.accounts)
      && out.refiners == r.(infos := InfosAt(1), dirty := r.dirty + {1})
  {
    MinimumAt();
    FirstAssay(r);
    hide MinimumBond, BondAssay, TotalBonded;
    assert Bond(r, 1, STAKE, 1, 90, SUPPLY).value.infos == InfosAt(1);
  }

  lemma BondTallied(t: Tally, ctx: Context)
    requires KeyOfOne(t.accounts) && t.accounts[1].balance == SUPPLY && t.accounts[1].nonce == 0
    requires t.refiners.infos == map[] && TotalBonded(t.refiners) == 0 && ctx == Context(1, 90, SUPPLY)
    requires t.fees == t.assays == t.signal == t.successes == 0
    ensures var (u, e) := RunTransactions(PlainCrypto(), [BondTx()], t, ctx);
      e.None? && KeyOfOne(u.accounts) && u.refiners == t.refiners.(infos := InfosAt(1), dirty := t.refiners.dirty + {1})
  {
    BondTxSucceeds(t.accounts, t.refiners, ctx);
    hide ApplyTransaction, TotalBonded, InfosAt, KeyOfOne;
    var txs := [BondTx()];
    assert txs[1..] == [];
    var executed := Executed(PlainCrypto(), BondTx(), t, ctx);
    var charged := Charge(executed, ResultOf(PlainCrypto(), BondTx(), t, ctx), MIN_FEE);
    assert charged.Some?;
    assert RunTransactions(PlainCrypto(), [], charged.value.(pool := charged.value.pool - {0}), ctx).1.None?;
  }

  lemma BondBlockStarts(n: NodeState, tr: Trace)
    requires At(n, 0) && TracedStart(PlainCrypto(), n, CallAt(1).block, Mined, tr)
    ensures tr.slashed.refiners == n.refiners && tr.rewarded == n.accounts
    ensures (tr.tally, None) == RunTransactions(PlainCrypto(), [BondTx()], StartTally(tr.slashed, n.accounts), Context(1, 90, SUPPLY))
    ensures tr.flows.refinerIncome == 0
  {
    NoReward(CallAt(1).block.header, Mined);
    hide NetReward, GrossReward, NoteSignature, ActiveLimit, RunTransactions, MoneyInv, MineAssay;
  }

  lemma BondBlockRuns(n: NodeState, tr: Trace, now: u64)
    requires At(n, 0) && n.accounts[1].balance == SUPPLY && n.accounts[1].nonce == 0
    requires Traced(PlainCrypto(), n, CallAt(1).block, Mined, now, tr)
    ensures KeyOfOne(tr.paid.accounts)
    ensures tr.paid.refiners.infos == InfosAt(1) && tr.paid.refiners.queue == []
  {
    hide Execute, TracedStart, ApplyTransaction, PayMatured, PoolAfter, Advance, MoneyInv, TotalBonded, RunTransactions, PlainCrypto;
    BondedAt(n, 0);
    BondBlockStarts(n, tr);
    hide InfosAt;
    BondTallied(StartTally(tr.slashed, n.accounts), Context(1, 90, SUPPLY));
    NothingMatures(tr.settled);
  }

  // ---- Seating ----

  lemma BondingStays(r: RefinerState)
    requires r.infos == InfosAt(EPOCH)
    ensures Rerank(r, SUPPLY).infos == r.infos && Rerank(r, SUPPLY).queue == r.queue
  {
    hide Rerank, Ranked, Cut, ActiveLimit;
    RerankUnfolds(r, SUPPLY);
    Movers(r, ActiveLimit(SUPPLY));
    hide Promoted, Demoted;
  }

  lemma LoneIsBest(r: RefinerState)
    requires r.infos == InfosAt(2 * EPOCH - 1)
    ensures AsSet(Best(r, SUPPLY)) == {1} && BondingAmong(r.infos, Best(r, SUPPLY)) == {}
  {
    OneStake(2 * EPOCH - 1);
    MinimumAt();
    hide Ranking, TotalStake, Staked, StakeSum, ActiveLimit, MinimumBond;
    RankedSorted(r);
    assert Eligible(r.infos) == {1};
    hide IsRanking;
    NoRepeatsSize(Ranked(r));
    assert Best(r, SUPPLY) == Ranked(r);
  }

  lemma WaitingIsSeated(r: RefinerState)
    requires RefInv(r) && r.infos == InfosAt(2 * EPOCH - 1)
    ensures Rerank(r, SUPPLY).infos == InfosAt(2 * EPOCH) && Rerank(r, SUPPLY).queue == r.queue
  {
    hide Rerank, TotalStake, Staked, RefInv, StakeSum, Best, BondingAmong, Ranked, Promoted, Demoted, ActiveLimit;
    OneStake(2 * EPOCH - 1);
    LoneIsBest(r);
    SeatedAreBestLessBonding(r, SUPPLY);
    RerankKeeps(r, SUPPLY);
    RerankUnfolds(r, SUPPLY);
    assert 1 in AsActive(Rerank(r, SUPPLY).infos);
  }

  /** What activation makes of the records, before any ranking. */
  lemma ActivatedAt(r: RefinerState, h: u64)
    requires 0 < h <= LAST && r.infos == InfosAt(if h == 1 then 1 else h - 1)
    ensures ActivateMatured(r, h).queue == r.queue
    ensures ActivateMatured(r, h).infos == if h == 2 * EPOCH then InfosAt(h - 1) else InfosAt(h)
  {
    var before, after := r.infos, ActivateMatured(r, h).infos;
    assert after.Keys == {1} == before.Keys;
    assert 1 in NewlyWaiting(before, h) <==> h == EPOCH + 1;
    assert after[1] == if h == EPOCH + 1 then before[1].(status := Waiting, lastSignedHeight := h) else before[1];
  }

  lemma ReseatedAt(r: RefinerState, h: u64)
    requires 0 < h <= LAST && RefInv(r)
    requires r.infos == InfosAt(if h == 1 then 1 else h - 1)
    ensures Reseated(r, h, SUPPLY).infos == InfosAt(h) && Reseated(r, h, SUPPLY).queue == r.queue
  {
    hide RefInv, Rerank, Custody, ActivateMatured, InfosAt;
    var activated := ActivateMatured(r, h);
    ActivatedAt(r, h);
    ActivationKeeps(r, h);
    if h == EPOCH {
      BondingStays(activated);
    } else if h == 2 * EPOCH {
      WaitingIsSeated(activated);
    } else {
      assert !EpochBoundary(h);
    }
  }

  // ---- The run ----

  lemma BlockRuns(n: NodeState, k: NodeState, h: u64, tr: Trace)
    requires h < LAST && At(n, h) && (h == 0 ==> n.accounts[1].balance == SUPPLY && n.accounts[1].nonce == 0)
    requires At(k, h) && k.accounts == n.accounts
    requires var call := CallAt(h + 1); Traced(PlainCrypto(), k, call.block, KindAt(h + 1), call.now, tr)
    ensures KeyOfOne(tr.paid.accounts) && tr.paid.refiners.queue == []
    ensures tr.paid.refiners.infos == InfosAt(if h == 0 then 1 else h)
  {
    hide Traced, MoneyInv, InfosAt, StampsAt;
    if h == 0 {
      BondBlockRuns(k, tr, CallAt(h + 1).now);
    } else {
      EmptyBlockRuns(k, CallAt(h + 1).block, KindAt(h + 1), CallAt(h + 1).now, tr);
    }
  }

  lemma StillAt(n: NodeState, h: u64)
    requires h < LAST && At(n, h)
    ensures At(AfterAttesting(PlainCrypto(), n, CallAt(h + 1).block), h)
    ensures AfterAttesting(PlainCrypto(), n, CallAt(h + 1).block).accounts == n.accounts
  {
    var block := CallAt(h + 1).block;
    UnattestedAt(n, block);
    AttestingIsOnlyAttested(PlainCrypto(), n, block);
    OnlyAttestedKeepsMoney(n, AfterAttesting(PlainCrypto(), n, block));
    hide AfterAttesting, MoneyInv, OnlyLiveness, StampsAt, InfosAt;
  }

  lemma MovedAt(n: NodeState, h: u64, tr: Trace, m: NodeState)
    requires h < LAST && At(n, h) && MoneyInv(m) && RefInv(tr.paid.refiners)
    requires ChainMoved(PlainCrypto(), n, CallAt(h + 1).block, tr, m) && tr.flows.gross == 0 && m.chain.stateRoot == 0
    requires KeyOfOne(tr.paid.accounts) && tr.paid.refiners.queue == []
    requires tr.paid.refiners.infos == InfosAt(if h == 0 then 1 else h)
    ensures At(m, h + 1)
  {
    NextStamps(h);
    ReseatedAt(tr.paid.refiners, h + 1);
    hide MoneyInv, RefInv, AfterAttesting, StampsAt, InfosAt, Reseated, RecordReceipt, ReceiptOf, Prune, SnapshotOf;
  }

  lemma PlainRoot(n: NodeState, block: Block, f: Flows)
    ensures Close(PlainCrypto(), n, block, f).chain.stateRoot == 0
  {
    hide Reseated, ReceiptOf, RecordReceipt, Saved;
  }

  lemma SoundPaid(tr: Trace)
    requires SoundTrace(tr)
    ensures RefInv(tr.paid.refiners)
  {
    hide RefInv;
  }

  lemma StepAt(n: NodeState, h: u64)
    requires h < LAST && At(n, h) && (h == 0 ==> n.accounts[1].balance == SUPPLY && n.accounts[1].nonce == 0)
    ensures At(After(PlainCrypto(), n, CallAt(h + 1)), h + 1)
  {
    var c, call := PlainCrypto(), CallAt(h + 1);
    assert PowSound(c);
    assert call.block.header == HeaderAt(h + 1) && n.chain.baseReward == 1 && HeaderAt(h + 1).difficulty == DIFFICULTY;
    assert MoneyInv(n);
    hide *;
    AcceptedAt(n, h);
    CallIsApply(c, n, call);
    StepConserves(c, n, call);
    var kind, tr := AcceptedTrace(c, n, call.block, call.now);
    AdmittedAt(n, h);
    ClearedKind(c, n, call.block, call.now, kind);
    AcceptedFields(c, n, call.block, kind, call.now, tr);
    NoReward(call.block.header, kind);
    PlainRoot(tr.paid, call.block, tr.flows);
    SoundPaid(tr);
    StillAt(n, h);
    BlockRuns(n, AfterAttesting(c, n, call.block), h, tr);
    MovedAt(n, h, tr, After(c, n, call));
  }

  lemma ClearedKind(c: Crypto, n: NodeState, block: Block, now: u64, kind: ProductionKind)
    requires Cleared(c, n, block, now, kind)
    ensures KindOf(block.header) == Some(kind)
  {
    hide AdmissionError, Attested, ProducerError, KindOf;
  }

  lemma {:induction false} RunAt(h: u64)
    requires h <= LAST
    ensures var n := Run(PlainCrypto(), LoneStart(), CallsTo(h));
      At(n, h) && Roomy(PlainCrypto(), LoneStart(), CallsTo(h)) && (h == 0 ==> n == LoneStart())
  {
    hide At, RoomFor, After, Accepts, CallAt, LoneStart, PlainCrypto;
    StartsAt();
    if h > 0 {
      RunAt(h - 1);
      assert CallsTo(h)[..h - 1] == CallsTo(h - 1) && CallsTo(h)[h - 1] == CallAt(h);
      var n := Run(PlainCrypto(), LoneStart(), CallsTo(h - 1));
      AcceptedAt(n, h - 1);
      StepAt(n, h - 1);
    }
  }

  /** The state that the run reaches with its last accepted block. */
  ghost function Reached(): NodeState { Run(PlainCrypto(), LoneStart(), CallsTo(LAST)) }

  /** A refiner block over it that attests the refiner's own, from a producer without
      account. */
  function AttestingCall(): Call {
    Call(Block(BlockHeader(BLOCK_VERSION, LAST + 1, LAST, 0, 90 * (LAST + 1), DIFFICULTY, 2, None, Some(Zeros(64))), [], [],
               [BlockAttestation(1, Zeros(32), LAST, LAST, Zeros(64))]), 90 * (LAST + 1))
  }

  lemma ReachedAt()
    ensures At(Reached(), LAST) && Roomy(PlainCrypto(), LoneStart(), CallsTo(LAST))
    ensures IsGenesis(LoneStart()) && PowSound(PlainCrypto())
  {
    hide At, RoomFor, CallAt, LoneStart, IsGenesis, Run, Roomy;
    RunAt(LAST);
    StartsAt();
  }

  // ---- The refused block ----

  lemma AttestingAdmitted(n: NodeState)
    requires At(n, LAST)
    ensures AdmissionError(PlainCrypto(), n, AttestingCall().block, AttestingCall().now).None?
  {
    ExpectedAt(n, LAST, AttestingCall().now);
    hide ExpectedOf, MoneyInv, StampsAt;
  }

  lemma AttestingCounts(n: NodeState)
    requires At(n, LAST)
    ensures CountedOf(PlainCrypto(), n, AttestingCall().block) == AttestingCall().block.attestations
    ensures !AllSaturated(n, AttestingCall().block.attestations)
  {
    hide MoneyInv, StampsAt;
    var c, block := PlainCrypto(), AttestingCall().block;
    assert Passes(c, n, block, 0);
    assert !Passes(c, n, block, 1);
    assert CountedFrom(c, n, block, 1) == 1;
    assert !Saturated(n, block.attestations[0].refiner);
  }

  lemma AttestingRefused(n: NodeState)
    requires At(n, LAST)
    ensures !Accepts(PlainCrypto(), n, AttestingCall())
  {
    var c, call := PlainCrypto(), AttestingCall();
    AttestingIsOnlyAttested(c, n, call.block);
    hide AfterAttesting, AdmissionError, Attested, Execute, MoneyInv, StampsAt, OnlyLiveness;
    assert KindOf(call.block.header) == Some(Refined);
    assert ProducerError(c, AfterAttesting(c, n, call.block), call.block.header, Refined).Some?;
    hide ProducerError, KindOf;
    var kind := ApplyBlockCases(c, n, call.block, call.now);
  }

  lemma AttestingRoom(n: NodeState)
    requires At(n, LAST)
    ensures RoomFor(PlainCrypto(), n, AttestingCall().block, AttestingCall().now)
  {
    var c, call := PlainCrypto(), AttestingCall();
    hide AdmissionError, Attested, ProducerError, AfterAttesting, MoneyInv, StampsAt;
    forall kind | Cleared(c, n, call.block, call.now, kind) ensures GrossReward(c, n.chain.baseReward, call.block.header, kind) == 0 {
    }
  }

  lemma AttestingHarms(n: NodeState)
    requires At(n, LAST)
    ensures var c, call := PlainCrypto(), AttestingCall();
      && RoomFor(c, n, call.block, call.now) && !Accepts(c, n, call) && !Harmless(c, n, call)
      && After(c, n, call).refiners.infos != n.refiners.infos
  {
    var c, call := PlainCrypto(), AttestingCall();
    AttestingAdmitted(n);
    AttestingCounts(n);
    AttestingRefused(n);
    AttestingRoom(n);
    assert MoneyInv(n) && PowSound(c);
    hide AdmissionError, Accepts, After, MoneyInv, RoomFor, CountedOf, AllSaturated, AllRecorded, NoQuorum, NothingToPrune, KeptRecorded;
    RefusedRecordsIff(c, n, call);
  }

  /** The failing input, reached from genesis: a run that finds room and accepts every
      block up to the refiner's own, and then a refused one that is not harmless and
      leaves a refiner record changed. */
  lemma RefusedBlockMoves()
    ensures var c, start, calls, call := PlainCrypto(), LoneStart(), CallsTo(LAST), AttestingCall();
      && IsGenesis(start) && PowSound(c) && Roomy(c, start, calls + [call])
      && !Accepts(c, Run(c, start, calls), call) && !Harmless(c, Run(c, start, calls), call)
      && Run(c, start, calls + [call]).refiners.infos != Run(c, start, calls).refiners.infos
  {
    hide *;
    ReachedAt();
    ReachedIsRun();
    AttestingHarms(Reached());
    Appended(PlainCrypto(), LoneStart(), CallsTo(LAST), AttestingCall());
  }

  lemma ReachedIsRun()
    ensures Reached() == Run(PlainCrypto(), LoneStart(), CallsTo(LAST))
  {
    hide Run, PlainCrypto, LoneStart, CallsTo;
  }

  lemma Appended(c: Crypto, n: NodeState, calls: seq<Call>, call: Call)
    requires Roomy(c, n, calls) && RoomFor(c, Run(c, n, calls), call.block, call.now)
    ensures Roomy(c, n, calls + [call])
    ensures Run(c, n, calls + [call]) == After(c, Run(c, n, calls), call)
  {
    hide RoomFor, After;
    var longer := calls + [call];
    assert longer[..|longer| - 1] == calls;
  }

  // ---- What it breaks ----

  lemma {:induction false} Unattesting(h: u64)
    requires h <= LAST
    ensures AttestationsIn(CallsTo(h)) == 0
  {
    if h > 0 {
      assert CallsTo(h)[..h - 1] == CallsTo(h - 1);
      Unattesting(h - 1);
    }
  }

  lemma OneAttestation()
    ensures AttestationsIn(CallsTo(LAST) + [AttestingCall()]) == 1
  {
    var calls := CallsTo(LAST);
    assert (calls + [AttestingCall()])[..|calls|] == calls;
    hide CallsTo;
    Unattesting(LAST);
  }

  lemma HarmfulTail(c: Crypto, n: NodeState, calls: seq<Call>, call: Call)
    requires !Accepts(c, Run(c, n, calls), call) && !Harmless(c, Run(c, n, calls), call)
    ensures !HarmlessTail(c, n, calls + [call]) && AcceptedBlocks(c, n, calls + [call]) == AcceptedBlocks(c, n, calls)
  {
    hide Run, Accepts, Harmless;
    assert (calls + [call])[..|calls + [call]| - 1] == calls;
  }

  /** Started again after that call, the node is not the one that stopped. */
  lemma RestartForgets(m: NodeState)
    requires Restarts(LoneGenesis(), 0, None, DiskOf(PlainCrypto(), LoneStart(), CallsTo(LAST) + [AttestingCall()]), m)
    ensures !SameNode(Run(PlainCrypto(), LoneStart(), CallsTo(LAST) + [AttestingCall()]), m)
  {
    assert LoneGenesis().baseReward > 0;
    hide *;
    RefusedBlockMoves();
    OneAttestation();
    LoneStartIsFresh();
    HarmfulTail(PlainCrypto(), LoneStart(), CallsTo(LAST), AttestingCall());
    RestartSameIff(PlainCrypto(), LoneStart(), LoneGenesis(), 0, None, NoBlocks(), CallsTo(LAST) + [AttestingCall()], m);
  }

  /** It can be started again. */
  lemma RestartHappens() returns (m: NodeState)
    ensures Restarts(LoneGenesis(), 0, None, DiskOf(PlainCrypto(), LoneStart(), CallsTo(LAST) + [AttestingCall()]), m)
  {
    hide *;
    var c, n, calls := PlainCrypto(), LoneStart(), CallsTo(LAST) + [AttestingCall()];
    RefusedBlockMoves();
    StartsAt();
    StartStores();
    AnchorIsSaved(c, n, calls);
    var a := Anchor(c, n, calls);
    MoneyParts(a);
    SavedIsSome(a);
    DiskIsAnchors(c, n, calls);
    if SavedState(a) {
      NoLocalKey(a.accounts);
      m := SavedStateCanLoad(a, LoneGenesis(), 0, None);
    } else {
      LoneStartIsFresh();
      m := n;
      FreshLoads(c, calls);
    }
  }

  lemma StartStores()
    ensures LoneStart().store == Some(NoBlocks())
  {
  }

  lemma NoLocalKey(a: Accounts)
    ensures RegisterLocal(a, 0, None).Some?
  {
  }

  lemma DiskIsAnchors(c: Crypto, n: NodeState, calls: seq<Call>)
    requires Run(c, n, calls).store == Anchor(c, n, calls).store
    ensures Anchor(c, n, calls).store.Some? ==> DiskOf(c, n, calls) == Anchor(c, n, calls).store.value
  {
    hide Run, Anchor;
  }

  lemma FreshLoads(c: Crypto, calls: seq<Call>)
    requires DiskOf(c, LoneStart(), calls) == NoBlocks() && IsFresh(LoneStart(), LoneGenesis(), 0, None, Some(NoBlocks()))
    ensures Restarts(LoneGenesis(), 0, None, DiskOf(c, LoneStart(), calls), LoneStart())
  {
    hide DiskOf, FreshNode;
  }

  /** Of two copies of that node, the one that was also sent the refused block differs
      from the other, though both accepted the same blocks. */
  lemma RefusalsBreakAgreement()
    ensures var c, start, calls, call := PlainCrypto(), LoneStart(), CallsTo(LAST), AttestingCall();
      && AcceptedBlocks(c, start, calls + [call]) == AcceptedBlocks(c, start, calls)
      && !SameNode(Run(c, start, calls + [call]), Run(c, start, calls))
  {
    hide *;
    RefusedBlockMoves();
    HarmfulTail(PlainCrypto(), LoneStart(), CallsTo(LAST), AttestingCall());
    DifferentRecords(Run(PlainCrypto(), LoneStart(), CallsTo(LAST) + [AttestingCall()]), Run(PlainCrypto(), LoneStart(), CallsTo(LAST)));
  }

  lemma DifferentRecords(n: NodeState, m: NodeState)
    requires n.refiners.infos != m.refiners.infos
    ensures !SameNode(n, m)
  {
    hide RefInv;
  }

  // ---- The slashed refiner ----

  /** A mined block that presents the refiner's two blocks as a double sign. */
  ghost function SlashingCall(): Call {
    Call(Block(BlockHeader(BLOCK_VERSION, LAST + 1, LAST, 0, 90 * (LAST + 1), DIFFICULTY, 1, Some([]), None), [],
               [EvidenceOf(PlainCrypto(), Zeros(32), LAST, HeaderAt(REFINED), Zeros(64), HeaderAt(LAST), Zeros(64))], []), 90 * (LAST + 1))
  }

  lemma SlashingAdmitted(n: NodeState)
    requires At(n, LAST)
    ensures AdmissionError(PlainCrypto(), n, SlashingCall().block, SlashingCall().now).None?
  {
    ExpectedAt(n, LAST, SlashingCall().now);
    hide ExpectedOf, MoneyInv, StampsAt;
  }

  lemma SlashingAccepted(n: NodeState)
    requires At(n, LAST)
    ensures var c, call := PlainCrypto(), SlashingCall();
      Accepts(c, n, call) && RoomFor(c, n, call.block, call.now)
  {
    var c, call := PlainCrypto(), SlashingCall();
    var block := call.block;
    assert KindOf(block.header) == Some(Mined);
    assert block.header.difficulty == DIFFICULTY && block.attestations == [];
    assert MoneyInv(n) && PowSound(c) && n.chain.baseReward == 1 && n.chain.height == LAST && n.chain.issued == SUPPLY;
    SlashingAdmitted(n);
    UnattestedAt(n, block);
    MinerAt(n.accounts, block.header);
    assert SignatureError(c, n.accounts, block.header).None?;
    hide PlainCrypto, SlashingCall, AdmissionError, Attested, AfterAttesting, MinerError, SignatureError, MoneyInv, PowSound, At, KindOf;
    assert Cleared(c, n, block, call.now, Mined);
    forall k ensures GrossReward(c, n.chain.baseReward, block.header, k) == 0 { NoReward(block.header, k); }
    hide Cleared, GrossReward;
    AcceptedIffCleared(c, n, block, call.now);
    CallIsApply(c, n, call);
  }

  lemma SlashingConvicts(n: NodeState)
    requires At(n, LAST)
    ensures Convicts(PlainCrypto(), n, SlashingCall().block, 1) && !IsSlashed(n.refiners, 1)
  {
    hide MoneyInv, StampsAt;
    var e := SlashingCall().block.slashEvidence[0];
    assert EvidenceHolds(PlainCrypto(), e) && e.producer == 1;
  }

  /** The failing input, reached from genesis: the refiner never signed two blocks of
      one height, yet the next accepted block slashes it for the two it produced. */
  lemma SlashedWithoutDoubleSign()
    ensures var c, start, calls, call := PlainCrypto(), LoneStart(), CallsTo(LAST), SlashingCall();
      && IsGenesis(start) && PowSound(c) && Roomy(c, start, calls + [call])
      && Accepts(c, Run(c, start, calls), call) && !DoubleSigned(c, 1)
      && !IsSlashed(Run(c, start, calls).refiners, 1) && IsSlashed(Run(c, start, calls + [call]).refiners, 1)
  {
    NoDoubleSign();
    hide *;
    ReachedAt();
    ReachedIsRun();
    ReachedSound();
    SlashingAccepted(Reached());
    SlashingConvicts(Reached());
    BlockSlashesIff(PlainCrypto(), Reached(), SlashingCall(), 1);
    Appended(PlainCrypto(), LoneStart(), CallsTo(LAST), SlashingCall());
  }

  lemma ReachedSound()
    ensures MoneyInv(Reached())
  {
    hide MoneyInv, Reached;
    ReachedAt();
  }

  lemma NoDoubleSign()
    ensures !DoubleSigned(PlainCrypto(), 1)
  {
  }
}
