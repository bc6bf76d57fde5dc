/** `OpolysNode` (crates/node/src/node.rs): the block transition of module
    `BlockApplication`, done in place on the node's stores. */
module Node {
  import opened Numbers
  import opened Emission
  import opened Difficulty
  import opened Collections
  import opened Ledger
  import opened Types
  import opened Refiner
  import opened RefinerInvariant
  import opened Selection
  import opened RefinerStore
  import opened Dispatcher
  import opened BlockValidation
  import opened Chain
  import opened Finality
  import opened Genesis
  import opened BlockApplication
  import opened Supply

  /** The chain state's fields as the node updates them. */
  class LiveChain {
    var height: u64
    var difficulty: u64
    var issued: u64
    var burned: u64
    const ledger: MintLedgerTotals
    var timestamps: seq<u64>
    var latestHash: Hash
    var stateRoot: Hash
    var suggestedFee: u64
    var signatures: Signatures
    var baseReward: u64
    var finalizedHeight: u64
    var finality: FinalityIndex

    function State(): ChainState
      reads this, ledger
    {
      ChainState(height, difficulty, issued, burned, ledger.Totals(), timestamps, latestHash, stateRoot, suggestedFee,
                 signatures, baseReward, finalizedHeight, finality)
    }

    constructor (s: ChainState)
      ensures State() == s && fresh(ledger)
    {
      height, difficulty, issued, burned := s.height, s.difficulty, s.issued, s.burned;
      ledger := new MintLedgerTotals(s.ledger);
      timestamps, latestHash, stateRoot, suggestedFee := s.timestamps, s.latestHash, s.stateRoot, s.suggestedFee;
      signatures, baseReward, finalizedHeight, finality := s.signatures, s.baseReward, s.finalizedHeight, s.finality;
    }

    /** The fields a settled block moves; the burn counter is added up before. */
    method MoveTip(header: BlockHeader, hash: Hash, signal: u64, successes: u64)
      modifies this
      ensures State() == old(State()).(height := header.height, difficulty := header.difficulty, latestHash := hash,
                                       timestamps := Prune(old(timestamps) + [header.timestamp]),
                                       suggestedFee := SuggestedFee(signal, successes, old(suggestedFee)))
    {
      suggestedFee := SuggestedFee(signal, successes, suggestedFee);
      height := header.height;
      difficulty := header.difficulty;
      latestHash := hash;
      timestamps := timestamps + [header.timestamp];
      var excess := Max(|timestamps| - WINDOW, 0);
      if excess > 0 {
        timestamps := timestamps[excess..];
      }
    }
  }

  class OpolysNode {
    const chain: LiveChain
    const accounts: AccountStore
    const refiners: RefinerSet
    const mempool: TransactionPool.Mempool
    var store: Option<Storage>

    ghost function State(): NodeState
      reads this, chain, chain.ledger, accounts, refiners, mempool
    {
      NodeState(chain.State(), accounts.accounts, refiners.State(), mempool.entries, store)
    }

    ghost predicate Valid()
      reads refiners, mempool
    {
      refiners.Valid() && mempool.Valid()
    }

    /** A node over opened stores; the pool starts empty. */
    constructor (chain: LiveChain, accounts: AccountStore, refiners: RefinerSet, store: Option<Storage>)
      requires refiners.Valid()
      ensures Valid() && State() == NodeState(chain.State(), accounts.accounts, refiners.State(), map[], store)
      ensures this.chain == chain && this.accounts == accounts && this.refiners == refiners && fresh(mempool)
    {
      this.chain, this.accounts, this.refiners, this.store := chain, accounts, refiners, store;
      mempool := new TransactionPool.Mempool();
    }

    // ---- Attestations ----

    /** The loop over included attestations: it stops at the first bad one and keeps
        what it has recorded. */
    method RecordAttestations(c: Crypto, block: Block) returns (ghost p: Progress, touched: set<(u64, Hash)>, error: Option<AttestationError>)
      requires Valid()
      modifies chain, refiners
      ensures Valid()
      ensures (p, error) == Attested(c, old(State()), block)
      ensures touched == p.touched
      ensures State() == WithProgress(old(State()), p)
    {
      var height, blocks := block.header.height, if store.None? then None else Some(store.value.blocks);
      var atts := block.attestations;
      var seen: set<(u64, ObjectId)> := {};
      touched := {};
      hide RefInv, CheckAttestation, RecordAttestation;
      ghost var n := State();
      ghost var start := Begin(n);
      p := start;
      assert atts[0..] == atts;
      for i := 0 to |atts|
        invariant refiners.Valid() && mempool.Valid()
        invariant p == Progress(chain.finality, refiners.State(), seen, touched)
        invariant State() == WithProgress(n, p)
        invariant Attest(c, height, blocks, p, atts[i..]) == Attest(c, height, blocks, start, atts)
      {
        var att := atts[i];
        assert atts[i..][0] == att && atts[i..][1..] == atts[i + 1..];
        var checked := CheckAttestation(c, att, height, seen, blocks, refiners.infos);
        if checked.Err? { return p, touched, Some(checked.error); }
        var key := (att.height, checked.value);
        chain.finality := chain.finality[key := (if key in chain.finality then chain.finality[key] else {}) + {att.refiner}];
        touched := touched + {key};
        seen := seen + {(att.height, att.refiner)};
        AttesterActive(refiners.State(), att.refiner);
        var recorded := refiners.RecordCorrectAttestation(att.refiner);
        p := CountIn(p, att, checked.value);
      }
      error := None;
    }

    static lemma AttesterActive(r: RefinerState, id: ObjectId)
      ensures id in r.infos && r.infos[id].status.Active? ==> RecordAttestation(r, id).Ok?
    {
    }

    method AdvanceFinality(touched: set<(u64, Hash)>, threshold: nat)
      modifies chain
      ensures State() == Finalized(old(State()), touched, threshold)
    {
      hide NewlyFinalized;
      var h := NextFinalizedHeight(chain.finalizedHeight, chain.finality, touched, refiners, threshold);
      chain.finalizedHeight := h;
      chain.finality := PruneIndex(chain.finality, h, chain.height);
    }

    // ---- The producer ----

    /** If the checks before it pass, drawing the producer of a refiner block halts. */
    static ghost predicate DrawHalts(c: Crypto, n: NodeState, header: BlockHeader, kind: ProductionKind) {
      kind.Refined? && header.producer != 0 && SignatureError(c, n.accounts, header).None? ==>
        SelectionSettles(n.refiners.infos, SelectionSeed(n.chain.latestHash))
    }

    method CheckProducer(c: Crypto, header: BlockHeader, kind: ProductionKind) returns (error: Option<ApplyError>)
      requires Valid()
      requires DrawHalts(c, State(), header, kind)
      ensures error == ProducerError(c, State(), header, kind)
    {
      hide SelectProducer, SelectionSettles, RefInv, SelectionSeed;
      error := SignatureError(c, accounts.accounts, header);
      if error.Some? { return; }
      if kind.Mined? { return MinerError(accounts.accounts, header); }
      if kind.Refined? && header.producer != 0 {
        var selected := refiners.SelectBlockProducer(SelectionSeed(chain.latestHash));
        if selected.None? { return Some(NoProducerAvailable); }
        if selected.value != header.producer { return Some(ProducerMismatch); }
      }
    }

    // ---- Slashing ----

    method ApplySlashes(c: Crypto, block: Block) returns (slashed: u64)
      requires Valid()
      modifies chain, refiners
      ensures Valid()
      ensures slashed == Slashings(c, old(State()), block).slashed
      ensures State() == AfterSlashing(c, old(State()), block)
    {
      hide RefInv, EvidenceHolds, Slash;
      ghost var n := State();
      ghost var start := Slashing(refiners.State(), chain.burned, 0);
      var evidence := block.slashEvidence;
      var seen: set<(ObjectId, u64)> := {};
      slashed := 0;
      assert evidence[0..] == evidence;
      for i := 0 to |evidence|
        invariant refiners.Valid() && mempool.Valid()
        invariant State() == n.(refiners := refiners.State(), chain := n.chain.(burned := chain.burned))
        invariant SlashAll(c, evidence[i..], seen, Slashing(refiners.State(), chain.burned, slashed)) == SlashAll(c, evidence, {}, start)
      {
        var e := evidence[i];
        assert evidence[i..][0] == e && evidence[i..][1..] == evidence[i + 1..];
        if (e.producer, e.height) !in seen && EvidenceHolds(c, e) {
          seen := seen + {(e.producer, e.height)};
          var burned := refiners.SlashRefiner(e.producer);
          if burned.Ok? && burned.value > 0 {
            chain.burned := SatAdd64(chain.burned, burned.value);
            slashed := SatAdd64(slashed, burned.value);
          }
        }
      }
      chain.signatures := NoteSignature(chain.signatures, block.header, c.blockHash(block.header));
    }

    // ---- Reward ----

    method ComputeGross(c: Crypto, header: BlockHeader, kind: ProductionKind) returns (gross: u64)
      ensures gross == GrossReward(c, chain.baseReward, header, kind)
    {
      hide BlockReward;
      if !kind.Mined? { return 0; }
      var hash := c.powValue(header);
      gross := ComputeBlockReward(chain.baseReward, header.difficulty, if hash.Some? then hash.value else 0);
    }

    /** A single planned credit: checked, then paid. */
    method PayPlanned(producer: ObjectId, amount: u64) returns (error: Option<ApplyError>)
      modifies accounts
      ensures match PayProducer(old(accounts.accounts), producer, amount)
              case Ok(a) => error == None && accounts.accounts == a
              case Err(e) => error == Some(e) && accounts.accounts == old(accounts.accounts)
    {
      if producer == 0 || amount == 0 { return None; }
      if !CanCredit(accounts.accounts, producer, amount) { return Some(CannotCredit); }
      var credited := accounts.CreditOrCreateAccount(producer, amount);
      if credited.Err? { return Some(CannotCredit); }
      error := None;
    }

    // ---- Transactions ----

    ghost function TallyOf(fees: u64, assays: u64, signal: u64, successes: u64): Tally
      reads accounts, refiners, mempool
    {
      Tally(accounts.accounts, refiners.State(), mempool.entries, fees, assays, signal, successes)
    }

    method ExecuteTransactions(c: Crypto, txs: seq<Transaction>, ctx: Context)
      returns (fees: u64, assays: u64, signal: u64, successes: u64, error: Option<ApplyError>)
      requires Valid()
      modifies accounts, refiners, mempool
      ensures Valid()
      ensures var (t, e) := RunTransactions(c, txs, old(TallyOf(0, 0, 0, 0)), ctx);
        && error == e
        && accounts.accounts == t.accounts && refiners.State() == t.refiners && mempool.entries == t.pool
        && (e.None? ==> t == TallyOf(fees, assays, signal, successes))
    {
      hide RefInv, ApplyTransaction, TransactionPool.EntriesValid, TransactionPool.SizeOf, TransactionPool.CountsExact;
      ghost var start := TallyOf(0, 0, 0, 0);
      fees, assays, signal, successes, error := 0, 0, 0, 0, None;
      assert txs[0..] == txs;
      for i := 0 to |txs|
        invariant Valid() && error == None
        invariant RunTransactions(c, txs[i..], TallyOf(fees, assays, signal, successes), ctx) == RunTransactions(c, txs, start, ctx)
      {
        var tx := txs[i];
        assert txs[i..][0] == tx && txs[i..][1..] == txs[i + 1..];
        var result := TransactionDispatcher.Execute(c, tx, accounts, refiners, ctx);
        if result.TxOk? {
          var moreFees := CheckedAdd64(fees, result.fee);
          var moreAssays := CheckedAdd64(assays, result.assay);
          var moreSignal := CheckedAdd64(signal, tx.fee);
          var moreSuccesses := CheckedAdd64(successes, 1);
          if moreFees.None? || moreAssays.None? || moreSignal.None? || moreSuccesses.None? {
            error := Some(TotalsOverflow);
            return;
          }
          fees, assays, signal, successes := moreFees.value, moreAssays.value, moreSignal.value, moreSuccesses.value;
        }
        ghost var pool := mempool.entries;
        TransactionPool.DropValid(pool, {tx.txId});
        var removed := mempool.RemoveTransaction(tx.txId);
      }
    }

    // ---- Settling ----

    method SettleBlock(c: Crypto, header: BlockHeader, f: Flows, now: u64) returns (error: Option<ApplyError>)
      requires Valid()
      modifies chain, accounts, mempool
      ensures Valid()
      ensures (State(), error) == Settle(c, old(State()), header, f, now)
    {
      hide RefInv, TransactionPool.EntriesValid, TransactionPool.SizeOf, TransactionPool.CountsExact, PayProducer, TransactionPool.Expired, SuggestedFee, Prune;
      if EpochBoundary(header.height) {
        var evicted := mempool.EvictExpired(now);
      }
      if f.kind.Refined? {
        error := PayPlanned(header.producer, f.refinerIncome);
        if error.Some? { return; }
      }
      var afterFees := CheckedAdd64(chain.burned, f.feesBurned);
      if afterFees.None? { return Some(BurnOverflow); }
      chain.burned := afterFees.value;
      var afterAssays := CheckedAdd64(chain.burned, f.assays);
      if afterAssays.None? { return Some(BurnOverflow); }
      chain.burned := afterAssays.value;
      chain.issued := SatAdd64(chain.issued, f.gross);
      var burned := CheckedAdd64(chain.burned, f.mineAssay);
      if burned.None? { return Some(BurnOverflow); }
      chain.burned := burned.value;
      chain.MoveTip(header, c.blockHash(header), f.signal, f.successes);
      error := None;
    }

    // ---- Matured withdrawals ----

    method PlanPayouts(matured: seq<(ObjectId, u64)>) returns (plan: Option<map<ObjectId, u64>>)
      ensures plan == PlanCredits(matured)
    {
      var planned: map<ObjectId, u64> := map[];
      for i := 0 to |matured|
        invariant PlanCredits(matured[..i]) == Some(planned)
      {
        assert matured[..i + 1][..i] == matured[..i] && matured[..i + 1][i] == matured[i];
        var next := AddPlanned(planned, matured[i].0, matured[i].1);
        PlanStaysOverflowed(matured, i + 1);
        if next.None? { return None; }
        planned := next.value;
      }
      assert matured[..|matured|] == matured;
      plan := Some(planned);
    }

    static lemma {:induction false} PlanStaysOverflowed(matured: seq<(ObjectId, u64)>, i: nat)
      requires i <= |matured|
      ensures PlanCredits(matured[..i]).None? ==> PlanCredits(matured).None?
      decreases |matured| - i
    {
      if i < |matured| {
        assert matured[..i + 1][..i] == matured[..i];
        PlanStaysOverflowed(matured, i + 1);
      } else {
        assert matured[..i] == matured;
      }
    }

    method CreditDrained(drained: seq<(ObjectId, u64)>) returns (error: Option<ApplyError>)
      modifies accounts
      ensures (accounts.accounts, error) == CreditAll(old(accounts.accounts), drained)
    {
      hide CreditOrCreate;
      ghost var before := accounts.accounts;
      assert drained[0..] == drained;
      for i := 0 to |drained|
        invariant CreditAll(accounts.accounts, drained[i..]) == CreditAll(before, drained)
      {
        assert drained[i..][0] == drained[i] && drained[i..][1..] == drained[i + 1..];
        var credited := accounts.CreditOrCreateAccount(drained[i].0, drained[i].1);
        if credited.Err? { return Some(CannotCredit); }
      }
      error := None;
    }

    /** Preview, plan and check the payouts, then drain the queue and pay. */
    method PayOutMatured() returns (error: Option<ApplyError>)
      requires Valid()
      modifies accounts, refiners
      ensures Valid()
      ensures (State(), error) == PayMatured(old(State()))
    {
      hide RefInv, Matured, PlanCredits, CreditAll, ProcessMatured, CanCredit;
      var matured := refiners.MaturedUnbonds(chain.height);
      var plan := PlanPayouts(matured);
      if plan.None? { return Some(PlannedCreditOverflow); }
      if !PlanCreditable(accounts.accounts, plan.value) { return Some(CannotCredit); }
      var drained := refiners.ProcessMaturedUnbonds(chain.height);
      error := CreditDrained(drained);
    }

    // ---- Closing ----

    method CloseBlock(c: Crypto, block: Block, f: Flows)
      requires Valid()
      modifies this`store, chain, chain.ledger, refiners
      ensures Valid()
      ensures State() == Close(c, old(State()), block, f)
    {
      hide RefInv, ActivateMatured, Rerank, RecordReceipt, VeinYield;
      var activated := refiners.ActivateMaturedRefiners(chain.height);
      if EpochBoundary(chain.height) {
        refiners.RerankRefiners(chain.issued);
      }
      chain.stateRoot := c.stateRoot(accounts.accounts, refiners.infos, refiners.queue, chain.issued, chain.burned, chain.height);
      var veinYield := ComputeVeinYieldMilli(c, block.header, f.kind);
      var header := block.header;
      var receipt := Receipt(header.height, c.blockHash(header), f.kind, header.producer, header.difficulty, veinYield,
                             f.gross, f.mineAssay, f.minerCredit, f.successes, f.fees, f.feesBurned, f.refinerIncome, f.assays, f.slashed,
                             SatAdd64(SatAdd64(SatAdd64(f.feesBurned, f.assays), f.mineAssay), f.slashed));
      chain.ledger.Record(receipt);
      store := Saved(store, block, receipt, Snapshot(chain.State(), accounts.accounts, refiners.infos, refiners.queue));
    }

    method ComputeVeinYieldMilli(c: Crypto, header: BlockHeader, kind: ProductionKind) returns (y: u64)
      ensures y == VeinYieldMilli(c, header, kind)
    {
      hide VeinYield;
      var hash := c.powValue(header);
      if kind.Mined? && hash.Some? { y := ComputeVeinYield(header.difficulty, hash.value); } else { y := 0; }
    }

    // ---- The whole block ----

    method AdmitBlock(c: Crypto, block: Block, now: u64) returns (error: Option<ApplyError>)
      requires Valid()
      ensures error == AdmissionError(c, State(), block, now)
    {
      hide RefInv, Validate, NextDifficulty, TotalBonded, TransactionPool.EntriesValid;
      var bonded := refiners.TotalBondedStake();
      var difficulty := NextDifficulty(chain.difficulty, chain.height, chain.timestamps, chain.issued, bonded);
      var expected := Expected(Wrap64(chain.height + 1), chain.latestHash, LastTimestamp(chain.timestamps), difficulty, now);
      var invalid := ValidateBlock(c, block, expected);
      if invalid.Some? { return Some(Invalid(invalid.value)); }
      if KindOf(block.header).None? { return Some(NoProductionKind); }
      if block.header.stateRoot != chain.stateRoot { return Some(StateRootMismatch); }
      error := None;
    }

    method ComputeFlows(gross: u64, header: BlockHeader, kind: ProductionKind, active: nat, limit: nat,
                        fees: u64, assays: u64, signal: u64, successes: u64, slashed: u64, ghost t: Tally) returns (f: Flows)
      requires t.fees == fees && t.assays == assays && t.signal == signal && t.successes == successes
      ensures f == FlowsOf(gross, header.difficulty, kind, t, active, limit, slashed)
    {
      hide PorFeeSplit, MineAssay;
      var mineAssay := ComputeMineAssay(gross, header.difficulty);
      var burned, income := fees, 0;
      if kind.Refined? {
        burned, income := PorFeeSplit(fees, active, limit).0, PorFeeSplit(fees, active, limit).1;
      }
      f := Flows(kind, gross, mineAssay, SatSub64(gross, mineAssay), fees, burned, income, assays, slashed, signal, successes);
    }

    method FinishBlock(c: Crypto, block: Block, f: Flows, now: u64) returns (r: Result<Hash, ApplyError>)
      requires Valid()
      modifies this`store, chain, chain.ledger, accounts, refiners, mempool
      ensures Valid()
      ensures Outcome(State(), r) == Finish(c, old(State()), block, f, now)
    {
      hide RefInv, Settle, PayMatured, Close, TransactionPool.EntriesValid;
      var error := SettleBlock(c, block.header, f, now);
      if error.Some? { return Err(error.value); }
      error := PayOutMatured();
      if error.Some? { return Err(error.value); }
      CloseBlock(c, block, f);
      r := Ok(c.blockHash(block.header));
    }

    method ExecuteBlock(c: Crypto, block: Block, kind: ProductionKind, now: u64) returns (r: Result<Hash, ApplyError>)
      requires Valid()
      modifies this`store, chain, chain.ledger, accounts, refiners, mempool
      ensures Valid()
      ensures Outcome(State(), r) == Execute(c, old(State()), block, kind, now)
    {
      hide RefInv, Slashings, PayProducer, RunTransactions, FlowsOf, Finish, GrossReward, MineAssay, ActiveLimit, TransactionPool.EntriesValid;
      ghost var n := State();
      var active := |refiners.active|;
      var limit := RefinerSet.ActiveRefinerLimit(chain.issued);
      var slashed := ApplySlashes(c, block);
      ghost var m := State();
      SlashingFrame(c, n, block);
      var gross := ComputeGross(c, block.header, kind);
      var assay := ComputeMineAssay(gross, block.header.difficulty);
      var unpaid := PayPlanned(block.header.producer, SatSub64(gross, assay));
      if unpaid.Some? { return Err(unpaid.value); }
      var ctx := Context(block.header.height, block.header.timestamp, chain.issued);
      ghost var start := TallyOf(0, 0, 0, 0);
      var fees, assays, signal, successes, error := ExecuteTransactions(c, block.transactions, ctx);
      ghost var t := RunTransactions(c, block.transactions, start, ctx).0;
      assert State() == WithTally(m, t);
      if error.Some? { return Err(error.value); }
      var f := ComputeFlows(gross, block.header, kind, active, limit, fees, assays, signal, successes, slashed, t);
      r := FinishBlock(c, block, f, now);
    }

    static lemma SlashingFrame(c: Crypto, n: NodeState, block: Block)
      ensures var m := AfterSlashing(c, n, block);
        && m.accounts == n.accounts && m.pool == n.pool && m.store == n.store
        && m.chain == n.chain.(burned := m.chain.burned, signatures := m.chain.signatures)
    {
      hide Slashings, NoteSignature;
    }

    /** Attestations do not change who may be drawn as producer. */
    static lemma SelectionUnmoved(r: RefinerState, s: RefinerState, seed: u64)
      requires OnlyLiveness(r, s)
      ensures SelectionSettles(s.infos, seed) <==> SelectionSettles(r.infos, seed)
    {
      assert StakeMap(s.infos) == StakeMap(r.infos);
      assert Contenders(s.infos) == Contenders(r.infos);
    }

    static lemma DrawUnmoved(c: Crypto, n: NodeState, m: NodeState, header: BlockHeader, kind: ProductionKind)
      requires OnlyLiveness(n.refiners, m.refiners) && m.accounts == n.accounts && m.chain.latestHash == n.chain.latestHash
      ensures DrawHalts(c, n, header, kind) <==> DrawHalts(c, m, header, kind)
    {
      hide SelectionSettles, SignatureError, OnlyLiveness, SelectionSeed;
      SelectionUnmoved(n.refiners, m.refiners, SelectionSeed(n.chain.latestHash));
    }

    /** `apply_block`. The only assumption is that drawing the producer halts if a
        refiner block gets that far. */
    method ApplyBlock(c: Crypto, block: Block, now: u64) returns (r: Result<Hash, ApplyError>)
      requires Valid()
      requires AdmissionError(c, State(), block, now).None? && Attested(c, State(), block).1.None? && KindOf(block.header).Some? ==>
                 DrawHalts(c, State(), block.header, KindOf(block.header).value)
      modifies this`store, chain, chain.ledger, accounts, refiners, mempool
      ensures Valid()
      ensures Outcome(State(), r) == BlockApplication.ApplyBlock(c, old(State()), block, now)
    {
      ghost var n := State();
      hide RefInv, Attest, NewlyFinalized, ProducerError, Execute, AdmissionError, Threshold, DrawHalts;
      hide TransactionPool.EntriesValid, PruneIndex, KindOf, OnlyLiveness;
      var refused := AdmitBlock(c, block, now);
      if refused.Some? { return Err(refused.value); }
      var threshold := ActiveWeightThreshold(refiners);
      var p, touched, bad := RecordAttestations(c, block);
      AttestOnlyLiveness(c, block.header.height, Blocks(n), Begin(n), block.attestations);
      if bad.Some? { return Err(BadAttestation(bad.value)); }
      AdvanceFinality(touched, threshold);
      AdmittedHasKind(c, n, block, now);
      var kind := KindOf(block.header).value;
      DrawUnmoved(c, n, State(), block.header, kind);
      var wrong := CheckProducer(c, block.header, kind);
      if wrong.Some? { return Err(wrong.value); }
      r := ExecuteBlock(c, block, kind, now);
    }

    static lemma AdmittedHasKind(c: Crypto, n: NodeState, block: Block, now: u64)
      requires AdmissionError(c, n, block, now).None?
      ensures KindOf(block.header).Some?
    {
      hide Validate, KindOf;
    }
  }

  /** The first start of a node: genesis accounts credited, issuance recorded, the
      local producer registered. None where the node refuses to start. */
  method StartFresh(g: GenesisConfig, localId: ObjectId, localKey: Option<Bytes>, store: Option<Storage>) returns (node: Option<OpolysNode>)
    ensures match FreshNode(g, localId, localKey, store)
            case None => node.None?
            case Some(n) => node.Some? && fresh(node.value) && node.value.Valid() && node.value.State() == n
  {
    hide Allocate, RegisterLocal, RefInv;
    var chain := new LiveChain(GenesisChain(g, 0));
    var accounts := new AccountStore();
    var refiners := new RefinerSet();
    var issued := ApplyGenesisAccounts(g.accounts, accounts);
    if issued.None? { return None; }
    chain.issued := SatAdd64(chain.issued, issued.value);
    chain.ledger.RecordGenesisIssuance(issued.value);
    var ok := RegisterLocalProducer(localId, localKey, accounts);
    if !ok { return None; }
    var started := new OpolysNode(chain, accounts, refiners, store);
    node := Some(started);
  }
}
