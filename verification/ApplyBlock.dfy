/** The block transition `OpolysNode::apply_block` (crates/node/src/node.rs), stage
    by stage, as a function of the node's state. Class `OpolysNode` does it in place. */
module BlockApplication {
  import opened Numbers
  import opened Emission
  import opened Difficulty
  import opened Collections
  import opened Ledger
  import opened Types
  import opened Refiner
  import opened Selection
  import opened Dispatcher
  import opened BlockValidation
  import opened Chain
  import opened Finality

  /** What is on disk: the stored blocks and receipts, and the state saved with the
      last of them; nothing is saved before the first block. */
  datatype Storage = Storage(blocks: map<u64, Block>, receipts: map<u64, Receipt>, saved: Option<Snapshot>)

  /** The chain state, accounts, refiner records and queue that are written out. */
  datatype Snapshot = Snapshot(chain: ChainState, accounts: Accounts, infos: Infos, queue: seq<PendingUnbond>)

  datatype NodeState = NodeState(
    chain: ChainState,
    accounts: Accounts,
    refiners: RefinerState,
    pool: TransactionPool.Entries,
    store: Option<Storage>)

  datatype ApplyError =
    | Invalid(blockError: BlockError)
    | NoProductionKind
    | StateRootMismatch
    | BadAttestation(attestationError: AttestationError)
    | RefinerSignatureLength
    | ProducerNotFound
    | ProducerKeyMissing
    | ProducerKeyLength
    | RefinerSignatureRejected
    | NoProducerAvailable
    | ProducerMismatch
    | SelectionNeverHalts
    | CannotCredit
    | PlannedCreditOverflow
    | TotalsOverflow
    | BurnOverflow

  // ---- Admission ----

  function LastTimestamp(timestamps: seq<u64>): u64 {
    if timestamps == [] then 0 else timestamps[|timestamps| - 1]
  }

  /** The height of the next block; the release profile wraps. */
  function NextHeight(chain: ChainState): u64 { Wrap64(chain.height + 1) }

  ghost function ExpectedOf(n: NodeState, now: u64): Expected {
    var chain := n.chain;
    Expected(NextHeight(chain), chain.latestHash, LastTimestamp(chain.timestamps),
             NextDifficulty(chain.difficulty, chain.height, chain.timestamps, chain.issued, TotalBonded(n.refiners)), now)
  }

  ghost function AdmissionError(c: Crypto, n: NodeState, block: Block, now: u64): Option<ApplyError> {
    var invalid := Validate(c, block, ExpectedOf(n, now));
    if invalid.Some? then Some(Invalid(invalid.value))
    else if KindOf(block.header).None? then Some(NoProductionKind)
    else if block.header.stateRoot != n.chain.stateRoot then Some(StateRootMismatch)
    else None
  }

  // ---- Attestations ----

  function Blocks(n: NodeState): Option<map<u64, Block>> {
    if n.store.None? then None else Some(n.store.value.blocks)
  }

  function Begin(n: NodeState): Progress { Progress(n.chain.finality, n.refiners, {}, {}) }

  function Attested(c: Crypto, n: NodeState, block: Block): (Progress, Option<AttestationError>) {
    Attest(c, block.header.height, Blocks(n), Begin(n), block.attestations)
  }

  function WithProgress(n: NodeState, p: Progress): NodeState {
    n.(chain := n.chain.(finality := p.index), refiners := p.refiners)
  }

  /** Advance the finalized height on the recorded weight and prune the index. */
  ghost function Finalized(n: NodeState, touched: set<(u64, Hash)>, threshold: nat): NodeState {
    var h := NewlyFinalized(n.chain.finalizedHeight, n.chain.finality, touched, n.refiners.infos, threshold);
    n.(chain := n.chain.(finalizedHeight := h, finality := PruneIndex(n.chain.finality, h, n.chain.height)))
  }

  // ---- The producer ----

  function SignatureError(c: Crypto, a: Accounts, header: BlockHeader): Option<ApplyError> {
    if header.refinerSignature.None? || header.producer == 0 then None
    else if |header.refinerSignature.value| != 64 then Some(RefinerSignatureLength)
    else if header.producer !in a then Some(ProducerNotFound)
    else if a[header.producer].publicKey.None? then Some(ProducerKeyMissing)
    else if |a[header.producer].publicKey.value| != 32 then Some(ProducerKeyLength)
    else if !c.keySignedStrictly(a[header.producer].publicKey.value, c.blockHash(header), header.refinerSignature.value) then Some(RefinerSignatureRejected)
    else None
  }

  function MinerError(a: Accounts, header: BlockHeader): Option<ApplyError> {
    if header.producer !in a then Some(ProducerNotFound)
    else if a[header.producer].publicKey.None? then Some(ProducerKeyMissing)
    else if |a[header.producer].publicKey.value| != 32 then Some(ProducerKeyLength)
    else None
  }

  /** The first eight bytes of the tip hash, big-endian. */
  function SelectionSeed(hash: Hash): u64 {
    Wrap64(hash / 0x1_0000_0000_0000_0000_0000_0000_0000_0000_0000_0000_0000_0000)
  }

  ghost function SelectionError(infos: Infos, tip: Hash, producer: ObjectId): Option<ApplyError> {
    var seed := SelectionSeed(tip);
    if !SelectionSettles(infos, seed) then Some(SelectionNeverHalts)
    else if SelectProducer(infos, seed).None? then Some(NoProducerAvailable)
    else if SelectProducer(infos, seed).value != producer then Some(ProducerMismatch)
    else None
  }

  ghost function ProducerError(c: Crypto, n: NodeState, header: BlockHeader, kind: ProductionKind): Option<ApplyError> {
    var signatureError := SignatureError(c, n.accounts, header);
    if signatureError.Some? then signatureError
    else if kind.Mined? then MinerError(n.accounts, header)
    else if kind.Refined? && header.producer != 0 then SelectionError(n.refiners.infos, n.chain.latestHash, header.producer)
    else None
  }

  // ---- Slashing ----

  function EvidenceHolds(c: Crypto, e: DoubleSignEvidence): bool {
    && e.hashA != e.hashB
    && |e.producerKey| == 32
    && c.idOfKey(e.producerKey) == e.producer
    && c.keySigned(e.producerKey, e.hashA, e.signatureA)
    && c.keySigned(e.producerKey, e.hashB, e.signatureB)
  }

  /** The refiner set, the chain's burn total and this block's slashed total. */
  datatype Slashing = Slashing(refiners: RefinerState, burned: u64, slashed: u64)

  function SlashOne(s: Slashing, id: ObjectId): Slashing {
    var (r, burned) := Slash(s.refiners, id);
    if burned.Ok? then Slashing(r, SatAdd64(s.burned, burned.value), SatAdd64(s.slashed, burned.value))
    else s.(refiners := r)
  }

  function SlashAll(c: Crypto, evidence: seq<DoubleSignEvidence>, seen: set<(ObjectId, u64)>, s: Slashing): Slashing
    decreases |evidence|
  {
    if evidence == [] then s
    else
      var e := evidence[0];
      if (e.producer, e.height) in seen || !EvidenceHolds(c, e) then SlashAll(c, evidence[1..], seen, s)
      else SlashAll(c, evidence[1..], seen + {(e.producer, e.height)}, SlashOne(s, e.producer))
  }

  function Slashings(c: Crypto, n: NodeState, block: Block): Slashing {
    SlashAll(c, block.slashEvidence, {}, Slashing(n.refiners, n.chain.burned, 0))
  }

  /** Remember the first signature seen for a height and producer. */
  function NoteSignature(signatures: Signatures, header: BlockHeader, hash: Hash): Signatures {
    var key := (header.height, header.producer);
    if header.refinerSignature.Some? && header.producer != 0 && key !in signatures
    then signatures[key := (hash, header.refinerSignature.value)]
    else signatures
  }

  function AfterSlashing(c: Crypto, n: NodeState, block: Block): NodeState {
    var s := Slashings(c, n, block);
    n.(refiners := s.refiners,
       chain := n.chain.(burned := s.burned, signatures := NoteSignature(n.chain.signatures, block.header, c.blockHash(block.header))))
  }

  // ---- Reward ----

  function HashValue(c: Crypto, header: BlockHeader): Option<u64> { c.powValue(header) }

  ghost function GrossReward(c: Crypto, baseReward: u64, header: BlockHeader, kind: ProductionKind): u64 {
    if !kind.Mined? then 0
    else BlockReward(baseReward, header.difficulty, match HashValue(c, header) case Some(v) => v case None => 0)
  }

  ghost function VeinYieldMilli(c: Crypto, header: BlockHeader, kind: ProductionKind): u64 {
    if kind.Mined? && HashValue(c, header).Some? then VeinYield(header.difficulty, HashValue(c, header).value) else 0
  }

  /** A planned single credit: checked first, then paid. */
  function PayProducer(a: Accounts, producer: ObjectId, amount: u64): Result<Accounts, ApplyError> {
    if producer == 0 || amount == 0 then Ok(a)
    else if !CanCredit(a, producer, amount) then Err(CannotCredit)
    else
      match CreditOrCreate(a, producer, amount)
      case Ok(b) => Ok(b)
      case Err(_) => Err(CannotCredit)
  }

  // ---- Transactions ----

  datatype Tally = Tally(
    accounts: Accounts,
    refiners: RefinerState,
    pool: TransactionPool.Entries,
    fees: u64,
    assays: u64,
    signal: u64,
    successes: u64)

  function Charge(t: Tally, result: TxResult, fee: u64): Option<Tally> {
    if result.TxErr? then Some(t)
    else
      match (CheckedAdd64(t.fees, result.fee), CheckedAdd64(t.assays, result.assay), CheckedAdd64(t.signal, fee), CheckedAdd64(t.successes, 1))
      case (Some(fees), Some(assays), Some(signal), Some(successes)) =>
        Some(t.(fees := fees, assays := assays, signal := signal, successes := successes))
      case _ => None
  }

  /** One transaction executed, before its charges are added up. */
  ghost function Executed(c: Crypto, tx: Transaction, t: Tally, ctx: Context): Tally {
    var out := ApplyTransaction(c, tx, t.accounts, t.refiners, ctx);
    t.(accounts := out.accounts, refiners := out.refiners)
  }

  ghost function ResultOf(c: Crypto, tx: Transaction, t: Tally, ctx: Context): TxResult {
    ApplyTransaction(c, tx, t.accounts, t.refiners, ctx).result
  }

  ghost function RunTransactions(c: Crypto, txs: seq<Transaction>, t: Tally, ctx: Context): (Tally, Option<ApplyError>)
    decreases |txs|
  {
    if txs == [] then (t, None)
    else
      var executed := Executed(c, txs[0], t, ctx);
      match Charge(executed, ResultOf(c, txs[0], t, ctx), txs[0].fee)
      case None => (executed, Some(TotalsOverflow))
      case Some(charged) => RunTransactions(c, txs[1..], charged.(pool := charged.pool - {txs[0].txId}), ctx)
  }

  // ---- Routing fees and burns ----

  /** Fees and burns of one block, as they go into its receipt. */
  datatype Flows = Flows(
    kind: ProductionKind,
    gross: u64,
    mineAssay: u64,
    minerCredit: u64,
    fees: u64,
    feesBurned: u64,
    refinerIncome: u64,
    assays: u64,
    slashed: u64,
    signal: u64,
    successes: u64)

  ghost function FlowsOf(gross: u64, difficulty: u64, kind: ProductionKind, t: Tally, active: nat, limit: nat, slashed: u64): Flows {
    var (burned, income) := if kind.Refined? then PorFeeSplit(t.fees, active, limit) else (t.fees, 0);
    Flows(kind, gross, MineAssay(gross, difficulty), NetReward(gross, difficulty), t.fees, burned, income, t.assays, slashed, t.signal, t.successes)
  }

  predicate EpochBoundary(height: u64) { height > 0 && height % EPOCH == 0 }

  function PoolAfter(pool: TransactionPool.Entries, height: u64, now: u64): TransactionPool.Entries {
    if EpochBoundary(height) then pool - TransactionPool.Expired(pool, now) else pool
  }

  /** Everything of the header that becomes the new tip. */
  function Advance(chain: ChainState, header: BlockHeader, hash: Hash, f: Flows): ChainState {
    chain.(height := header.height,
           difficulty := header.difficulty,
           latestHash := hash,
           timestamps := Prune(chain.timestamps + [header.timestamp]),
           suggestedFee := SuggestedFee(f.signal, f.successes, chain.suggestedFee))
  }

  /** Refiner income, burns, issuance and the new tip. */
  function Settle(c: Crypto, n: NodeState, header: BlockHeader, f: Flows, now: u64): (NodeState, Option<ApplyError>) {
    var pooled := n.(pool := PoolAfter(n.pool, header.height, now));
    match (if f.kind.Refined? then PayProducer(n.accounts, header.producer, f.refinerIncome) else Ok(n.accounts))
    case Err(e) => (pooled, Some(e))
    case Ok(a) =>
      var paid := pooled.(accounts := a);
      match CheckedAdd64(paid.chain.burned, f.feesBurned)
      case None => (paid, Some(BurnOverflow))
      case Some(afterFees) =>
        match CheckedAdd64(afterFees, f.assays)
        case None => (paid.(chain := paid.chain.(burned := afterFees)), Some(BurnOverflow))
        case Some(afterAssays) =>
          var issued := SatAdd64(paid.chain.issued, f.gross);
          match CheckedAdd64(afterAssays, f.mineAssay)
          case None => (paid.(chain := paid.chain.(burned := afterAssays, issued := issued)), Some(BurnOverflow))
          case Some(burned) =>
            (paid.(chain := Advance(paid.chain.(burned := burned, issued := issued), header, c.blockHash(header), f)), None)
  }

  // ---- Matured withdrawals ----

  /** Credits planned per account; None when one account's sum overflows. */
  function PlanCredits(matured: seq<(ObjectId, u64)>): Option<map<ObjectId, u64>> {
    if matured == [] then Some(map[])
    else
      var init, last := matured[..|matured| - 1], matured[|matured| - 1];
      match PlanCredits(init)
      case None => None
      case Some(plan) => AddPlanned(plan, last.0, last.1)
  }

  function AddPlanned(plan: map<ObjectId, u64>, id: ObjectId, amount: u64): Option<map<ObjectId, u64>> {
    if amount == 0 then Some(plan)
    else
      match CheckedAdd64(if id in plan then plan[id] else 0, amount)
      case None => None
      case Some(sum) => Some(plan[id := sum])
  }

  predicate PlanCreditable(a: Accounts, plan: map<ObjectId, u64>) {
    forall id :: id in plan ==> CanCredit(a, id, plan[id])
  }

  function CreditAll(a: Accounts, drained: seq<(ObjectId, u64)>): (Accounts, Option<ApplyError>)
    decreases |drained|
  {
    if drained == [] then (a, None)
    else
      match CreditOrCreate(a, drained[0].0, drained[0].1)
      case Err(_) => (a, Some(CannotCredit))
      case Ok(b) => CreditAll(b, drained[1..])
  }

  /** Pay out what matured at the new height; nothing moves unless every account
      can take its planned sum. */
  function PayMatured(n: NodeState): (NodeState, Option<ApplyError>) {
    var matured := Matured(n.refiners.queue, n.chain.height);
    var plan := PlanCredits(matured);
    if plan.None? then (n, Some(PlannedCreditOverflow))
    else if !PlanCreditable(n.accounts, plan.value) then (n, Some(CannotCredit))
    else
      var (a, e) := CreditAll(n.accounts, matured);
      (n.(accounts := a, refiners := ProcessMatured(n.refiners, n.chain.height)), e)
  }

  // ---- Closing the block ----

  ghost function Reseated(r: RefinerState, height: u64, issued: u64): RefinerState {
    var activated := ActivateMatured(r, height);
    if EpochBoundary(height) then Rerank(activated, issued) else activated
  }

  ghost function ReceiptOf(c: Crypto, header: BlockHeader, f: Flows): Receipt {
    Receipt(header.height, c.blockHash(header), f.kind, header.producer, header.difficulty, VeinYieldMilli(c, header, f.kind),
            f.gross, f.mineAssay, f.minerCredit, f.successes, f.fees, f.feesBurned, f.refinerIncome, f.assays, f.slashed,
            SatAdd64(SatAdd64(SatAdd64(f.feesBurned, f.assays), f.mineAssay), f.slashed))
  }

  function SnapshotOf(n: NodeState): Snapshot { Snapshot(n.chain, n.accounts, n.refiners.infos, n.refiners.queue) }

  /** `save_applied_block_atomic`: one write of the block, its receipt and the state
      after it. It is the only place where state is saved. */
  function Saved(store: Option<Storage>, block: Block, receipt: Receipt, snapshot: Snapshot): Option<Storage> {
    match store
    case None => None
    case Some(s) =>
      Some(Storage(s.blocks[block.header.height := block], s.receipts[block.header.height := receipt], Some(snapshot)))
  }

  ghost function Close(c: Crypto, n: NodeState, block: Block, f: Flows): NodeState {
    var r := Reseated(n.refiners, n.chain.height, n.chain.issued);
    var root := c.stateRoot(n.accounts, r.infos, r.queue, n.chain.issued, n.chain.burned, n.chain.height);
    var receipt := ReceiptOf(c, block.header, f);
    var closed := n.(refiners := r, chain := n.chain.(stateRoot := root, ledger := RecordReceipt(n.chain.ledger, receipt)));
    closed.(store := Saved(n.store, block, receipt, SnapshotOf(closed)))
  }

  // ---- The whole transition ----

  datatype Outcome = Outcome(node: NodeState, result: Result<Hash, ApplyError>)

  function ContextOf(n: NodeState, header: BlockHeader): Context { Context(header.height, header.timestamp, n.chain.issued) }

  function StartTally(n: NodeState, accounts: Accounts): Tally { Tally(accounts, n.refiners, n.pool, 0, 0, 0, 0) }

  function WithTally(n: NodeState, t: Tally): NodeState {
    n.(accounts := t.accounts, refiners := t.refiners, pool := t.pool)
  }

  /** From the settled transactions to the end of the block. */
  ghost function Finish(c: Crypto, n: NodeState, block: Block, f: Flows, now: u64): Outcome {
    var (settled, settleError) := Settle(c, n, block.header, f, now);
    if settleError.Some? then Outcome(settled, Err(settleError.value))
    else
      var (paid, payError) := PayMatured(settled);
      if payError.Some? then Outcome(paid, Err(payError.value))
      else Outcome(Close(c, paid, block, f), Ok(c.blockHash(block.header)))
  }

  /** Everything after the checks: slash, reward, execute, settle, pay out, close.
      `n` is the node after the attestations. */
  ghost function Execute(c: Crypto, n: NodeState, block: Block, kind: ProductionKind, now: u64): Outcome {
    var slashed := AfterSlashing(c, n, block);
    var gross := GrossReward(c, n.chain.baseReward, block.header, kind);
    match PayProducer(slashed.accounts, block.header.producer, NetReward(gross, block.header.difficulty))
    case Err(e) => Outcome(slashed, Err(e))
    case Ok(a) =>
      var (tally, error) := RunTransactions(c, block.transactions, StartTally(slashed, a), ContextOf(slashed, block.header));
      var executed := WithTally(slashed, tally);
      if error.Some? then Outcome(executed, Err(error.value))
      else
        var f := FlowsOf(gross, block.header.difficulty, kind, tally, |n.refiners.active|, ActiveLimit(n.chain.issued), Slashings(c, n, block).slashed);
        Finish(c, executed, block, f, now)
  }

  /** `apply_block`. Not atomic: a refused block can leave attestations recorded. */
  ghost function ApplyBlock(c: Crypto, n: NodeState, block: Block, now: u64): Outcome {
    var refused := AdmissionError(c, n, block, now);
    if refused.Some? then Outcome(n, Err(refused.value))
    else
      var (progress, bad) := Attested(c, n, block);
      var recorded := WithProgress(n, progress);
      if bad.Some? then Outcome(recorded, Err(BadAttestation(bad.value)))
      else
        var m := Finalized(recorded, progress.touched, Threshold(n.refiners.infos));
        var kind := KindOf(block.header).value;
        var wrong := ProducerError(c, m, block.header, kind);
        if wrong.Some? then Outcome(m, Err(wrong.value))
        else Execute(c, m, block, kind, now)
  }
}
