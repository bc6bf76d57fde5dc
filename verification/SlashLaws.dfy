/** Who gets slashed, by a block and over runs. */
module SlashLaws {
  import opened Numbers
  import opened Collections
  import opened Ledger
  import opened Types
  import opened Refiner
  import opened RefinerInvariant
  import opened Dispatcher
  import opened Chain
  import opened BlockApplication
  import opened Supply
  import opened BlockLaws
  import opened Genesis
  import opened Runs

  /** Some valid evidence of the list names the refiner. */
  ghost predicate Names(c: Crypto, evidence: seq<DoubleSignEvidence>, id: ObjectId) {
    exists i :: 0 <= i < |evidence| && evidence[i].producer == id && EvidenceHolds(c, evidence[i])
  }

  // ---- The evidence loop ----

  lemma SlashOneIff(s: Slashing, producer: ObjectId)
    ensures var t := SlashOne(s, producer);
      && t.refiners.infos.Keys == s.refiners.infos.Keys
      && forall id :: IsSlashed(t.refiners, id) <==> IsSlashed(s.refiners, id) || (id == producer && id in s.refiners.infos)
  {
  }

  lemma NamesStep(c: Crypto, evidence: seq<DoubleSignEvidence>, id: ObjectId)
    requires evidence != []
    ensures Names(c, evidence, id) <==> (evidence[0].producer == id && EvidenceHolds(c, evidence[0])) || Names(c, evidence[1..], id)
  {
    hide EvidenceHolds;
    var rest := evidence[1..];
    if Names(c, rest, id) {
      var i :| 0 <= i < |rest| && rest[i].producer == id && EvidenceHolds(c, rest[i]);
      assert evidence[i + 1] == rest[i];
    }
    if Names(c, evidence, id) {
      var i :| 0 <= i < |evidence| && evidence[i].producer == id && EvidenceHolds(c, evidence[i]);
      if i > 0 { assert rest[i - 1] == evidence[i]; }
    }
  }

  /** The loop slashes a known refiner exactly when some valid evidence names it;
      skipping repeated evidence spares nobody. */
  lemma {:induction false} SlashAllIff(c: Crypto, evidence: seq<DoubleSignEvidence>, seen: set<(ObjectId, u64)>, s: Slashing, id: ObjectId)
    requires forall k :: k in seen && k.0 in s.refiners.infos ==> IsSlashed(s.refiners, k.0)
    ensures IsSlashed(SlashAll(c, evidence, seen, s).refiners, id)
       <==> IsSlashed(s.refiners, id) || (id in s.refiners.infos && Names(c, evidence, id))
    ensures SlashAll(c, evidence, seen, s).refiners.infos.Keys == s.refiners.infos.Keys
    decreases |evidence|
  {
    hide EvidenceHolds, SlashOne, IsSlashed, Names;
    if evidence == [] {
      NamesNobody(c, id);
    } else {
      var e := evidence[0];
      NamesStep(c, evidence, id);
      SlashOneIff(s, e.producer);
      if (e.producer, e.height) in seen || !EvidenceHolds(c, e) {
        SlashAllIff(c, evidence[1..], seen, s, id);
      } else {
        SlashAllIff(c, evidence[1..], seen + {(e.producer, e.height)}, SlashOne(s, e.producer), id);
      }
    }
  }

  lemma NamesNobody(c: Crypto, id: ObjectId)
    ensures !Names(c, [], id)
  {
  }

  // ---- Nothing else slashes ----

  ghost predicate NoneSlashed(r: RefinerState, s: RefinerState) {
    forall id :: IsSlashed(s, id) ==> IsSlashed(r, id)
  }

  lemma NoneSlashedJoins(r: RefinerState, s: RefinerState, t: RefinerState)
    requires NoneSlashed(r, s) && NoneSlashed(s, t)
    ensures NoneSlashed(r, t)
  {
  }

  lemma BondSlashesNobody(r: RefinerState, id: ObjectId, stake: u64, height: u64, timestamp: u64, issued: u64)
    requires Bond(r, id, stake, height, timestamp, issued).Ok?
    ensures NoneSlashed(r, Bond(r, id, stake, height, timestamp, issued).value)
  {
    hide MinimumBond;
  }

  lemma UnbondSlashesNobody(r: RefinerState, id: ObjectId, amount: u64, height: u64)
    requires Unbond(r, id, amount, height).Ok?
    ensures NoneSlashed(r, Unbond(r, id, amount, height).value)
  {
  }

  lemma DispatchSlashesNobody(tx: Transaction, a: Accounts, r: RefinerState, ctx: Context)
    requires tx.sender in a && a[tx.sender].nonce < U64_MAX
    ensures NoneSlashed(r, Dispatch(tx, a, r, ctx).refiners)
  {
    hide Bond, Unbond, BondAssay, UnbondAssay, MinimumBond, Ledger.Transfer, NoneSlashed, TotalCost, Credit;
    assert NoneSlashed(r, r) by { SlashesItself(r); }
    match tx.action
    case Transfer(_, _) =>
    case RefinerBond(amount) =>
      if Bond(r, tx.sender, amount, ctx.height, ctx.timestamp, ctx.issued).Ok? {
        BondSlashesNobody(r, tx.sender, amount, ctx.height, ctx.timestamp, ctx.issued);
      }
    case RefinerUnbond(amount) =>
      if Unbond(r, tx.sender, amount, ctx.height).Ok? { UnbondSlashesNobody(r, tx.sender, amount, ctx.height); }
  }

  lemma SlashesItself(r: RefinerState)
    ensures NoneSlashed(r, r)
  {
  }

  lemma {:induction false} TransactionsSlashNobody(c: Crypto, txs: seq<Transaction>, t: Tally, ctx: Context)
    ensures NoneSlashed(t.refiners, RunTransactions(c, txs, t, ctx).0.refiners)
    decreases |txs|
  {
    hide Dispatch, PreCheck, StoreKey, IsSlashed;
    if txs != [] {
      var executed := Executed(c, txs[0], t, ctx);
      if PreCheck(c, txs[0], t.accounts).None? {
        SenderReady(c, txs[0], t.accounts);
        DispatchSlashesNobody(txs[0], t.accounts, t.refiners, ctx);
      }
      assert NoneSlashed(t.refiners, executed.refiners);
      var charged := Charge(executed, ResultOf(c, txs[0], t, ctx), txs[0].fee);
      if charged.Some? {
        var next := charged.value.(pool := charged.value.pool - {txs[0].txId});
        TransactionsSlashNobody(c, txs[1..], next, ctx);
      }
    }
  }

  lemma SenderReady(c: Crypto, tx: Transaction, a: Accounts)
    requires PreCheck(c, tx, a).None?
    ensures tx.sender in a && a[tx.sender].nonce < U64_MAX
  {
  }

  lemma PaymentSlashesNobody(n: NodeState)
    ensures NoneSlashed(n.refiners, PayMatured(n).0.refiners)
  {
  }

  lemma ReseatingSlashesNobody(r: RefinerState, height: u64, issued: u64)
    requires RefInv(r)
    ensures NoneSlashed(r, Reseated(r, height, issued)) && NoneSlashed(Reseated(r, height, issued), r)
  {
    hide Reseated, RefInv, Custody;
    ReseatedKeeps(r, height, issued);
  }

  lemma AttestingSlashesNobody(n: NodeState, m: NodeState)
    requires OnlyAttested(n, m)
    ensures NoneSlashed(n.refiners, m.refiners) && NoneSlashed(m.refiners, n.refiners) && m.refiners.infos.Keys == n.refiners.infos.Keys
  {
  }

  // ---- A block ----

  /** The block slashes the refiner: it is known when the block arrives and valid
      evidence in the block names it. */
  ghost predicate Convicts(c: Crypto, n: NodeState, block: Block, id: ObjectId) {
    id in n.refiners.infos && Names(c, block.slashEvidence, id)
  }

  lemma TraceSlashesIff(c: Crypto, n: NodeState, block: Block, kind: ProductionKind, now: u64, tr: Trace, id: ObjectId)
    requires Traced(c, n, block, kind, now, tr) && SoundTrace(tr)
    ensures IsSlashed(tr.paid.refiners, id) <==> IsSlashed(n.refiners, id) || Convicts(c, n, block, id)
  {
    SlashAllIff(c, block.slashEvidence, {}, Slashing(n.refiners, n.chain.burned, 0), id);
    hide Execute, NetReward, GrossReward, NoteSignature, SlashAll, RunTransactions, PayMatured, PayProducer, Advance, PoolAfter, IsSlashed, Names, MoneyInv, RefInv, BlockFlows;
    TransactionsSlashNobody(c, block.transactions, StartTally(tr.slashed, tr.rewarded), ContextOf(n, block.header));
    PaymentSlashesNobody(tr.settled);
  }

  /** An accepted block slashes exactly the known refiners that valid evidence in it
      names; a refused one slashes nobody. */
  lemma BlockSlashesIff(c: Crypto, n: NodeState, call: Call, id: ObjectId)
    requires MoneyInv(n) && PowSound(c) && RoomFor(c, n, call.block, call.now)
    ensures IsSlashed(After(c, n, call).refiners, id)
       <==> IsSlashed(n.refiners, id) || (Accepts(c, n, call) && Convicts(c, n, call.block, id))
  {
    hide *;
    CallIsApply(c, n, call);
    if Accepts(c, n, call) {
      var k := AfterAttesting(c, n, call.block);
      var kind, tr := AcceptedMoves(c, n, call.block, call.now);
      AttestingSlashesNobody(n, k);
      TraceSlashesIff(c, k, call.block, kind, call.now, tr, id);
      SoundParts(tr);
      ReseatingSlashesNobody(tr.paid.refiners, call.block.header.height, After(c, n, call).chain.issued);
      MovedRefiners(c, n, call.block, tr, After(c, n, call));
      Slashes(n.refiners, k.refiners, id);
      Slashes(tr.paid.refiners, After(c, n, call).refiners, id);
      ConvictsAlike(c, n, k, call.block, id);
    } else {
      StepConserves(c, n, call);
      AttestingSlashesNobody(n, After(c, n, call));
      Slashes(n.refiners, After(c, n, call).refiners, id);
    }
  }

  lemma Slashes(r: RefinerState, s: RefinerState, id: ObjectId)
    requires NoneSlashed(r, s) && NoneSlashed(s, r)
    ensures IsSlashed(s, id) <==> IsSlashed(r, id)
  {
    hide IsSlashed;
  }

  lemma ConvictsAlike(c: Crypto, n: NodeState, m: NodeState, block: Block, id: ObjectId)
    requires m.refiners.infos.Keys == n.refiners.infos.Keys
    ensures Convicts(c, m, block, id) <==> Convicts(c, n, block, id)
  {
    hide Names;
  }

  lemma SoundParts(tr: Trace)
    requires SoundTrace(tr)
    ensures RefInv(tr.paid.refiners)
  {
    hide RefInv;
  }

  lemma MovedRefiners(c: Crypto, n: NodeState, block: Block, tr: Trace, m: NodeState)
    requires ChainMoved(c, n, block, tr, m)
    ensures m.refiners == Reseated(tr.paid.refiners, block.header.height, m.chain.issued)
  {
    hide Reseated, RecordReceipt, ReceiptOf, Saved, SnapshotOf, AfterAttesting;
  }

  // ---- Runs ----

  /** Call `k` of the run was accepted and slashed the refiner. */
  ghost predicate ConvictedAt(c: Crypto, n: NodeState, calls: seq<Call>, id: ObjectId, k: nat)
    requires k < |calls|
  {
    Accepts(c, Run(c, n, calls[..k]), calls[k]) && Convicts(c, Run(c, n, calls[..k]), calls[k].block, id)
  }

  ghost predicate Convicted(c: Crypto, n: NodeState, calls: seq<Call>, id: ObjectId) {
    exists k :: 0 <= k < |calls| && ConvictedAt(c, n, calls, id, k)
  }

  lemma ConvictedStep(c: Crypto, n: NodeState, calls: seq<Call>, id: ObjectId)
    requires calls != []
    ensures var init, last := calls[..|calls| - 1], calls[|calls| - 1];
      Convicted(c, n, calls, id)
      <==> Convicted(c, n, init, id) || (Accepts(c, Run(c, n, init), last) && Convicts(c, Run(c, n, init), last.block, id))
  {
    hide Run, Accepts, Convicts;
    var init := calls[..|calls| - 1];
    assert forall k :: 0 <= k < |init| ==> init[..k] == calls[..k] && init[k] == calls[k];
    assert forall k :: 0 <= k < |init| ==> (ConvictedAt(c, n, init, id, k) <==> ConvictedAt(c, n, calls, id, k));
    assert Accepts(c, Run(c, n, init), calls[|init|]) && Convicts(c, Run(c, n, init), calls[|init|].block, id) <==> ConvictedAt(c, n, calls, id, |init|);
  }

  /** In every reachable state the slashed refiners are exactly those that valid
      evidence in an accepted block named while they were known. */
  lemma {:induction false} SlashedIff(c: Crypto, n: NodeState, calls: seq<Call>, id: ObjectId)
    requires IsGenesis(n) && PowSound(c) && Roomy(c, n, calls)
    ensures IsSlashed(Run(c, n, calls).refiners, id) <==> Convicted(c, n, calls, id)
  {
    hide IsGenesis, PowSound, RoomFor, Accepts, After, MoneyInv, IsSlashed, Convicted, Convicts;
    if calls == [] {
      GenesisBalances(n);
      NobodyYet(c, n, id);
    } else {
      var init, last := calls[..|calls| - 1], calls[|calls| - 1];
      SlashedIff(c, n, init, id);
      SupplyConserved(c, n, init);
      BlockSlashesIff(c, Run(c, n, init), last, id);
      ConvictedStep(c, n, calls, id);
    }
  }

  lemma NobodyYet(c: Crypto, n: NodeState, id: ObjectId)
    requires n.refiners == NO_REFINERS
    ensures !IsSlashed(n.refiners, id) && !Convicted(c, n, [], id)
  {
  }

  // ---- What evidence proves ----

  /** Two signed blocks of one key, presented as a double sign at some height. */
  function EvidenceOf(c: Crypto, key: Bytes, height: u64, x: BlockHeader, signatureX: Bytes, y: BlockHeader, signatureY: Bytes): DoubleSignEvidence {
    DoubleSignEvidence(c.idOfKey(key), key, height, c.blockHash(x), signatureX, c.blockHash(y), signatureY)
  }

  /** The evidence stands for two different blocks of one height. */
  ghost predicate Documents(c: Crypto, e: DoubleSignEvidence) {
    exists x: BlockHeader, y: BlockHeader :: StandsFor(c, e, x, y) && x.height == y.height
  }

  ghost predicate StandsFor(c: Crypto, e: DoubleSignEvidence, x: BlockHeader, y: BlockHeader) {
    e.hashA == c.blockHash(x) && e.hashB == c.blockHash(y)
  }

  /** The refiner's key signed two different blocks of one height. */
  ghost predicate DoubleSigned(c: Crypto, id: ObjectId) {
    exists key, x, signatureX, y, signatureY :: SignedBoth(c, id, key, x, signatureX, y, signatureY) && x.height == y.height
  }

  ghost predicate SignedBoth(c: Crypto, id: ObjectId, key: Bytes, x: BlockHeader, signatureX: Bytes, y: BlockHeader, signatureY: Bytes) {
    && c.idOfKey(key) == id && c.blockHash(x) != c.blockHash(y)
    && c.keySigned(key, c.blockHash(x), signatureX) && c.keySigned(key, c.blockHash(y), signatureY)
  }

  /** Any two different blocks of one key make valid evidence, under any height; it
      documents a double sign if and only if the blocks have the same height, unless
      a hash stands for blocks of several heights. */
  lemma TwoBlocksConvict(c: Crypto, key: Bytes, height: u64, x: BlockHeader, signatureX: Bytes, y: BlockHeader, signatureY: Bytes)
    requires |key| == 32 && c.blockHash(x) != c.blockHash(y)
    requires c.keySigned(key, c.blockHash(x), signatureX) && c.keySigned(key, c.blockHash(y), signatureY)
    requires forall z: BlockHeader :: (c.blockHash(z) == c.blockHash(x) ==> z.height == x.height) && (c.blockHash(z) == c.blockHash(y) ==> z.height == y.height)
    ensures var e := EvidenceOf(c, key, height, x, signatureX, y, signatureY);
      EvidenceHolds(c, e) && (Documents(c, e) <==> x.height == y.height)
  {
    var e := EvidenceOf(c, key, height, x, signatureX, y, signatureY);
    assert StandsFor(c, e, x, y);
  }
}
