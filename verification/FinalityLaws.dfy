/** Finality over runs. */
module FinalityLaws {
  import opened Numbers
  import opened Difficulty
  import opened Collections
  import opened Ledger
  import opened Types
  import opened Refiner
  import opened RefinerInvariant
  import opened Chain
  import opened Finality
  import opened BlockApplication
  import opened Supply
  import opened BlockLaws
  import opened Genesis
  import opened Runs

  // ---- The index only holds verified attestations of canonical blocks ----

  /** A key hashing to `id` has verifiably attested `hash` at `height`. */
  ghost predicate HasAttested(c: Crypto, id: ObjectId, height: u64, hash: Hash) {
    exists key, signature :: Attests(c, id, height, hash, key, signature)
  }

  predicate Attests(c: Crypto, id: ObjectId, height: u64, hash: Hash, key: Bytes, signature: Bytes) {
    |key| == 32 && |signature| == 64 && c.idOfKey(key) == id && c.keyAttested(key, height, hash, signature)
  }

  /** The stored block at `height` is refiner-produced and hashes to `hash`. */
  ghost predicate Canonical(c: Crypto, blocks: Option<map<u64, Block>>, height: u64, hash: Hash) {
    && blocks.Some? && height in blocks.value
    && KindOf(blocks.value[height].header) == Some(Refined)
    && c.blockHash(blocks.value[height].header) == hash
  }

  ghost predicate KeyOk(c: Crypto, blocks: Option<map<u64, Block>>, height: u64, k: (u64, Hash), ids: set<ObjectId>) {
    && k.0 <= height
    && Canonical(c, blocks, k.0, k.1)
    && forall id :: id in ids ==> HasAttested(c, id, k.0, k.1)
  }

  ghost predicate IndexOk(c: Crypto, index: FinalityIndex, blocks: Option<map<u64, Block>>, height: u64) {
    forall k :: k in index ==> KeyOk(c, blocks, height, k, index[k])
  }

  lemma CountKeeps(c: Crypto, p: Progress, att: BlockAttestation, tip: u64, blocks: Option<map<u64, Block>>, canonical: Hash)
    requires IndexOk(c, p.index, blocks, tip) && tip < U64_MAX
    requires CheckAttestation(c, att, tip + 1, p.seen, blocks, p.refiners.infos) == Ok(canonical)
    ensures IndexOk(c, CountIn(p, att, canonical).index, blocks, tip)
  {
    var key := (att.height, canonical);
    assert Attests(c, att.refiner, att.height, canonical, att.refinerKey, att.signature);
    assert key in p.index ==> KeyOk(c, blocks, tip, key, p.index[key]);
    assert KeyOk(c, blocks, tip, key, AttestersOf(p.index, key) + {att.refiner});
    hide KeyOk, CheckAttestation;
  }

  lemma {:induction false} AttestKeepsIndex(c: Crypto, tip: u64, blocks: Option<map<u64, Block>>, p: Progress, atts: seq<BlockAttestation>)
    requires IndexOk(c, p.index, blocks, tip) && tip < U64_MAX
    ensures IndexOk(c, Attest(c, tip + 1, blocks, p, atts).0.index, blocks, tip)
    decreases |atts|
  {
    hide CheckAttestation, IndexOk;
    if atts != [] {
      var checked := CheckAttestation(c, atts[0], tip + 1, p.seen, blocks, p.refiners.infos);
      if checked.Ok? {
        CountKeeps(c, p, atts[0], tip, blocks, checked.value);
        AttestKeepsIndex(c, tip, blocks, CountIn(p, atts[0], checked.value), atts[1..]);
      }
    }
  }

  // ---- One call ----

  predicate SameFinality(a: ChainState, b: ChainState) {
    a.finalizedHeight == b.finalizedHeight && a.finality == b.finality
  }

  /** The finality part of the chain after a call: untouched, with attestations
      recorded, or with finality advanced on them. */
  ghost predicate FinalityMoved(c: Crypto, n: NodeState, block: Block, m: NodeState) {
    || SameFinality(m.chain, n.chain)
    || (block.header.height == n.chain.height + 1
        && (SameFinality(m.chain, WithProgress(n, Attested(c, n, block).0).chain) || SameFinality(m.chain, AfterAttesting(c, n, block).chain)))
  }

  /** A call stores its block under the next height, or nothing. */
  ghost predicate StoreGrew(n: NodeState, block: Block, m: NodeState) {
    || (Blocks(m) == Blocks(n) && m.chain.height == n.chain.height)
    || (m.chain.height == n.chain.height + 1
        && Blocks(m) == if n.store.None? then None else Some(n.store.value.blocks[m.chain.height := block]))
  }

  lemma FinalityStep(c: Crypto, n: NodeState, call: Call)
    requires MoneyInv(n) && PowSound(c) && RoomFor(c, n, call.block, call.now)
    ensures FinalityMoved(c, n, call.block, After(c, n, call))
    ensures StoreGrew(n, call.block, After(c, n, call))
  {
    hide *;
    CallIsApply(c, n, call);
    if Accepts(c, n, call) {
      var kind, tr := AcceptedMoves(c, n, call.block, call.now);
      AcceptedFinality(c, n, call.block, tr, After(c, n, call));
    } else {
      RefusedFinality(c, n, call);
    }
  }

  lemma AcceptedFinality(c: Crypto, n: NodeState, block: Block, tr: Trace, m: NodeState)
    requires ChainMoved(c, n, block, tr, m) && block.header.height == n.chain.height + 1
    ensures FinalityMoved(c, n, block, m) && StoreGrew(n, block, m)
  {
    hide AfterAttesting, Attested, Difficulty.Prune, RecordReceipt, ReceiptOf, Reseated;
  }

  lemma RefusedFinality(c: Crypto, n: NodeState, call: Call)
    requires MoneyInv(n) && PowSound(c) && RoomFor(c, n, call.block, call.now) && !Accepts(c, n, call)
    ensures FinalityMoved(c, n, call.block, After(c, n, call))
    ensures StoreGrew(n, call.block, After(c, n, call))
  {
    hide MoneyInv, PowSound, RoomFor, Accepts, After, AdmissionError, Attested, AfterAttesting, OnlyLiveness;
    StepConserves(c, n, call);
    RoomLeft(c, n, call.block, call.now);
    if AdmissionError(c, n, call.block, call.now).None? { AdmittedFacts(c, n, call.block, call.now); }
  }

  lemma PruneKeepsIndex(c: Crypto, index: FinalityIndex, finalized: u64, height: u64, blocks: Option<map<u64, Block>>, tip: u64)
    requires IndexOk(c, index, blocks, tip)
    ensures IndexOk(c, PruneIndex(index, finalized, height), blocks, tip)
  {
    hide KeyOk;
  }

  lemma StoreKeepsIndex(c: Crypto, n: NodeState, block: Block, m: NodeState, index: FinalityIndex)
    requires IndexOk(c, index, Blocks(n), n.chain.height) && StoreGrew(n, block, m)
    ensures IndexOk(c, index, Blocks(m), m.chain.height)
  {
    forall k | k in index ensures KeyOk(c, Blocks(m), m.chain.height, k, index[k]) {
      assert KeyOk(c, Blocks(n), n.chain.height, k, index[k]);
    }
  }

  lemma AttestedKeepsIndex(c: Crypto, n: NodeState, block: Block)
    requires IndexOk(c, n.chain.finality, Blocks(n), n.chain.height)
    requires n.chain.height < U64_MAX && block.header.height == n.chain.height + 1
    ensures IndexOk(c, Attested(c, n, block).0.index, Blocks(n), n.chain.height)
    ensures IndexOk(c, AfterAttesting(c, n, block).chain.finality, Blocks(n), n.chain.height)
  {
    AttestKeepsIndex(c, n.chain.height, Blocks(n), Begin(n), block.attestations);
    var progress := Attested(c, n, block).0;
    hide Attest, IndexOk, NewlyFinalized, Threshold, PruneIndex;
    PruneKeepsIndex(c, progress.index, AfterAttesting(c, n, block).chain.finalizedHeight, n.chain.height, Blocks(n), n.chain.height);
  }

  lemma IndexStep(c: Crypto, n: NodeState, call: Call)
    requires MoneyInv(n) && PowSound(c) && RoomFor(c, n, call.block, call.now)
    requires IndexOk(c, n.chain.finality, Blocks(n), n.chain.height)
    ensures var m := After(c, n, call); IndexOk(c, m.chain.finality, Blocks(m), m.chain.height)
  {
    hide MoneyInv, After, Attested, AfterAttesting, StoreGrew, IndexOk, PowSound, RoomFor, Blocks;
    var m := After(c, n, call);
    FinalityStep(c, n, call);
    RoomLeft(c, n, call.block, call.now);
    if call.block.header.height == n.chain.height + 1 { AttestedKeepsIndex(c, n, call.block); }
    StoreKeepsIndex(c, n, call.block, m, m.chain.finality);
  }

  // ---- Runs ----

  /** Everything in the finality index of any reachable state is a verified
      attestation of the canonical, refiner-produced block at its height. */
  lemma {:induction false} IndexIsVerified(c: Crypto, n: NodeState, calls: seq<Call>)
    requires IsGenesis(n) && PowSound(c) && Roomy(c, n, calls)
    ensures var m := Run(c, n, calls); IndexOk(c, m.chain.finality, Blocks(m), m.chain.height)
  {
    hide IsGenesis, PowSound, RoomFor, After;
    if calls == [] {
      GenesisBalances(n);
    } else {
      var init, last := calls[..|calls| - 1], calls[|calls| - 1];
      IndexIsVerified(c, n, init);
      SupplyConserved(c, n, init);
      hide IndexOk;
      IndexStep(c, Run(c, n, init), last);
    }
  }

  /** At least 667/1000 of the active weight is held by Active refiners that have
      verifiably attested the canonical block at `height`. */
  ghost predicate HasQuorum(c: Crypto, n: NodeState, height: u64) {
    exists hash, ids :: IsQuorum(c, n, height, hash, ids)
  }

  ghost predicate IsQuorum(c: Crypto, n: NodeState, height: u64, hash: Hash, ids: set<ObjectId>) {
    && Canonical(c, Blocks(n), height, hash)
    && ids <= AsActive(n.refiners.infos)
    && (forall id :: id in ids ==> HasAttested(c, id, height, hash))
    && 1000 * Part(StakeMap(n.refiners.infos), ids) >= 667 * ActiveWeight(n.refiners.infos) > 0
  }

  lemma AdvanceHasQuorum(c: Crypto, n: NodeState, block: Block)
    requires MoneyInv(n) && n.chain.height < U64_MAX && block.header.height == n.chain.height + 1
    requires IndexOk(c, n.chain.finality, Blocks(n), n.chain.height)
    ensures var h := AfterAttesting(c, n, block).chain.finalizedHeight;
      h >= n.chain.finalizedHeight && (h > n.chain.finalizedHeight ==> HasQuorum(c, n, h))
  {
    var progress := Attested(c, n, block).0;
    var h := AfterAttesting(c, n, block).chain.finalizedHeight;
    AttestedKeepsIndex(c, n, block);
    AttestOnlyLiveness(c, block.header.height, Blocks(n), Begin(n), block.attestations);
    LivenessKeeps(n.refiners, progress.refiners);
    assert ActiveWeight(progress.refiners.infos) == ActiveWeight(n.refiners.infos);
    hide RefInv, Custody, TotalBalance, AccountsOk, OnlyLiveness, Attest, StakeMap, AsActive, PruneIndex, CustodyOf, KeyOk;
    FinalityNeedsQuorum(n.chain.finalizedHeight, progress.index, progress.touched, progress.refiners.infos);
    hide NewlyFinalized;
    if h > n.chain.finalizedHeight {
      var hash :| (h, hash) in progress.touched && (h, hash) in progress.index
        && 1000 * Part(StakeMap(progress.refiners.infos), progress.index[(h, hash)] * AsActive(progress.refiners.infos)) >= 667 * ActiveWeight(progress.refiners.infos) > 0;
      QuorumFromKey(c, n, (h, hash), progress.index[(h, hash)]);
    }
  }

  lemma QuorumFromKey(c: Crypto, n: NodeState, k: (u64, Hash), ids: set<ObjectId>)
    requires KeyOk(c, Blocks(n), n.chain.height, k, ids)
    requires 1000 * Part(StakeMap(n.refiners.infos), ids * AsActive(n.refiners.infos)) >= 667 * ActiveWeight(n.refiners.infos) > 0
    ensures HasQuorum(c, n, k.0)
  {
    assert IsQuorum(c, n, k.0, k.1, ids * AsActive(n.refiners.infos));
  }

  lemma {:induction false} AttestRemembers(c: Crypto, height: u64, blocks: Option<map<u64, Block>>, p: Progress, atts: seq<BlockAttestation>, k: (u64, Hash))
    requires k in p.index
    ensures k in Attest(c, height, blocks, p, atts).0.index && p.index[k] <= Attest(c, height, blocks, p, atts).0.index[k]
    decreases |atts|
  {
    hide CheckAttestation;
    if atts != [] {
      var checked := CheckAttestation(c, atts[0], height, p.seen, blocks, p.refiners.infos);
      if checked.Ok? {
        CountRemembers(p, atts[0], checked.value, k);
        AttestRemembers(c, height, blocks, CountIn(p, atts[0], checked.value), atts[1..], k);
      }
    }
  }

  lemma CountRemembers(p: Progress, att: BlockAttestation, canonical: Hash, k: (u64, Hash))
    requires k in p.index && att.refiner in p.refiners.infos && p.refiners.infos[att.refiner].status.Active?
    ensures k in CountIn(p, att, canonical).index && p.index[k] <= CountIn(p, att, canonical).index[k]
  {
  }

  lemma AttestedRemembers(c: Crypto, n: NodeState, block: Block, k: (u64, Hash))
    requires k in n.chain.finality
    ensures var index := Attest(c, block.header.height, Blocks(n), Begin(n), block.attestations).0.index;
      k in index && n.chain.finality[k] <= index[k]
  {
    hide Attest;
    AttestRemembers(c, block.header.height, Blocks(n), Begin(n), block.attestations, k);
  }

  /** Above the finalized height and at most an epoch behind the parent. */
  predicate Live(chain: ChainState, parent: u64, height: u64) {
    height > chain.finalizedHeight && (height as int) + EPOCH >= parent
  }

  /** Recorded attestations accumulate: an accepted block forgets none for a live
      height, and keeps none for any other. */
  lemma IndexRemembers(c: Crypto, n: NodeState, call: Call, k: (u64, Hash))
    requires MoneyInv(n) && PowSound(c) && RoomFor(c, n, call.block, call.now) && Accepts(c, n, call)
    ensures var m := After(c, n, call);
      && (k in n.chain.finality && Live(m.chain, n.chain.height, k.0) ==>
            k in m.chain.finality && n.chain.finality[k] <= m.chain.finality[k])
      && (k in m.chain.finality ==> Live(m.chain, n.chain.height, k.0))
  {
    hide *;
    CallIsApply(c, n, call);
    var kind, tr := AcceptedMoves(c, n, call.block, call.now);
    if k in n.chain.finality { AttestedRemembers(c, n, call.block, k); }
    MovedIndex(c, n, call.block, tr, After(c, n, call), k);
  }

  lemma MovedIndex(c: Crypto, n: NodeState, block: Block, tr: Trace, m: NodeState, k: (u64, Hash))
    requires ChainMoved(c, n, block, tr, m)
    requires k in n.chain.finality ==>
               var index := Attest(c, block.header.height, Blocks(n), Begin(n), block.attestations).0.index;
               k in index && n.chain.finality[k] <= index[k]
    ensures k in n.chain.finality && Live(m.chain, n.chain.height, k.0) ==> k in m.chain.finality && n.chain.finality[k] <= m.chain.finality[k]
    ensures k in m.chain.finality ==> Live(m.chain, n.chain.height, k.0)
  {
    hide Attest, NewlyFinalized, Threshold, Difficulty.Prune, RecordReceipt, ReceiptOf, Reseated, Saved;
  }

  /** Finality never regresses, and advances to a height only on a quorum of Active
      refiners with verified attestations of the canonical block there. */
  lemma FinalityAdvances(c: Crypto, n: NodeState, calls: seq<Call>, call: Call)
    requires IsGenesis(n) && PowSound(c) && Roomy(c, n, calls + [call])
    ensures var before := Run(c, n, calls);
            var after := Run(c, n, calls + [call]);
      && before.chain.finalizedHeight <= after.chain.finalizedHeight
      && (before.chain.finalizedHeight < after.chain.finalizedHeight ==> HasQuorum(c, before, after.chain.finalizedHeight))
  {
    hide MoneyInv, After, Attested, AfterAttesting, StoreGrew, IndexOk, HasQuorum, Run, Roomy, RoomFor, IsGenesis, PowSound, Blocks;
    var m := Run(c, n, calls);
    assert (calls + [call])[..|calls + [call]| - 1] == calls;
    RunStep(c, n, calls + [call]);
    SupplyConserved(c, n, calls);
    IndexIsVerified(c, n, calls);
    FinalityStep(c, m, call);
    RoomLeft(c, m, call.block, call.now);
    if call.block.header.height == m.chain.height + 1 { AdvanceHasQuorum(c, m, call.block); }
  }

  /** Two quorums over one refiner set, for whatever heights and blocks, share
      attesters holding at least 334/1000 of the active weight. */
  lemma QuorumsShareAttesters(c: Crypto, n: NodeState, h1: u64, hash1: Hash, a: set<ObjectId>, h2: u64, hash2: Hash, b: set<ObjectId>)
    requires IsQuorum(c, n, h1, hash1, a) && IsQuorum(c, n, h2, hash2, b)
    ensures 1000 * Part(StakeMap(n.refiners.infos), a * b) >= 334 * ActiveWeight(n.refiners.infos) > 0
    ensures forall id :: id in a * b ==> HasAttested(c, id, h1, hash1) && HasAttested(c, id, h2, hash2)
  {
    var active := AsActive(n.refiners.infos);
    assert a * active == a && b * active == b && a * b * active == a * b;
    QuorumsOverlap(n.refiners.infos, a, b);
  }

  /** `block` is the block of some accepted call of the run, at its own height. */
  ghost predicate WasAccepted(c: Crypto, n: NodeState, calls: seq<Call>, height: u64, block: Block) {
    exists i :: AcceptedAt(c, n, calls, i, height, block)
  }

  ghost predicate AcceptedAt(c: Crypto, n: NodeState, calls: seq<Call>, i: int, height: u64, block: Block) {
    && 0 <= i < |calls| && calls[i].block == block
    && Accepts(c, Run(c, n, calls[..i]), calls[i])
    && block.header.height == height
  }

  lemma AcceptedEarlier(c: Crypto, n: NodeState, calls: seq<Call>, height: u64, block: Block)
    requires calls != [] && WasAccepted(c, n, calls[..|calls| - 1], height, block)
    ensures WasAccepted(c, n, calls, height, block)
  {
    hide Run, Accepts;
    var init := calls[..|calls| - 1];
    var i :| AcceptedAt(c, n, init, i, height, block);
    assert init[..i] == calls[..i];
    assert AcceptedAt(c, n, calls, i, height, block);
  }

  lemma AcceptedLast(c: Crypto, n: NodeState, calls: seq<Call>)
    requires calls != [] && Accepts(c, Run(c, n, calls[..|calls| - 1]), calls[|calls| - 1])
    ensures WasAccepted(c, n, calls, calls[|calls| - 1].block.header.height, calls[|calls| - 1].block)
  {
    hide Run, Accepts;
    assert AcceptedAt(c, n, calls, |calls| - 1, calls[|calls| - 1].block.header.height, calls[|calls| - 1].block);
  }

  lemma StoredStep(c: Crypto, n: NodeState, call: Call, height: u64)
    requires MoneyInv(n) && PowSound(c) && RoomFor(c, n, call.block, call.now)
    ensures var m := After(c, n, call);
      Blocks(m).Some? && height in Blocks(m).value ==>
        || (Blocks(n).Some? && height in Blocks(n).value && Blocks(n).value[height] == Blocks(m).value[height])
        || (Accepts(c, n, call) && height == call.block.header.height && Blocks(m).value[height] == call.block)
  {
    hide *;
    CallIsApply(c, n, call);
    if Accepts(c, n, call) {
      var kind, tr := AcceptedMoves(c, n, call.block, call.now);
      SavedBlocks(c, n, call.block, tr, After(c, n, call), height);
    } else {
      StepConserves(c, n, call);
      RefusedBlocks(n, After(c, n, call));
    }
  }

  lemma SavedBlocks(c: Crypto, n: NodeState, block: Block, tr: Trace, m: NodeState, height: u64)
    requires ChainMoved(c, n, block, tr, m)
    ensures Blocks(m).Some? && height in Blocks(m).value ==>
        || (Blocks(n).Some? && height in Blocks(n).value && Blocks(n).value[height] == Blocks(m).value[height])
        || (height == block.header.height && Blocks(m).value[height] == block)
  {
    hide AfterAttesting, Attested, Difficulty.Prune, RecordReceipt, ReceiptOf, Reseated;
  }

  lemma RefusedBlocks(n: NodeState, m: NodeState)
    requires OnlyAttested(n, m)
    ensures Blocks(m) == Blocks(n)
  {
    hide OnlyLiveness;
  }

  /** Every stored block, so every finalized one, is a block this run accepted at that
      very height. */
  lemma {:induction false} StoredWereAccepted(c: Crypto, n: NodeState, calls: seq<Call>, height: u64)
    requires IsGenesis(n) && PowSound(c) && Roomy(c, n, calls)
    ensures var blocks := Blocks(Run(c, n, calls));
      blocks.Some? && height in blocks.value ==> WasAccepted(c, n, calls, height, blocks.value[height])
  {
    hide IsGenesis, PowSound, RoomFor, After, Accepts, WasAccepted;
    if calls == [] {
      GenesisBalances(n);
    } else {
      var init, last := calls[..|calls| - 1], calls[|calls| - 1];
      StoredWereAccepted(c, n, init, height);
      SupplyConserved(c, n, init);
      StoredStep(c, Run(c, n, init), last, height);
      var before := Blocks(Run(c, n, init));
      if before.Some? && height in before.value { AcceptedEarlier(c, n, calls, height, before.value[height]); }
      if Accepts(c, Run(c, n, init), last) { AcceptedLast(c, n, calls); }
    }
  }
}
