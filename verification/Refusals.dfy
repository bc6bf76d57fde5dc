/** Exactly what a refused block leaves behind. */
module Refusals {
  import opened Numbers
  import opened Difficulty
  import opened Collections
  import opened Ledger
  import opened Types
  import opened Refiner
  import opened RefinerInvariant
  import opened Chain
  import opened Finality
  import opened BlockApplication
  import opened Supply
  import opened BlockLaws
  import opened Runs
  import opened ChainLinks

  // ---- The attestations that get counted ----

  function SeenIn(done: seq<BlockAttestation>): set<(u64, ObjectId)> {
    set i | 0 <= i < |done| :: (done[i].height, done[i].refiner)
  }

  function KeyOf(att: BlockAttestation): (u64, Hash) { (att.height, att.blockHash) }

  function KeysIn(done: seq<BlockAttestation>): set<(u64, Hash)> {
    set i | 0 <= i < |done| :: KeyOf(done[i])
  }

  function RefinersIn(done: seq<BlockAttestation>): set<ObjectId> {
    set i | 0 <= i < |done| :: done[i].refiner
  }

  function AttestersIn(done: seq<BlockAttestation>, key: (u64, Hash)): set<ObjectId> {
    set i | 0 <= i < |done| && KeyOf(done[i]) == key :: done[i].refiner
  }

  function TimesCounted(done: seq<BlockAttestation>, id: ObjectId): nat {
    if done == [] then 0
    else TimesCounted(done[..|done| - 1], id) + if done[|done| - 1].refiner == id then 1 else 0
  }

  /** Attestation `i` passes its checks against the node as it is, were those before
      it counted. */
  predicate Passes(c: Crypto, n: NodeState, block: Block, i: nat) {
    && i < |block.attestations|
    && CheckAttestation(c, block.attestations[i], block.header.height, SeenIn(block.attestations[..i]), Blocks(n), n.refiners.infos).Ok?
  }

  function CountedFrom(c: Crypto, n: NodeState, block: Block, i: nat): (k: nat)
    requires i <= |block.attestations|
    ensures i <= k <= |block.attestations|
    decreases |block.attestations| - i
  {
    if Passes(c, n, block, i) then CountedFrom(c, n, block, i + 1) else i
  }

  /** The attestations up to the first one that fails its checks. */
  function CountedOf(c: Crypto, n: NodeState, block: Block): seq<BlockAttestation> {
    block.attestations[..CountedFrom(c, n, block, 0)]
  }

  /** What counting `done` makes of a node's index and refiners. */
  ghost predicate ProgressOf(n: NodeState, done: seq<BlockAttestation>, p: Progress) {
    && p.seen == SeenIn(done) && p.touched == KeysIn(done)
    && p.index.Keys == n.chain.finality.Keys + KeysIn(done)
    && (forall k :: AttestersOf(p.index, k) == AttestersOf(n.chain.finality, k) + AttestersIn(done, k))
    && OnlyLiveness(n.refiners, p.refiners)
    && p.refiners.dirty == n.refiners.dirty + RefinersIn(done)
    && (forall id :: id in n.refiners.infos ==>
          p.refiners.infos[id].attestations == Min(n.refiners.infos[id].attestations + TimesCounted(done, id), U64_MAX))
  }

  lemma NothingCounted(n: NodeState)
    ensures ProgressOf(n, [], Begin(n))
  {
  }

  lemma SetsAppend(done: seq<BlockAttestation>, att: BlockAttestation)
    ensures SeenIn(done + [att]) == SeenIn(done) + {(att.height, att.refiner)}
    ensures KeysIn(done + [att]) == KeysIn(done) + {KeyOf(att)}
    ensures RefinersIn(done + [att]) == RefinersIn(done) + {att.refiner}
    ensures forall k :: AttestersIn(done + [att], k) == AttestersIn(done, k) + if k == KeyOf(att) then {att.refiner} else {}
    ensures forall id :: TimesCounted(done + [att], id) == TimesCounted(done, id) + if att.refiner == id then 1 else 0
  {
    var longer := done + [att];
    assert longer[..|longer| - 1] == done;
    assert forall i :: 0 <= i < |done| ==> longer[i] == done[i];
    assert longer[|done|] == att;
  }

  lemma CountOne(n: NodeState, done: seq<BlockAttestation>, p: Progress, att: BlockAttestation)
    requires ProgressOf(n, done, p)
    requires att.refiner in p.refiners.infos && p.refiners.infos[att.refiner].status.Active?
    ensures ProgressOf(n, done + [att], CountIn(p, att, att.blockHash))
  {
    SetsAppend(done, att);
    hide SeenIn, KeysIn, RefinersIn, AttestersIn, TimesCounted;
    var q := CountIn(p, att, att.blockHash);
    forall k ensures AttestersOf(q.index, k) == AttestersOf(n.chain.finality, k) + AttestersIn(done + [att], k) {
      assert AttestersOf(q.index, k) == AttestersOf(p.index, k) + if k == KeyOf(att) then {att.refiner} else {};
    }
  }

  lemma SameCheck(c: Crypto, att: BlockAttestation, height: u64, seen: set<(u64, ObjectId)>, blocks: Option<map<u64, Block>>, r: RefinerState, s: RefinerState)
    requires OnlyLiveness(r, s)
    ensures CheckAttestation(c, att, height, seen, blocks, s.infos) == CheckAttestation(c, att, height, seen, blocks, r.infos)
    ensures var checked := CheckAttestation(c, att, height, seen, blocks, s.infos);
      checked.Ok? ==> checked.value == att.blockHash && att.refiner in s.infos && s.infos[att.refiner].status.Active?
  {
  }

  lemma {:induction false} AttestCounts(c: Crypto, n: NodeState, block: Block, i: nat, p: Progress)
    requires i <= |block.attestations| && ProgressOf(n, block.attestations[..i], p)
    ensures var (q, e) := Attest(c, block.header.height, Blocks(n), p, block.attestations[i..]);
            var k := CountedFrom(c, n, block, i);
      ProgressOf(n, block.attestations[..k], q) && (e.None? <==> k == |block.attestations|)
    decreases |block.attestations| - i
  {
    hide CheckAttestation, ProgressOf, CountIn;
    var atts := block.attestations;
    if i < |atts| {
      assert atts[i..][0] == atts[i] && atts[i..][1..] == atts[i + 1..];
      assert atts[..i + 1] == atts[..i] + [atts[i]];
      ProgressParts(n, atts[..i], p);
      SameCheck(c, atts[i], block.header.height, p.seen, Blocks(n), n.refiners, p.refiners);
      if Passes(c, n, block, i) {
        CountOne(n, atts[..i], p, atts[i]);
        AttestCounts(c, n, block, i + 1, CountIn(p, atts[i], atts[i].blockHash));
      }
    } else {
      assert atts[i..] == [];
    }
  }

  lemma ProgressParts(n: NodeState, done: seq<BlockAttestation>, p: Progress)
    requires ProgressOf(n, done, p)
    ensures p.seen == SeenIn(done) && p.touched == KeysIn(done) && OnlyLiveness(n.refiners, p.refiners)
  {
    hide SeenIn, KeysIn, OnlyLiveness;
  }

  lemma AttestedCounts(c: Crypto, n: NodeState, block: Block)
    ensures var (q, e) := Attested(c, n, block);
      ProgressOf(n, CountedOf(c, n, block), q) && (e.None? <==> |CountedOf(c, n, block)| == |block.attestations|)
  {
    hide Attest, ProgressOf, CountedFrom;
    NothingCounted(n);
    assert block.attestations[..0] == [] && block.attestations[0..] == block.attestations;
    AttestCounts(c, n, block, 0, Begin(n));
  }

  predicate FirstFails(c: Crypto, n: NodeState, block: Block)
    requires block.attestations != []
  {
    CheckAttestation(c, block.attestations[0], block.header.height, {}, Blocks(n), n.refiners.infos).Err?
  }

  /** Nothing is counted exactly when the block carries no attestation or its first
      one fails. */
  lemma CountedNoneIff(c: Crypto, n: NodeState, block: Block)
    ensures CountedOf(c, n, block) == [] <==> block.attestations == [] || FirstFails(c, n, block)
  {
    hide CheckAttestation;
    assert SeenIn(block.attestations[..0]) == {};
  }

  // ---- What a refusal leaves ----

  ghost function Stopped(c: Crypto, n: NodeState, block: Block, now: u64): NodeState {
    if AdmissionError(c, n, block, now).Some? then n
    else if Attested(c, n, block).1.Some? then WithProgress(n, Attested(c, n, block).0)
    else AfterAttesting(c, n, block)
  }

  lemma RefusedStops(c: Crypto, n: NodeState, call: Call)
    requires MoneyInv(n) && PowSound(c) && RoomFor(c, n, call.block, call.now) && !Accepts(c, n, call)
    ensures After(c, n, call) == Stopped(c, n, call.block, call.now)
  {
    var block, now := call.block, call.now;
    hide MoneyInv, PowSound, RoomFor;
    AcceptedIffCleared(c, n, block, now);
    hide Finalized, AdmissionError, Attested, ProducerError, Execute, Threshold;
    if AdmissionError(c, n, block, now).None? {
      AdmittedKind(c, n, block, now);
      assert !Cleared(c, n, block, now, KindOf(block.header).value);
    }
  }

  // ---- Records ----

  /** The refiner's liveness counter cannot rise any more. */
  predicate Saturated(n: NodeState, id: ObjectId) {
    id in n.refiners.infos ==> n.refiners.infos[id].attestations == U64_MAX
  }

  predicate AllSaturated(n: NodeState, done: seq<BlockAttestation>) {
    forall i :: 0 <= i < |done| ==> Saturated(n, done[i].refiner)
  }

  lemma {:induction false} CountedAtLeastOnce(done: seq<BlockAttestation>, id: ObjectId)
    ensures TimesCounted(done, id) > 0 <==> id in RefinersIn(done)
  {
    if done != [] {
      var init, last := done[..|done| - 1], done[|done| - 1];
      CountedAtLeastOnce(init, id);
      assert done == init + [last];
      SetsAppend(init, last);
    }
  }

  ghost predicate AttestersKnown(n: NodeState, done: seq<BlockAttestation>) {
    forall i :: 0 <= i < |done| ==> done[i].refiner in n.refiners.infos
  }

  lemma RecordsSameIff(n: NodeState, done: seq<BlockAttestation>, p: Progress)
    requires ProgressOf(n, done, p) && AttestersKnown(n, done)
    ensures p.refiners.infos == n.refiners.infos <==> AllSaturated(n, done)
  {
    forall id ensures TimesCounted(done, id) > 0 <==> id in RefinersIn(done) { CountedAtLeastOnce(done, id); }
    hide TimesCounted;
    var before, after := n.refiners.infos, p.refiners.infos;
    if AllSaturated(n, done) {
      forall id | id in before ensures after[id] == before[id] { SaturatedStays(n, done, p, id); }
      assert after == before;
    } else {
      var i :| 0 <= i < |done| && !Saturated(n, done[i].refiner);
      assert after[done[i].refiner].attestations != before[done[i].refiner].attestations;
    }
  }

  lemma SaturatedStays(n: NodeState, done: seq<BlockAttestation>, p: Progress, id: ObjectId)
    requires ProgressOf(n, done, p) && AllSaturated(n, done) && id in n.refiners.infos
    requires TimesCounted(done, id) > 0 <==> id in RefinersIn(done)
    ensures p.refiners.infos[id] == n.refiners.infos[id]
  {
    hide TimesCounted;
  }

  lemma {:induction false} CountedAreKnown(c: Crypto, n: NodeState, block: Block, i: nat)
    requires i <= |block.attestations|
    ensures forall j :: i <= j < CountedFrom(c, n, block, i) ==> block.attestations[j].refiner in n.refiners.infos
    decreases |block.attestations| - i
  {
    hide CheckAttestation;
    if Passes(c, n, block, i) { CountedAreKnown(c, n, block, i + 1); }
  }

  /** A refused block leaves every refiner record alone exactly when it was not
      admitted or every attestation it got counted met a saturated counter; so in
      particular when none was counted. */
  lemma RefusedRecordsIff(c: Crypto, n: NodeState, call: Call)
    requires MoneyInv(n) && PowSound(c) && RoomFor(c, n, call.block, call.now) && !Accepts(c, n, call)
    ensures After(c, n, call).refiners.infos == n.refiners.infos
       <==> AdmissionError(c, n, call.block, call.now).Some? || AllSaturated(n, CountedOf(c, n, call.block))
  {
    hide MoneyInv, PowSound, RoomFor, Accepts, After, Attested, AdmissionError, ProgressOf, AllSaturated, Threshold, NewlyFinalized, PruneIndex;
    RefusedStops(c, n, call);
    AttestedCounts(c, n, call.block);
    CountedAreKnown(c, n, call.block, 0);
    hide CountedFrom;
    RecordsSameIff(n, CountedOf(c, n, call.block), Attested(c, n, call.block).0);
  }

  /** The stored root, current before, still is that of the node's state exactly in
      that case, unless the root maps the old and the new records to one hash. */
  lemma RefusedRootIff(c: Crypto, n: NodeState, call: Call)
    requires MoneyInv(n) && PowSound(c) && RoomFor(c, n, call.block, call.now) && !Accepts(c, n, call) && RootCurrent(c, n)
    requires var m := After(c, n, call);
      RootOver(c, m, m.refiners.infos) == RootOver(c, m, n.refiners.infos) ==> m.refiners.infos == n.refiners.infos
    ensures RootCurrent(c, After(c, n, call))
       <==> AdmissionError(c, n, call.block, call.now).Some? || AllSaturated(n, CountedOf(c, n, call.block))
  {
    hide *;
    RefusedRoot(c, n, call);
    RefusedRecordsIff(c, n, call);
  }

  // ---- Finality ----

  /** The attestation is in the index already. */
  predicate Recorded(n: NodeState, att: BlockAttestation) {
    att.refiner in AttestersOf(n.chain.finality, KeyOf(att))
  }

  /** Pruning at the present height keeps the key. */
  predicate Kept(chain: ChainState, k: (u64, Hash)) {
    k.0 > chain.finalizedHeight && k.0 >= SatSub64(chain.height, EPOCH)
  }

  /** No entry the block adds to reaches the threshold above the finalized height. */
  ghost predicate NoQuorum(n: NodeState, done: seq<BlockAttestation>) {
    || Threshold(n.refiners.infos) == 0
    || forall k :: k in KeysIn(done) && k.0 > n.chain.finalizedHeight ==>
         WeightBehind(n.refiners.infos, AttestersOf(n.chain.finality, k) + AttestersIn(done, k)) < Threshold(n.refiners.infos)
  }

  ghost predicate AllRecorded(n: NodeState, done: seq<BlockAttestation>) {
    forall i :: 0 <= i < |done| ==> Recorded(n, done[i])
  }

  ghost predicate KeptRecorded(n: NodeState, done: seq<BlockAttestation>) {
    forall i :: 0 <= i < |done| && Kept(n.chain, KeyOf(done[i])) ==> Recorded(n, done[i])
  }

  ghost predicate NothingToPrune(n: NodeState) {
    forall k :: k in n.chain.finality ==> Kept(n.chain, k)
  }

  lemma IndexSameIff(n: NodeState, done: seq<BlockAttestation>, p: Progress)
    requires ProgressOf(n, done, p)
    ensures p.index == n.chain.finality <==> AllRecorded(n, done)
  {
    hide TimesCounted, OnlyLiveness;
    if AllRecorded(n, done) {
      forall k | k in KeysIn(done) ensures k in n.chain.finality {
        var i :| 0 <= i < |done| && KeyOf(done[i]) == k;
        assert Recorded(n, done[i]);
      }
      forall k | k in p.index ensures p.index[k] == n.chain.finality[k] {
        forall id | id in AttestersIn(done, k) ensures id in AttestersOf(n.chain.finality, k) {
          var i :| 0 <= i < |done| && KeyOf(done[i]) == k && done[i].refiner == id;
          assert Recorded(n, done[i]);
        }
        assert AttestersOf(p.index, k) == AttestersOf(n.chain.finality, k) + AttestersIn(done, k);
      }
    } else {
      var i :| 0 <= i < |done| && !Recorded(n, done[i]);
      NotRecordedDiffers(n, done, p, i);
    }
  }

  lemma NotRecordedDiffers(n: NodeState, done: seq<BlockAttestation>, p: Progress, i: nat)
    requires ProgressOf(n, done, p) && i < |done| && !Recorded(n, done[i])
    ensures var k := KeyOf(done[i]); k in p.index && (k in n.chain.finality ==> p.index[k] != n.chain.finality[k])
  {
    var k := KeyOf(done[i]);
    assert k in KeysIn(done) && done[i].refiner in AttestersIn(done, k);
    assert AttestersOf(p.index, k) == AttestersOf(n.chain.finality, k) + AttestersIn(done, k);
    hide TimesCounted, OnlyLiveness, KeysIn, AttestersIn;
  }

  lemma PrunedSameIff(n: NodeState, done: seq<BlockAttestation>, p: Progress)
    requires ProgressOf(n, done, p)
    ensures PruneIndex(p.index, n.chain.finalizedHeight, n.chain.height) == n.chain.finality <==> NothingToPrune(n) && KeptRecorded(n, done)
  {
    var pruned := PruneIndex(p.index, n.chain.finalizedHeight, n.chain.height);
    assert forall k :: k in pruned <==> k in p.index && Kept(n.chain, k);
    assert forall k :: k in pruned ==> pruned[k] == p.index[k];
    hide TimesCounted, OnlyLiveness, PruneIndex, Kept;
    if NothingToPrune(n) && KeptRecorded(n, done) {
      forall k | k in pruned ensures k in n.chain.finality && pruned[k] == n.chain.finality[k] { KeptKeySame(n, done, p, k); }
      assert pruned == n.chain.finality;
    } else if NothingToPrune(n) {
      var i :| 0 <= i < |done| && Kept(n.chain, KeyOf(done[i])) && !Recorded(n, done[i]);
      NotRecordedDiffers(n, done, p, i);
      assert KeyOf(done[i]) in pruned;
    } else {
      var k :| k in n.chain.finality && !Kept(n.chain, k);
      assert k !in pruned;
    }
  }

  lemma KeptKeySame(n: NodeState, done: seq<BlockAttestation>, p: Progress, k: (u64, Hash))
    requires ProgressOf(n, done, p) && KeptRecorded(n, done) && k in p.index && Kept(n.chain, k)
    ensures k in n.chain.finality && p.index[k] == n.chain.finality[k]
  {
    hide TimesCounted, OnlyLiveness, Kept;
    if k in KeysIn(done) {
      var i :| 0 <= i < |done| && KeyOf(done[i]) == k;
      assert Recorded(n, done[i]);
    }
    forall id | id in AttestersIn(done, k) ensures id in AttestersOf(n.chain.finality, k) {
      var i :| 0 <= i < |done| && KeyOf(done[i]) == k && done[i].refiner == id;
      assert Recorded(n, done[i]);
    }
    assert AttestersOf(p.index, k) == AttestersOf(n.chain.finality, k) + AttestersIn(done, k);
  }

  ghost predicate QuorumAt(n: NodeState, done: seq<BlockAttestation>, k: (u64, Hash)) {
    k in KeysIn(done) && WeightBehind(n.refiners.infos, AttestersOf(n.chain.finality, k) + AttestersIn(done, k)) >= Threshold(n.refiners.infos)
  }

  ghost predicate QuorumFor(n: NodeState, done: seq<BlockAttestation>, h: u64) {
    exists k: (u64, Hash) :: QuorumAt(n, done, k) && k.0 == h
  }

  ghost predicate NoHigherQuorum(n: NodeState, done: seq<BlockAttestation>) {
    forall h: u64 :: h > n.chain.finalizedHeight ==> !QuorumFor(n, done, h)
  }

  /** A touched height has its quorum exactly when one of the entries added to there has. */
  lemma QuorumHeightsAre(n: NodeState, done: seq<BlockAttestation>, p: Progress, h: u64)
    requires ProgressOf(n, done, p) && RefInv(n.refiners)
    ensures h in QuorumHeights(p.index, p.touched, p.refiners.infos, Threshold(n.refiners.infos)) <==> QuorumFor(n, done, h)
  {
    hide RefInv, OnlyLiveness, WeightBehind, Threshold, KeysIn, AttestersIn, SeenIn, RefinersIn, TimesCounted, AttestersOf;
    ProgressParts(n, done, p);
    forall k | k in KeysIn(done) ensures WeightBehind(p.refiners.infos, p.index[k]) == WeightBehind(n.refiners.infos, AttestersOf(n.chain.finality, k) + AttestersIn(done, k)) {
      EntryWeight(n, done, p, k);
    }
    hide ProgressOf;
    if QuorumFor(n, done, h) {
      var k: (u64, Hash) :| QuorumAt(n, done, k) && k.0 == h;
      assert k in p.touched;
    }
  }

  lemma EntryWeight(n: NodeState, done: seq<BlockAttestation>, p: Progress, k: (u64, Hash))
    requires ProgressOf(n, done, p) && RefInv(n.refiners) && k in KeysIn(done)
    ensures k in p.index && WeightBehind(p.refiners.infos, p.index[k]) == WeightBehind(n.refiners.infos, AttestersOf(n.chain.finality, k) + AttestersIn(done, k))
  {
    LivenessKeeps(n.refiners, p.refiners);
    assert AttestersOf(p.index, k) == AttestersOf(n.chain.finality, k) + AttestersIn(done, k);
    hide RefInv, OnlyLiveness, StakeMap, AsActive, Part, Custody, CustodyOf, Staked, KeysIn, AttestersIn, SeenIn, RefinersIn, TimesCounted;
  }

  lemma NotFinalizedIff(n: NodeState, done: seq<BlockAttestation>, p: Progress)
    requires ProgressOf(n, done, p) && RefInv(n.refiners)
    ensures NewlyFinalized(n.chain.finalizedHeight, p.index, p.touched, p.refiners.infos, Threshold(n.refiners.infos)) == n.chain.finalizedHeight
       <==> NoQuorum(n, done)
  {
    hide RefInv, ProgressOf, QuorumHeights, WeightBehind, Threshold, KeysIn, AttestersIn, AttestersOf, QuorumFor, NoQuorum;
    var heights := QuorumHeights(p.index, p.touched, p.refiners.infos, Threshold(n.refiners.infos));
    forall h: u64 ensures h in heights <==> QuorumFor(n, done, h) { QuorumHeightsAre(n, done, p, h); }
    NoQuorumFor(n, done);
  }

  lemma NoQuorumFor(n: NodeState, done: seq<BlockAttestation>)
    ensures NoQuorum(n, done) <==> Threshold(n.refiners.infos) == 0 || NoHigherQuorum(n, done)
  {
    hide WeightBehind, Threshold, KeysIn, AttestersIn, AttestersOf;
    if Threshold(n.refiners.infos) != 0 && NoHigherQuorum(n, done) {
      forall k | k in KeysIn(done) && k.0 > n.chain.finalizedHeight
        ensures WeightBehind(n.refiners.infos, AttestersOf(n.chain.finality, k) + AttestersIn(done, k)) < Threshold(n.refiners.infos)
      {
        assert !QuorumFor(n, done, k.0);
        assert !QuorumAt(n, done, k);
      }
    }
  }

  // ---- Exactly when nothing moves ----

  /** A block that, refused, moves neither records nor finality. All of it can be
      read off the node and the block before the call. */
  ghost predicate Quiet(c: Crypto, n: NodeState, block: Block) {
    var done := CountedOf(c, n, block);
    && AllSaturated(n, done)
    && if |done| < |block.attestations| then AllRecorded(n, done)
       else NoQuorum(n, done) && NothingToPrune(n) && KeptRecorded(n, done)
  }

  ghost predicate Harmless(c: Crypto, n: NodeState, call: Call) {
    AdmissionError(c, n, call.block, call.now).Some? || Quiet(c, n, call.block)
  }

  /** A refused block leaves chain state and refiner records as they were exactly when
      it was not admitted or was quiet. */
  lemma RefusedUnmovedIff(c: Crypto, n: NodeState, call: Call)
    requires MoneyInv(n) && PowSound(c) && RoomFor(c, n, call.block, call.now) && !Accepts(c, n, call)
    ensures var m := After(c, n, call);
      m.chain == n.chain && m.refiners.infos == n.refiners.infos <==> Harmless(c, n, call)
  {
    hide MoneyInv, PowSound, RoomFor, Accepts, After, Attested, AdmissionError, ProgressOf, AllSaturated, Threshold, NewlyFinalized, PruneIndex;
    hide AllRecorded, NoQuorum, NothingToPrune, KeptRecorded, CountedFrom, RefInv;
    var done, p := CountedOf(c, n, call.block), Attested(c, n, call.block).0;
    InvParts(n);
    RefusedStops(c, n, call);
    AttestedCounts(c, n, call.block);
    CountedAreKnown(c, n, call.block, 0);
    RecordsSameIff(n, done, p);
    IndexSameIff(n, done, p);
    PrunedSameIff(n, done, p);
    NotFinalizedIff(n, done, p);
  }

  lemma InvParts(n: NodeState)
    requires MoneyInv(n)
    ensures RefInv(n.refiners)
  {
    hide RefInv, AccountsOk, Balanced;
  }

  ghost predicate NothingNewlyDirty(c: Crypto, n: NodeState, call: Call) {
    AdmissionError(c, n, call.block, call.now).Some? || RefinersIn(CountedOf(c, n, call.block)) <= n.refiners.dirty
  }

  /** A refused block is a no-op exactly when it was not admitted, or was quiet and
      every refiner it got counted was marked dirty already. */
  lemma RefusedNoOpIff(c: Crypto, n: NodeState, call: Call)
    requires MoneyInv(n) && PowSound(c) && RoomFor(c, n, call.block, call.now) && !Accepts(c, n, call)
    ensures After(c, n, call) == n <==> Harmless(c, n, call) && NothingNewlyDirty(c, n, call)
  {
    hide MoneyInv, PowSound, RoomFor, Accepts, After, Attested, AdmissionError, Threshold, NewlyFinalized, PruneIndex, Quiet, CountedOf, ProgressOf;
    RefusedUnmovedIff(c, n, call);
    RefusedStops(c, n, call);
    AttestedCounts(c, n, call.block);
    AttestingIsOnlyAttested(c, n, call.block);
    DirtyAfter(n, CountedOf(c, n, call.block), Attested(c, n, call.block).0);
  }

  lemma DirtyAfter(n: NodeState, done: seq<BlockAttestation>, p: Progress)
    requires ProgressOf(n, done, p)
    ensures p.refiners.dirty == n.refiners.dirty + RefinersIn(done)
  {
    hide RefinersIn, OnlyLiveness, SeenIn, KeysIn, AttestersIn, TimesCounted;
  }
}
