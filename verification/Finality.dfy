/** Refiner attestations and the finalized height (crates/node/src/node.rs). */
module Finality {
  import opened Numbers
  import opened Difficulty
  import opened Collections
  import opened Types
  import opened Refiner
  import opened RefinerInvariant
  import opened RefinerStore
  import opened Chain

  const FINALITY_CONFIDENCE_MILLI: nat := 667

  datatype AttestationError =
    | HeightNotBelowBlock
    | DuplicateAttestation
    | NoStorage
    | UnknownTarget
    | TargetNotRefined
    | KeyLength
    | SignatureLength
    | NotCanonical
    | KeyMismatch
    | AttesterNotBonded
    | AttesterNotActive
    | SignatureRejected

  // ---- Verifying attestations ----

  /** `verify_block_attestation_against_refiners`. */
  function VerifyAttestation(c: Crypto, att: BlockAttestation, canonical: Hash, infos: Infos): (e: Option<AttestationError>)
    ensures e.None? ==> att.refiner in infos && infos[att.refiner].status.Active?
    ensures e.None? ==> att.blockHash == canonical && c.keyAttested(att.refinerKey, att.height, canonical, att.signature)
  {
    if |att.refinerKey| != 32 then Some(KeyLength)
    else if |att.signature| != 64 then Some(SignatureLength)
    else if att.blockHash != canonical then Some(NotCanonical)
    else if c.idOfKey(att.refinerKey) != att.refiner then Some(KeyMismatch)
    else if att.refiner !in infos then Some(AttesterNotBonded)
    else if !infos[att.refiner].status.Active? then Some(AttesterNotActive)
    else if !c.keyAttested(att.refinerKey, att.height, att.blockHash, att.signature) then Some(SignatureRejected)
    else None
  }

  /** The checks on one attestation of a block at `height`; the canonical hash it
      attests on success. */
  function CheckAttestation(c: Crypto, att: BlockAttestation, height: u64, seen: set<(u64, ObjectId)>,
                            blocks: Option<map<u64, Block>>, infos: Infos): (r: Result<Hash, AttestationError>)
    ensures r.Ok? ==> att.refiner in infos && infos[att.refiner].status.Active?
  {
    if att.height >= height then Err(HeightNotBelowBlock)
    else if (att.height, att.refiner) in seen then Err(DuplicateAttestation)
    else if blocks.None? then Err(NoStorage)
    else if att.height !in blocks.value then Err(UnknownTarget)
    else
      var target := blocks.value[att.height].header;
      if KindOf(target) != Some(Refined) then Err(TargetNotRefined)
      else
        var refused := VerifyAttestation(c, att, c.blockHash(target), infos);
        if refused.Some? then Err(refused.value) else Ok(c.blockHash(target))
  }

  /** What the attestation loop has done so far. */
  datatype Progress = Progress(
    index: FinalityIndex,
    refiners: RefinerState,
    seen: set<(u64, ObjectId)>,
    touched: set<(u64, Hash)>)

  function AttestersOf(index: FinalityIndex, key: (u64, Hash)): set<ObjectId> {
    if key in index then index[key] else {}
  }

  function CountIn(p: Progress, att: BlockAttestation, canonical: Hash): Progress
    requires att.refiner in p.refiners.infos && p.refiners.infos[att.refiner].status.Active?
  {
    var key := (att.height, canonical);
    Progress(p.index[key := AttestersOf(p.index, key) + {att.refiner}],
             RecordAttestation(p.refiners, att.refiner).value,
             p.seen + {(att.height, att.refiner)},
             p.touched + {key})
  }

  /** The loop over a block's attestations. The first bad one stops the block, but
      what was recorded before it stays recorded. */
  function Attest(c: Crypto, height: u64, blocks: Option<map<u64, Block>>, p: Progress, atts: seq<BlockAttestation>): (Progress, Option<AttestationError>)
    decreases |atts|
  {
    if atts == [] then (p, None)
    else
      match CheckAttestation(c, atts[0], height, p.seen, blocks, p.refiners.infos)
      case Err(e) => (p, Some(e))
      case Ok(canonical) => Attest(c, height, blocks, CountIn(p, atts[0], canonical), atts[1..])
  }

  // ---- Weights ----

  ghost function ActiveWeight(infos: Infos): nat { Part(StakeMap(infos), AsActive(infos)) }

  ghost function Threshold(infos: Infos): nat { DivCeil(ActiveWeight(infos) * FINALITY_CONFIDENCE_MILLI, 1000) }

  /** The current weight behind a set of recorded attesters. */
  ghost function WeightBehind(infos: Infos, ids: set<ObjectId>): u128 {
    ClampU128(Part(StakeMap(infos), ids * AsActive(infos)))
  }

  /** Heights whose touched entry now reaches the threshold. */
  ghost function QuorumHeights(index: FinalityIndex, touched: set<(u64, Hash)>, infos: Infos, threshold: nat): set<u64> {
    set k | k in touched && k in index && WeightBehind(infos, index[k]) >= threshold :: k.0
  }

  function Highest(heights: set<u64>, floor: u64): (h: u64)
    ensures h == floor || h in heights
    ensures h >= floor && forall x :: x in heights ==> x <= h
    decreases |heights|
  {
    if heights == {} then floor
    else
      HasHighest(heights);
      var top :| top in heights && forall x :: x in heights ==> x <= top;
      Max(top, floor)
  }

  ghost predicate IsHighest(heights: set<u64>, h: u64) { h in heights && forall x :: x in heights ==> x <= h }

  lemma {:induction false} HasHighest(heights: set<u64>)
    requires heights != {}
    ensures exists h :: IsHighest(heights, h)
    decreases |heights|
  {
    var x :| x in heights;
    var rest := heights - {x};
    assert forall z :: z in heights ==> z == x || z in rest;
    if rest == {} {
      assert IsHighest(heights, x);
    } else {
      HasHighest(rest);
      var y :| IsHighest(rest, y);
      assert IsHighest(heights, if x <= y then y else x);
    }
  }

  /** `finalized_height_from_attestation_weights`. */
  ghost function NewlyFinalized(current: u64, index: FinalityIndex, touched: set<(u64, Hash)>, infos: Infos, threshold: nat): u64 {
    if threshold == 0 then current else Highest(QuorumHeights(index, touched, infos, threshold), current)
  }

  function PruneIndex(index: FinalityIndex, finalized: u64, height: u64): FinalityIndex {
    map k | k in index && k.0 > finalized && k.0 >= SatSub64(height, EPOCH) :: index[k]
  }

  // ---- What finality promises ----

  /** A height advances only with at least 667/1000 of the active weight behind one
      recorded block at that height. */
  lemma FinalityNeedsQuorum(current: u64, index: FinalityIndex, touched: set<(u64, Hash)>, infos: Infos)
    requires Staked(infos) <= U64_MAX
    ensures var h := NewlyFinalized(current, index, touched, infos, Threshold(infos));
      && h >= current
      && (h > current ==>
            exists hash :: (h, hash) in touched && (h, hash) in index
              && 1000 * Part(StakeMap(infos), index[(h, hash)] * AsActive(infos)) >= 667 * ActiveWeight(infos) > 0)
  {
    var h := NewlyFinalized(current, index, touched, infos, Threshold(infos));
    hide StakeMap, AsActive;
    if h > current {
      var k :| k in touched && k in index && WeightBehind(infos, index[k]) >= Threshold(infos) && k.0 == h;
      CeilingReached(ActiveWeight(infos), Part(StakeMap(infos), index[k] * AsActive(infos)));
      assert k == (h, k.1);
    }
  }

  lemma CeilingReached(total: nat, weight: nat)
    requires 0 < DivCeil(total * FINALITY_CONFIDENCE_MILLI, 1000) <= ClampU128(weight)
    ensures 1000 * weight >= 667 * total > 0
  {
  }

  /** Two quorums over one refiner set share at least 334/1000 of its weight, so
      any two finalized blocks have an attester with stake in common. */
  lemma QuorumsOverlap(infos: Infos, a: set<ObjectId>, b: set<ObjectId>)
    requires 1000 * Part(StakeMap(infos), a * AsActive(infos)) >= 667 * ActiveWeight(infos)
    requires 1000 * Part(StakeMap(infos), b * AsActive(infos)) >= 667 * ActiveWeight(infos)
    ensures 1000 * Part(StakeMap(infos), a * b * AsActive(infos)) >= 334 * ActiveWeight(infos)
  {
    var m, active := StakeMap(infos), AsActive(infos);
    var n := Restrict(m, active);
    assert Restrict(n, a * active) == Restrict(m, a * active);
    assert Restrict(n, b * active) == Restrict(m, b * active);
    assert (a * active) * (b * active) == a * b * active;
    assert Restrict(n, a * b * active) == Restrict(m, a * b * active);
    PartOverlap(n, a * active, b * active);
  }

  // ---- In place ----

  /** `active_refiner_weight_milli_threshold`. */
  method ActiveWeightThreshold(refiners: RefinerSet) returns (threshold: nat)
    ensures threshold == Threshold(refiners.infos)
  {
    hide TotalStake, Part;
    ghost var m := StakeMap(refiners.infos);
    var rest := AsActive(refiners.infos);
    ghost var done := {};
    var total := 0;
    PartEmpty(m);
    while rest != {}
      invariant done !! rest && done + rest == AsActive(refiners.infos)
      invariant total == Part(m, done)
      decreases |rest|
    {
      var id :| id in rest;
      PartInsert(m, done, id);
      total := total + TotalStake(refiners.infos[id]);
      rest := rest - {id};
      done := done + {id};
    }
    assert done == AsActive(refiners.infos);
    threshold := DivCeil(total * FINALITY_CONFIDENCE_MILLI, 1000);
  }

  /** `indexed_attestation_weight_for_refiners`: a saturating sum over recorded ids. */
  method IndexedWeight(ids: set<ObjectId>, refiners: RefinerSet) returns (weight: u128)
    ensures weight == WeightBehind(refiners.infos, ids)
  {
    hide TotalStake, Part;
    ghost var m := StakeMap(refiners.infos);
    var rest := ids * AsActive(refiners.infos);
    ghost var done := {};
    weight := 0;
    PartEmpty(m);
    while rest != {}
      invariant done !! rest && done + rest == ids * AsActive(refiners.infos)
      invariant weight == ClampU128(Part(m, done))
      decreases |rest|
    {
      var id :| id in rest;
      PartInsert(m, done, id);
      weight := SatAdd128(weight, TotalStake(refiners.infos[id]));
      rest := rest - {id};
      done := done + {id};
    }
    assert done == ids * AsActive(refiners.infos);
  }

  /** The weights of the touched entries and the highest height among those that
      reach the threshold. */
  method NextFinalizedHeight(current: u64, index: FinalityIndex, touched: set<(u64, Hash)>, refiners: RefinerSet, threshold: nat)
    returns (h: u64)
    ensures h == NewlyFinalized(current, index, touched, refiners.infos, threshold)
  {
    if threshold == 0 { return current; }
    hide WeightBehind;
    h := current;
    var rest := touched;
    ghost var done: set<(u64, Hash)> := {};
    while rest != {}
      invariant done + rest == touched
      invariant h == Highest(QuorumHeights(index, done, refiners.infos, threshold), current)
      decreases |rest|
    {
      var k: (u64, Hash) :| k in rest;
      HighestNext(index, done, k, refiners.infos, threshold, current);
      if k in index {
        var weight := IndexedWeight(index[k], refiners);
        if k.0 > h && weight >= threshold {
          h := k.0;
        }
      }
      rest := rest - {k};
      done := done + {k};
    }
    assert done == touched;
  }

  lemma HighestNext(index: FinalityIndex, done: set<(u64, Hash)>, k: (u64, Hash), infos: Infos, threshold: nat, current: u64)
    ensures Highest(QuorumHeights(index, done + {k}, infos, threshold), current)
         == var h := Highest(QuorumHeights(index, done, infos, threshold), current);
            if k in index && WeightBehind(infos, index[k]) >= threshold then Max(h, k.0) else h
  {
    hide WeightBehind;
    var before, after := QuorumHeights(index, done, infos, threshold), QuorumHeights(index, done + {k}, infos, threshold);
    assert after == before + if k in index && WeightBehind(infos, index[k]) >= threshold then {k.0} else {};
  }
}
