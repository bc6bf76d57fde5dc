/** Epoch ranking (`rerank_refiners`): the active refiners are the best-staked. */
module EpochRanking {
  import opened Numbers
  import opened IntegerSqrt
  import opened Collections
  import opened Refiner
  import opened Stake
  import opened RefinerInvariant

  ghost predicate IsRanking(infos: Infos, s: seq<ObjectId>) {
    && NoRepeats(s)
    && (forall i :: 0 <= i < |s| ==> s[i] in infos)
    && (forall i, j :: 0 <= i < j < |s| ==> s[i] in infos && s[j] in infos && Precedes(infos, s[i], s[j]))
  }

  lemma {:induction false} RankingSorted(infos: Infos, ids: set<ObjectId>)
    requires ids <= infos.Keys
    ensures AsSet(Ranking(infos, ids)) == ids
    ensures IsRanking(infos, Ranking(infos, ids))
  {
    if ids != {} {
      var x := Top(infos, ids);
      var rest := ids - {x};
      RankingSorted(infos, rest);
      PrependRanked(infos, x, Ranking(infos, rest));
      assert {x} + rest == ids;
    }
  }

  lemma PrependRanked(infos: Infos, x: ObjectId, s: seq<ObjectId>)
    requires x in infos && IsRanking(infos, s)
    requires forall y :: y in AsSet(s) ==> y in infos && y != x && Precedes(infos, x, y)
    ensures IsRanking(infos, [x] + s) && AsSet([x] + s) == {x} + AsSet(s)
  {
    hide Precedes;
    var t := [x] + s;
    assert forall j :: 0 < j < |t| ==> t[j] == s[j - 1] && s[j - 1] in AsSet(s);
    forall y | y in {x} + AsSet(s) ensures y in AsSet(t) {
      if y in AsSet(s) {
        var i :| 0 <= i < |s| && s[i] == y;
        assert t[i + 1] == y;
      } else {
        assert t[0] == y;
      }
    }
  }

  /** The two halves the limit cuts a ranking into. */
  lemma CutRanking(infos: Infos, ranked: seq<ObjectId>, cut: nat, a: ObjectId, b: ObjectId)
    requires IsRanking(infos, ranked) && cut <= |ranked|
    requires a in ranked[..cut] && b in ranked[cut..]
    ensures a in infos && b in infos && a != b && Precedes(infos, a, b)
  {
    hide Precedes;
    var i :| 0 <= i < cut && ranked[i] == a;
    var j :| 0 <= j < |ranked| - cut && ranked[cut..][j] == b;
    assert ranked[cut + j] == b;
  }

  lemma CutSets(ranked: seq<ObjectId>, cut: nat)
    requires cut <= |ranked|
    ensures AsSet(ranked[..cut]) + AsSet(ranked[cut..]) == AsSet(ranked)
  {
    assert ranked == ranked[..cut] + ranked[cut..];
  }

  lemma AppendDistinct(s: seq<ObjectId>, t: seq<ObjectId>)
    requires NoRepeats(s) && NoRepeats(t) && AsSet(s) !! AsSet(t)
    ensures NoRepeats(s + t) && AsSet(s + t) == AsSet(s) + AsSet(t)
  {
    var u := s + t;
    forall i, j | 0 <= i < j < |u| ensures u[i] != u[j] {
      if i < |s| && |s| <= j {
        assert u[i] in AsSet(s) && u[j] in AsSet(t);
      }
    }
  }

  ghost function Ranked(r: RefinerState): seq<ObjectId> { Ranking(r.infos, Eligible(r.infos)) }

  ghost function Cut(r: RefinerState, limit: nat): nat { Min(limit, |Ranked(r)|) }

  ghost function Promoted(r: RefinerState, limit: nat): set<ObjectId> {
    WithStatus(r.infos, Waiting, Ranked(r)[..Cut(r, limit)])
  }

  ghost function Demoted(r: RefinerState, limit: nat): set<ObjectId> {
    WithStatus(r.infos, Active, Ranked(r)[Cut(r, limit)..])
  }

  ghost function Placed(r: RefinerState, limit: nat, id: ObjectId): RefinerInfo
    requires id in r.infos
  {
    if id in Promoted(r, limit) then r.infos[id].(status := Active)
    else if id in Demoted(r, limit) then r.infos[id].(status := Waiting)
    else r.infos[id]
  }

  lemma RerankUnfolds(r: RefinerState, issued: u64)
    ensures var s, limit := Rerank(r, issued), ActiveLimit(issued);
      && s.queue == r.queue && s.infos.Keys == r.infos.Keys
      && s.active == Retain(r.active + Only(Ranked(r)[..Cut(r, limit)], Promoted(r, limit)), Demoted(r, limit))
      && s.dirty == r.dirty + Promoted(r, limit) + Demoted(r, limit)
      && (forall id :: id in r.infos ==> s.infos[id] == Placed(r, limit, id))
  {
    var ranked := Ranked(r);
    assert ranked[Cut(r, ActiveLimit(issued))..|ranked|] == ranked[Cut(r, ActiveLimit(issued))..];
  }

  lemma Movers(r: RefinerState, limit: nat)
    ensures NoRepeats(Ranked(r)[..Cut(r, limit)])
    ensures Promoted(r, limit) <= AsSet(Ranked(r)[..Cut(r, limit)])
    ensures forall id :: id in Promoted(r, limit) ==> id in r.infos && r.infos[id].status.Waiting?
    ensures forall id :: id in Demoted(r, limit) ==> id in r.infos && r.infos[id].status.Active?
  {
    RankingSorted(r.infos, Eligible(r.infos));
  }

  lemma ActiveAfter(before: Infos, after: Infos, promoted: set<ObjectId>, demoted: set<ObjectId>)
    requires before.Keys == after.Keys
    requires forall id :: id in promoted ==> id in before && before[id].status.Waiting?
    requires forall id :: id in demoted ==> id in before && before[id].status.Active?
    requires forall id :: id in before ==>
               after[id].status == if id in promoted then Active else if id in demoted then Waiting else before[id].status
    ensures AsActive(after) == AsActive(before) + promoted - demoted
  {
  }

  lemma RerankIndex(r: RefinerState, issued: u64)
    requires ActiveIndexOk(r.active, r.infos)
    ensures ActiveIndexOk(Rerank(r, issued).active, Rerank(r, issued).infos)
  {
    var limit := ActiveLimit(issued);
    var s := Rerank(r, issued);
    var top := Ranked(r)[..Cut(r, limit)];
    var promoted, demoted := Promoted(r, limit), Demoted(r, limit);
    RerankUnfolds(r, issued);
    Movers(r, limit);
    ActiveAfter(r.infos, s.infos, promoted, demoted);
    hide Rerank, Ranked, Cut, Promoted, Demoted, Only, Placed;
    PickInOrder(top, promoted);
    assert AsActive(r.infos) !! promoted;
    AppendDistinct(r.active, Only(top, promoted));
    RetainKeeps(r.active + Only(top, promoted), demoted);
  }

  /** Ranking touches nothing but Waiting and Active statuses, and the index follows. */
  lemma RerankKeeps(r: RefinerState, issued: u64)
    requires RefInv(r)
    ensures OnlyStatuses(r, Rerank(r, issued))
    ensures RefInv(Rerank(r, issued)) && Custody(Rerank(r, issued)) == Custody(r)
  {
    RerankUnfolds(r, issued);
    Movers(r, ActiveLimit(issued));
    RerankIndex(r, issued);
    hide Rerank, Ranked, Cut, Promoted, Demoted, InfoOk, QueueItemOk, ActiveIndexOk;
    OnlyStatusesKeeps(r, Rerank(r, issued));
  }

  lemma PickInOrder(s: seq<ObjectId>, keep: set<ObjectId>)
    requires NoRepeats(s) && keep <= AsSet(s)
    ensures NoRepeats(Only(s, keep)) && AsSet(Only(s, keep)) == keep
  {
    OnlyKeeps(s, keep);
  }

  lemma RankedSorted(r: RefinerState)
    ensures AsSet(Ranked(r)) == Eligible(r.infos) <= r.infos.Keys
    ensures IsRanking(r.infos, Ranked(r))
  {
    hide IsRanking, Ranking, TotalStake;
    RankingSorted(r.infos, Eligible(r.infos));
  }

  /** A Waiting or Active refiner always takes part in the ranking. */
  lemma SeatedIsEligible(r: RefinerState, id: ObjectId)
    requires RefInv(r) && Staked(r.infos) <= U64_MAX
    requires id in r.infos && Seated(r.infos[id].status)
    ensures id in AsSet(Ranked(r))
  {
    assert InfoOk(id, r.infos[id], r.queue);
    PositiveStakeSum(r.infos[id].entries);
    StakeNeverWraps(r.infos, id);
    RankingSorted(r.infos, Eligible(r.infos));
  }

  /** Who is Active and who is Waiting after ranking is decided by the cut alone. */
  lemma RerankPlaces(r: RefinerState, issued: u64, id: ObjectId)
    requires RefInv(r) && Staked(r.infos) <= U64_MAX && id in r.infos
    ensures var s, limit := Rerank(r, issued), ActiveLimit(issued);
      && id in s.infos
      && (s.infos[id].status.Active? ==> id in Ranked(r)[..Cut(r, limit)])
      && (s.infos[id].status.Waiting? ==> id in Ranked(r)[Cut(r, limit)..])
      && (s.infos[id].status.Bonding? ==> r.infos[id].status.Bonding?)
      && TotalStake(s.infos[id]) == TotalStake(r.infos[id])
  {
    hide RefInv, Rerank, Ranking, RerankPrefix, Only, Retain, StakeSum, Staked, ActiveLimit, Ranked, IsRanking;
    var limit := ActiveLimit(issued);
    RerankUnfolds(r, issued);
    RankedSorted(r);
    CutSets(Ranked(r), Cut(r, limit));
    if Seated(r.infos[id].status) { SeatedIsEligible(r, id); }
  }

  /** After ranking every Active refiner precedes every Waiting one. */
  lemma RerankOrders(r: RefinerState, issued: u64, a: ObjectId, w: ObjectId)
    requires RefInv(r) && Staked(r.infos) <= U64_MAX
    requires var s := Rerank(r, issued);
      a in s.infos && w in s.infos && s.infos[a].status.Active? && s.infos[w].status.Waiting?
    ensures Precedes(Rerank(r, issued).infos, a, w)
  {
    hide RefInv, Rerank, Ranking, Ranked, Cut, RerankPrefix, Only, Retain, TotalStake, Eligible, Staked, IsRanking, Promoted, Demoted, Placed, ActiveLimit;
    RerankUnfolds(r, issued);
    RerankPlaces(r, issued, a);
    RerankPlaces(r, issued, w);
    RankedSorted(r);
    CutRanking(r.infos, Ranked(r), Cut(r, ActiveLimit(issued)), a, w);
  }

  /** The best-staked refiners, as many as there are seats. */
  ghost function Best(r: RefinerState, issued: u64): seq<ObjectId> { Ranked(r)[..Cut(r, ActiveLimit(issued))] }

  ghost predicate HasBonding(infos: Infos, ids: seq<ObjectId>) {
    exists id :: id in AsSet(ids) && id in infos && infos[id].status.Bonding?
  }

  /** Inside the cut every refiner ends up Active unless it is still Bonding. */
  lemma InsideCut(r: RefinerState, issued: u64, id: ObjectId)
    requires RefInv(r) && id in AsSet(Best(r, issued))
    ensures id in r.infos && id in Rerank(r, issued).infos
    ensures Rerank(r, issued).infos[id].status.Active? <==> !r.infos[id].status.Bonding?
  {
    hide Rerank, RerankPrefix, Only, Retain, TotalStake, ActiveLimit, IsRanking, Ranking, Ranked;
    var limit := ActiveLimit(issued);
    RerankUnfolds(r, issued);
    RankedSorted(r);
    CutSets(Ranked(r), Cut(r, limit));
    EligibleIsSeated(r, id);
    NotBelowCut(r, limit, id);
  }

  lemma NotBelowCut(r: RefinerState, limit: nat, id: ObjectId)
    requires id in Ranked(r)[..Cut(r, limit)]
    ensures id !in Demoted(r, limit)
  {
    hide Ranked, Eligible, Ranking, Precedes, TotalStake;
    RankedSorted(r);
    if id in Ranked(r)[Cut(r, limit)..] {
      CutRanking(r.infos, Ranked(r), Cut(r, limit), id, id);
      assert false;
    }
  }

  lemma EligibleIsSeated(r: RefinerState, id: ObjectId)
    requires RefInv(r) && id in Eligible(r.infos)
    ensures id in r.infos && Seated(r.infos[id].status)
  {
    assert InfoOk(id, r.infos[id], r.queue);
  }

  ghost function BondingAmong(infos: Infos, ids: seq<ObjectId>): set<ObjectId> {
    set id | id in AsSet(ids) && id in infos && infos[id].status.Bonding?
  }

  /** Who is seated: the best, less those still Bonding. */
  lemma SeatedAreBestLessBonding(r: RefinerState, issued: u64)
    requires RefInv(r) && Staked(r.infos) <= U64_MAX
    ensures AsActive(Rerank(r, issued).infos) == AsSet(Best(r, issued)) - BondingAmong(r.infos, Best(r, issued))
  {
    hide Rerank, Best, RefInv, Staked, Placed, Promoted, Demoted, Ranked, TotalStake, Cut, ActiveLimit;
    var s, best := Rerank(r, issued), AsSet(Best(r, issued));
    RerankUnfolds(r, issued);
    forall id | id in best
      ensures id in r.infos && id in s.infos && (s.infos[id].status.Active? <==> !r.infos[id].status.Bonding?)
    {
      InsideCut(r, issued, id);
    }
    forall id | id in AsActive(s.infos) ensures id in best { ActiveIsBest(r, issued, id); }
  }

  /** Ranking seats exactly the best-staked refiners if and only if none of them is
      still Bonding: a Bonding refiner takes up its seat without being promoted. */
  lemma RerankSeatsBest(r: RefinerState, issued: u64)
    requires RefInv(r) && Staked(r.infos) <= U64_MAX
    ensures AsActive(Rerank(r, issued).infos) == AsSet(Best(r, issued)) <==> !HasBonding(r.infos, Best(r, issued))
  {
    hide Rerank, Best, RefInv, Staked, AsActive, AsSet;
    SeatedAreBestLessBonding(r, issued);
  }

  lemma ActiveIsBest(r: RefinerState, issued: u64, id: ObjectId)
    requires RefInv(r) && Staked(r.infos) <= U64_MAX && id in AsActive(Rerank(r, issued).infos)
    requires Rerank(r, issued).infos.Keys == r.infos.Keys
    ensures id in AsSet(Best(r, issued))
  {
    hide Rerank, RefInv, Staked, Ranked, Cut, TotalStake;
    RerankPlaces(r, issued, id);
  }

  /** Every Bonding refiner among the best leaves one seat empty: nobody below the cut
      moves up. */
  lemma BondingLeavesSeatsEmpty(r: RefinerState, issued: u64)
    requires RefInv(r) && Staked(r.infos) <= U64_MAX
    ensures |Rerank(r, issued).active| + |BondingAmong(r.infos, Best(r, issued))| == |Best(r, issued)|
  {
    hide Rerank, Best, RefInv, Staked, AsActive;
    SeatedAreBestLessBonding(r, issued);
    BestDistinct(r, issued);
    RerankKeeps(r, issued);
    IndexSize(Rerank(r, issued));
    var best, bonding := AsSet(Best(r, issued)), BondingAmong(r.infos, Best(r, issued));
    assert |best - bonding| == |best| - |bonding|;
  }

  lemma BestDistinct(r: RefinerState, issued: u64)
    ensures |AsSet(Best(r, issued))| == |Best(r, issued)|
  {
    hide Ranking, ActiveLimit, Precedes;
    RankedSorted(r);
    NoRepeatsSize(Best(r, issued));
  }

  lemma IndexSize(s: RefinerState)
    requires RefInv(s)
    ensures |s.active| == |AsActive(s.infos)|
  {
    NoRepeatsSize(s.active);
  }

  /** A refiner set whose one bonded refiner has not waited out its epoch. */
  function LoneBonding(): RefinerState {
    RefinerState(map[1 := RefinerInfo(1, [BondEntry(1_000_000, 1, 90)], Bonding, 0, 0)], [], {}, [])
  }

  /** The failing input: at any issuance the best refiner of that set gets the first
      seat and is not seated. */
  lemma BondingTakesASeat(issued: u64)
    ensures RefInv(LoneBonding()) && Staked(LoneBonding().infos) <= U64_MAX
    ensures HasBonding(LoneBonding().infos, Best(LoneBonding(), issued))
    ensures AsActive(Rerank(LoneBonding(), issued).infos) != AsSet(Best(LoneBonding(), issued))
  {
    var r := LoneBonding();
    LoneBondingSound();
    hide RefInv, Rerank, Staked, ActiveLimit, TotalStake;
    RankedSorted(r);
    assert 1 in Eligible(r.infos) && 1 in AsSet(Ranked(r));
    LimitPositive(issued);
    NoRepeatsSize(Ranked(r));
    assert Eligible(r.infos) == {1};
    assert |AsSet(Ranked(r))| == 1;
    assert Best(r, issued) == Ranked(r);
    RerankSeatsBest(r, issued);
  }

  lemma LimitPositive(issued: u64)
    ensures ActiveLimit(issued) >= 1
  {
  }

  lemma LoneBondingSound()
    ensures var r := LoneBonding();
      && RefInv(r) && Staked(r.infos) == 1_000_000
      && TotalStake(r.infos[1]) == 1_000_000
  {
    var r := LoneBonding();
    assert StakeSum(r.infos[1].entries) == 1_000_000 + StakeSum([]);
    assert AsActive(r.infos) == {} && AsSet([]) == {};
    var none: Infos := map[];
    StakedUpdate(none, 1, r.infos[1]);
    assert PlainStakes(none) == map[];
    assert r.infos == none[1 := r.infos[1]];
  }

  /** Ranking never leaves more Active refiners than the limit. */
  lemma RerankBounded(r: RefinerState, issued: u64)
    requires RefInv(r) && Staked(r.infos) <= U64_MAX
    ensures |Rerank(r, issued).active| <= ActiveLimit(issued)
  {
    hide Rerank, Ranking, Ranked, RerankPrefix, TotalStake, Staked, Placed, ActiveLimit, Promoted, Demoted, Retain, Only, InfoOk, QueueItemOk, Eligible;
    var s, limit := Rerank(r, issued), ActiveLimit(issued);
    var top := Ranked(r)[..Cut(r, limit)];
    RerankKeeps(r, issued);
    NoRepeatsSize(s.active);
    RankedSorted(r);
    NoRepeatsSize(top);
    RerankUnfolds(r, issued);
    forall id | id in AsActive(s.infos) ensures id in AsSet(top) {
      RerankPlaces(r, issued, id);
    }
    SetSizeMonotone(AsActive(s.infos), AsSet(top));
  }

  lemma TopDependsOnStakes(a: Infos, b: Infos, ids: set<ObjectId>)
    requires ids <= a.Keys && ids <= b.Keys && ids != {}
    requires forall id :: id in ids ==> TotalStake(a[id]) == TotalStake(b[id])
    ensures Top(a, ids) == Top(b, ids)
  {
    hide TotalStake;
    var x, y := Top(a, ids), Top(b, ids);
    assert IsTop(a, ids, x) && IsTop(a, ids, y);
  }

  lemma {:induction false} RankingDependsOnStakes(a: Infos, b: Infos, ids: set<ObjectId>)
    requires ids <= a.Keys && ids <= b.Keys
    requires forall id :: id in ids ==> TotalStake(a[id]) == TotalStake(b[id])
    ensures Ranking(a, ids) == Ranking(b, ids)
  {
    if ids != {} {
      TopDependsOnStakes(a, b, ids);
      RankingDependsOnStakes(a, b, ids - {Top(a, ids)});
    }
  }

  lemma RerankPlacesOnce(r: RefinerState, s: RefinerState, issued: u64, id: ObjectId)
    requires RefInv(r) && Staked(r.infos) <= U64_MAX && id in r.infos
    requires s == Rerank(r, issued) && Ranked(s) == Ranked(r)
    ensures id !in Promoted(s, ActiveLimit(issued)) && id !in Demoted(s, ActiveLimit(issued))
  {
    RerankPlaces(r, issued, id);
    RankingSorted(r.infos, Eligible(r.infos));
    hide RefInv, Rerank, Ranking, RerankPrefix, TotalStake, Eligible, Staked, Precedes;
    var ranked, cut := Ranked(r), Cut(r, ActiveLimit(issued));
    if id in ranked[..cut] && id in ranked[cut..] {
      CutRanking(r.infos, ranked, cut, id, id);
      assert false;
    }
  }

  /** With nobody to move, ranking leaves the state as it is. */
  lemma NobodyMoves(s: RefinerState, issued: u64)
    requires Promoted(s, ActiveLimit(issued)) == {} && Demoted(s, ActiveLimit(issued)) == {}
    ensures Rerank(s, issued) == s
  {
    var limit := ActiveLimit(issued);
    var top := Ranked(s)[..Cut(s, limit)];
    RerankUnfolds(s, issued);
    Movers(s, limit);
    hide Rerank, Ranked, Cut, Only;
    PickInOrder(top, {});
    NoRepeatsSize(Only(top, {}));
    assert s.active + Only(top, {}) == s.active;
    RetainNothing(s.active, {});
    assert Rerank(s, issued).infos == s.infos;
  }

  /** A second ranking at the same issuance changes nothing at all. */
  lemma RerankIdempotent(r: RefinerState, issued: u64)
    requires RefInv(r) && Staked(r.infos) <= U64_MAX
    ensures Rerank(Rerank(r, issued), issued) == Rerank(r, issued)
  {
    var s, limit := Rerank(r, issued), ActiveLimit(issued);
    SameRanking(r, s, issued);
    Movers(s, limit);
    RerankUnfolds(r, issued);
    forall id | id in r.infos ensures id !in Promoted(s, limit) && id !in Demoted(s, limit) {
      RerankPlacesOnce(r, s, issued, id);
    }
    hide Promoted, Demoted, Rerank;
    assert Promoted(s, limit) == {} && Demoted(s, limit) == {};
    NobodyMoves(s, issued);
  }

  lemma EligibleDependsOnStakes(r: RefinerState, s: RefinerState)
    requires OnlyStatuses(r, s)
    ensures Eligible(s.infos) == Eligible(r.infos)
    ensures forall id :: id in r.infos ==> TotalStake(s.infos[id]) == TotalStake(r.infos[id])
  {
  }

  lemma SameRanking(r: RefinerState, s: RefinerState, issued: u64)
    requires s == Rerank(r, issued) && RefInv(r)
    ensures Ranked(s) == Ranked(r)
  {
    RerankKeeps(r, issued);
    hide Rerank, RefInv;
    EligibleDependsOnStakes(r, s);
    RankingDependsOnStakes(r.infos, s.infos, Eligible(r.infos));
  }

  /** The limit only grows with issuance. */
  lemma ActiveLimitMonotone(issued: u64, more: u64)
    requires issued <= more
    ensures ActiveLimit(issued) <= ActiveLimit(more)
  {
    SqrtFloorMonotone(issued / FLAKES_PER_OPL, more / FLAKES_PER_OPL);
  }
}
