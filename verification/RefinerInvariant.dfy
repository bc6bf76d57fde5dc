/** The representation invariant of `RefinerSet` and what every operation does to
    the money in its custody. */
module RefinerInvariant {
  import opened Numbers
  import opened Difficulty
  import opened Collections
  import opened Refiner
  import opened Stake

  ghost predicate InfoOk(id: ObjectId, info: RefinerInfo, queue: seq<PendingUnbond>) {
    && info.objectId == id
    && !info.status.NotRefiner?
    && if info.status.Slashed? then StakeSum(info.entries) == 0
       else
         && EntriesOk(info.entries)
         && (info.status.Unbonding? <==> info.entries == [])
         && (info.status.Unbonding? ==> Pending(queue, id))
  }

  /** A queued withdrawal belongs to a present refiner that was never slashed. */
  ghost predicate QueueItemOk(u: PendingUnbond, infos: Infos) {
    u.amount > 0 && u.account in infos && !infos[u.account].status.Slashed?
  }

  ghost predicate ActiveIndexOk(active: seq<ObjectId>, infos: Infos) {
    && NoRepeats(active)
    && AsSet(active) == AsActive(infos)
  }

  function AsActive(infos: Infos): set<ObjectId> {
    set id | id in infos && infos[id].status.Active?
  }

  /** The representation invariant: the active index agrees with the statuses,
      live refiners hold positive entries in strict time order, a live refiner is
      Unbonding exactly when it has no entries and then has a queued withdrawal,
      and nothing queued belongs to a missing or slashed refiner. */
  ghost predicate RefInv(r: RefinerState) {
    && ActiveIndexOk(r.active, r.infos)
    && (forall id :: id in r.infos ==> InfoOk(id, r.infos[id], r.queue))
    && (forall i :: 0 <= i < |r.queue| ==> QueueItemOk(r.queue[i], r.infos))
  }

  // ---- Money in custody ----

  function PlainStakes(infos: Infos): map<ObjectId, nat> {
    map id | id in infos :: StakeSum(infos[id].entries)
  }

  ghost function Staked(infos: Infos): nat { Total(PlainStakes(infos)) }

  function QueueTotal(queue: seq<PendingUnbond>): nat {
    if queue == [] then 0 else QueueTotal(queue[..|queue| - 1]) + queue[|queue| - 1].amount
  }

  /** All flakes the refiner set holds for others. */
  ghost function Custody(r: RefinerState): nat { Staked(r.infos) + QueueTotal(r.queue) }

  /** One refiner's share of the custody. */
  ghost function CustodyOf(r: RefinerState, id: ObjectId): nat {
    Lookup(PlainStakes(r.infos), id) + QueuedFor(r.queue, id)
  }

  function MaturedTotal(matured: seq<(ObjectId, u64)>): nat {
    if matured == [] then 0 else MaturedTotal(matured[..|matured| - 1]) + matured[|matured| - 1].1
  }

  lemma StakedUpdate(infos: Infos, id: ObjectId, info: RefinerInfo)
    ensures Staked(infos[id := info]) == Staked(infos) - Lookup(PlainStakes(infos), id) + StakeSum(info.entries)
    ensures Lookup(PlainStakes(infos), id) <= Staked(infos)
  {
    assert PlainStakes(infos[id := info]) == PlainStakes(infos)[id := StakeSum(info.entries)];
    TotalUpdate(PlainStakes(infos), id, StakeSum(info.entries));
  }

  lemma QueueTotalPush(queue: seq<PendingUnbond>, u: PendingUnbond)
    ensures QueueTotal(queue + [u]) == QueueTotal(queue) + u.amount
  {
    assert (queue + [u])[..|queue|] == queue;
  }

  /** As long as the custody fits in u64 no stake sum ever wraps. */
  lemma StakeNeverWraps(infos: Infos, id: ObjectId)
    requires Staked(infos) <= U64_MAX && id in infos
    ensures TotalStake(infos[id]) == StakeSum(infos[id].entries)
  {
    StakedUpdate(infos, id, infos[id]);
  }

  lemma StakeMapIsPlain(infos: Infos)
    requires Staked(infos) <= U64_MAX
    ensures StakeMap(infos) == PlainStakes(infos)
  {
    forall id | id in infos ensures StakeMap(infos)[id] == PlainStakes(infos)[id] {
      StakeNeverWraps(infos, id);
    }
  }

  // ---- Changing one refiner ----

  /** Replacing one record keeps the invariant when the new record is sound, its
      Active flag is unchanged and it was not slashed over a queued withdrawal. */
  lemma ReplaceKeeps(r: RefinerState, s: RefinerState, id: ObjectId, info: RefinerInfo)
    requires RefInv(r)
    requires s.infos == r.infos[id := info] && s.active == r.active && s.queue == r.queue
    requires InfoOk(id, info, r.queue)
    requires info.status.Active? <==> id in r.infos && r.infos[id].status.Active?
    requires info.status.Slashed? ==> !Pending(r.queue, id)
    ensures RefInv(s)
  {
    hide InfoOk;
    assert AsActive(s.infos) == AsActive(r.infos);
    forall i | 0 <= i < |s.queue| ensures QueueItemOk(s.queue[i], s.infos) {
      assert QueueItemOk(r.queue[i], r.infos);
    }
  }

  lemma ReplaceCustody(r: RefinerState, s: RefinerState, id: ObjectId, info: RefinerInfo)
    requires s.infos == r.infos[id := info] && s.queue == r.queue
    ensures Custody(s) == Custody(r) - Lookup(PlainStakes(r.infos), id) + StakeSum(info.entries)
    ensures CustodyOf(s, id) == CustodyOf(r, id) - Lookup(PlainStakes(r.infos), id) + StakeSum(info.entries)
    ensures Lookup(PlainStakes(r.infos), id) <= Staked(r.infos)
  {
    StakedUpdate(r.infos, id, info);
  }

  // ---- Bond ----

  /** The record `bond` writes. */
  function BondedInfo(r: RefinerState, id: ObjectId, entries: seq<BondEntry>): RefinerInfo {
    if id in r.infos then
      var info := r.infos[id];
      info.(entries := entries, status := if info.status.Unbonding? then Bonding else info.status)
    else RefinerInfo(id, entries, Bonding, 0, 0)
  }

  lemma MinimumBondPositive(issued: u64)
    ensures MinimumBond(issued) >= FLAKES_PER_OPL
  {
  }

  /** What a successful `bond` writes, and that it locks exactly `stake` more. */
  lemma BondResult(r: RefinerState, id: ObjectId, stake: u64, height: u64, timestamp: u64, issued: u64) returns (entries: seq<BondEntry>)
    requires RefInv(r) && Bond(r, id, stake, height, timestamp, issued).Ok?
    ensures Bond(r, id, stake, height, timestamp, issued).value
         == r.(infos := r.infos[id := BondedInfo(r, id, entries)], dirty := r.dirty + {id})
    ensures id in r.infos ==> !r.infos[id].status.Slashed?
    ensures entries != [] && EntriesOk(entries)
    ensures StakeSum(entries) == Lookup(PlainStakes(r.infos), id) + stake
  {
    MinimumBondPositive(issued);
    hide StakeSum, MinimumBond;
    if id in r.infos {
      assert InfoOk(id, r.infos[id], r.queue);
      AddEntryKeeps(r.infos[id].entries, stake, height, timestamp);
      hide AddEntry;
      entries := AddEntry(r.infos[id].entries, stake, height, timestamp).value;
    } else {
      entries := [BondEntry(stake, height, timestamp)];
      AddFirst(stake, height, timestamp);
    }
  }

  lemma AddFirst(stake: u64, height: u64, timestamp: u64)
    requires stake > 0
    ensures var entries := [BondEntry(stake, height, timestamp)]; EntriesOk(entries) && StakeSum(entries) == stake
  {
    assert StakeSum([BondEntry(stake, height, timestamp)]) == stake + StakeSum([]);
  }

  lemma BondKeeps(r: RefinerState, id: ObjectId, stake: u64, height: u64, timestamp: u64, issued: u64)
    requires RefInv(r) && Bond(r, id, stake, height, timestamp, issued).Ok?
    ensures var s := Bond(r, id, stake, height, timestamp, issued).value;
      && RefInv(s)
      && Custody(s) == Custody(r) + stake
      && CustodyOf(s, id) == CustodyOf(r, id) + stake
  {
    var entries := BondResult(r, id, stake, height, timestamp, issued);
    hide Bond, StakeSum, Lookup;
    var s := r.(infos := r.infos[id := BondedInfo(r, id, entries)], dirty := r.dirty + {id});
    ReplaceKeeps(r, s, id, BondedInfo(r, id, entries));
    ReplaceCustody(r, s, id, BondedInfo(r, id, entries));
  }

  /** A live refiner's bond fails only below the minimum or on an entry overflow
      that its own stake would have to exceed u64 to cause. */
  lemma BondFailsOnly(r: RefinerState, id: ObjectId, stake: u64, height: u64, timestamp: u64, issued: u64)
    requires RefInv(r) && Staked(r.infos) + stake <= U64_MAX
    ensures Bond(r, id, stake, height, timestamp, issued).Err?
       <==> stake < MinimumBond(issued) || (id in r.infos && r.infos[id].status.Slashed?)
  {
    MinimumBondPositive(issued);
    hide StakeSum, MinimumBond;
    if stake >= MinimumBond(issued) && id in r.infos && !r.infos[id].status.Slashed? {
      assert InfoOk(id, r.infos[id], r.queue);
      AddEntryKeeps(r.infos[id].entries, stake, height, timestamp);
      StakedUpdate(r.infos, id, r.infos[id]);
      hide AddEntry;
    }
  }

  // ---- Unbond ----

  lemma UnbondLeft(r: RefinerState, id: ObjectId, amount: u64, height: u64) returns (entries: seq<BondEntry>)
    requires RefInv(r) && Unbond(r, id, amount, height).Ok?
    ensures id in r.infos && !r.infos[id].status.Slashed? && amount > 0 && amount <= StakeSum(r.infos[id].entries)
    ensures entries == DropFlakes(r.infos[id].entries, amount)
    ensures EntriesOk(entries) && !r.infos[id].status.Unbonding?
    ensures StakeSum(entries) == StakeSum(r.infos[id].entries) - amount
  {
    var info := r.infos[id];
    entries := DropFlakes(info.entries, amount);
    assert InfoOk(id, info, r.queue);
    assert TotalStake(info) <= StakeSum(info.entries);
    DropFlakesOk(info.entries, amount);
    DropFlakesSum(info.entries, amount);
  }

  lemma PendingPush(queue: seq<PendingUnbond>, u: PendingUnbond, id: ObjectId)
    ensures Pending(queue + [u], id) <==> Pending(queue, id) || u.account == id
  {
    assert forall i :: 0 <= i < |queue| ==> (queue + [u])[i] == queue[i];
    assert (queue + [u])[|queue|] == u;
    if Pending(queue, id) {
      var i :| 0 <= i < |queue| && queue[i].account == id;
      assert (queue + [u])[i].account == id;
    }
  }

  lemma EnqueueKeeps(r: RefinerState, s: RefinerState, id: ObjectId, info: RefinerInfo, u: PendingUnbond)
    requires RefInv(r)
    requires s.infos == r.infos[id := info] && s.queue == r.queue + [u]
    requires ActiveIndexOk(s.active, s.infos)
    requires u.account == id && u.amount > 0 && !info.status.Slashed?
    requires InfoOk(id, info, s.queue)
    ensures RefInv(s)
  {
    forall j | j in s.infos ensures InfoOk(j, s.infos[j], s.queue) {
      if j != id {
        PendingPush(r.queue, u, j);
        assert InfoOk(j, r.infos[j], r.queue);
      }
    }
    forall i | 0 <= i < |s.queue| ensures QueueItemOk(s.queue[i], s.infos) {
      if i < |r.queue| { assert QueueItemOk(r.queue[i], r.infos); }
    }
  }

  lemma UnbondActiveIndex(r: RefinerState, id: ObjectId, info: RefinerInfo)
    requires ActiveIndexOk(r.active, r.infos) && id in r.infos
    requires info.status == r.infos[id].status || info.status.Unbonding?
    ensures ActiveIndexOk(if info.status.Unbonding? then Retain(r.active, {id}) else r.active, r.infos[id := info])
  {
    RetainKeeps(r.active, {id});
    assert AsActive(r.infos[id := info]) == if info.status.Unbonding? then AsActive(r.infos) - {id} else AsActive(r.infos);
  }

  /** Unbonding moves `amount` from the entries to the queue: the custody, the
      refiner's own share of it and every other record stay as they were. */
  lemma UnbondKeeps(r: RefinerState, id: ObjectId, amount: u64, height: u64)
    requires RefInv(r) && Unbond(r, id, amount, height).Ok?
    ensures var s := Unbond(r, id, amount, height).value;
      && RefInv(s)
      && Custody(s) == Custody(r)
      && CustodyOf(s, id) == CustodyOf(r, id)
  {
    var entries := UnbondLeft(r, id, amount, height);
    var s := Unbond(r, id, amount, height).value;
    var info, u := s.infos[id], PendingUnbond(id, amount, SatAdd64(height, EPOCH));
    hide DropFlakes, StakeSum, TotalStake, Unbond;
    PendingPush(r.queue, u, id);
    UnbondActiveIndex(r, id, info);
    EnqueueKeeps(r, s, id, info, u);
    StakedUpdate(r.infos, id, info);
    QueueTotalPush(r.queue, u);
    assert (r.queue + [u])[..|r.queue|] == r.queue;
  }

  // ---- Slash ----

  lemma {:induction false} WithoutAccountTotal(queue: seq<PendingUnbond>, id: ObjectId)
    ensures QueueTotal(WithoutAccount(queue, id)) + QueuedFor(queue, id) == QueueTotal(queue)
  {
    if queue != [] {
      WithoutAccountTotal(queue[..|queue| - 1], id);
      QueueTotalPush(WithoutAccount(queue[..|queue| - 1], id), queue[|queue| - 1]);
    }
  }

  lemma {:induction false} WithoutAccountItems(queue: seq<PendingUnbond>, id: ObjectId)
    ensures forall u :: u in WithoutAccount(queue, id) <==> u in queue && u.account != id
  {
    if queue != [] {
      var init, last := queue[..|queue| - 1], queue[|queue| - 1];
      WithoutAccountItems(init, id);
      assert queue == init + [last];
    }
  }

  lemma {:induction false} NoneQueued(queue: seq<PendingUnbond>, id: ObjectId)
    requires !Pending(queue, id)
    ensures QueuedFor(queue, id) == 0 && WithoutAccount(queue, id) == queue
  {
    if queue != [] {
      var init, last := queue[..|queue| - 1], queue[|queue| - 1];
      assert queue == init + [last];
      PendingPush(init, last, id);
      NoneQueued(init, id);
    }
  }

  lemma PendingIsMember(queue: seq<PendingUnbond>, id: ObjectId)
    ensures Pending(queue, id) <==> exists u :: u in queue && u.account == id
  {
  }

  lemma PendingWithoutAccount(queue: seq<PendingUnbond>, id: ObjectId, other: ObjectId)
    ensures Pending(WithoutAccount(queue, id), other) <==> other != id && Pending(queue, other)
  {
    WithoutAccountItems(queue, id);
    PendingIsMember(queue, other);
    PendingIsMember(WithoutAccount(queue, id), other);
  }

  lemma ZeroedSum(entries: seq<BondEntry>)
    ensures StakeSum(Zeroed(entries)) == 0
  {
    ZeroStakeSum(Zeroed(entries));
  }

  /** Slashing keeps the invariant, whatever the evidence names. */
  lemma SlashKeeps(r: RefinerState, id: ObjectId)
    requires RefInv(r)
    ensures RefInv(Slash(r, id).0)
  {
    var s := Slash(r, id).0;
    var queue := WithoutAccount(r.queue, id);
    WithoutAccountItems(r.queue, id);
    if id in r.infos && !r.infos[id].status.Slashed? {
      RetainKeeps(r.active, {id});
      assert AsActive(s.infos) == AsActive(r.infos) - {id};
      ZeroedSum(r.infos[id].entries);
    }
    forall j | j in s.infos ensures InfoOk(j, s.infos[j], s.queue) {
      assert InfoOk(j, r.infos[j], r.queue);
      PendingWithoutAccount(r.queue, id, j);
    }
    forall i | 0 <= i < |s.queue| ensures QueueItemOk(s.queue[i], s.infos) {
      assert s.queue[i] in r.queue;
      var k :| 0 <= k < |r.queue| && r.queue[k] == s.queue[i];
      assert QueueItemOk(r.queue[k], r.infos);
    }
  }

  lemma {:induction false} QueuedForBound(queue: seq<PendingUnbond>, id: ObjectId)
    ensures QueuedFor(queue, id) <= QueueTotal(queue)
  {
    if queue != [] { QueuedForBound(queue[..|queue| - 1], id); }
  }

  lemma {:induction false} WithoutAccountOthers(queue: seq<PendingUnbond>, id: ObjectId, other: ObjectId)
    ensures QueuedFor(WithoutAccount(queue, id), other) == if other == id then 0 else QueuedFor(queue, other)
  {
    if queue != [] {
      var init, last := queue[..|queue| - 1], queue[|queue| - 1];
      WithoutAccountOthers(init, id, other);
      var w := WithoutAccount(init, id);
      assert (w + [last])[..|w|] == w;
    }
  }

  ghost predicate IsSlashed(r: RefinerState, id: ObjectId) {
    id in r.infos && r.infos[id].status.Slashed?
  }

  lemma QueuedIsLive(r: RefinerState, id: ObjectId)
    requires RefInv(r)
    ensures Pending(r.queue, id) ==> id in r.infos && !r.infos[id].status.Slashed?
  {
    if Pending(r.queue, id) {
      var i :| 0 <= i < |r.queue| && r.queue[i].account == id;
      assert QueueItemOk(r.queue[i], r.infos);
    }
  }

  /** A slashed refiner has nothing left in custody. */
  lemma SlashedHoldsNothing(r: RefinerState, id: ObjectId)
    requires RefInv(r) && IsSlashed(r, id)
    ensures CustodyOf(r, id) == 0
  {
    assert InfoOk(id, r.infos[id], r.queue);
    QueuedIsLive(r, id);
    NoneQueued(r.queue, id);
  }

  /** Slashing is total: it burns the refiner's whole stake and everything it had
      queued, nothing of anyone else's, and leaves it Slashed with no custody. It
      fails only for an id with nothing at stake, so the missing-refiner branch
      that still burns queued flakes is unreachable. Re-slashing burns nothing. */
  lemma SlashBurnsAll(r: RefinerState, id: ObjectId)
    requires RefInv(r) && Custody(r) <= U64_MAX
    ensures var (s, burned) := Slash(r, id);
      && (burned.Ok? <==> id in r.infos)
      && (burned.Ok? ==> burned.value == CustodyOf(r, id) && IsSlashed(s, id))
      && (burned.Err? ==> CustodyOf(r, id) == 0)
      && CustodyOf(s, id) == 0
      && Custody(s) + CustodyOf(r, id) == Custody(r)
      && s.infos - {id} == r.infos - {id}
      && (forall j :: j != id ==> QueuedFor(s.queue, j) == QueuedFor(r.queue, j))
      && (IsSlashed(r, id) ==> CustodyOf(r, id) == 0)
  {
    var s := Slash(r, id).0;
    WithoutAccountTotal(r.queue, id);
    QueuedForBound(r.queue, id);
    forall j ensures QueuedFor(s.queue, j) == if j == id then 0 else QueuedFor(r.queue, j) {
      WithoutAccountOthers(r.queue, id, j);
    }
    if id in r.infos {
      StakedUpdate(r.infos, id, s.infos[id]);
      StakeNeverWraps(r.infos, id);
      ZeroedSum(r.infos[id].entries);
      if r.infos[id].status.Slashed? { SlashedHoldsNothing(r, id); }
    } else {
      QueuedIsLive(r, id);
      NoneQueued(r.queue, id);
    }
  }

  // ---- Maturity ----

  function MaturedFor(matured: seq<(ObjectId, u64)>, id: ObjectId): nat {
    if matured == [] then 0
    else MaturedFor(matured[..|matured| - 1], id) + if matured[|matured| - 1].0 == id then matured[|matured| - 1].1 else 0
  }

  /** Every queued flake either matures or stays queued. */
  lemma {:induction false} MaturedSplits(queue: seq<PendingUnbond>, height: u64)
    ensures MaturedTotal(Matured(queue, height)) + QueueTotal(StillQueued(queue, height)) == QueueTotal(queue)
  {
    if queue != [] {
      var init, last := queue[..|queue| - 1], queue[|queue| - 1];
      MaturedSplits(init, height);
      var m := Matured(init, height);
      assert (m + [(last.account, last.amount)])[..|m|] == m;
      QueueTotalPush(StillQueued(init, height), last);
    }
  }

  lemma {:induction false} StillQueuedItems(queue: seq<PendingUnbond>, height: u64)
    ensures forall u :: u in StillQueued(queue, height) <==> u in queue && height < u.maturesAt
  {
    if queue != [] {
      var init, last := queue[..|queue| - 1], queue[|queue| - 1];
      StillQueuedItems(init, height);
      assert queue == init + [last];
    }
  }

  lemma {:induction false} MaturedItems(queue: seq<PendingUnbond>, height: u64)
    ensures forall u :: u in queue && height >= u.maturesAt ==> (u.account, u.amount) in Matured(queue, height)
    ensures forall a, n :: (a, n) in Matured(queue, height) ==> exists u :: u in queue && u.account == a && u.amount == n && height >= u.maturesAt
  {
    if queue != [] {
      var init, last := queue[..|queue| - 1], queue[|queue| - 1];
      MaturedItems(init, height);
      assert queue == init + [last];
      assert last in queue;
    }
  }

  lemma PartOfZeros(m: map<ObjectId, nat>, s: set<ObjectId>)
    requires forall k :: k in s ==> Lookup(m, k) == 0
    ensures Part(m, s) == 0
    decreases |s|
  {
    if s == {} {
      PartEmpty(m);
    } else {
      var k :| k in s;
      PartOfZeros(m, s - {k});
      PartInsert(m, s - {k}, k);
      assert s - {k} + {k} == s;
    }
  }

  lemma DropZeroStakes(infos: Infos, gone: set<ObjectId>)
    requires forall id :: id in gone ==> Lookup(PlainStakes(infos), id) == 0
    ensures Staked(infos - gone) == Staked(infos)
  {
    var m := PlainStakes(infos);
    PartOfZeros(m, gone);
    PartUnion(m, m.Keys - gone, gone);
    assert Restrict(m, m.Keys - gone + gone) == m;
    assert Restrict(m, m.Keys - gone) == PlainStakes(infos - gone);
  }

  /** The accounts that leave are Unbonding, hold nothing and have nothing queued. */
  lemma DepartingAreDone(r: RefinerState, height: u64)
    requires RefInv(r)
    ensures forall id :: id in Departing(r, height, Matured(r.queue, height)) ==>
              Departs(r, height, id) && Lookup(PlainStakes(r.infos), id) == 0 && r.infos[id].status.Unbonding?
  {
    forall id | id in Departing(r, height, Matured(r.queue, height))
      ensures Departs(r, height, id) && Lookup(PlainStakes(r.infos), id) == 0 && r.infos[id].status.Unbonding?
    {
      assert InfoOk(id, r.infos[id], r.queue);
    }
  }

  lemma LastWithdrawalDeparts(r: RefinerState, height: u64, id: ObjectId)
    requires RefInv(r) && id in r.infos && r.infos[id].status.Unbonding?
    ensures Pending(StillQueued(r.queue, height), id) || id in Departing(r, height, Matured(r.queue, height))
  {
    assert InfoOk(id, r.infos[id], r.queue);
    var k :| 0 <= k < |r.queue| && r.queue[k].account == id;
    StillQueuedItems(r.queue, height);
    MaturedItems(r.queue, height);
    PendingIsMember(StillQueued(r.queue, height), id);
    var u := r.queue[k];
    assert u in r.queue;
    var matured := Matured(r.queue, height);
    if height >= u.maturesAt && !Pending(StillQueued(r.queue, height), id) {
      assert (u.account, u.amount) in matured;
      var i :| 0 <= i < |matured| && matured[i] == (u.account, u.amount);
      assert Departs(r, height, matured[i].0);
    }
  }

  lemma MaturityIndex(r: RefinerState, height: u64)
    requires RefInv(r)
    ensures ActiveIndexOk(ProcessMatured(r, height).active, ProcessMatured(r, height).infos)
  {
    var gone := Departing(r, height, Matured(r.queue, height));
    DepartingAreDone(r, height);
    hide Departing;
    RetainKeeps(r.active, gone);
    assert AsActive(r.infos - gone) == AsActive(r.infos) - gone;
  }

  lemma MaturityInv(r: RefinerState, height: u64)
    requires RefInv(r)
    ensures RefInv(ProcessMatured(r, height))
  {
    var gone := Departing(r, height, Matured(r.queue, height));
    var s := ProcessMatured(r, height);
    MaturityIndex(r, height);
    StillQueuedItems(r.queue, height);
    DepartingAreDone(r, height);
    forall id | id in s.infos ensures InfoOk(id, s.infos[id], s.queue) {
      assert InfoOk(id, r.infos[id], r.queue);
      if r.infos[id].status.Unbonding? { LastWithdrawalDeparts(r, height, id); }
    }
    hide Departing;
    forall i | 0 <= i < |s.queue| ensures QueueItemOk(s.queue[i], s.infos) {
      assert s.queue[i] in r.queue;
      var k :| 0 <= k < |r.queue| && r.queue[k] == s.queue[i];
      assert QueueItemOk(r.queue[k], r.infos);
      assert Pending(s.queue, s.queue[i].account);
    }
  }

  /** Maturity hands back exactly what matured, keeps the invariant and only drops
      records that are Unbonding with nothing left queued. */
  lemma MaturityKeeps(r: RefinerState, height: u64)
    requires RefInv(r)
    ensures var s := ProcessMatured(r, height);
      && RefInv(s)
      && Custody(s) + MaturedTotal(Matured(r.queue, height)) == Custody(r)
      && (forall j :: IsSlashed(r, j) ==> IsSlashed(s, j))
  {
    MaturityInv(r, height);
    MaturedSplits(r.queue, height);
    DepartingAreDone(r, height);
    hide Departing;
    DropZeroStakes(r.infos, Departing(r, height, Matured(r.queue, height)));
  }

  // ---- Status changes ----

  /** Changing nothing but statuses, liveness counters and the index keeps the
      money where it is; it keeps the invariant as long as the index follows and
      only Bonding, Waiting and Active are exchanged. */
  ghost predicate OnlyStatuses(r: RefinerState, s: RefinerState) {
    && s.queue == r.queue
    && s.infos.Keys == r.infos.Keys
    && (forall id :: id in r.infos ==>
          && s.infos[id].entries == r.infos[id].entries
          && s.infos[id].objectId == r.infos[id].objectId
          && (Seated(r.infos[id].status) || s.infos[id].status == r.infos[id].status)
          && (Seated(r.infos[id].status) ==> Seated(s.infos[id].status)))
  }

  predicate Seated(status: RefinerStatus) {
    status.Bonding? || status.Waiting? || status.Active?
  }

  lemma OnlyStatusesKeeps(r: RefinerState, s: RefinerState)
    requires RefInv(r) && OnlyStatuses(r, s) && ActiveIndexOk(s.active, s.infos)
    ensures RefInv(s) && Custody(s) == Custody(r)
    ensures forall j :: IsSlashed(r, j) ==> IsSlashed(s, j)
    ensures forall j :: CustodyOf(s, j) == CustodyOf(r, j)
  {
    assert PlainStakes(s.infos) == PlainStakes(r.infos);
    forall id | id in s.infos ensures InfoOk(id, s.infos[id], s.queue) {
      assert InfoOk(id, r.infos[id], r.queue);
    }
    forall i | 0 <= i < |s.queue| ensures QueueItemOk(s.queue[i], s.infos) {
      assert QueueItemOk(r.queue[i], r.infos);
    }
  }

  lemma ActivationKeeps(r: RefinerState, height: u64)
    requires RefInv(r)
    ensures var s := ActivateMatured(r, height); OnlyStatuses(r, s) && RefInv(s) && Custody(s) == Custody(r)
  {
    var s := ActivateMatured(r, height);
    assert AsActive(s.infos) == AsActive(r.infos);
    OnlyStatusesKeeps(r, s);
  }

  lemma AttestationKeeps(r: RefinerState, id: ObjectId)
    requires RefInv(r) && RecordAttestation(r, id).Ok?
    ensures var s := RecordAttestation(r, id).value; OnlyStatuses(r, s) && RefInv(s) && Custody(s) == Custody(r)
  {
    var s := RecordAttestation(r, id).value;
    assert AsActive(s.infos) == AsActive(r.infos);
    OnlyStatusesKeeps(r, s);
  }

  // ---- Totals ----

  lemma ThreeParts(m: map<ObjectId, nat>, a: set<ObjectId>, b: set<ObjectId>)
    requires a !! b
    requires forall k :: k in m && k !in a && k !in b ==> m[k] == 0
    ensures Part(m, a) + Part(m, b) == Total(m)
  {
    var rest := m.Keys - a - b;
    PartOfZeros(m, rest);
    PartUnion(m, a, b);
    PartUnion(m, a + b, rest);
    assert Restrict(m, a + b + rest) == m;
  }

  lemma UncountedHoldNothing(r: RefinerState, id: ObjectId)
    requires RefInv(r) && id in r.infos
    requires id !in AsActive(r.infos) && id !in OtherIds(r.infos)
    ensures StakeSum(r.infos[id].entries) == 0
  {
    assert InfoOk(id, r.infos[id], r.queue);
  }

  lemma BondedParts(active: seq<ObjectId>, infos: Infos, m: map<ObjectId, nat>)
    requires ActiveIndexOk(active, infos) && m.Keys == infos.Keys
    requires forall id :: id in m && id !in AsActive(infos) && id !in OtherIds(infos) ==> m[id] == 0
    ensures SumAlong(active, m) + Part(m, OtherIds(infos)) == Total(m)
  {
    hide SumAlong, Part;
    SumAlongTotal(active, m);
    ThreeParts(m, AsActive(infos), OtherIds(infos));
  }

  lemma SumsThatFit(a: nat, b: nat)
    requires a + b <= U64_MAX
    ensures SatAdd64(Wrap64(a), Wrap64(b)) == a + b
  {
  }

  /** While the custody fits, the cached total is the plain sum over all refiners:
      the active index lists exactly the Active ones, and the rest hold nothing. */
  lemma TotalBondedIsStaked(r: RefinerState)
    requires RefInv(r) && Staked(r.infos) <= U64_MAX
    ensures TotalBonded(r) == Staked(r.infos)
  {
    var m := PlainStakes(r.infos);
    StakeMapIsPlain(r.infos);
    forall id | id in m && id !in AsActive(r.infos) && id !in OtherIds(r.infos) ensures m[id] == 0 {
      UncountedHoldNothing(r, id);
    }
    BondedParts(r.active, r.infos, m);
    hide RefInv, StakeMap, PlainStakes, SumAlong, Part, Total;
    SumsThatFit(SumAlong(r.active, m), Part(m, OtherIds(r.infos)));
  }
}
