/** `RefinerSet` itself: the operations of module `Refiner`, done in place. */
module RefinerStore {
  import opened Numbers
  import opened IntegerSqrt
  import opened Difficulty
  import opened Collections
  import opened Refiner
  import opened RefinerInvariant
  import opened EpochRanking
  import opened Selection

  /** The loop of `unbond_fifo`. It indexes `entries[consumed]` unchecked, which is
      safe because callers never ask for more than the entries hold. */
  method UnbondFifo(entries: seq<BondEntry>, amount: u64) returns (left: seq<BondEntry>, unbonded: u64)
    requires amount <= StakeSum(entries)
    ensures left == DropFlakes(entries, amount)
    ensures unbonded == amount
  {
    var remaining: u64 := amount;
    var consumed := 0;
    left := entries;
    while remaining > 0 && left != []
      invariant 0 <= consumed <= |left| == |entries|
      invariant remaining <= StakeSum(left[consumed..])
      invariant DropFlakes(left[consumed..], remaining) == DropFlakes(entries, amount)
      decreases remaining, |entries| - consumed
    {
      var stake := left[consumed].stake;
      assert left[consumed..][1..] == left[consumed + 1..];
      if stake <= remaining {
        remaining := remaining - stake;
        consumed := consumed + 1;
      } else {
        ghost var before := left;
        left := left[consumed := left[consumed].(stake := stake - remaining)];
        assert left[consumed..][1..] == before[consumed..][1..];
        remaining := 0;
      }
    }
    left := left[consumed..];
    unbonded := SatSub64(amount, remaining);
  }

  class RefinerSet {
    var infos: Infos
    var active: seq<ObjectId>
    var dirty: set<ObjectId>
    var queue: seq<PendingUnbond>

    ghost function State(): RefinerState
      reads this
    {
      RefinerState(infos, active, dirty, queue)
    }

    ghost predicate Valid()
      reads this
    {
      RefInv(State())
    }

    constructor ()
      ensures Valid() && State() == RefinerState(map[], [], {}, [])
    {
      infos, active, dirty, queue := map[], [], {}, [];
    }

    static method MinimumBondStake(issued: u64) returns (m: u64)
      ensures m == MinimumBond(issued)
    {
      var root := BinarySqrtFloor(issued / FLAKES_PER_OPL);
      m := Min(SatMul128(Max(root, 1), FLAKES_PER_OPL), U64_MAX);
    }

    static method ActiveRefinerLimit(issued: u64) returns (limit: nat)
      ensures limit == ActiveLimit(issued)
    {
      var root := BinarySqrtFloor(issued / FLAKES_PER_OPL);
      limit := EPOCH + root;
    }

    method BondStake(id: ObjectId, stake: u64, height: u64, timestamp: u64, issued: u64) returns (r: Result<(), RefinerError>)
      requires Valid()
      modifies this
      ensures Valid()
      ensures Bond(old(State()), id, stake, height, timestamp, issued).Ok? ==>
                r == Ok(()) && State() == Bond(old(State()), id, stake, height, timestamp, issued).value
      ensures Bond(old(State()), id, stake, height, timestamp, issued).Err? ==>
                r == Err(Bond(old(State()), id, stake, height, timestamp, issued).error) && State() == old(State())
    {
      ghost var before := State();
      var minimum := MinimumBondStake(issued);
      if stake < minimum { return Err(InsufficientStake); }
      if id in infos {
        var info := infos[id];
        if info.status.Slashed? { return Err(SlashedCannotBond); }
        var entries := AddEntry(info.entries, stake, height, timestamp);
        if entries.None? { return Err(EntryOverflow); }
        info := info.(entries := entries.value);
        if info.status.Unbonding? {
          info := info.(status := Bonding);
        }
        infos := infos[id := info];
        dirty := dirty + {id};
      } else {
        infos := infos[id := RefinerInfo(id, [BondEntry(stake, height, timestamp)], Bonding, 0, 0)];
        dirty := dirty + {id};
      }
      r := Ok(());
      BondKeeps(before, id, stake, height, timestamp, issued);
    }

    method UnbondAmount(id: ObjectId, amount: u64, height: u64) returns (r: Result<u64, RefinerError>)
      requires Valid()
      modifies this
      ensures Valid()
      ensures match Unbond(old(State()), id, amount, height)
              case Ok(s) => r == Ok(amount) && State() == s
              case Err(e) => r == Err(e) && State() == old(State())
    {
      ghost var before := State();
      if id !in infos { return Err(NotBonded); }
      var info := infos[id];
      var totalStake := TotalStake(info);
      if totalStake == 0 { return Err(NoStake); }
      if amount == 0 { return Err(ZeroUnbond); }
      if amount > totalStake { return Err(ExceedsStake); }
      assert totalStake <= StakeSum(info.entries);
      var left, unbonded := UnbondFifo(info.entries, amount);
      queue := queue + [PendingUnbond(id, unbonded, SatAdd64(height, EPOCH))];
      info := info.(entries := left);
      if left == [] {
        info := info.(status := Unbonding);
        active := Retain(active, {id});
      }
      infos := infos[id := info];
      dirty := dirty + {id};
      r := Ok(unbonded);
      UnbondKeeps(before, id, amount, height);
    }

    method MaturedUnbonds(height: u64) returns (matured: seq<(ObjectId, u64)>)
      ensures matured == Matured(queue, height)
    {
      matured := [];
      for i := 0 to |queue|
        invariant matured == Matured(queue[..i], height)
      {
        assert queue[..i + 1][..i] == queue[..i];
        if height >= queue[i].maturesAt {
          matured := matured + [(queue[i].account, queue[i].amount)];
        }
      }
      assert queue[..|queue|] == queue;
    }

    /** Drains what matured; the preview of `MaturedUnbonds` is what it returns. */
    method ProcessMaturedUnbonds(height: u64) returns (matured: seq<(ObjectId, u64)>)
      requires Valid()
      modifies this
      ensures Valid()
      ensures matured == Matured(old(queue), height)
      ensures State() == ProcessMatured(old(State()), height)
    {
      ghost var before := State();
      matured := [];
      var remaining := [];
      for i := 0 to |queue|
        invariant matured == Matured(queue[..i], height)
        invariant remaining == StillQueued(queue[..i], height)
      {
        assert queue[..i + 1][..i] == queue[..i];
        if height >= queue[i].maturesAt {
          matured := matured + [(queue[i].account, queue[i].amount)];
        } else {
          remaining := remaining + [queue[i]];
        }
      }
      assert queue[..|queue|] == queue;
      queue := remaining;
      DropDeparted(before, height, matured);
      MaturityKeeps(before, height);
    }

    /** The second loop of `process_matured_unbonds`: forget refiners whose last
        withdrawal just matured. */
    method DropDeparted(ghost before: RefinerState, height: u64, matured: seq<(ObjectId, u64)>)
      requires queue == StillQueued(before.queue, height)
      requires infos == before.infos && active == before.active
      modifies this`infos, this`active
      ensures infos == before.infos - Departing(before, height, matured)
      ensures active == Retain(before.active, Departing(before, height, matured))
    {
      RetainNothing(before.active, {});
      assert infos == before.infos - {};
      ghost var gone := {};
      for i := 0 to |matured|
        invariant gone == Departing(before, height, matured[..i])
        invariant infos == before.infos - gone && active == Retain(before.active, gone)
      {
        var account := matured[i].0;
        ghost var next := if Departs(before, height, account) then gone + {account} else gone;
        assert next == Departing(before, height, matured[..i + 1]) by { DepartingStep(before, height, matured, i); }
        if account in infos && infos[account].status.Unbonding? && TotalStake(infos[account]) == 0 && !Pending(queue, account) {
          RetainRetain(before.active, gone, {account});
          infos := infos - {account};
          active := Retain(active, {account});
        } else {
          assert next == gone;
        }
        gone := next;
      }
      assert matured[..|matured|] == matured;
    }

    static lemma DepartingStep(r: RefinerState, height: u64, matured: seq<(ObjectId, u64)>, i: nat)
      requires i < |matured|
      ensures Departing(r, height, matured[..i + 1])
           == Departing(r, height, matured[..i]) + if Departs(r, height, matured[i].0) then {matured[i].0} else {}
    {
      hide Departs;
      var a, b := matured[..i], matured[..i + 1];
      assert forall k :: 0 <= k < i ==> a[k] == b[k];
      assert b[i] == matured[i];
    }

    method ActivateMaturedRefiners(height: u64) returns (newlyWaiting: set<ObjectId>)
      requires Valid()
      modifies this
      ensures Valid()
      ensures newlyWaiting == NewlyWaiting(old(infos), height)
      ensures State() == ActivateMatured(old(State()), height)
    {
      ghost var before := State();
      newlyWaiting := NewlyWaiting(infos, height);
      infos := map id | id in infos :: if id in newlyWaiting then infos[id].(status := Waiting, lastSignedHeight := height) else infos[id];
      dirty := dirty + newlyWaiting;
      ActivationKeeps(before, height);
    }

    /** One round of the ranking loop: promote inside the limit, demote outside it. */
    method RankOne(id: ObjectId, inside: bool)
      requires id in infos
      modifies this
      ensures State() == if inside then StepPromotes(old(State()), id) else StepDemotes(old(State()), id)
    {
      var info := infos[id];
      if inside {
        if info.status.Waiting? {
          infos := infos[id := info.(status := Active)];
          active := active + [id];
          dirty := dirty + {id};
        }
      } else {
        if info.status.Active? {
          infos := infos[id := info.(status := Waiting)];
          active := Retain(active, {id});
          dirty := dirty + {id};
        }
      }
    }

    method RankAll(ranked: seq<ObjectId>, limit: nat)
      requires IsRanking(infos, ranked)
      modifies this
      ensures State() == RerankPrefix(old(State()), ranked, limit, |ranked|)
    {
      hide RerankPrefix, StepPromotes, StepDemotes, IsRanking;
      ghost var before := State();
      RerankNone(before, ranked, limit);
      for i := 0 to |ranked|
        invariant State() == RerankPrefix(before, ranked, limit, i)
      {
        if i < limit {
          RerankStepPromotes(before, ranked, limit, i);
        } else {
          RerankStepDemotes(before, ranked, limit, i);
        }
        RankOne(ranked[i], i < limit);
      }
    }

    method RerankRefiners(issued: u64)
      requires Valid()
      modifies this
      ensures Valid()
      ensures State() == Rerank(old(State()), issued)
    {
      var limit := ActiveRefinerLimit(issued);
      var ranked := Ranking(infos, Eligible(infos));
      RankingSorted(infos, Eligible(infos));
      RerankKeeps(State(), issued);
      hide RerankPrefix, IsRanking, RefInv, ActiveLimit;
      RankAll(ranked, limit);
    }

    method SlashRefiner(id: ObjectId) returns (r: Result<u64, RefinerError>)
      requires Valid()
      modifies this
      ensures Valid()
      ensures (State(), r) == Slash(old(State()), id)
    {
      ghost var before := State();
      var pendingBurn: u64 := 0;
      var remaining := [];
      for i := 0 to |queue|
        invariant pendingBurn == ClampU64(QueuedFor(queue[..i], id))
        invariant remaining == WithoutAccount(queue[..i], id)
      {
        assert queue[..i + 1][..i] == queue[..i];
        if queue[i].account == id {
          pendingBurn := SatAdd64(pendingBurn, queue[i].amount);
        } else {
          remaining := remaining + [queue[i]];
        }
      }
      assert queue[..|queue|] == queue;
      queue := remaining;
      SlashKeeps(before, id);
      if id !in infos {
        return if pendingBurn > 0 then Ok(pendingBurn) else Err(RefinerNotFound);
      }
      var info := infos[id];
      if info.status.Slashed? { return Ok(pendingBurn); }
      var burn := SatAdd64(TotalStake(info), pendingBurn);
      infos := infos[id := info.(status := Slashed, entries := Zeroed(info.entries))];
      active := Retain(active, {id});
      dirty := dirty + {id};
      return Ok(burn);
    }

    method RecordCorrectAttestation(id: ObjectId) returns (r: Result<(), RefinerError>)
      requires Valid()
      modifies this
      ensures Valid()
      ensures match RecordAttestation(old(State()), id)
              case Ok(s) => r == Ok(()) && State() == s
              case Err(e) => r == Err(e) && State() == old(State())
    {
      ghost var before := State();
      if id !in infos { return Err(RefinerNotFound); }
      var info := infos[id];
      if !info.status.Active? { return Err(NotActive); }
      infos := infos[id := info.(attestations := SatAdd64(info.attestations, 1))];
      dirty := dirty + {id};
      r := Ok(());
      AttestationKeeps(before, id);
    }

    method ActiveStake() returns (total: u64)
      ensures total == Wrap64(SumAlong(active, StakeMap(infos)))
    {
      ghost var m := StakeMap(infos);
      total := 0;
      for i := 0 to |active|
        invariant total == Wrap64(SumAlong(active[..i], m))
      {
        assert active[..i + 1][..i] == active[..i];
        WrapAccumulates(SumAlong(active[..i], m), Lookup(m, active[i]));
        if active[i] in infos {
          total := Wrap64(total + TotalStake(infos[active[i]]));
        }
      }
      assert active[..|active|] == active;
    }

    method OtherStake() returns (total: u64)
      ensures total == Wrap64(Part(StakeMap(infos), OtherIds(infos)))
    {
      hide TotalStake, Part;
      ghost var m := StakeMap(infos);
      var rest := OtherIds(infos);
      ghost var done := {};
      total := 0;
      PartEmpty(m);
      while rest != {}
        invariant done !! rest && done + rest == OtherIds(infos)
        invariant total == Wrap64(Part(m, done))
        decreases |rest|
      {
        var id :| id in rest;
        PartInsert(m, done, id);
        WrapAccumulates(Part(m, done), Lookup(m, id));
        total := Wrap64(total + TotalStake(infos[id]));
        rest := rest - {id};
        done := done + {id};
      }
      assert done == OtherIds(infos);
    }

    method TotalBondedStake() returns (total: u64)
      ensures total == TotalBonded(State())
    {
      var activeStake := ActiveStake();
      var otherStake := OtherStake();
      total := SatAdd64(activeStake, otherStake);
    }

    /** Summing the sorted contenders with a saturating fold. */
    method ContenderStake(ids: seq<ObjectId>) returns (total: u64)
      requires forall i :: 0 <= i < |ids| ==> ids[i] in infos
      ensures total == ClampU64(SumAlong(ids, StakeMap(infos)))
    {
      hide TotalStake;
      total := 0;
      for i := 0 to |ids|
        invariant total == ClampU64(SumAlong(ids[..i], StakeMap(infos)))
      {
        assert ids[..i + 1][..i] == ids[..i];
        total := SatAdd64(total, TotalStake(infos[ids[i]]));
      }
      assert ids[..|ids|] == ids;
    }

    /** Walking the cumulative stakes to the owner of a ticket. */
    method WalkTo(ids: seq<ObjectId>, ticket: u64) returns (r: Option<ObjectId>)
      requires AsSet(ids) == Contenders(infos) && IsAscending(ids)
      requires ticket < ClampU64(TicketCount(infos))
      ensures r == Owner(infos, ticket)
    {
      TicketWithin(infos, ids, ticket);
      assert ticket < U64_MAX;
      SumAlongNothing(StakeMap(infos));
      hide TotalStake, TicketCount, Contenders, StakeMap, Owner, IsAscending, SumAlong, AsSet, SatAdd64, ClampU64;
      var cumulative: u64 := 0;
      var i := 0;
      assert ids[..0] == [];
      while i < |ids|
        invariant 0 <= i <= |ids|
        invariant cumulative == ClampU64(SumAlong(ids[..i], StakeMap(infos)))
        invariant SumAlong(ids[..i], StakeMap(infos)) <= ticket
        invariant i == |ids| ==> SumAlong(ids, StakeMap(infos)) <= ticket
      {
        MembersHaveRecords(infos, ids, i);
        WalkStep(infos, ids, i, ticket, cumulative);
        cumulative := SatAdd64(cumulative, TotalStake(infos[ids[i]]));
        if ticket < cumulative { return Some(ids[i]); }
        i := i + 1;
      }
      r := None;
    }

    /** `select_block_producer`: sort the staked active refiners by id, draw a ticket
        and walk the cumulative stakes. The order of the active index is irrelevant. */
    method SelectBlockProducer(seed: u64) returns (r: Option<ObjectId>)
      requires Valid()
      requires SelectionSettles(infos, seed)
      ensures r == SelectProducer(infos, seed)
    {
      var contenders := set id | id in active && id in infos && TotalStake(infos[id]) > 0;
      ContendersFromIndex(State(), contenders);
      var ids := Ascending(contenders);
      AscendingSorted(contenders);
      AscendingNoRepeats(ids);
      SumAlongTotal(ids, StakeMap(infos));
      forall i | 0 <= i < |ids| ensures ids[i] in infos {
        assert ids[i] in AsSet(ids);
      }
      hide RefInv, TotalStake, Part, Contenders, Ascending;
      var total := ContenderStake(ids);
      var drawn := UniformAmountFromSeed(seed, total);
      if drawn.None? { return None; }
      r := WalkTo(ids, drawn.value);
    }
  }

  lemma SumAlongNothing(m: map<ObjectId, nat>)
    ensures SumAlong([], m) == 0 && ClampU64(SumAlong([], m)) == 0
  {
  }

  lemma TicketWithin(infos: Infos, ids: seq<ObjectId>, ticket: u64)
    requires AsSet(ids) == Contenders(infos) && IsAscending(ids)
    requires ticket < ClampU64(TicketCount(infos))
    ensures ticket < SumAlong(ids, StakeMap(infos))
  {
    AscendingNoRepeats(ids);
    SumAlongTotal(ids, StakeMap(infos));
  }

  /** Passing the ticket at position `i` means `ids[i]` owns it. */
  lemma WalkStep(infos: Infos, ids: seq<ObjectId>, i: nat, ticket: u64, cumulative: u64)
    requires AsSet(ids) == Contenders(infos) && IsAscending(ids) && i < |ids|
    requires SumAlong(ids[..i], StakeMap(infos)) <= ticket < U64_MAX
    requires cumulative == ClampU64(SumAlong(ids[..i], StakeMap(infos)))
    ensures ids[i] in infos
    ensures var next := SatAdd64(cumulative, TotalStake(infos[ids[i]]));
      && next == ClampU64(SumAlong(ids[..i + 1], StakeMap(infos)))
      && (ticket < next ==> Owner(infos, ticket) == Some(ids[i]))
      && (next <= ticket ==> SumAlong(ids[..i + 1], StakeMap(infos)) <= ticket)
      && (next <= ticket && i + 1 == |ids| ==> SumAlong(ids, StakeMap(infos)) <= ticket)
  {
    PrefixIsStart(infos, ids, i);
    assert i + 1 == |ids| ==> ids[..i + 1] == ids;
    if ticket < SumAlong(ids[..i + 1], StakeMap(infos)) {
      assert Owns(infos, ids[i], ticket);
      OwnerUnique(infos, ids[i], Owner(infos, ticket).value, ticket);
    }
  }

  lemma MembersHaveRecords(infos: Infos, ids: seq<ObjectId>, i: nat)
    requires AsSet(ids) == Contenders(infos) && i < |ids|
    ensures ids[i] in infos
  {
    assert ids[i] in AsSet(ids);
  }

  lemma WrapAccumulates(a: nat, b: nat)
    ensures Wrap64(Wrap64(a) + b) == Wrap64(a + b)
  {
  }

  lemma ContendersFromIndex(r: RefinerState, contenders: set<ObjectId>)
    requires RefInv(r)
    requires contenders == set id | id in r.active && id in r.infos && TotalStake(r.infos[id]) > 0
    ensures contenders == Contenders(r.infos)
  {
    assert forall id :: id in r.active <==> id in AsSet(r.active);
  }

  // ---- The ranking loop ----

  lemma RerankNone(r: RefinerState, ranked: seq<ObjectId>, limit: nat)
    ensures RerankPrefix(r, ranked, limit, 0) == r
  {
    assert ranked[..0] == [] && ranked[0..0] == [];
    assert WithStatus(r.infos, Waiting, []) == {} && WithStatus(r.infos, Active, []) == {};
    RetainNothing(r.active, {});
    assert r.active + Only([], {}) == r.active;
    assert RerankPrefix(r, ranked, limit, 0).infos == r.infos;
  }

  lemma WithStatusAppend(infos: Infos, status: RefinerStatus, s: seq<ObjectId>, x: ObjectId)
    requires x in infos
    ensures WithStatus(infos, status, s + [x]) == WithStatus(infos, status, s) + if infos[x].status == status then {x} else {}
  {
  }

  function StepPromotes(s: RefinerState, id: ObjectId): RefinerState
    requires id in s.infos
  {
    if s.infos[id].status.Waiting? then
      s.(infos := s.infos[id := s.infos[id].(status := Active)], active := s.active + [id], dirty := s.dirty + {id})
    else s
  }

  function StepDemotes(s: RefinerState, id: ObjectId): RefinerState
    requires id in s.infos
  {
    if s.infos[id].status.Active? then
      s.(infos := s.infos[id := s.infos[id].(status := Waiting)], active := Retain(s.active, {id}), dirty := s.dirty + {id})
    else s
  }

  lemma RearrangePromotes(r: RefinerState, pushed: seq<ObjectId>, p: set<ObjectId>, id: ObjectId)
    requires id in r.infos && r.infos[id].status.Waiting? && id !in p
    ensures Rearranged(r, pushed + [id], p + {id}, {}) == StepPromotes(Rearranged(r, pushed, p, {}), id)
  {
    var s, t := Rearranged(r, pushed, p, {}), Rearranged(r, pushed + [id], p + {id}, {});
    hide Retain, PlacedInfos;
    RetainNothing(r.active + pushed, {});
    RetainNothing(r.active + (pushed + [id]), {});
    assert t.active == s.active + [id];
    assert t.dirty == s.dirty + {id};
    PlacedPromotes(r.infos, p, id);
  }

  lemma PlacedPromotes(infos: Infos, p: set<ObjectId>, id: ObjectId)
    requires id in infos && id !in p
    ensures PlacedInfos(infos, p, {})[id] == infos[id]
    ensures PlacedInfos(infos, p + {id}, {}) == PlacedInfos(infos, p, {})[id := infos[id].(status := Active)]
  {
  }

  lemma PlacedDemotes(infos: Infos, p: set<ObjectId>, d: set<ObjectId>, id: ObjectId)
    requires id in infos && id !in p && id !in d
    ensures PlacedInfos(infos, p, d)[id] == infos[id]
    ensures PlacedInfos(infos, p, d + {id}) == PlacedInfos(infos, p, d)[id := infos[id].(status := Waiting)]
  {
  }

  lemma RearrangeDemotes(r: RefinerState, pushed: seq<ObjectId>, p: set<ObjectId>, d: set<ObjectId>, id: ObjectId)
    requires id in r.infos && r.infos[id].status.Active? && id !in p && id !in d
    ensures Rearranged(r, pushed, p, d + {id}) == StepDemotes(Rearranged(r, pushed, p, d), id)
  {
    RetainRetain(r.active + pushed, d, {id});
    PlacedDemotes(r.infos, p, d, id);
    hide Retain, PlacedInfos;
  }

  lemma RerankStepPromotes(r: RefinerState, ranked: seq<ObjectId>, limit: nat, i: nat)
    requires IsRanking(r.infos, ranked) && i < |ranked| && i < limit
    ensures ranked[i] in RerankPrefix(r, ranked, limit, i).infos
    ensures RerankPrefix(r, ranked, limit, i + 1) == StepPromotes(RerankPrefix(r, ranked, limit, i), ranked[i])
    ensures RerankPrefix(r, ranked, limit, i).infos[ranked[i]] == r.infos[ranked[i]]
  {
    var id, top := ranked[i], ranked[..i];
    assert ranked[..i + 1] == top + [id] && ranked[i..i] == [] && ranked[i + 1..i + 1] == [];
    assert id !in top;
    var p := WithStatus(r.infos, Waiting, top);
    assert WithStatus(r.infos, Active, []) == {};
    WithStatusAppend(r.infos, Waiting, top, id);
    if r.infos[id].status.Waiting? {
      OnlyAppend(top, id, p + {id});
      OnlyIgnores(top, id, p);
      RearrangePromotes(r, Only(top, p), p, id);
    } else {
      OnlyAppend(top, id, p);
      assert p + {} == p;
    }
  }

  lemma RerankStepDemotes(r: RefinerState, ranked: seq<ObjectId>, limit: nat, i: nat)
    requires IsRanking(r.infos, ranked) && limit <= i < |ranked|
    ensures ranked[i] in RerankPrefix(r, ranked, limit, i).infos
    ensures RerankPrefix(r, ranked, limit, i + 1) == StepDemotes(RerankPrefix(r, ranked, limit, i), ranked[i])
    ensures RerankPrefix(r, ranked, limit, i).infos[ranked[i]] == r.infos[ranked[i]]
  {
    var id, rest := ranked[i], ranked[limit..i];
    assert ranked[limit..i + 1] == rest + [id];
    assert id !in rest && id !in ranked[..limit];
    var p := WithStatus(r.infos, Waiting, ranked[..limit]);
    var d := WithStatus(r.infos, Active, rest);
    WithStatusAppend(r.infos, Active, rest, id);
    if r.infos[id].status.Active? {
      RearrangeDemotes(r, Only(ranked[..limit], p), p, d, id);
    } else {
      assert d + {} == d;
    }
  }
}
