/** Restarting: what a node loads from disk, and exactly when that is the node that
    stopped. */
module Restart {
  import opened Numbers
  import opened Difficulty
  import opened Collections
  import opened Ledger
  import opened Types
  import opened Refiner
  import opened RefinerInvariant
  import opened Selection
  import opened RefinerStore
  import opened Chain
  import opened Finality
  import opened BlockApplication
  import opened Supply
  import opened BlockLaws
  import opened Genesis
  import opened Runs
  import opened History
  import opened Refusals
  import opened Equivalence
  import opened Liveness

  // ---- Refiners ----

  /** `load_from_refiners`: statuses decide the active index; nothing is dirty. */
  function LoadRefiners(list: seq<RefinerInfo>, queue: seq<PendingUnbond>): RefinerState {
    if list == [] then RefinerState(map[], [], {}, queue)
    else
      var rest, last := LoadRefiners(list[..|list| - 1], queue), list[|list| - 1];
      RefinerState(rest.infos[last.objectId := last],
                   if last.status.Active? then rest.active + [last.objectId] else rest.active,
                   {}, queue)
  }

  /** The loading loop, filling a fresh set in place. */
  method LoadFromRefiners(list: seq<RefinerInfo>, queue: seq<PendingUnbond>) returns (loaded: RefinerSet)
    ensures fresh(loaded) && loaded.State() == LoadRefiners(list, queue)
  {
    loaded := new RefinerSet();
    loaded.queue := queue;
    for i := 0 to |list|
      invariant fresh(loaded) && loaded.State() == LoadRefiners(list[..i], queue)
    {
      assert list[..i + 1][..i] == list[..i] && list[..i + 1][i] == list[i];
      if list[i].status.Active? {
        loaded.active := loaded.active + [list[i].objectId];
      }
      loaded.infos := loaded.infos[list[i].objectId := list[i]];
    }
    assert list[..|list|] == list;
  }

  /** `all_refiners`: every record, sorted by id. */
  function AllRefiners(infos: Infos): seq<RefinerInfo> {
    var ids := Ascending(infos.Keys);
    seq(|ids|, i requires 0 <= i < |ids| => if ids[i] in infos then infos[ids[i]] else RefinerInfo(0, [], NotRefiner, 0, 0))
  }

  ghost predicate ListsPrefix(infos: Infos, ids: seq<ObjectId>, list: seq<RefinerInfo>) {
    && |ids| == |list| && NoRepeats(ids)
    && (forall i :: 0 <= i < |ids| ==> ids[i] in infos && list[i] == infos[ids[i]] && list[i].objectId == ids[i])
  }

  lemma PrefixPops(infos: Infos, ids: seq<ObjectId>, list: seq<RefinerInfo>)
    requires ListsPrefix(infos, ids, list) && ids != []
    ensures ListsPrefix(infos, ids[..|ids| - 1], list[..|list| - 1])
    ensures var id, info := ids[|ids| - 1], list[|list| - 1];
      id in infos && info == infos[id] && info.objectId == id && id !in AsSet(ids[..|ids| - 1])
  {
    SplitLast(ids);
  }

  lemma {:induction false} LoadListed(infos: Infos, ids: seq<ObjectId>, list: seq<RefinerInfo>, queue: seq<PendingUnbond>)
    requires ListsPrefix(infos, ids, list)
    ensures var r := LoadRefiners(list, queue);
      && r.infos.Keys == AsSet(ids)
      && (forall id :: id in r.infos ==> id in infos && r.infos[id] == infos[id])
      && NoRepeats(r.active)
      && (forall id :: id in r.active <==> id in AsSet(ids) && id in infos && infos[id].status.Active?)
      && r.queue == queue && r.dirty == {}
    decreases |ids|
  {
    hide ListsPrefix;
    if |list| == 0 {
      ListedEmpty(infos, ids, list);
    } else {
      ListedLengths(infos, ids, list);
      PrefixPops(infos, ids, list);
      SplitLastSet(ids);
      LoadListed(infos, ids[..|ids| - 1], list[..|list| - 1], queue);
    }
  }

  lemma ListedEmpty(infos: Infos, ids: seq<ObjectId>, list: seq<RefinerInfo>)
    requires ListsPrefix(infos, ids, list) && |list| == 0
    ensures ids == [] && AsSet(ids) == {}
  {
  }

  lemma ListedLengths(infos: Infos, ids: seq<ObjectId>, list: seq<RefinerInfo>)
    requires ListsPrefix(infos, ids, list)
    ensures |ids| == |list|
  {
  }

  lemma SplitLastSet(ids: seq<ObjectId>)
    requires ids != []
    ensures AsSet(ids) == AsSet(ids[..|ids| - 1]) + {ids[|ids| - 1]}
  {
    SplitLast(ids);
  }

  lemma AllListed(r: RefinerState)
    requires RefInv(r)
    ensures ListsPrefix(r.infos, Ascending(r.infos.Keys), AllRefiners(r.infos))
    ensures AsSet(Ascending(r.infos.Keys)) == r.infos.Keys
  {
    var ids, list := Ascending(r.infos.Keys), AllRefiners(r.infos);
    hide Ascending, InfoOk, QueueItemOk, ActiveIndexOk;
    AscendingSorted(r.infos.Keys);
    AscendingNoRepeats(ids);
    forall i | 0 <= i < |ids| ensures ids[i] in r.infos && list[i].objectId == ids[i] {
      assert ids[i] in AsSet(ids);
      RecordNamed(r, ids[i]);
    }
  }

  lemma RecordNamed(r: RefinerState, id: ObjectId)
    requires RefInv(r) && id in r.infos
    ensures r.infos[id].objectId == id
  {
    assert InfoOk(id, r.infos[id], r.queue);
  }

  /** A sound index over the same records and queue is all the invariant needs. */
  lemma ReindexedTwin(r: RefinerState, s: RefinerState)
    requires RefInv(r) && s.infos == r.infos && s.queue == r.queue
    requires NoRepeats(s.active) && AsSet(s.active) == AsActive(r.infos)
    ensures Twin(r, s) && AsSet(s.active) == AsSet(r.active)
  {
    hide InfoOk, QueueItemOk, AsActive, AsSet, NoRepeats;
  }

  /** Reloading restores every record and the queue, with a sound active index. */
  lemma RefinersReload(r: RefinerState)
    requires RefInv(r)
    ensures Twin(r, LoadRefiners(AllRefiners(r.infos), r.queue))
    ensures AsSet(LoadRefiners(AllRefiners(r.infos), r.queue).active) == AsSet(r.active)
  {
    hide LoadRefiners, AllRefiners, RefInv, Twin, ListsPrefix;
    AllListed(r);
    LoadListed(r.infos, Ascending(r.infos.Keys), AllRefiners(r.infos), r.queue);
    var s := LoadRefiners(AllRefiners(r.infos), r.queue);
    assert s.infos == r.infos;
    assert AsSet(s.active) == AsActive(r.infos);
    ReindexedTwin(r, s);
  }

  // ---- Chain state ----

  const BASE_REWARD: u64 := 332_000_000

  datatype PersistedChain = PersistedChain(
    state: ChainState,
    signatureList: seq<((u64, ObjectId), (Hash, Bytes))>,
    finalityList: seq<((u64, Hash), seq<ObjectId>)>)

  function LoadSignatures(list: seq<((u64, ObjectId), (Hash, Bytes))>): Signatures {
    if list == [] then map[] else LoadSignatures(list[..|list| - 1])[list[|list| - 1].0 := list[|list| - 1].1]
  }

  function LoadFinality(list: seq<((u64, Hash), seq<ObjectId>)>): FinalityIndex {
    if list == [] then map[] else LoadFinality(list[..|list| - 1])[list[|list| - 1].0 := AsSet(list[|list| - 1].1)]
  }

  /** `to_persisted`: scalars as they are, timestamps pruned, the two maps written
      out as lists in some order. */
  ghost predicate Persists(p: PersistedChain, chain: ChainState) {
    && p.state == chain.(timestamps := Prune(chain.timestamps), signatures := map[], finality := map[])
    && (forall e :: e in p.signatureList ==> e.0 in chain.signatures && chain.signatures[e.0] == e.1)
    && (forall k :: k in chain.signatures ==> (k, chain.signatures[k]) in p.signatureList)
    && (forall e :: e in p.finalityList ==> e.0 in chain.finality && chain.finality[e.0] == AsSet(e.1))
    && (forall k :: k in chain.finality ==> exists ids :: (k, ids) in p.finalityList)
  }

  /** `from_persisted`, with the migration default for the base reward. */
  function FromPersisted(p: PersistedChain): ChainState {
    p.state.(timestamps := Prune(p.state.timestamps),
             baseReward := if p.state.baseReward > 0 then p.state.baseReward else BASE_REWARD,
             signatures := LoadSignatures(p.signatureList),
             finality := LoadFinality(p.finalityList))
  }

  lemma {:induction false} SignaturesLoaded(list: seq<((u64, ObjectId), (Hash, Bytes))>)
    ensures forall k :: k in LoadSignatures(list) ==> (k, LoadSignatures(list)[k]) in list
    ensures forall e :: e in list ==> e.0 in LoadSignatures(list)
  {
    if list != [] {
      SignaturesLoaded(list[..|list| - 1]);
      assert list == list[..|list| - 1] + [list[|list| - 1]];
    }
  }

  ghost predicate ListsKey(list: seq<((u64, Hash), seq<ObjectId>)>, k: (u64, Hash), ids: set<ObjectId>) {
    exists e :: e in list && e.0 == k && AsSet(e.1) == ids
  }

  lemma {:induction false} FinalityLoaded(list: seq<((u64, Hash), seq<ObjectId>)>)
    ensures forall k :: k in LoadFinality(list) ==> ListsKey(list, k, LoadFinality(list)[k])
    ensures forall e :: e in list ==> e.0 in LoadFinality(list)
  {
    hide AsSet;
    if list != [] {
      var init, last := list[..|list| - 1], list[|list| - 1];
      FinalityLoaded(init);
      assert list == init + [last];
      assert last in list;
      forall k | k in LoadFinality(list) ensures ListsKey(list, k, LoadFinality(list)[k]) {
        if k != last.0 {
          assert ListsKey(init, k, LoadFinality(init)[k]);
          var e :| e in init && e.0 == k && AsSet(e.1) == LoadFinality(init)[k];
          assert e in list;
        }
      }
    }
  }

  lemma MapsReload(p: PersistedChain, chain: ChainState)
    requires Persists(p, chain)
    ensures LoadSignatures(p.signatureList) == chain.signatures && LoadFinality(p.finalityList) == chain.finality
  {
    SignaturesLoaded(p.signatureList);
    FinalityLoaded(p.finalityList);
    forall k | k in chain.signatures ensures k in LoadSignatures(p.signatureList) {
      assert (k, chain.signatures[k]) in p.signatureList;
    }
    forall k | k in chain.finality ensures k in LoadFinality(p.finalityList) {
      var ids :| (k, ids) in p.finalityList;
    }
    forall k | k in LoadFinality(p.finalityList) ensures k in chain.finality && chain.finality[k] == LoadFinality(p.finalityList)[k] {
      assert ListsKey(p.finalityList, k, LoadFinality(p.finalityList)[k]);
    }
  }

  /** Saving and loading the chain state gives it back exactly when its base reward
      is not the migration sentinel zero; timestamps are already pruned. */
  lemma ChainReloads(p: PersistedChain, chain: ChainState)
    requires Persists(p, chain) && |chain.timestamps| <= WINDOW
    ensures FromPersisted(p) == chain <==> chain.baseReward > 0
    ensures FromPersisted(p) == chain.(baseReward := FromPersisted(p).baseReward)
  {
    MapsReload(p, chain);
  }

  // ---- What a restart loads ----

  /** The state saved with the last block, its lists in any order they may have been
      written in, and the local producer registered again. */
  ghost predicate LoadsFrom(s: Snapshot, id: ObjectId, key: Option<Bytes>, store: Storage, m: NodeState, p: PersistedChain, list: seq<Account>) {
    && Persists(p, s.chain) && ListsAccounts(list, s.accounts)
    && RegisterLocal(Loaded(list), id, key).Some?
    && m == NodeState(FromPersisted(p), RegisterLocal(Loaded(list), id, key).value, LoadRefiners(AllRefiners(s.infos), s.queue), map[], Some(store))
  }

  /** `m` is what the node starts with on this disk: the saved state, or genesis when
      nothing has been saved. */
  ghost predicate Restarts(g: GenesisConfig, id: ObjectId, key: Option<Bytes>, store: Storage, m: NodeState) {
    match store.saved
    case None => FreshNode(g, id, key, Some(store)) == Some(m)
    case Some(s) => exists p, list :: LoadsFrom(s, id, key, store, m, p, list)
  }

  /** The disk holds exactly this state. */
  ghost predicate SavedState(n: NodeState) {
    n.store.Some? && n.store.value.saved == Some(SnapshotOf(n))
  }

  lemma RegisteredAgain(a: Accounts, id: ObjectId, key: Option<Bytes>)
    requires RegisterLocal(a, id, key).Some? && (key.Some? && id != 0 ==> Keyed(a, id))
    ensures RegisterLocal(a, id, key).value == a
  {
  }

  /** Loading a saved state gives that state back. */
  lemma SavedStateLoads(n: NodeState, g: GenesisConfig, id: ObjectId, key: Option<Bytes>, m: NodeState)
    requires RefInv(n.refiners) && AccountsOk(n.accounts)
    requires |n.chain.timestamps| <= WINDOW && n.chain.baseReward > 0
    requires key.Some? && id != 0 ==> Keyed(n.accounts, id)
    requires SavedState(n) && Restarts(g, id, key, n.store.value, m)
    ensures SameNode(n, m)
  {
    hide Persists, ListsAccounts, FromPersisted, Loaded, LoadRefiners, AllRefiners, RefInv, AccountsOk, Twin, FreshNode, RegisterLocal;
    var s := SnapshotOf(n);
    var p, list :| LoadsFrom(s, id, key, n.store.value, m, p, list);
    ChainReloads(p, n.chain);
    AccountsRoundTrip(list, n.accounts);
    RegisteredAgain(n.accounts, id, key);
    RefinersReload(n.refiners);
  }

  /** Some listing of a map, each entry once. */
  lemma {:induction false} Listing<K, V>(m: map<K, V>) returns (list: seq<(K, V)>)
    ensures forall e :: e in list ==> e.0 in m && m[e.0] == e.1
    ensures forall k :: k in m ==> (k, m[k]) in list
    decreases |m|
  {
    if m == map[] {
      list := [];
    } else {
      var k :| k in m;
      var rest := Listing(m - {k});
      list := rest + [(k, m[k])];
      forall j | j in m ensures (j, m[j]) in list { assert j != k ==> j in m - {k} && (j, m[j]) in rest; }
    }
  }

  lemma ChainPersists(chain: ChainState) returns (p: PersistedChain)
    ensures Persists(p, chain)
  {
    var signatures := Listing(chain.signatures);
    var sorted := map k | k in chain.finality :: Ascending(chain.finality[k]);
    var finality := Listing(sorted);
    forall k | k in chain.finality ensures AsSet(sorted[k]) == chain.finality[k] { AscendingSorted(chain.finality[k]); }
    hide Ascending, AsSet;
    p := PersistedChain(chain.(timestamps := Prune(chain.timestamps), signatures := map[], finality := map[]), signatures, finality);
    forall k | k in chain.finality ensures exists ids :: (k, ids) in p.finalityList { assert (k, sorted[k]) in finality; }
  }

  lemma AccountsListed(a: Accounts) returns (list: seq<Account>)
    ensures ListsAccounts(list, a)
  {
    var entries := Listing(a);
    list := seq(|entries|, i requires 0 <= i < |entries| => entries[i].1);
    forall i | 0 <= i < |list| ensures list[i] in a.Values { assert entries[i] in entries; }
    forall id | id in a ensures a[id] in list {
      var i :| 0 <= i < |entries| && entries[i] == (id, a[id]);
      assert list[i] == a[id];
    }
  }

  /** A saved state can be loaded. */
  lemma SavedStateCanLoad(n: NodeState, g: GenesisConfig, id: ObjectId, key: Option<Bytes>) returns (m: NodeState)
    requires SavedState(n) && AccountsOk(n.accounts) && RegisterLocal(n.accounts, id, key).Some?
    ensures Restarts(g, id, key, n.store.value, m)
  {
    hide Persists, ListsAccounts, FromPersisted, Loaded, LoadRefiners, AllRefiners, AccountsOk, RegisterLocal;
    var p := ChainPersists(n.chain);
    var list := AccountsListed(n.accounts);
    AccountsRoundTrip(list, n.accounts);
    m := NodeState(FromPersisted(p), RegisterLocal(Loaded(list), id, key).value, LoadRefiners(AllRefiners(n.refiners.infos), n.refiners.queue), map[], n.store);
    assert LoadsFrom(SnapshotOf(n), id, key, n.store.value, m, p, list);
  }

  // ---- What is on disk in a running chain ----

  lemma AcceptedSaves(c: Crypto, n: NodeState, call: Call)
    requires MoneyInv(n) && PowSound(c) && RoomFor(c, n, call.block, call.now) && Accepts(c, n, call) && n.store.Some?
    ensures SavedState(After(c, n, call))
  {
    hide *;
    CallIsApply(c, n, call);
    var kind, tr := AcceptedMoves(c, n, call.block, call.now);
    MovedSaves(c, n, call.block, tr, After(c, n, call));
  }

  lemma MovedSaves(c: Crypto, n: NodeState, block: Block, tr: Trace, m: NodeState)
    requires ChainMoved(c, n, block, tr, m) && n.store.Some?
    ensures SavedState(m)
  {
    hide AfterAttesting, Reseated, RecordReceipt, ReceiptOf, Prune, SnapshotOf;
  }

  /** How many calls lead up to the last accepted one. */
  ghost function LastAccepted(c: Crypto, n: NodeState, calls: seq<Call>): (k: nat)
    ensures k <= |calls|
  {
    if calls == [] then 0
    else if Accepts(c, Run(c, n, calls[..|calls| - 1]), calls[|calls| - 1]) then |calls|
    else LastAccepted(c, n, calls[..|calls| - 1])
  }

  /** The state right after the last accepted block, or genesis. */
  ghost function Anchor(c: Crypto, n: NodeState, calls: seq<Call>): NodeState {
    Run(c, n, calls[..LastAccepted(c, n, calls)])
  }

  lemma AnchorUnfolds(c: Crypto, n: NodeState, calls: seq<Call>)
    requires calls != []
    ensures var init, last := calls[..|calls| - 1], calls[|calls| - 1];
      Anchor(c, n, calls) == if Accepts(c, Run(c, n, init), last) then After(c, Run(c, n, init), last) else Anchor(c, n, init)
  {
    hide Accepts, After;
    var init := calls[..|calls| - 1];
    assert calls[..|calls|] == calls;
    assert init[..LastAccepted(c, n, init)] == calls[..LastAccepted(c, n, init)];
  }

  /** The disk holds the state after the last accepted block, and nothing before the
      first one; the node differs from it by attestations at most. */
  lemma {:induction false} AnchorIsSaved(c: Crypto, n: NodeState, calls: seq<Call>)
    requires IsGenesis(n) && PowSound(c) && Roomy(c, n, calls) && n.store.Some?
    ensures var a, m := Anchor(c, n, calls), Run(c, n, calls);
      && m.store == a.store && OnlyAttested(a, m) && MoneyInv(a)
      && (a == n || SavedState(a))
  {
    hide IsGenesis, PowSound, RoomFor, Accepts, After, SavedState, MoneyInv, OnlyAttested, Anchor;
    if calls == [] {
      SupplyConserved(c, n, calls);
      AnchorOfNothing(c, n);
      NothingAttested(n);
    } else {
      var init, last := calls[..|calls| - 1], calls[|calls| - 1];
      var m := Run(c, n, init);
      AnchorIsSaved(c, n, init);
      SupplyConserved(c, n, init);
      SupplyConserved(c, n, calls);
      AnchorUnfolds(c, n, calls);
      if Accepts(c, m, last) {
        StoreStays(Anchor(c, n, init), m);
        AnchorStores(c, n, init);
        AcceptedSaves(c, m, last);
        NothingAttested(After(c, m, last));
      } else {
        StepConserves(c, m, last);
        AttestedTwice(Anchor(c, n, init), m, After(c, m, last));
      }
    }
  }

  lemma AnchorOfNothing(c: Crypto, n: NodeState)
    ensures Anchor(c, n, []) == n
  {
  }

  lemma StoreStays(n: NodeState, m: NodeState)
    requires OnlyAttested(n, m)
    ensures m.store == n.store
  {
    hide OnlyLiveness;
  }

  lemma AnchorStores(c: Crypto, n: NodeState, calls: seq<Call>)
    requires n.store.Some? && (Anchor(c, n, calls) == n || SavedState(Anchor(c, n, calls)))
    ensures Anchor(c, n, calls).store.Some?
  {
    hide Anchor;
  }

  lemma AttestedTwice(n: NodeState, m: NodeState, k: NodeState)
    requires OnlyAttested(n, m) && OnlyAttested(m, k)
    ensures OnlyAttested(n, k) && k.store == n.store
  {
  }

  // ---- Drift ----

  /** Refused blocks have left no trace since `a`. */
  ghost predicate Still(a: NodeState, m: NodeState) { m.chain == a.chain && m.refiners.infos == a.refiners.infos }

  /** They have: a counter has risen, or with all counters unmoved an index entry is
      gone. Neither is ever undone by further refusals. */
  ghost predicate Drifted(a: NodeState, m: NodeState) {
    || CounterRose(a, m)
    || (m.refiners.infos == a.refiners.infos && exists k :: k in a.chain.finality && k !in m.chain.finality)
  }

  ghost predicate CounterRose(a: NodeState, m: NodeState) {
    exists id :: id in a.refiners.infos && id in m.refiners.infos && m.refiners.infos[id].attestations > a.refiners.infos[id].attestations
  }

  ghost predicate Unsaturated(infos: Infos) {
    forall id :: id in infos ==> infos[id].attestations < U64_MAX
  }

  lemma DriftedIsNotStill(a: NodeState, m: NodeState)
    requires Drifted(a, m)
    ensures !Still(a, m)
  {
  }

  /** A refusal never lowers a counter; counting anything raises an unsaturated one;
      counting nothing leaves the records and only takes entries out of the index. */
  lemma RefusalDrift(c: Crypto, n: NodeState, call: Call)
    requires MoneyInv(n) && PowSound(c) && RoomFor(c, n, call.block, call.now) && !Accepts(c, n, call)
    ensures var m := After(c, n, call);
      && m.refiners.infos.Keys == n.refiners.infos.Keys
      && (forall id :: id in n.refiners.infos ==> m.refiners.infos[id].attestations >= n.refiners.infos[id].attestations)
      && (AdmissionError(c, n, call.block, call.now).Some? ==> m == n)
      && (CountedOf(c, n, call.block) == [] ==> m.refiners.infos == n.refiners.infos && m.chain.finality.Keys <= n.chain.finality.Keys)
      && (AdmissionError(c, n, call.block, call.now).None? && CountedOf(c, n, call.block) != [] && Unsaturated(n.refiners.infos) ==> CounterRose(n, m))
  {
    hide MoneyInv, PowSound, RoomFor, Accepts, After, AdmissionError, CountedFrom, Attested, NewlyFinalized, Threshold;
    RefusedStops(c, n, call);
    AttestedCounts(c, n, call.block);
    CountedAreKnown(c, n, call.block, 0);
    var done, p := CountedOf(c, n, call.block), Attested(c, n, call.block).0;
    ProgressDrift(n, done, p);
    hide ProgressOf;
  }

  lemma ProgressDrift(n: NodeState, done: seq<BlockAttestation>, p: Progress)
    requires ProgressOf(n, done, p)
    ensures p.refiners.infos.Keys == n.refiners.infos.Keys
    ensures forall id :: id in n.refiners.infos ==> p.refiners.infos[id].attestations >= n.refiners.infos[id].attestations
    ensures done == [] ==> p.refiners.infos == n.refiners.infos && p.index.Keys == n.chain.finality.Keys
    ensures done != [] && done[0].refiner in n.refiners.infos && n.refiners.infos[done[0].refiner].attestations < U64_MAX ==>
              p.refiners.infos[done[0].refiner].attestations > n.refiners.infos[done[0].refiner].attestations
  {
    if done == [] {
      forall id | id in n.refiners.infos ensures p.refiners.infos[id] == n.refiners.infos[id] { assert TimesCounted(done, id) == 0; }
      assert p.refiners.infos == n.refiners.infos;
    } else {
      CountedAtLeastOnce(done, done[0].refiner);
      assert done[0].refiner in RefinersIn(done);
    }
  }

  /** A refusal that is not harmless starts a drift. */
  lemma DriftStarts(c: Crypto, n: NodeState, call: Call)
    requires MoneyInv(n) && PowSound(c) && RoomFor(c, n, call.block, call.now) && !Accepts(c, n, call)
    requires Unsaturated(n.refiners.infos) && !Harmless(c, n, call)
    ensures Drifted(n, After(c, n, call))
  {
    RefusalDrift(c, n, call);
    if CountedOf(c, n, call.block) == [] {
      QuietlyPruned(c, n, call);
    }
    hide MoneyInv, PowSound, RoomFor, Accepts, After, AdmissionError, CountedOf, Quiet, CounterRose;
  }

  /** With nothing counted, only pruning can have done harm. */
  lemma QuietlyPruned(c: Crypto, n: NodeState, call: Call)
    requires MoneyInv(n) && PowSound(c) && RoomFor(c, n, call.block, call.now) && !Accepts(c, n, call)
    requires !Harmless(c, n, call) && CountedOf(c, n, call.block) == []
    ensures exists k :: k in n.chain.finality && k !in After(c, n, call).chain.finality
  {
    InvParts(n);
    RefusedStops(c, n, call);
    AttestedCounts(c, n, call.block);
    assert KeysIn([]) == {};
    assert AllSaturated(n, []) && AllRecorded(n, []) && KeptRecorded(n, []) && NoQuorum(n, []);
    assert !NothingToPrune(n);
    var k :| k in n.chain.finality && !Kept(n.chain, k);
    hide MoneyInv, PowSound, RoomFor, Accepts, After, AdmissionError, Attested, CountedFrom, NewlyFinalized, Threshold, RefInv, ProgressOf, NoQuorum;
    NotFinalizedIff(n, [], Attested(c, n, call.block).0);
  }

  /** Once drifted, always drifted. */
  lemma DriftStays(c: Crypto, a: NodeState, n: NodeState, call: Call)
    requires MoneyInv(n) && PowSound(c) && RoomFor(c, n, call.block, call.now) && !Accepts(c, n, call)
    requires Unsaturated(a.refiners.infos) && Drifted(a, n) && OnlyAttested(a, n)
    ensures Drifted(a, After(c, n, call))
  {
    var m := After(c, n, call);
    hide MoneyInv, PowSound, RoomFor, Accepts, After, AdmissionError, CountedOf;
    RefusalDrift(c, n, call);
    if CounterRose(a, n) {
      var id :| id in a.refiners.infos && id in n.refiners.infos && n.refiners.infos[id].attestations > a.refiners.infos[id].attestations;
      assert m.refiners.infos[id].attestations > a.refiners.infos[id].attestations;
      assert CounterRose(a, m);
    } else {
      var k :| k in a.chain.finality && k !in n.chain.finality;
      if AdmissionError(c, n, call.block, call.now).None? && CountedOf(c, n, call.block) != [] {
        assert CounterRose(n, m);
      } else {
        assert k !in m.chain.finality;
      }
    }
  }

  // ---- Exactly when a restart changes nothing ----

  /** Every call after the last accepted one was harmless. */
  ghost predicate HarmlessTail(c: Crypto, n: NodeState, calls: seq<Call>) {
    calls != [] && !Accepts(c, Run(c, n, calls[..|calls| - 1]), calls[|calls| - 1]) ==>
      && HarmlessTail(c, n, calls[..|calls| - 1])
      && Harmless(c, Run(c, n, calls[..|calls| - 1]), calls[|calls| - 1])
  }

  /** Since its last accepted block a node has stayed still exactly while everything
      it refused was harmless; otherwise it has drifted. */
  lemma {:induction false} TailDecides(c: Crypto, n: NodeState, calls: seq<Call>)
    requires IsGenesis(n) && PowSound(c) && Roomy(c, n, calls) && n.store.Some?
    requires Unsaturated(Anchor(c, n, calls).refiners.infos)
    ensures if HarmlessTail(c, n, calls) then Still(Anchor(c, n, calls), Run(c, n, calls)) else Drifted(Anchor(c, n, calls), Run(c, n, calls))
  {
    hide IsGenesis, PowSound, RoomFor, Accepts, After, MoneyInv, OnlyAttested, Anchor, Harmless, Unsaturated, Drifted;
    if calls == [] {
      AnchorOfNothing(c, n);
    } else {
      var init, last := calls[..|calls| - 1], calls[|calls| - 1];
      var a, m := Anchor(c, n, init), Run(c, n, init);
      AnchorUnfolds(c, n, calls);
      if !Accepts(c, m, last) {
        TailDecides(c, n, init);
        SupplyConserved(c, n, init);
        AnchorIsSaved(c, n, init);
        if HarmlessTail(c, n, init) { StillStep(c, a, m, last); } else { DriftStays(c, a, m, last); }
      }
    }
  }

  lemma StillStep(c: Crypto, a: NodeState, n: NodeState, call: Call)
    requires MoneyInv(n) && PowSound(c) && RoomFor(c, n, call.block, call.now) && !Accepts(c, n, call)
    requires Unsaturated(a.refiners.infos) && Still(a, n)
    ensures if Harmless(c, n, call) then Still(a, After(c, n, call)) else Drifted(a, After(c, n, call))
  {
    hide MoneyInv, PowSound, RoomFor, Accepts, After, Harmless;
    RefusedUnmovedIff(c, n, call);
    if !Harmless(c, n, call) { DriftStarts(c, n, call); }
  }

  lemma SameIffStill(a: NodeState, n: NodeState, m: NodeState)
    requires OnlyAttested(a, n) && RefInv(a.refiners) && RefInv(n.refiners) && SameNode(a, m)
    ensures SameNode(n, m) <==> Still(a, n)
  {
    hide RefInv;
  }

  lemma FreshFacts(n: NodeState, g: GenesisConfig, id: ObjectId, key: Option<Bytes>, store: Storage)
    requires IsFresh(n, g, id, key, Some(store))
    ensures IsGenesis(n) && n.store == Some(store) && store.saved.None? && n.chain.baseReward == g.baseReward
    ensures key.Some? && id != 0 ==> Keyed(n.accounts, id)
  {
    hide Allocate;
  }

  lemma {:induction false} RoomyPrefix(c: Crypto, n: NodeState, calls: seq<Call>, k: nat)
    requires Roomy(c, n, calls) && k <= |calls|
    ensures Roomy(c, n, calls[..k]) && AttestationsIn(calls[..k]) <= AttestationsIn(calls)
  {
    hide RoomFor, Run;
    if k < |calls| {
      var init := calls[..|calls| - 1];
      assert init[..k] == calls[..k];
      RoomyPrefix(c, n, init, k);
    } else {
      assert calls[..k] == calls;
    }
  }

  lemma AnchorFacts(c: Crypto, n: NodeState, calls: seq<Call>, id: ObjectId)
    requires IsGenesis(n) && PowSound(c) && Roomy(c, n, calls) && AttestationsIn(calls) < U64_MAX
    ensures var a := Anchor(c, n, calls);
      && MoneyInv(a) && |a.chain.timestamps| <= WINDOW && a.chain.baseReward == n.chain.baseReward
      && (Keyed(n.accounts, id) ==> Keyed(a.accounts, id))
      && Unsaturated(a.refiners.infos)
  {
    hide IsGenesis, PowSound, Roomy, Run, AllTimestamps, Retarget, LastAccepted, MoneyInv, Keyed, CountersAtMost;
    var k := LastAccepted(c, n, calls);
    RoomyPrefix(c, n, calls, k);
    SupplyConserved(c, n, calls[..k]);
    WindowIsPrunedHistory(c, n, calls[..k]);
    StandingKept(c, n, calls[..k], id);
    CountersWithinAttestations(c, n, calls[..k]);
    BelowMax(Anchor(c, n, calls).refiners.infos, AttestationsIn(calls[..k]));
  }

  lemma BelowMax(infos: Infos, bound: nat)
    requires CountersAtMost(infos, bound) && bound < U64_MAX
    ensures Unsaturated(infos)
  {
  }

  /** What the run has left on disk. */
  ghost function DiskOf(c: Crypto, n: NodeState, calls: seq<Call>): Storage {
    match Run(c, n, calls).store
    case Some(s) => s
    case None => Storage(map[], map[], None)
  }

  /** A restart brings back the anchor. */
  lemma AnchorLoads(c: Crypto, n: NodeState, g: GenesisConfig, id: ObjectId, key: Option<Bytes>, store: Storage, calls: seq<Call>, m: NodeState)
    requires IsFresh(n, g, id, key, Some(store)) && g.baseReward > 0
    requires PowSound(c) && Roomy(c, n, calls) && AttestationsIn(calls) < U64_MAX
    requires Restarts(g, id, key, DiskOf(c, n, calls), m)
    ensures SameNode(Anchor(c, n, calls), m)
  {
    hide PowSound, Roomy, Run, Anchor, MoneyInv, SavedState, IsGenesis, FreshNode, LoadsFrom, RefInv, AccountsOk, OnlyAttested, Unsaturated;
    var a := Anchor(c, n, calls);
    FreshFacts(n, g, id, key, store);
    AnchorIsSaved(c, n, calls);
    AnchorFacts(c, n, calls, id);
    MoneyParts(a);
    SavedIsSome(a);
    if SavedState(a) {
      SavedStateLoads(a, g, id, key, m);
    } else {
      SameAsItself(a);
    }
  }

  lemma SavedIsSome(n: NodeState)
    ensures SavedState(n) ==> n.store.Some? && n.store.value.saved.Some?
  {
  }

  lemma SameAsItself(n: NodeState)
    requires RefInv(n.refiners)
    ensures SameNode(n, n)
  {
    hide RefInv;
  }

  lemma MoneyParts(n: NodeState)
    requires MoneyInv(n)
    ensures RefInv(n.refiners) && AccountsOk(n.accounts)
  {
    hide RefInv, AccountsOk;
  }

  /** A node stopped after any run and started again on its disk is the node that
      stopped, but for the order of the active index, the dirty set and the pool, if and
      only if every block it refused since the last accepted one was harmless: state is
      saved with accepted blocks alone. */
  lemma RestartSameIff(c: Crypto, n: NodeState, g: GenesisConfig, id: ObjectId, key: Option<Bytes>, store: Storage, calls: seq<Call>, m: NodeState)
    requires IsFresh(n, g, id, key, Some(store)) && g.baseReward > 0
    requires PowSound(c) && Roomy(c, n, calls) && AttestationsIn(calls) < U64_MAX
    requires Restarts(g, id, key, DiskOf(c, n, calls), m)
    ensures SameNode(Run(c, n, calls), m) <==> HarmlessTail(c, n, calls)
  {
    hide *;
    var a, live := Anchor(c, n, calls), Run(c, n, calls);
    FreshFacts(n, g, id, key, store);
    SupplyConserved(c, n, calls);
    AnchorIsSaved(c, n, calls);
    AnchorFacts(c, n, calls, id);
    AnchorLoads(c, n, g, id, key, store, calls, m);
    TailDecides(c, n, calls);
    if !HarmlessTail(c, n, calls) { DriftedIsNotStill(a, live); }
    MoneyParts(a);
    MoneyParts(live);
    SameIffStill(a, live, m);
  }

  /** A node restarted after a harmless tail, in particular right after an accepted
      block, gives the same verdict on every further block and stays equivalent. */
  lemma RestartAgrees(c: Crypto, n: NodeState, g: GenesisConfig, id: ObjectId, key: Option<Bytes>, store: Storage, calls: seq<Call>, m: NodeState,
                      more: seq<Call>, call: Call)
    requires IsFresh(n, g, id, key, Some(store)) && g.baseReward > 0
    requires PowSound(c) && Roomy(c, n, calls) && AttestationsIn(calls) < U64_MAX
    requires Restarts(g, id, key, DiskOf(c, n, calls), m) && HarmlessTail(c, n, calls)
    ensures SameNode(Run(c, Run(c, n, calls), more), Run(c, m, more))
    ensures var x, y := Run(c, Run(c, n, calls), more), Run(c, m, more);
      ApplyBlock(c, x, call.block, call.now).result == ApplyBlock(c, y, call.block, call.now).result
  {
    hide *;
    var live := Run(c, n, calls);
    RestartSameIff(c, n, g, id, key, store, calls, m);
    SameRun(c, live, m, more);
    SameStep(c, Run(c, live, more), Run(c, m, more), call);
  }

  // ---- One refusal, one restart ----

  /** A node whose disk is up to date, one refused block, a restart: the same node
      comes back if and only if the block was harmless. */
  lemma RestartAfterRefusalIff(c: Crypto, n: NodeState, g: GenesisConfig, id: ObjectId, key: Option<Bytes>, call: Call, m: NodeState)
    requires MoneyInv(n) && PowSound(c) && RoomFor(c, n, call.block, call.now) && !Accepts(c, n, call)
    requires SavedState(n) && Restarts(g, id, key, n.store.value, m)
    requires |n.chain.timestamps| <= WINDOW && n.chain.baseReward > 0 && (key.Some? && id != 0 ==> Keyed(n.accounts, id))
    ensures SameNode(After(c, n, call), m) <==> Harmless(c, n, call)
  {
    hide PowSound, RoomFor, Accepts, After, Harmless, MoneyInv, Restarts, Keyed, RefInv, AccountsOk, SavedState, OnlyAttested;
    MoneyParts(n);
    SavedStateLoads(n, g, id, key, m);
    RefusedUnmovedIff(c, n, call);
    StepConserves(c, n, call);
    MoneyParts(After(c, n, call));
    SameIffStill(n, After(c, n, call), m);
  }
}
