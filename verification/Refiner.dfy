/** Refiner collateral (crates/consensus/src/refiner.rs): bonds, FIFO unbonding,
    the delayed withdrawal queue, ranking and slashing.

    Each operation of `RefinerSet` is given as a function on `RefinerState`; the
    class of that name in module `RefinerStore` does them in place. */
module Refiner {
  import opened Numbers
  import opened IntegerSqrt
  import opened Difficulty
  import opened Collections

  const FLAKES_PER_OPL: u64 := 1_000_000

  datatype BondEntry = BondEntry(stake: u64, height: u64, timestamp: u64)

  datatype RefinerStatus = NotRefiner | Bonding | Waiting | Active | Unbonding | Slashed

  datatype RefinerInfo = RefinerInfo(
    objectId: ObjectId,
    entries: seq<BondEntry>,
    status: RefinerStatus,
    lastSignedHeight: u64,
    attestations: u64)

  datatype PendingUnbond = PendingUnbond(account: ObjectId, amount: u64, maturesAt: u64)

  type Infos = map<ObjectId, RefinerInfo>

  datatype RefinerState = RefinerState(
    infos: Infos,
    active: seq<ObjectId>,
    dirty: set<ObjectId>,
    queue: seq<PendingUnbond>)

  datatype RefinerError =
    | InsufficientStake
    | SlashedCannotBond
    | EntryOverflow
    | NotBonded
    | NoStake
    | ZeroUnbond
    | ExceedsStake
    | RefinerNotFound
    | NotActive

  // ---- Stakes ----

  /** The stake of some entries as an unbounded number. */
  function StakeSum(entries: seq<BondEntry>): nat {
    if entries == [] then 0 else entries[0].stake + StakeSum(entries[1..])
  }

  /** `RefinerInfo::total_stake` and `weight`: a wrapping u64 sum. */
  function TotalStake(info: RefinerInfo): u64 {
    Wrap64(StakeSum(info.entries))
  }

  function StakeMap(infos: Infos): map<ObjectId, nat> {
    map id | id in infos :: TotalStake(infos[id])
  }

  ghost function MinimumBond(issued: u64): u64 {
    Min(Max(SqrtFloor(issued / FLAKES_PER_OPL), 1) * FLAKES_PER_OPL, U64_MAX)
  }

  ghost function ActiveLimit(issued: u64): nat {
    EPOCH + SqrtFloor(issued / FLAKES_PER_OPL)
  }

  // ---- Bonding ----

  /** Position of the first entry stamped `timestamp`, or the length. */
  function FindTimestamp(entries: seq<BondEntry>, timestamp: u64): (i: nat)
    ensures i <= |entries|
    ensures i < |entries| ==> entries[i].timestamp == timestamp
  {
    if entries == [] || entries[0].timestamp == timestamp then 0
    else 1 + FindTimestamp(entries[1..], timestamp)
  }

  /** Position of the first entry stamped later than `timestamp`, or the length. */
  function InsertPosition(entries: seq<BondEntry>, timestamp: u64): (i: nat)
    ensures i <= |entries|
  {
    if entries == [] || entries[0].timestamp > timestamp then 0
    else 1 + InsertPosition(entries[1..], timestamp)
  }

  /** `add_entry`: merge into a same-timestamp entry or insert in time order. */
  function AddEntry(entries: seq<BondEntry>, stake: u64, height: u64, timestamp: u64): Option<seq<BondEntry>> {
    var i := FindTimestamp(entries, timestamp);
    if i < |entries| then
      match CheckedAdd64(entries[i].stake, stake)
      case Some(sum) => Some(entries[i := entries[i].(stake := sum)])
      case None => None
    else
      var p := InsertPosition(entries, timestamp);
      Some(entries[..p] + [BondEntry(stake, height, timestamp)] + entries[p..])
  }

  ghost function Bond(r: RefinerState, id: ObjectId, stake: u64, height: u64, timestamp: u64, issued: u64): Result<RefinerState, RefinerError> {
    if stake < MinimumBond(issued) then Err(InsufficientStake)
    else if id in r.infos then
      var info := r.infos[id];
      if info.status.Slashed? then Err(SlashedCannotBond)
      else
        match AddEntry(info.entries, stake, height, timestamp)
        case None => Err(EntryOverflow)
        case Some(entries) =>
          var status := if info.status.Unbonding? then Bonding else info.status;
          Ok(r.(infos := r.infos[id := info.(entries := entries, status := status)], dirty := r.dirty + {id}))
    else
      var info := RefinerInfo(id, [BondEntry(stake, height, timestamp)], Bonding, 0, 0);
      Ok(r.(infos := r.infos[id := info], dirty := r.dirty + {id}))
  }

  // ---- Unbonding ----

  /** Drop `amount` flakes from the front; only the entry where they run out is split. */
  function DropFlakes(entries: seq<BondEntry>, amount: nat): seq<BondEntry> {
    if amount == 0 || entries == [] then entries
    else if entries[0].stake <= amount then DropFlakes(entries[1..], amount - entries[0].stake)
    else [entries[0].(stake := entries[0].stake - amount)] + entries[1..]
  }

  function Unbond(r: RefinerState, id: ObjectId, amount: u64, height: u64): Result<RefinerState, RefinerError> {
    if id !in r.infos then Err(NotBonded)
    else
      var info := r.infos[id];
      if TotalStake(info) == 0 then Err(NoStake)
      else if amount == 0 then Err(ZeroUnbond)
      else if amount > TotalStake(info) then Err(ExceedsStake)
      else
        var entries := DropFlakes(info.entries, amount);
        var status := if entries == [] then Unbonding else info.status;
        Ok(RefinerState(
             r.infos[id := info.(entries := entries, status := status)],
             if entries == [] then Retain(r.active, {id}) else r.active,
             r.dirty + {id},
             r.queue + [PendingUnbond(id, amount, SatAdd64(height, EPOCH))]))
  }

  // ---- Maturity ----

  function Matured(queue: seq<PendingUnbond>, height: u64): seq<(ObjectId, u64)> {
    if queue == [] then []
    else
      var init, last := queue[..|queue| - 1], queue[|queue| - 1];
      if height >= last.maturesAt then Matured(init, height) + [(last.account, last.amount)]
      else Matured(init, height)
  }

  function StillQueued(queue: seq<PendingUnbond>, height: u64): seq<PendingUnbond> {
    if queue == [] then []
    else
      var init, last := queue[..|queue| - 1], queue[|queue| - 1];
      if height >= last.maturesAt then StillQueued(init, height)
      else StillQueued(init, height) + [last]
  }

  predicate Pending(queue: seq<PendingUnbond>, id: ObjectId) {
    exists i :: 0 <= i < |queue| && queue[i].account == id
  }

  predicate Departs(r: RefinerState, height: u64, id: ObjectId) {
    && id in r.infos
    && r.infos[id].status.Unbonding?
    && TotalStake(r.infos[id]) == 0
    && !Pending(StillQueued(r.queue, height), id)
  }

  /** Matured accounts whose refiner record is dropped with their last withdrawal. */
  function Departing(r: RefinerState, height: u64, matured: seq<(ObjectId, u64)>): set<ObjectId> {
    set i | 0 <= i < |matured| && Departs(r, height, matured[i].0) :: matured[i].0
  }

  function ProcessMatured(r: RefinerState, height: u64): RefinerState {
    var gone := Departing(r, height, Matured(r.queue, height));
    r.(infos := r.infos - gone, active := Retain(r.active, gone), queue := StillQueued(r.queue, height))
  }

  // ---- Activation and ranking ----

  predicate MaturedBond(info: RefinerInfo, height: u64) {
    info.status.Bonding? && info.entries != [] && height >= SatAdd64(info.entries[0].height, EPOCH)
  }

  function NewlyWaiting(infos: Infos, height: u64): set<ObjectId> {
    set id | id in infos && MaturedBond(infos[id], height)
  }

  function ActivateMatured(r: RefinerState, height: u64): RefinerState {
    var ids := NewlyWaiting(r.infos, height);
    r.(infos := map id | id in r.infos :: if id in ids then r.infos[id].(status := Waiting, lastSignedHeight := height) else r.infos[id],
       dirty := r.dirty + ids)
  }

  function Eligible(infos: Infos): set<ObjectId> {
    set id | id in infos && !infos[id].status.Slashed? && TotalStake(infos[id]) > 0
  }

  /** Ranking order: larger stake first, then smaller id. */
  predicate Precedes(infos: Infos, a: ObjectId, b: ObjectId)
    requires a in infos && b in infos
  {
    var s, t := TotalStake(infos[a]), TotalStake(infos[b]);
    s > t || (s == t && a < b)
  }

  predicate IsTop(infos: Infos, ids: set<ObjectId>, x: ObjectId)
    requires ids <= infos.Keys
  {
    x in ids && forall y :: y in ids ==> y == x || Precedes(infos, x, y)
  }

  lemma {:induction false} TopFrom(infos: Infos, ids: set<ObjectId>, x: ObjectId)
    requires ids <= infos.Keys && x in ids
    ensures exists t :: IsTop(infos, ids, t)
    decreases U64_MAX - TotalStake(infos[x]), x
  {
    hide TotalStake;
    if y :| y in ids && y != x && Precedes(infos, y, x) {
      TopFrom(infos, ids, y);
    } else {
      assert IsTop(infos, ids, x);
    }
  }

  function Top(infos: Infos, ids: set<ObjectId>): (t: ObjectId)
    requires ids <= infos.Keys && ids != {}
    ensures IsTop(infos, ids, t)
  {
    assert exists t :: IsTop(infos, ids, t) by {
      var x :| x in ids;
      TopFrom(infos, ids, x);
    }
    var t :| t in ids && IsTop(infos, ids, t);
    t
  }

  /** The library sort by descending stake, then ascending id. */
  function Ranking(infos: Infos, ids: set<ObjectId>): seq<ObjectId>
    requires ids <= infos.Keys
  {
    if ids == {} then [] else [Top(infos, ids)] + Ranking(infos, ids - {Top(infos, ids)})
  }

  function WithStatus(infos: Infos, status: RefinerStatus, ids: seq<ObjectId>): set<ObjectId> {
    set id | id in ids && id in infos && infos[id].status == status
  }

  function PlacedInfos(infos: Infos, promoted: set<ObjectId>, demoted: set<ObjectId>): (placed: Infos)
    ensures placed.Keys == infos.Keys
  {
    map id | id in infos ::
      if id in promoted then infos[id].(status := Active)
      else if id in demoted then infos[id].(status := Waiting)
      else infos[id]
  }

  /** `promoted` (listed by `pushed`) become Active, `demoted` become Waiting. */
  function Rearranged(r: RefinerState, pushed: seq<ObjectId>, promoted: set<ObjectId>, demoted: set<ObjectId>): RefinerState {
    r.(infos := PlacedInfos(r.infos, promoted, demoted),
       active := Retain(r.active + pushed, demoted),
       dirty := r.dirty + promoted + demoted)
  }

  /** The effect of the ranking loop on the first `n` ranked refiners. */
  function RerankPrefix(r: RefinerState, ranked: seq<ObjectId>, limit: nat, n: nat): RefinerState
    requires n <= |ranked|
  {
    var cut := Min(limit, n);
    var promoted := WithStatus(r.infos, Waiting, ranked[..cut]);
    Rearranged(r, Only(ranked[..cut], promoted), promoted, WithStatus(r.infos, Active, ranked[cut..n]))
  }

  ghost function Rerank(r: RefinerState, issued: u64): RefinerState {
    var ranked := Ranking(r.infos, Eligible(r.infos));
    RerankPrefix(r, ranked, ActiveLimit(issued), |ranked|)
  }

  // ---- Slashing and attestations ----

  function WithoutAccount(queue: seq<PendingUnbond>, id: ObjectId): seq<PendingUnbond> {
    if queue == [] then []
    else
      var init, last := queue[..|queue| - 1], queue[|queue| - 1];
      if last.account == id then WithoutAccount(init, id) else WithoutAccount(init, id) + [last]
  }

  /** What one account has waiting in the queue. */
  function QueuedFor(queue: seq<PendingUnbond>, id: ObjectId): nat {
    if queue == [] then 0
    else
      var init, last := queue[..|queue| - 1], queue[|queue| - 1];
      QueuedFor(init, id) + if last.account == id then last.amount else 0
  }

  function Zeroed(entries: seq<BondEntry>): (r: seq<BondEntry>)
    ensures |r| == |entries|
  {
    seq(|entries|, i requires 0 <= i < |entries| => entries[i].(stake := 0))
  }

  function Slash(r: RefinerState, id: ObjectId): (RefinerState, Result<u64, RefinerError>) {
    var pending := ClampU64(QueuedFor(r.queue, id));
    var drained := r.(queue := WithoutAccount(r.queue, id));
    if id !in r.infos then
      (drained, if pending > 0 then Ok(pending) else Err(RefinerNotFound))
    else
      var info := r.infos[id];
      if info.status.Slashed? then (drained, Ok(pending))
      else
        (RefinerState(
           r.infos[id := info.(status := Slashed, entries := Zeroed(info.entries))],
           Retain(r.active, {id}),
           r.dirty + {id},
           WithoutAccount(r.queue, id)),
         Ok(SatAdd64(TotalStake(info), pending)))
  }

  function RecordAttestation(r: RefinerState, id: ObjectId): Result<RefinerState, RefinerError> {
    if id !in r.infos then Err(RefinerNotFound)
    else if !r.infos[id].status.Active? then Err(NotActive)
    else
      var info := r.infos[id];
      Ok(r.(infos := r.infos[id := info.(attestations := SatAdd64(info.attestations, 1))], dirty := r.dirty + {id}))
  }

  // ---- Totals ----

  predicate Counted(infos: Infos, id: ObjectId) {
    id in infos && (infos[id].status.Bonding? || infos[id].status.Waiting?)
  }

  /** Bonding and Waiting refiners, which the active index does not list. */
  function OtherIds(infos: Infos): set<ObjectId> {
    set id | id in infos && Counted(infos, id)
  }

  /** `total_bonded_stake`: the active index plus everything Bonding or Waiting. */
  ghost function TotalBonded(r: RefinerState): u64 {
    SatAdd64(Wrap64(SumAlong(r.active, StakeMap(r.infos))), Wrap64(Part(StakeMap(r.infos), OtherIds(r.infos))))
  }
}
