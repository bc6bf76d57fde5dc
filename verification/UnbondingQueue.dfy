/** The unbonding queue: its order, and what each operation does to the flakes
    waiting in it for one account and one maturity height. */
module UnbondingQueue {
  import opened Numbers
  import opened Difficulty
  import opened Collections
  import opened Ledger
  import opened Types
  import opened Refiner
  import opened RefinerInvariant
  import opened Dispatcher
  import opened BlockApplication
  import opened Supply

  /** Sorted by maturity, and maturing strictly after `lo` and no later than `hi`. */
  ghost predicate QueueOk(queue: seq<PendingUnbond>, lo: int, hi: int) {
    && (forall i, j :: 0 <= i < j < |queue| ==> queue[i].maturesAt <= queue[j].maturesAt)
    && (forall i :: 0 <= i < |queue| ==> lo < queue[i].maturesAt <= hi)
  }

  /** Flakes queued for `id` that mature at exactly `height`. */
  function QueuedAt(queue: seq<PendingUnbond>, id: ObjectId, height: nat): nat {
    if queue == [] then 0
    else
      var last := queue[|queue| - 1];
      QueuedAt(queue[..|queue| - 1], id, height) + if last.account == id && last.maturesAt == height then last.amount else 0
  }

  lemma PushOk(queue: seq<PendingUnbond>, u: PendingUnbond, lo: int, hi: int)
    requires QueueOk(queue, lo, hi) && lo < u.maturesAt <= hi
    requires forall i :: 0 <= i < |queue| ==> queue[i].maturesAt <= u.maturesAt
    ensures QueueOk(queue + [u], lo, hi)
  {
  }

  lemma PopOk(queue: seq<PendingUnbond>, lo: int, hi: int)
    requires QueueOk(queue, lo, hi) && queue != []
    ensures QueueOk(queue[..|queue| - 1], lo, hi)
    ensures forall u :: u in queue[..|queue| - 1] ==> u.maturesAt <= queue[|queue| - 1].maturesAt
    ensures lo < queue[|queue| - 1].maturesAt <= hi
  {
  }

  lemma QueuedAtPush(queue: seq<PendingUnbond>, u: PendingUnbond, id: ObjectId, height: nat)
    ensures QueuedAt(queue + [u], id, height) == QueuedAt(queue, id, height) + if u.account == id && u.maturesAt == height then u.amount else 0
  {
    assert (queue + [u])[..|queue|] == queue;
  }

  lemma {:induction false} QueuedAtAppend(queue: seq<PendingUnbond>, more: seq<PendingUnbond>, id: ObjectId, height: nat)
    ensures QueuedAt(queue + more, id, height) == QueuedAt(queue, id, height) + QueuedAt(more, id, height)
  {
    if more == [] {
      assert queue + more == queue;
    } else {
      var init, last := more[..|more| - 1], more[|more| - 1];
      QueuedAtAppend(queue, init, id, height);
      assert queue + more == queue + init + [last];
      QueuedAtPush(queue + init, last, id, height);
    }
  }

  lemma {:induction false} QueuedAtWithin(queue: seq<PendingUnbond>, id: ObjectId, height: nat)
    ensures QueuedAt(queue, id, height) <= QueuedFor(queue, id)
    ensures (forall i :: 0 <= i < |queue| ==> queue[i].maturesAt != height) ==> QueuedAt(queue, id, height) == 0
  {
    if queue != [] { QueuedAtWithin(queue[..|queue| - 1], id, height); }
  }

  // ---- Operations ----

  lemma {:induction false} WithoutAccountOrder(queue: seq<PendingUnbond>, id: ObjectId, lo: int, hi: int)
    requires QueueOk(queue, lo, hi)
    ensures QueueOk(WithoutAccount(queue, id), lo, hi)
  {
    hide QueueOk;
    if queue != [] {
      var init, last := queue[..|queue| - 1], queue[|queue| - 1];
      PopOk(queue, lo, hi);
      WithoutAccountOrder(init, id, lo, hi);
      WithoutAccountItems(init, id);
      PushOk(WithoutAccount(init, id), last, lo, hi);
    } else {
      EmptyOk(lo, hi);
    }
  }

  lemma EmptyOk(lo: int, hi: int)
    ensures QueueOk([], lo, hi)
  {
  }

  lemma {:induction false} WithoutAccountAt(queue: seq<PendingUnbond>, id: ObjectId, other: ObjectId, height: nat)
    ensures QueuedAt(WithoutAccount(queue, id), other, height) == if other == id then 0 else QueuedAt(queue, other, height)
  {
    if queue != [] {
      var init, last := queue[..|queue| - 1], queue[|queue| - 1];
      WithoutAccountAt(init, id, other, height);
      QueuedAtPush(WithoutAccount(init, id), last, other, height);
    }
  }

  lemma {:induction false} StillQueuedOrder(queue: seq<PendingUnbond>, height: u64, lo: int, hi: int)
    requires QueueOk(queue, lo, hi)
    ensures QueueOk(StillQueued(queue, height), height, hi)
  {
    hide QueueOk;
    if queue != [] {
      var init, last := queue[..|queue| - 1], queue[|queue| - 1];
      PopOk(queue, lo, hi);
      StillQueuedOrder(init, height, lo, hi);
      StillQueuedItems(init, height);
      if height < last.maturesAt { PushOk(StillQueued(init, height), last, height, hi); }
    } else {
      EmptyOk(height, hi);
    }
  }

  lemma {:induction false} StillQueuedAt(queue: seq<PendingUnbond>, height: u64, id: ObjectId, at: nat)
    ensures QueuedAt(StillQueued(queue, height), id, at) == if at <= height then 0 else QueuedAt(queue, id, at)
  {
    if queue != [] {
      var init, last := queue[..|queue| - 1], queue[|queue| - 1];
      StillQueuedAt(init, height, id, at);
      QueuedAtPush(StillQueued(init, height), last, id, at);
    }
  }

  /** When nothing is overdue, what matures now is what was queued for now. */
  lemma {:induction false} MaturesOnTime(queue: seq<PendingUnbond>, height: u64, id: ObjectId)
    requires forall i :: 0 <= i < |queue| ==> height <= queue[i].maturesAt
    ensures MaturedFor(Matured(queue, height), id) == QueuedAt(queue, id, height)
  {
    if queue != [] {
      var init, last := queue[..|queue| - 1], queue[|queue| - 1];
      MaturesOnTime(init, height, id);
      var m := Matured(init, height);
      assert (m + [(last.account, last.amount)])[..|m|] == m;
    }
  }

  lemma NothingQueuedAt(r: RefinerState, id: ObjectId, at: nat)
    requires RefInv(r) && (id !in r.infos || r.infos[id].status.Slashed?)
    ensures QueuedAt(r.queue, id, at) == 0
  {
    QueuedIsLive(r, id);
    NoneQueued(r.queue, id);
    QueuedAtWithin(r.queue, id, at);
  }

  // ---- Slashing ----

  lemma SlashOneQueue(s: Slashing, id: ObjectId, lo: int, hi: int, other: ObjectId, at: nat)
    requires RefInv(s.refiners) && QueueOk(s.refiners.queue, lo, hi)
    ensures var r := SlashOne(s, id).refiners;
      && RefInv(r) && QueueOk(r.queue, lo, hi)
      && (IsSlashed(s.refiners, other) ==> IsSlashed(r, other))
      && (!IsSlashed(r, other) ==> QueuedAt(r.queue, other, at) == QueuedAt(s.refiners.queue, other, at))
  {
    SlashKeeps(s.refiners, id);
    WithoutAccountOrder(s.refiners.queue, id, lo, hi);
    WithoutAccountAt(s.refiners.queue, id, other, at);
    if other !in s.refiners.infos { NothingQueuedAt(s.refiners, other, at); }
    hide RefInv, QueueOk, QueuedAt, WithoutAccount;
  }

  /** Slashing keeps the queue's order and the withdrawals of everyone it spares. */
  lemma {:induction false} SlashAllQueue(c: Crypto, evidence: seq<DoubleSignEvidence>, seen: set<(ObjectId, u64)>, s: Slashing,
                                         lo: int, hi: int, id: ObjectId, at: nat)
    requires RefInv(s.refiners) && QueueOk(s.refiners.queue, lo, hi)
    ensures var r := SlashAll(c, evidence, seen, s).refiners;
      && QueueOk(r.queue, lo, hi)
      && (IsSlashed(s.refiners, id) ==> IsSlashed(r, id))
      && (!IsSlashed(r, id) ==> QueuedAt(r.queue, id, at) == QueuedAt(s.refiners.queue, id, at))
    decreases |evidence|
  {
    hide SlashOne, RefInv, IsSlashed, EvidenceHolds, QueueOk, QueuedAt;
    if evidence != [] {
      var e := evidence[0];
      if (e.producer, e.height) in seen || !EvidenceHolds(c, e) {
        SlashAllQueue(c, evidence[1..], seen, s, lo, hi, id, at);
      } else {
        SlashOneQueue(s, e.producer, lo, hi, id, at);
        SlashAllQueue(c, evidence[1..], seen + {(e.producer, e.height)}, SlashOne(s, e.producer), lo, hi, id, at);
      }
    }
  }

  // ---- Transactions ----

  /** What one transaction adds to the queue. */
  ghost function Enqueued(c: Crypto, tx: Transaction, t: Tally, ctx: Context): seq<PendingUnbond> {
    if tx.action.RefinerUnbond? && ResultOf(c, tx, t, ctx).TxOk?
    then [PendingUnbond(tx.sender, tx.action.unbonded, SatAdd64(ctx.height, EPOCH))]
    else []
  }

  lemma ExecutedQueue(c: Crypto, tx: Transaction, t: Tally, ctx: Context)
    ensures Executed(c, tx, t, ctx).refiners.queue == t.refiners.queue + Enqueued(c, tx, t, ctx)
  {
    hide BondAssay, UnbondAssay, MinimumBond, DropFlakes, AddEntry, Ledger.Transfer, Verified;
    var out := ApplyTransaction(c, tx, t.accounts, t.refiners, ctx);
    if out.result.TxErr? {
      FailureIsNoOp(c, tx, t.accounts, t.refiners, ctx);
    }
  }

  /** What a block's transactions add to the queue, in order. */
  ghost function NewUnbonds(c: Crypto, txs: seq<Transaction>, t: Tally, ctx: Context): seq<PendingUnbond>
    decreases |txs|
  {
    if txs == [] then []
    else
      var executed := Executed(c, txs[0], t, ctx);
      match Charge(executed, ResultOf(c, txs[0], t, ctx), txs[0].fee)
      case None => Enqueued(c, txs[0], t, ctx)
      case Some(charged) => Enqueued(c, txs[0], t, ctx) + NewUnbonds(c, txs[1..], charged.(pool := charged.pool - {txs[0].txId}), ctx)
  }

  lemma ChargeKeepsRefiners(t: Tally, result: TxResult, fee: u64)
    ensures Charge(t, result, fee).Some? ==> Charge(t, result, fee).value.refiners == t.refiners && Charge(t, result, fee).value.accounts == t.accounts
  {
  }

  lemma {:induction false} RunTransactionsQueue(c: Crypto, txs: seq<Transaction>, t: Tally, ctx: Context)
    ensures RunTransactions(c, txs, t, ctx).0.refiners.queue == t.refiners.queue + NewUnbonds(c, txs, t, ctx)
    ensures forall i :: 0 <= i < |NewUnbonds(c, txs, t, ctx)| ==> NewUnbonds(c, txs, t, ctx)[i].maturesAt == SatAdd64(ctx.height, EPOCH)
    decreases |txs|
  {
    hide Charge, Executed, ResultOf;
    if txs != [] {
      var executed := Executed(c, txs[0], t, ctx);
      ExecutedQueue(c, txs[0], t, ctx);
      ChargeKeepsRefiners(executed, ResultOf(c, txs[0], t, ctx), txs[0].fee);
      var charged := Charge(executed, ResultOf(c, txs[0], t, ctx), txs[0].fee);
      if charged.Some? {
        RunTransactionsQueue(c, txs[1..], charged.value.(pool := charged.value.pool - {txs[0].txId}), ctx);
      }
    }
  }

  lemma {:induction false} AppendOk(queue: seq<PendingUnbond>, more: seq<PendingUnbond>, lo: int, hi: int, at: int)
    requires QueueOk(queue, lo, hi) && lo < at && hi <= at
    requires forall i :: 0 <= i < |more| ==> more[i].maturesAt == at
    ensures QueueOk(queue + more, lo, at)
  {
  }

  // ---- Payout ----

  lemma {:induction false} MaturedForCons(matured: seq<(ObjectId, u64)>, id: ObjectId)
    requires matured != []
    ensures MaturedFor(matured, id) == (if matured[0].0 == id then matured[0].1 else 0) + MaturedFor(matured[1..], id)
  {
    if |matured| > 1 {
      MaturedForCons(matured[..|matured| - 1], id);
      assert matured[1..][..|matured| - 2] == matured[..|matured| - 1][1..];
    } else {
      assert matured[1..] == [] && matured[..0] == [];
    }
  }

  /** Paying out credits every account with exactly what matured for it. */
  lemma {:induction false} CreditAllPays(a: Accounts, drained: seq<(ObjectId, u64)>, id: ObjectId)
    requires TotalBalance(a) + MaturedTotal(drained) <= U64_MAX
    ensures BalanceOf(CreditAll(a, drained).0, id) == BalanceOf(a, id) + MaturedFor(drained, id)
    decreases |drained|
  {
    hide CreditOrCreate, TotalBalance, AccountsOk, BalanceOf;
    if drained != [] {
      MaturedTotalCons(drained);
      MaturedForCons(drained, id);
      CreditOrCreateAdds(a, drained[0].0, drained[0].1);
      if id != drained[0].0 { CreditedOthers(a, drained[0].0, drained[0].1, id); }
      CreditAllPays(CreditOrCreate(a, drained[0].0, drained[0].1).value, drained[1..], id);
    }
  }

  lemma CreditedOthers(a: Accounts, to: ObjectId, amount: u64, id: ObjectId)
    requires CreditOrCreate(a, to, amount).Ok? && id != to
    ensures BalanceOf(CreditOrCreate(a, to, amount).value, id) == BalanceOf(a, id)
  {
  }
}
