/** Nonces over runs: no transaction is ever executed twice. */
module Nonces {
  import opened Numbers
  import opened Collections
  import opened Ledger
  import opened Types
  import opened Refiner
  import opened RefinerInvariant
  import opened Dispatcher
  import opened Chain
  import opened BlockApplication
  import opened Supply
  import opened BlockLaws
  import opened Genesis
  import opened Runs
  import opened UnbondingQueue

  /** The nonces of a sender's successful transactions in a block, in order. */
  ghost function SuccessNonces(c: Crypto, txs: seq<Transaction>, t: Tally, ctx: Context, sender: ObjectId): seq<nat>
    decreases |txs|
  {
    if txs == [] then []
    else
      var executed := Executed(c, txs[0], t, ctx);
      var first := if ResultOf(c, txs[0], t, ctx).TxOk? && txs[0].sender == sender then [txs[0].nonce] else [];
      match Charge(executed, ResultOf(c, txs[0], t, ctx), txs[0].fee)
      case None => first
      case Some(charged) => first + SuccessNonces(c, txs[1..], charged.(pool := charged.pool - {txs[0].txId}), ctx, sender)
  }

  ghost predicate Consecutive(nonces: seq<nat>, from: nat) {
    forall i :: 0 <= i < |nonces| ==> nonces[i] == from + i
  }

  lemma ExecutedNonce(c: Crypto, tx: Transaction, t: Tally, ctx: Context, sender: ObjectId)
    requires RefInv(t.refiners)
    ensures var u := Executed(c, tx, t, ctx);
      if ResultOf(c, tx, t, ctx).TxOk? && tx.sender == sender
      then tx.nonce == NonceOf(t.accounts, sender) && NonceOf(u.accounts, sender) == NonceOf(t.accounts, sender) + 1
      else NonceOf(u.accounts, sender) == NonceOf(t.accounts, sender)
  {
    if ResultOf(c, tx, t, ctx).TxOk? {
      SuccessSettles(c, tx, t.accounts, t.refiners, ctx);
    } else {
      FailureIsNoOp(c, tx, t.accounts, t.refiners, ctx);
    }
    hide ApplyTransaction, RefInv, AccountsOk, Custody, IsSlashed, TotalBalance;
  }

  lemma ConsecutiveJoin(a: seq<nat>, b: seq<nat>, from: nat)
    requires Consecutive(a, from) && Consecutive(b, from + |a|)
    ensures Consecutive(a + b, from)
  {
  }

  /** The tally the next transaction starts from. */
  ghost function NextTally(c: Crypto, tx: Transaction, t: Tally, ctx: Context): Option<Tally> {
    match Charge(Executed(c, tx, t, ctx), ResultOf(c, tx, t, ctx), tx.fee)
    case None => None
    case Some(charged) => Some(charged.(pool := charged.pool - {tx.txId}))
  }

  ghost function FirstNonce(c: Crypto, tx: Transaction, t: Tally, ctx: Context, sender: ObjectId): seq<nat> {
    if ResultOf(c, tx, t, ctx).TxOk? && tx.sender == sender then [tx.nonce] else []
  }

  lemma RunUnfolds(c: Crypto, txs: seq<Transaction>, t: Tally, ctx: Context, sender: ObjectId)
    requires txs != [] && NextTally(c, txs[0], t, ctx).Some?
    ensures var next := NextTally(c, txs[0], t, ctx).value;
      && RunTransactions(c, txs, t, ctx) == RunTransactions(c, txs[1..], next, ctx)
      && SuccessNonces(c, txs, t, ctx, sender) == FirstNonce(c, txs[0], t, ctx, sender) + SuccessNonces(c, txs[1..], next, ctx, sender)
  {
    hide Charge, Executed, ResultOf;
  }

  lemma NextNonce(c: Crypto, tx: Transaction, t: Tally, ctx: Context, sender: ObjectId)
    requires TallyOk(t) && t.successes < U64_MAX
    ensures NextTally(c, tx, t, ctx).Some?
    ensures var next, first := NextTally(c, tx, t, ctx).value, FirstNonce(c, tx, t, ctx, sender);
      && TallyOk(next) && next.successes <= t.successes + 1
      && NonceOf(next.accounts, sender) == NonceOf(t.accounts, sender) + |first|
      && Consecutive(first, NonceOf(t.accounts, sender))
  {
    TallyRefiners(t);
    hide TallyOk, Charge, Executed, ResultOf, RefInv, IsSlashed, NonceOf;
    ExecutedKeeps(c, tx, t, ctx);
    ExecutedNonce(c, tx, t, ctx, sender);
    ChargeKeepsRefiners(Executed(c, tx, t, ctx), ResultOf(c, tx, t, ctx), tx.fee);
    var charged := Charge(Executed(c, tx, t, ctx), ResultOf(c, tx, t, ctx), tx.fee).value;
    PoolIrrelevant(charged, charged.pool - {tx.txId});
  }

  lemma {:induction false} RunTransactionsNonces(c: Crypto, txs: seq<Transaction>, t: Tally, ctx: Context, sender: ObjectId)
    requires TallyOk(t) && t.successes + |txs| <= U64_MAX
    ensures var u, nonces := RunTransactions(c, txs, t, ctx).0, SuccessNonces(c, txs, t, ctx, sender);
      && NonceOf(u.accounts, sender) == NonceOf(t.accounts, sender) + |nonces|
      && Consecutive(nonces, NonceOf(t.accounts, sender))
    decreases |txs|
  {
    if txs == [] {
      hide NonceOf, TallyOk;
    } else {
      hide *;
      NextNonce(c, txs[0], t, ctx, sender);
      RunUnfolds(c, txs, t, ctx, sender);
      var next := NextTally(c, txs[0], t, ctx).value;
      RunTransactionsNonces(c, txs[1..], next, ctx, sender);
      ConsecutiveJoin(FirstNonce(c, txs[0], t, ctx, sender), SuccessNonces(c, txs[1..], next, ctx, sender), NonceOf(t.accounts, sender));
    }
  }

  lemma TallyRefiners(t: Tally)
    requires TallyOk(t)
    ensures RefInv(t.refiners)
  {
    hide RefInv;
  }

  lemma {:induction false} CreditAllNonces(a: Accounts, drained: seq<(ObjectId, u64)>, id: ObjectId)
    ensures NonceOf(CreditAll(a, drained).0, id) == NonceOf(a, id)
    decreases |drained|
  {
    if drained != [] {
      var credited := CreditOrCreate(a, drained[0].0, drained[0].1);
      if credited.Ok? { CreditAllNonces(credited.value, drained[1..], id); }
    }
  }

  lemma PayProducerNonces(a: Accounts, producer: ObjectId, amount: u64, id: ObjectId)
    ensures PayProducer(a, producer, amount).Ok? ==> NonceOf(PayProducer(a, producer, amount).value, id) == NonceOf(a, id)
  {
  }

  /** The nonces one sender used in a traced block. */
  ghost function TraceNonces(c: Crypto, block: Block, tr: Trace, sender: ObjectId): seq<nat> {
    SuccessNonces(c, block.transactions, StartTally(tr.slashed, tr.rewarded), ContextOf(tr.slashed, block.header), sender)
  }

  lemma TracedNonces(c: Crypto, n: NodeState, block: Block, kind: ProductionKind, now: u64, tr: Trace, sender: ObjectId)
    requires MoneyInv(n) && Executable(c, n, block, kind) && Traced(c, n, block, kind, now, tr)
    ensures var nonces := TraceNonces(c, block, tr, sender);
      && NonceOf(tr.paid.accounts, sender) == NonceOf(n.accounts, sender) + |nonces|
      && Consecutive(nonces, NonceOf(n.accounts, sender))
  {
    StartTallyOk(c, n, block, kind, now, tr);
    StartNonces(c, n, block, kind, tr, sender);
    EndNonces(c, block, now, tr, sender);
    hide *;
    RunTransactionsNonces(c, block.transactions, StartTally(tr.slashed, tr.rewarded), ContextOf(tr.slashed, block.header), sender);
    JoinNonces(c, n, block, kind, tr, sender);
  }

  lemma StartTallyOk(c: Crypto, n: NodeState, block: Block, kind: ProductionKind, now: u64, tr: Trace)
    requires MoneyInv(n) && Executable(c, n, block, kind) && Traced(c, n, block, kind, now, tr)
    ensures var t := StartTally(tr.slashed, tr.rewarded); TallyOk(t) && t.successes + |block.transactions| <= U64_MAX
    ensures TracedStart(c, n, block, kind, tr) && TracedEnd(c, block, now, tr)
  {
    var gross, difficulty := Gross(c, n, block, kind), block.header.difficulty;
    RewardSplits(c, n, block, kind);
    SlashStageKeeps(c, n, block);
    var net := NetReward(gross, difficulty);
    assert net > 0 ==> block.header.producer != 0 by { NoRewardNoNet(gross, difficulty); }
    hide AfterSlashing, RefInv, AccountsOk, Custody, TotalBalance, IsSlashed, NetReward, MineAssay, GrossReward, TracedEnd, Execute, RunTransactions, BlockFlows;
    PayProducerAdds(n.accounts, block.header.producer, net);
  }

  lemma StartNonces(c: Crypto, n: NodeState, block: Block, kind: ProductionKind, tr: Trace, sender: ObjectId)
    requires TracedStart(c, n, block, kind, tr)
    ensures NonceOf(tr.rewarded, sender) == NonceOf(n.accounts, sender)
  {
    hide NetReward, RunTransactions, BlockFlows, AfterSlashing, NonceOf, PayProducer, Execute, TracedEnd;
    PayProducerNonces(n.accounts, block.header.producer, NetReward(Gross(c, n, block, kind), block.header.difficulty), sender);
  }

  lemma EndNonces(c: Crypto, block: Block, now: u64, tr: Trace, sender: ObjectId)
    requires TracedEnd(c, block, now, tr)
    ensures NonceOf(tr.paid.accounts, sender) == NonceOf(tr.tally.accounts, sender)
  {
    var settled := tr.settled;
    assert tr.paid.accounts == CreditAll(settled.accounts, Matured(settled.refiners.queue, settled.chain.height)).0;
    assert settled.accounts == PayProducer(tr.tally.accounts, block.header.producer, tr.flows.refinerIncome).value;
    hide TracedEnd, CreditAll, PayProducer, NonceOf;
    PayProducerNonces(tr.tally.accounts, block.header.producer, tr.flows.refinerIncome, sender);
    CreditAllNonces(settled.accounts, Matured(settled.refiners.queue, settled.chain.height), sender);
  }

  lemma JoinNonces(c: Crypto, n: NodeState, block: Block, kind: ProductionKind, tr: Trace, sender: ObjectId)
    requires TracedStart(c, n, block, kind, tr)
    requires NonceOf(tr.rewarded, sender) == NonceOf(n.accounts, sender)
    requires NonceOf(tr.paid.accounts, sender) == NonceOf(tr.tally.accounts, sender)
    requires var t := StartTally(tr.slashed, tr.rewarded);
             var ctx := ContextOf(tr.slashed, block.header);
             var u, nonces := RunTransactions(c, block.transactions, t, ctx).0, SuccessNonces(c, block.transactions, t, ctx, sender);
      && NonceOf(u.accounts, sender) == NonceOf(t.accounts, sender) + |nonces|
      && Consecutive(nonces, NonceOf(t.accounts, sender))
    ensures var nonces := TraceNonces(c, block, tr, sender);
      && NonceOf(tr.paid.accounts, sender) == NonceOf(n.accounts, sender) + |nonces|
      && Consecutive(nonces, NonceOf(n.accounts, sender))
  {
    assert ContextOf(tr.slashed, block.header) == ContextOf(n, block.header);
    hide RunTransactions, SuccessNonces, NonceOf, Consecutive, NetReward, PayProducer, BlockFlows, SlashAll, NoteSignature;
  }

  // ---- Runs ----

  /** The nonces one sender uses in a block that executes. */
  ghost function BlockNonces(c: Crypto, n: NodeState, block: Block, sender: ObjectId): seq<nat> {
    var m, kind := AfterAttesting(c, n, block), KindOf(block.header);
    if kind.None? then []
    else
      var slashed := AfterSlashing(c, m, block);
      match PayProducer(m.accounts, block.header.producer, NetReward(Gross(c, m, block, kind.value), block.header.difficulty))
      case Err(_) => []
      case Ok(a) => SuccessNonces(c, block.transactions, StartTally(slashed, a), ContextOf(slashed, block.header), sender)
  }

  /** The nonces of all of a sender's successful transactions in a run, in order. */
  ghost function AllNonces(c: Crypto, n: NodeState, calls: seq<Call>, sender: ObjectId): seq<nat> {
    if calls == [] then []
    else
      var init, last := calls[..|calls| - 1], calls[|calls| - 1];
      if Accepts(c, Run(c, n, init), last) then AllNonces(c, n, init, sender) + BlockNonces(c, Run(c, n, init), last.block, sender)
      else AllNonces(c, n, init, sender)
  }

  lemma BlockNoncesTraced(c: Crypto, n: NodeState, block: Block, kind: ProductionKind, now: u64, tr: Trace, sender: ObjectId)
    requires Traced(c, AfterAttesting(c, n, block), block, kind, now, tr) && Cleared(c, n, block, now, kind)
    ensures BlockNonces(c, n, block, sender) == TraceNonces(c, block, tr, sender)
  {
    hide AfterAttesting, AfterSlashing, PayProducer, NetReward, Gross, SuccessNonces, RunTransactions, TracedEnd, Execute, BlockFlows,
         AdmissionError, ProducerError, Attested, KindOf;
  }

  lemma NonceStep(c: Crypto, n: NodeState, call: Call, sender: ObjectId)
    requires MoneyInv(n) && PowSound(c) && RoomFor(c, n, call.block, call.now)
    ensures var m := After(c, n, call);
      if Accepts(c, n, call) then
        var nonces := BlockNonces(c, n, call.block, sender);
        NonceOf(m.accounts, sender) == NonceOf(n.accounts, sender) + |nonces| && Consecutive(nonces, NonceOf(n.accounts, sender))
      else m.accounts == n.accounts
  {
    hide *;
    CallIsApply(c, n, call);
    if Accepts(c, n, call) {
      var m := AfterAttesting(c, n, call.block);
      var kind, tr := AcceptedMoves(c, n, call.block, call.now);
      TracedNonces(c, m, call.block, kind, call.now, tr, sender);
      BlockNoncesTraced(c, n, call.block, kind, call.now, tr, sender);
      MovedAccounts(c, n, call.block, tr, After(c, n, call));
    } else {
      StepConserves(c, n, call);
      RefusedAccounts(n, After(c, n, call));
    }
  }

  lemma MovedAccounts(c: Crypto, n: NodeState, block: Block, tr: Trace, m: NodeState)
    requires ChainMoved(c, n, block, tr, m) && OnlyAttested(n, AfterAttesting(c, n, block))
    ensures m.accounts == tr.paid.accounts && AfterAttesting(c, n, block).accounts == n.accounts
  {
    hide AfterAttesting, Reseated, RecordReceipt, ReceiptOf, Saved, OnlyLiveness;
  }

  lemma RefusedAccounts(n: NodeState, m: NodeState)
    requires OnlyAttested(n, m)
    ensures m.accounts == n.accounts
  {
    hide OnlyLiveness;
  }

  /** Over a whole run a sender's successful transactions carry the nonces 0, 1, 2, …
      each once: none is skipped and none is replayed. */
  lemma {:induction false} NoncesConsecutive(c: Crypto, n: NodeState, calls: seq<Call>, sender: ObjectId)
    requires IsGenesis(n) && PowSound(c) && Roomy(c, n, calls)
    ensures var nonces := AllNonces(c, n, calls, sender);
      && NonceOf(Run(c, n, calls).accounts, sender) == |nonces|
      && Consecutive(nonces, 0)
  {
    hide IsGenesis, PowSound, RoomFor, After, Accepts, BlockNonces, NonceOf, Consecutive;
    if calls == [] {
      GenesisNonces(n, sender);
      NoNonces();
    } else {
      var init, last := calls[..|calls| - 1], calls[|calls| - 1];
      var m := Run(c, n, init);
      NoncesConsecutive(c, n, init, sender);
      SupplyConserved(c, n, init);
      NonceStep(c, m, last, sender);
      if Accepts(c, m, last) { ConsecutiveJoin(AllNonces(c, n, init, sender), BlockNonces(c, m, last.block, sender), 0); }
    }
  }

  lemma NoNonces()
    ensures Consecutive([], 0)
  {
  }

  lemma GenesisNonces(n: NodeState, id: ObjectId)
    requires IsGenesis(n)
    ensures NonceOf(n.accounts, id) == 0
  {
    hide Allocate;
    var g, localId, key, store :| IsFresh(n, g, localId, key, store);
    NoAccounts();
    AllocateIssues(map[], 0, g.accounts);
    var a := Allocate(map[], 0, g.accounts).0;
    assert NonceOf(map[], id) == 0;
    assert NonceOf(a, id) == 0;
  }
}
