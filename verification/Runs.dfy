/** Runs: any sequence of `apply_block` calls from genesis, accepted or refused. */
module Runs {
  import opened Numbers
  import opened Collections
  import opened Ledger
  import opened Types
  import opened Refiner
  import opened RefinerInvariant
  import opened BlockApplication
  import opened Supply
  import opened BlockLaws
  import opened Genesis

  datatype Call = Call(block: Block, now: u64)

  ghost function After(c: Crypto, n: NodeState, call: Call): NodeState {
    ApplyBlock(c, n, call.block, call.now).node
  }

  ghost predicate Accepts(c: Crypto, n: NodeState, call: Call) {
    ApplyBlock(c, n, call.block, call.now).result.Ok?
  }

  lemma CallIsApply(c: Crypto, n: NodeState, call: Call)
    ensures After(c, n, call) == ApplyBlock(c, n, call.block, call.now).node
    ensures Accepts(c, n, call) <==> ApplyBlock(c, n, call.block, call.now).result.Ok?
  {
    hide ApplyBlock;
  }

  ghost function Run(c: Crypto, n: NodeState, calls: seq<Call>): NodeState {
    if calls == [] then n else After(c, Run(c, n, calls[..|calls| - 1]), calls[|calls| - 1])
  }

  /** Every call of the run finds room for its reward and its height. */
  ghost predicate Roomy(c: Crypto, n: NodeState, calls: seq<Call>) {
    calls != [] ==>
      && Roomy(c, n, calls[..|calls| - 1])
      && RoomFor(c, Run(c, n, calls[..|calls| - 1]), calls[|calls| - 1].block, calls[|calls| - 1].now)
  }

  // ---- Supply ----

  /** Conservation: in every state of every run, issued equals burned plus balances
      plus bonded stake plus queued withdrawals. */
  lemma {:induction false} SupplyConserved(c: Crypto, n: NodeState, calls: seq<Call>)
    requires IsGenesis(n) && PowSound(c) && Roomy(c, n, calls)
    ensures var m := Run(c, n, calls);
      && m.chain.issued == m.chain.burned + TotalBalance(m.accounts) + Staked(m.refiners.infos) + QueueTotal(m.refiners.queue)
      && MoneyInv(m)
  {
    hide IsGenesis, After, PowSound, RoomFor;
    if calls == [] {
      GenesisBalances(n);
    } else {
      var init, last := calls[..|calls| - 1], calls[|calls| - 1];
      SupplyConserved(c, n, init);
      StepConserves(c, Run(c, n, init), last);
    }
    hide RefInv, AccountsOk, TotalBalance, Staked, QueueTotal;
  }

  lemma StepConserves(c: Crypto, n: NodeState, call: Call)
    requires MoneyInv(n) && PowSound(c) && RoomFor(c, n, call.block, call.now)
    ensures MoneyInv(After(c, n, call))
    ensures !Accepts(c, n, call) ==> OnlyAttested(n, After(c, n, call)) && StoppedAt(c, n, call.block, call.now, After(c, n, call))
    ensures forall j :: IsSlashed(n.refiners, j) ==> IsSlashed(After(c, n, call).refiners, j)
  {
    hide ApplyBlock, MoneyInv, PowSound, RoomFor, IsSlashed, OnlyAttested, StoppedAt;
    ApplyBlockConserves(c, n, call.block, call.now);
  }

  /** In a running chain the cached bond total is the plain sum over all refiners. */
  lemma BondedTotalIsPlain(c: Crypto, n: NodeState, calls: seq<Call>)
    requires IsGenesis(n) && PowSound(c) && Roomy(c, n, calls)
    ensures var r := Run(c, n, calls).refiners; TotalBonded(r) == Staked(r.infos)
  {
    SupplyConserved(c, n, calls);
    TotalBondedIsStaked(Run(c, n, calls).refiners);
  }

  // ---- Slashing is for good ----

  lemma SlashedIsEmpty(n: NodeState, id: ObjectId)
    requires MoneyInv(n) && IsSlashed(n.refiners, id)
    ensures CustodyOf(n.refiners, id) == 0 && Slash(n.refiners, id).1 == Ok(0)
  {
    SlashedHoldsNothing(n.refiners, id);
    SlashBurnsAll(n.refiners, id);
    hide RefInv, Custody, CustodyOf, Slash, AccountsOk, TotalBalance;
  }

  lemma {:induction false} SlashedStays(c: Crypto, n: NodeState, calls: seq<Call>, more: seq<Call>, id: ObjectId)
    requires IsGenesis(n) && PowSound(c) && Roomy(c, n, calls + more)
    requires IsSlashed(Run(c, n, calls).refiners, id)
    ensures IsSlashed(Run(c, n, calls + more).refiners, id)
    decreases |more|
  {
    hide *;
    if more == [] {
      assert calls + more == calls;
    } else {
      var init, last := more[..|more| - 1], more[|more| - 1];
      assert (calls + more)[..|calls + more| - 1] == calls + init;
      RunStep(c, n, calls + more);
      SlashedStays(c, n, calls, init, id);
      SupplyConserved(c, n, calls + init);
      StepConserves(c, Run(c, n, calls + init), last);
    }
  }

  /** A slashed refiner has no custody in this or any later state of the run, and
      slashing it again burns nothing. */
  lemma SlashedForever(c: Crypto, n: NodeState, calls: seq<Call>, more: seq<Call>, id: ObjectId)
    requires IsGenesis(n) && PowSound(c) && Roomy(c, n, calls + more)
    requires IsSlashed(Run(c, n, calls).refiners, id)
    ensures var r := Run(c, n, calls + more).refiners;
      IsSlashed(r, id) && CustodyOf(r, id) == 0 && Slash(r, id).1 == Ok(0)
  {
    hide *;
    SlashedStays(c, n, calls, more, id);
    SupplyConserved(c, n, calls + more);
    SlashedIsEmpty(Run(c, n, calls + more), id);
  }

  lemma RunStep(c: Crypto, n: NodeState, calls: seq<Call>)
    requires calls != []
    ensures var init, last := calls[..|calls| - 1], calls[|calls| - 1];
      && Run(c, n, calls) == After(c, Run(c, n, init), last)
      && (Roomy(c, n, calls) ==> Roomy(c, n, init) && RoomFor(c, Run(c, n, init), last.block, last.now))
  {
  }
}
