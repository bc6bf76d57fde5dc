/** When two nodes that accepted the same blocks agree. */
module Agreement {
  import opened Numbers
  import opened Collections
  import opened Types
  import opened RefinerInvariant
  import opened BlockApplication
  import opened Supply
  import opened BlockLaws
  import opened Genesis
  import opened Runs
  import opened ChainLinks
  import opened Refusals
  import opened Equivalence
  import opened Liveness
  import opened Restart

  /** Every block the run refused was harmless. */
  ghost predicate HarmlessRun(c: Crypto, n: NodeState, calls: seq<Call>) {
    calls != [] ==>
      var init, last := calls[..|calls| - 1], calls[|calls| - 1];
      HarmlessRun(c, n, init) && (Accepts(c, Run(c, n, init), last) || Harmless(c, Run(c, n, init), last))
  }

  /** Equivalent nodes that both accept a block are equivalent after it, whenever each
      of them received it. */
  lemma SameAccepted(c: Crypto, n: NodeState, m: NodeState, block: Block, now: u64, later: u64)
    requires SameNode(n, m)
    requires ApplyBlock(c, n, block, now).result.Ok? && ApplyBlock(c, m, block, later).result.Ok?
    ensures SameNode(ApplyBlock(c, n, block, now).node, ApplyBlock(c, m, block, later).node)
  {
    hide ApplyBlock, SameNode, Execute, AfterAttesting, AdmissionError, Attested, ProducerError;
    var k := ApplyBlockCases(c, n, block, now);
    var l := ApplyBlockCases(c, m, block, later);
    SameAttesting(c, n, m, block);
    SameExecute(c, AfterAttesting(c, n, block), AfterAttesting(c, m, block), block, k.value, now, later);
  }

  lemma SameSymmetric(n: NodeState, m: NodeState)
    requires SameNode(n, m)
    ensures SameNode(m, n)
  {
    hide RefInv;
  }

  lemma AcceptedBlocksStep(c: Crypto, n: NodeState, calls: seq<Call>)
    requires calls != []
    ensures var init, last := calls[..|calls| - 1], calls[|calls| - 1];
      AcceptedBlocks(c, n, calls) == if Accepts(c, Run(c, n, init), last) then AcceptedBlocks(c, n, init) + [last.block] else AcceptedBlocks(c, n, init)
  {
    hide Accepts, Run;
  }

  lemma HarmlessRunStep(c: Crypto, n: NodeState, calls: seq<Call>)
    requires calls != [] && HarmlessRun(c, n, calls)
    ensures var init, last := calls[..|calls| - 1], calls[|calls| - 1];
      HarmlessRun(c, n, init) && (Accepts(c, Run(c, n, init), last) || Harmless(c, Run(c, n, init), last))
  {
    hide Accepts, Run, Harmless;
  }

  /** A run whose last call is refused harmlessly ends where it was. */
  lemma DropRefusal(c: Crypto, n: NodeState, calls: seq<Call>, m: NodeState)
    requires IsGenesis(n) && PowSound(c) && Roomy(c, n, calls) && HarmlessRun(c, n, calls)
    requires calls != [] && !Accepts(c, Run(c, n, calls[..|calls| - 1]), calls[|calls| - 1])
    requires SameNode(Run(c, n, calls[..|calls| - 1]), m)
    ensures SameNode(Run(c, n, calls), m)
  {
    hide *;
    var init, last := calls[..|calls| - 1], calls[|calls| - 1];
    RunStep(c, n, calls);
    HarmlessRunStep(c, n, calls);
    SupplyConserved(c, n, init);
    RefusalAgreesIff(c, Run(c, n, init), m, last);
  }

  lemma LastBlocks(a: seq<Block>, x: Block, b: seq<Block>, y: Block)
    requires a + [x] == b + [y]
    ensures a == b && x == y
  {
    assert (a + [x])[|a|] == x && (b + [y])[|b|] == y;
    assert (a + [x])[..|a|] == a && (b + [y])[..|b|] == b;
  }

  /** Two nodes that start equivalent, accept the same blocks in the same order and
      refuse nothing but harmless ones agree, whatever else each of them was sent and
      whenever. */
  lemma {:induction false} SameBlocksSameState(c: Crypto, n: NodeState, calls: seq<Call>, m: NodeState, others: seq<Call>)
    requires IsGenesis(n) && IsGenesis(m) && SameNode(n, m)
    requires PowSound(c) && Roomy(c, n, calls) && Roomy(c, m, others)
    requires HarmlessRun(c, n, calls) && HarmlessRun(c, m, others)
    requires AcceptedBlocks(c, n, calls) == AcceptedBlocks(c, m, others)
    ensures SameNode(Run(c, n, calls), Run(c, m, others))
    decreases |calls| + |others|
  {
    hide IsGenesis, PowSound, RoomFor, Accepts, After, SameNode, Harmless;
    if calls != [] && !Accepts(c, Run(c, n, calls[..|calls| - 1]), calls[|calls| - 1]) {
      AcceptedBlocksStep(c, n, calls);
      SameBlocksSameState(c, n, calls[..|calls| - 1], m, others);
      DropRefusal(c, n, calls, Run(c, m, others));
    } else if others != [] && !Accepts(c, Run(c, m, others[..|others| - 1]), others[|others| - 1]) {
      AcceptedBlocksStep(c, m, others);
      SameBlocksSameState(c, n, calls, m, others[..|others| - 1]);
      SameSymmetric(Run(c, n, calls), Run(c, m, others[..|others| - 1]));
      DropRefusal(c, m, others, Run(c, n, calls));
      SameSymmetric(Run(c, m, others), Run(c, n, calls));
    } else if calls != [] && others != [] {
      AcceptedBlocksStep(c, n, calls);
      AcceptedBlocksStep(c, m, others);
      var x, y := calls[|calls| - 1], others[|others| - 1];
      LastBlocks(AcceptedBlocks(c, n, calls[..|calls| - 1]), x.block, AcceptedBlocks(c, m, others[..|others| - 1]), y.block);
      SameBlocksSameState(c, n, calls[..|calls| - 1], m, others[..|others| - 1]);
      CallIsApply(c, Run(c, n, calls[..|calls| - 1]), x);
      CallIsApply(c, Run(c, m, others[..|others| - 1]), y);
      SameAccepted(c, Run(c, n, calls[..|calls| - 1]), Run(c, m, others[..|others| - 1]), x.block, x.now, y.now);
    }
  }

  // ---- Exactly when refusals are harmless ----

  /** The calls of a run that were accepted. */
  ghost function Quieted(c: Crypto, n: NodeState, calls: seq<Call>): seq<Call> {
    if calls == [] then []
    else
      var init, last := calls[..|calls| - 1], calls[|calls| - 1];
      if Accepts(c, Run(c, n, init), last) then Quieted(c, n, init) + [last] else Quieted(c, n, init)
  }

  /** After each call the node agrees with one that was sent the accepted calls only. */
  ghost predicate AgreesThroughout(c: Crypto, n: NodeState, calls: seq<Call>) {
    forall k :: 0 <= k <= |calls| ==> AgreesAt(c, n, calls, k)
  }

  ghost predicate AgreesAt(c: Crypto, n: NodeState, calls: seq<Call>, k: nat)
    requires k <= |calls|
  {
    SameNode(Run(c, n, calls[..k]), Run(c, n, Quieted(c, n, calls[..k])))
  }

  lemma ThroughoutStep(c: Crypto, n: NodeState, calls: seq<Call>)
    requires calls != []
    ensures AgreesThroughout(c, n, calls)
       <==> AgreesThroughout(c, n, calls[..|calls| - 1]) && SameNode(Run(c, n, calls), Run(c, n, Quieted(c, n, calls)))
  {
    hide SameNode, Run, Quieted;
    var init := calls[..|calls| - 1];
    assert forall k :: 0 <= k <= |init| ==> init[..k] == calls[..k];
    assert calls[..|calls|] == calls;
    assert forall k :: 0 <= k <= |init| ==> (AgreesAt(c, n, init, k) <==> AgreesAt(c, n, calls, k));
    assert AgreesAt(c, n, calls, |calls|) <==> SameNode(Run(c, n, calls), Run(c, n, Quieted(c, n, calls)));
  }

  lemma QuietedStep(c: Crypto, n: NodeState, calls: seq<Call>)
    requires calls != []
    ensures var init, last := calls[..|calls| - 1], calls[|calls| - 1];
      Run(c, n, Quieted(c, n, calls)) ==
        if Accepts(c, Run(c, n, init), last) then After(c, Run(c, n, Quieted(c, n, init)), last) else Run(c, n, Quieted(c, n, init))
  {
    hide Accepts, After;
    var init, last := calls[..|calls| - 1], calls[|calls| - 1];
    var longer := Quieted(c, n, init) + [last];
    assert longer[..|longer| - 1] == Quieted(c, n, init) && longer[|longer| - 1] == last;
  }

  /** From a state on which both agree, a refused call keeps them in agreement exactly
      when it is harmless. */
  lemma RefusalAgreesIff(c: Crypto, n: NodeState, m: NodeState, call: Call)
    requires MoneyInv(n) && PowSound(c) && RoomFor(c, n, call.block, call.now) && !Accepts(c, n, call)
    requires SameNode(n, m)
    ensures SameNode(After(c, n, call), m) <==> Harmless(c, n, call)
  {
    hide MoneyInv, PowSound, RoomFor, Accepts, After, Harmless, OnlyAttested, RefInv;
    RefusedUnmovedIff(c, n, call);
    StepConserves(c, n, call);
    InvParts(n);
    InvParts(After(c, n, call));
    SameIffStill(n, After(c, n, call), m);
  }

  /** A node agrees all along with one that never saw the blocks it refused if and only
      if every block it refused was harmless. */
  lemma {:induction false} AgreesThroughoutIff(c: Crypto, n: NodeState, calls: seq<Call>)
    requires IsGenesis(n) && PowSound(c) && Roomy(c, n, calls)
    ensures AgreesThroughout(c, n, calls) <==> HarmlessRun(c, n, calls)
  {
    hide IsGenesis, PowSound, RoomFor, Accepts, After, SameNode, Harmless, AgreesThroughout, Quieted, MoneyInv;
    if calls == [] {
      SupplyConserved(c, n, calls);
      AgreesWithItself(c, n);
    } else {
      var init, last := calls[..|calls| - 1], calls[|calls| - 1];
      AgreesThroughoutIff(c, n, init);
      ThroughoutStep(c, n, calls);
      QuietedStep(c, n, calls);
      SupplyConserved(c, n, init);
      var live, quiet := Run(c, n, init), Run(c, n, Quieted(c, n, init));
      if AgreesThroughout(c, n, init) {
        LastAgrees(c, n, init);
        if Accepts(c, live, last) { SameStep(c, live, quiet, last); } else { RefusalAgreesIff(c, live, quiet, last); }
      }
    }
  }

  lemma LastAgrees(c: Crypto, n: NodeState, calls: seq<Call>)
    requires AgreesThroughout(c, n, calls)
    ensures SameNode(Run(c, n, calls), Run(c, n, Quieted(c, n, calls)))
  {
    hide SameNode, Run, Quieted;
    assert calls[..|calls|] == calls;
    assert AgreesAt(c, n, calls, |calls|);
  }

  lemma AgreesWithItself(c: Crypto, n: NodeState)
    requires MoneyInv(n)
    ensures AgreesThroughout(c, n, [])
  {
    hide MoneyInv, RefInv;
    InvParts(n);
    var none: seq<Call> := [];
    assert none[..0] == none;
    assert AgreesAt(c, n, none, 0);
  }

  /** Two nodes that were equivalent after their last accepted blocks, one of which has
      refused nothing harmful since: they are equivalent now if and only if the other
      has not either. */
  lemma SameTipIff(c: Crypto, n: NodeState, calls: seq<Call>, m: NodeState, others: seq<Call>)
    requires IsGenesis(n) && IsGenesis(m) && n.store.Some? && m.store.Some? && PowSound(c)
    requires Roomy(c, n, calls) && Roomy(c, m, others)
    requires AttestationsIn(calls) < U64_MAX && AttestationsIn(others) < U64_MAX
    requires SameNode(Anchor(c, n, calls), Anchor(c, m, others)) && HarmlessTail(c, m, others)
    ensures SameNode(Run(c, n, calls), Run(c, m, others)) <==> HarmlessTail(c, n, calls)
  {
    hide *;
    var a, b, live, other := Anchor(c, n, calls), Anchor(c, m, others), Run(c, n, calls), Run(c, m, others);
    TailFacts(c, n, calls);
    TailFacts(c, m, others);
    SameSymmetric(a, b);
    SameIffStill(b, other, a);
    SameSymmetric(other, a);
    if !HarmlessTail(c, n, calls) { DriftedIsNotStill(a, live); }
    SameIffStill(a, live, other);
  }

  lemma TailFacts(c: Crypto, n: NodeState, calls: seq<Call>)
    requires IsGenesis(n) && n.store.Some? && PowSound(c) && Roomy(c, n, calls) && AttestationsIn(calls) < U64_MAX
    ensures var a, m := Anchor(c, n, calls), Run(c, n, calls);
      && OnlyAttested(a, m) && RefInv(a.refiners) && RefInv(m.refiners)
      && if HarmlessTail(c, n, calls) then Still(a, m) else Drifted(a, m)
  {
    hide *;
    SupplyConserved(c, n, calls);
    AnchorIsSaved(c, n, calls);
    AnchorFacts(c, n, calls, 0);
    TailDecides(c, n, calls);
    InvParts(Anchor(c, n, calls));
    InvParts(Run(c, n, calls));
  }

  // ---- What the next block certifies ----

  /** What the state root is computed from. */
  ghost predicate SameRooted(a: NodeState, b: NodeState) {
    && a.accounts == b.accounts && a.refiners.infos == b.refiners.infos && a.refiners.queue == b.refiners.queue
    && a.chain.issued == b.chain.issued && a.chain.burned == b.chain.burned && a.chain.height == b.chain.height
  }

  function RootOf(c: Crypto, n: NodeState): Hash { RootOver(c, n, n.refiners.infos) }

  lemma RootStays(c: Crypto, n: NodeState, call: Call)
    requires MoneyInv(n) && PowSound(c) && RoomFor(c, n, call.block, call.now)
    ensures var m := After(c, n, call);
      if Accepts(c, n, call) then m.chain.stateRoot == RootOf(c, m) && call.block.header.stateRoot == n.chain.stateRoot
      else m.chain.stateRoot == n.chain.stateRoot
  {
    hide MoneyInv, PowSound, RoomFor, Accepts, After, OnlyLiveness;
    if Accepts(c, n, call) { AcceptedExtends(c, n, call); } else { StepConserves(c, n, call); }
  }

  /** Once a block has been accepted, the stored root is that of the state right
      after the last one. */
  lemma {:induction false} AnchorRoot(c: Crypto, n: NodeState, calls: seq<Call>)
    requires IsGenesis(n) && PowSound(c) && Roomy(c, n, calls) && LastAccepted(c, n, calls) > 0
    ensures Run(c, n, calls).chain.stateRoot == RootOf(c, Anchor(c, n, calls))
  {
    hide IsGenesis, PowSound, RoomFor, Accepts, After, MoneyInv, Anchor;
    var init, last := calls[..|calls| - 1], calls[|calls| - 1];
    SupplyConserved(c, n, init);
    AnchorUnfolds(c, n, calls);
    RootStays(c, Run(c, n, init), last);
    if !Accepts(c, Run(c, n, init), last) { AnchorRoot(c, n, init); }
  }

  /** Two nodes that accept one and the same next block held the same accounts, refiner
      records, queue and totals right after their last accepted blocks, whatever either
      of them refused: short of a collision the next block certifies it. */
  lemma NextBlockCertifies(c: Crypto, n: NodeState, calls: seq<Call>, m: NodeState, others: seq<Call>, call: Call, other: Call)
    requires IsGenesis(n) && IsGenesis(m) && PowSound(c)
    requires Roomy(c, n, calls + [call]) && Roomy(c, m, others + [other])
    requires LastAccepted(c, n, calls) > 0 && LastAccepted(c, m, others) > 0
    requires Accepts(c, Run(c, n, calls), call) && Accepts(c, Run(c, m, others), other) && call.block == other.block
    requires var a, b := Anchor(c, n, calls), Anchor(c, m, others); RootOf(c, a) == RootOf(c, b) ==> SameRooted(a, b)
    ensures SameRooted(Anchor(c, n, calls), Anchor(c, m, others))
  {
    hide *;
    Prepared(c, n, calls, call);
    Prepared(c, m, others, other);
    AnchorRoot(c, n, calls);
    AnchorRoot(c, m, others);
    RootStays(c, Run(c, n, calls), call);
    RootStays(c, Run(c, m, others), other);
  }

  lemma Prepared(c: Crypto, n: NodeState, calls: seq<Call>, call: Call)
    requires IsGenesis(n) && PowSound(c) && Roomy(c, n, calls + [call])
    ensures Roomy(c, n, calls) && MoneyInv(Run(c, n, calls)) && RoomFor(c, Run(c, n, calls), call.block, call.now)
  {
    hide IsGenesis, PowSound, RoomFor, Run, MoneyInv;
    var longer := calls + [call];
    assert longer[..|longer| - 1] == calls;
    SupplyConserved(c, n, calls);
  }
}
