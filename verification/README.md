# Opolys: block application, verified

A Dafny model of the Opolys node's consensus state machine and proofs about it.
`OpolysNode::apply_block` takes a block and moves four stores: the chain state, the
account ledger, the refiner set (bonded stake, an unbonding queue, an index of active
refiners) and the mempool. The model follows it stage by stage (validation,
attestations and finality, producer checks, slashing, reward, transactions, fee
routing, matured withdrawals, activation and ranking, receipt and storage), with the
integer arithmetic underneath: two square-root algorithms, a fixed-point logarithm,
vein yield, retargeting and stake-weighted selection.

Every component comes twice. Functions on values (`Refiner`, `Ledger`, `Dispatcher`,
`BlockApplication`) say what each operation does, partial effects of error exits
included; classes (`RefinerSet`, `AccountStore`, `Mempool`, `MintLedgerTotals`,
`LiveChain`, `OpolysNode`) do it in place, with the source's loops, and are proved to
leave exactly the state those functions give. The laws are proved about the functions,
so they hold of the classes.

The main results hold for every run: any sequence of calls from genesis, accepted or
refused (module `Runs`). They are conservation of supply, no overflow failure after a
block's checks, the refiner set's representation invariant, the active-refiner limit,
finality with quorum intersection, withdrawals paid exactly one epoch later, who is
slashed and that it is for good, consecutive nonces, a mint ledger that agrees with the chain totals, a
timestamp window that refines the whole history, what exactly a refused block leaves
behind, and when a restarted node, or another node that accepted the same blocks, agrees
with this one.

Conventions and assumptions:

- `u64` and `u128` are subset types of `int`; every wrap, saturation, checked addition
  and truncating cast of the source is written out. Unchecked additions wrap, as the
  release profile compiles them.
- Hashes, ids, serialized sizes, signature checks, proofs of work and the state root
  are opaque functions of what they are computed from (`Types.Crypto`). `PowSound`
  says that an accepted proof of work has difficulty at most 256, the number of bits
  of the hash whose leading zeros it counts. No other property of them is used.
- `Roomy` says that a run finds room: issuance plus the gross reward of each block that
  passes its checks fits in u64, and heights stay an epoch below the end of u64. Blocks
  that fail their checks, whatever they claim, have no part in it. It is what conservation
  needs: an accepted block keeps the supply equation exactly when it finds room
  (`Room.AcceptedBalancedIff`).
- `apply_block` holds all locks, so a call is one step, with the wall clock as an
  argument. Error texts become constructors.
- Library sorts and hash-map iteration are modelled by any order they may produce.

Where code and its documentation differ, the model follows the code:

- A refused block is not a no-op: its attestations are counted, and finality advanced,
  before later checks refuse it. `Refusals.RefusedNoOpIff` says exactly when nothing is
  left, by what can be read off node and block before the call, and `RefusedRootIff` when
  the stored state root still is that of the state. `LoneRefiner.RefusedBlockMoves` is a
  run from genesis, past its second epoch, whose last block is refused and raises a
  counter.
- A restart restores the state saved with the last accepted block, the only place where
  the node writes to disk. What refused blocks left since then is lost, counters that
  enter the state root included. `Restart.RestartSameIff` says exactly when nothing is
  lost; that run loses something (`LoneRefiner.RestartForgets`).
- For the same reason two nodes that accepted the same blocks may differ. A node agrees
  all along with one that was sent the accepted blocks alone exactly when all it refused
  was harmless (`Agreement.AgreesThroughoutIff`); `SameTipIff` says the same of two nodes
  since their last accepted blocks, and `LoneRefiner.RefusalsBreakAgreement` is a pair
  that differs. A next block accepted by both rules out that they differed right after
  their last ones (`NextBlockCertifies`).
- Slashing is documented to be for double-signing only. The check of the evidence ignores
  its height, so two blocks that a refiner signed at different heights convict it as well
  (`SlashLaws.TwoBlocksConvict`, and `LoneRefiner.SlashedWithoutDoubleSign` as a run).
  `SlashLaws.SlashedIff` says exactly who is slashed.
- Eviction is documented to make room for higher-fee arrivals, but the arrival's priority
  is never compared: a full pool can give up better entries for a worse one
  (`Eviction.BetterEvicted`), exactly when its entries up to the arrival's priority do not
  free enough (`Eviction.AdmissionSparesBetterIff`).
- The binary-search square root is one too high at the largest u128, through its
  saturating square.
- The rich-vein formula says a smaller hash value earns more, yet the value 0 earns
  the floor: it is never beaten exactly at difficulty 0 or from 63 up
  (`Emission.ZeroHashNeverBeatenIff`).
- The ten percent replacement bump fails for fees above u64::MAX / 11.
- Bonding refiners take ranking slots without being promoted, so the best-staked refiners
  are seated exactly when none of them is Bonding (`EpochRanking.RerankSeatsBest`), and
  every Bonding one leaves a seat empty.
- The fee suggestion can fall below both of its inputs once its weighted sum saturates.

## Model

| member | source | states |
|---|---|---|
| Runs.SupplyConserved | crates/node/src/node.rs:1981-2244 | After every call of `apply_block`, accepted or refused, in every run from genesis: issued = burned + balances + bonded stake + queued withdrawals, and the refiner and account invariants hold |
| Room.AcceptedBalancedIff | crates/node/src/node.rs:1981-2225 | From a balanced node, an accepted block leaves the supply equation intact if and only if it found room for its gross reward; whatever overflows, nothing else breaks it |
| Room.ExecutedExactly | crates/node/src/node.rs:1981-2325 | With or without room, a block that executes to its end adds exactly its gross reward to balances, stakes, queue and burns, and the issuance counter takes it saturating |
| Room.RoomIsNeeded | crates/node/src/node.rs:2211-2216 | A genesis and a first block, accepted without room, after which more is held than was issued |
| BlockLaws.ApplyBlockConserves | crates/node/src/node.rs:1772-2335 | One call keeps the supply equation and the invariants; a refused call changes at most the finality index, the finalized height and attestation counters, so no overflow check can leave a block half applied; no slashed refiner is ever unslashed |
| BlockLaws.AcceptedIffCleared | crates/node/src/node.rs:1797-2000 | A block is accepted exactly when it passes validation, attestation checks and producer checks: nothing after those checks can refuse it |
| Supply.ExecuteSucceeds | crates/node/src/node.rs:1981-2325 | Once checked, a block runs through slashing, reward, transactions, fee routing, payouts, activation and ranking without any checked addition or planned credit failing, and the books balance afterwards |
| Supply.SlashAllKeeps | crates/node/src/node.rs:1981-2013 | A block's evidence moves stake and queued flakes from custody to the burn total, flake for flake; the block's slashed total is exactly what the chain burned, and nobody slashed is revived |
| Supply.RunTransactionsKeeps | crates/node/src/node.rs:2119-2154 | A block's transactions cannot overflow any running total; balances, stakes, queue, fees and assays together stay constant, and exactly the block's transaction ids leave the pool |
| Supply.PayMaturedKeeps | crates/node/src/node.rs:2227-2244 | Paying out matured withdrawals never fails when the books balance, and only moves flakes from the queue to balances |
| Supply.PlanIsSum | crates/node/src/node.rs:928-945 | The credit plan holds, per account, the sum of everything that matured for it, and never overflows while the total fits |
| Supply.CreditAllAdds | crates/node/src/node.rs:964-984 | Crediting a drained list succeeds, raises the balances by exactly its total and changes no nonce |
| Supply.PayProducerAdds | crates/node/src/node.rs:2100-2115 | The planned producer credit succeeds and raises exactly the producer's balance |
| Supply.AttestOnlyLiveness | crates/node/src/node.rs:1835-1876 | The attestation loop, stopped anywhere, changes nothing in the refiner set but liveness counters and the dirty set |
| Supply.ReseatedKeeps | crates/node/src/node.rs:2246-2270 | Activation and ranking at the end of a block keep the refiner invariant and every flake of custody |
| Supply.BlockFlowsAddUp | crates/node/src/node.rs:902-926 | Burned and paid fees add up to the fees, assay and miner credit to the gross reward; refiner income and mined issuance exclude each other; a refiner block within the seat limit burns at most half its fees |
| BlockLaws.AcceptedMoves | crates/node/src/node.rs:2207-2325 | Where an accepted block leaves height, tip, difficulty, window, issuance, burn total, ledger, finality, accounts, refiners, store and pool, in terms of its trace |
| Node.OpolysNode.ApplyBlock | crates/node/src/node.rs:1772-2335 | The in-place transition leaves exactly the state and result of the functional one, error paths with their partial effects included, for every block that is refused before the producer draw or whose draw halts |
| Node.OpolysNode.RecordAttestations | crates/node/src/node.rs:1830-1876 | The attestation loop records, stops and reports exactly as the functional loop, keeping what it recorded before a bad attestation |
| Node.OpolysNode.ExecuteTransactions | crates/node/src/node.rs:2119-2154 | The transaction loop over the live stores equals the functional run, including where a total overflows |
| Node.OpolysNode.SettleBlock | crates/node/src/node.rs:2156-2225 | Fee routing, burns, issuance and the new tip, in order, with the partial state of each overflow exit |
| Node.OpolysNode.PayOutMatured | crates/node/src/node.rs:2227-2244 | Preview, plan, check, drain and pay in place equals the functional payout |
| Node.OpolysNode.CloseBlock | crates/node/src/node.rs:2246-2325 | Activation, ranking, state root, receipt, mint ledger and storage in place; the one place where block, receipt and state are saved |
| Node.OpolysNode.ApplySlashes | crates/node/src/node.rs:1981-2046 | The evidence loop with its duplicate set, and the first-seen producer signature |
| Node.OpolysNode.CheckProducer | crates/node/src/node.rs:1908-1970 | Signature, miner-key and selection checks in order; the draw has to halt only when it is reached |
| Node.OpolysNode.AdvanceFinality | crates/node/src/node.rs:1878-1906 | The finalized height and the pruned index |
| Node.LiveChain.MoveTip | crates/node/src/node.rs:2199-2225 | The tip fields, and the timestamp window pruned after the push |
| BlockValidation.ValidateBlock | crates/consensus/src/block.rs:216-427 | Every early exit of validation in order, with the seen-set loop finding exactly the repeated transaction ids |
| BlockValidation.ValidBlockFacts | crates/consensus/src/block.rs:216-427 | What a valid block guarantees: counts, height, difficulty, timestamp spacing, a non-zero producer, and difficulty at most 256 when mined |
| Genesis.GenesisBalances | crates/node/src/node.rs:1105-1122 | A fresh node's issuance is exactly its genesis balances, with nothing burned, bonded or queued |
| Genesis.AllocateIssues | crates/consensus/src/genesis.rs:190-214 | The genesis allocation hands out exactly the total it reports |
| Genesis.ApplyGenesisAccounts | crates/consensus/src/genesis.rs:190-214 | The allocation loop over any live account store: what it credits, issues and leaves behind, at each of its overflow exits too |
| Node.StartFresh | crates/node/src/node.rs:1105-1122 | Starting without saved state, in place: genesis allocation, issuance in chain and mint ledger, local producer registered |
| Genesis.RegisterLocalKeeps | crates/node/src/node.rs:986-1020 | Registering the local producer key moves no money |
| Genesis.FreshNodesAgreeIff | crates/node/src/node.rs:986-1020 | Two operators' fresh nodes over one genesis are equal if and only if neither registers a new key or both register the same one under the same id; the key is part of the account root |
| ChainLinks.ChainIsLinked | crates/consensus/src/block.rs:229-250 | The accepted blocks of any run form one hash chain from genesis at heights 1, 2, 3, …, and the tip is always the last of them |
| ChainLinks.AcceptedExtends | crates/node/src/node.rs:1813-1828 | An accepted block names its parent and commits to the state root before it; afterwards the root is that of the new state, the pool holds none of its transactions, and no recorded producer signature was replaced |
| Refusals.RefusedRecordsIff | crates/node/src/node.rs:1835-1876 | A refused block leaves every refiner record alone if and only if it was not admitted or each attestation it got counted met a saturated counter |
| Refusals.RefusedUnmovedIff | crates/node/src/node.rs:1835-1906 | A refused block leaves chain state and refiner records as they were if and only if it was not admitted, or it met saturated counters only and, when a bad attestation stopped it, counted recorded attesters only, or otherwise reached no new quorum, added nothing that stays and left nothing to prune |
| Refusals.RefusedNoOpIff | crates/node/src/node.rs:1772-1979 | A refused block is a no-op if and only if, besides that, every refiner it counted was marked dirty already |
| Refusals.CountedNoneIff | crates/node/src/node.rs:1762-1770 | No attestation is counted if and only if the block carries none or its first one fails its checks |
| LoneRefiner.RefusedBlockMoves | crates/node/src/node.rs:1908-1925 | A run from genesis that finds room and accepts 1,922 blocks (a bond, its maturing and seating, two blocks of the refiner), then refuses a block from a producer without account and is left with a liveness counter raised |
| Refusals.RefusedRootIff | crates/node/src/node.rs:2276-2289 | After a refused block the stored state root still is that of the node's state if and only if the block was not admitted or each attestation it got counted met a saturated counter, barring a hash collision between the old and the new records |
| Economy.LedgerAlwaysAgrees | crates/core/src/types.rs:516-554 | After every call of a run the mint ledger's issuance and burn totals equal the chain's |
| Economy.AcceptedReport | crates/node/src/node.rs:2291-2312 | Each accepted block's stored receipt reports as total burned exactly the change of the chain's burn total, its parts add up, and the producer was credited exactly the income it reports |
| Chain.RecordReceiptMoves | crates/core/src/types.rs:521-553 | A receipt moves the ledger by what it reports, no saturation while the totals fit |
| Chain.MintLedgerTotals.Record | crates/core/src/types.rs:521-553 | The ten counters updated in place |
| Economy.ActiveWithinLimit | crates/consensus/src/refiner.rs:522-580 | In every reachable state at most `active_refiner_limit(total_issued)` refiners are active |
| Economy.RefinerBlockBurnsAtMostHalf | crates/node/src/node.rs:882-900 | A refiner block of any run issues nothing, burns at most half its ordinary fees and raises the producer's balance by exactly the rest, touching no other account |
| Chain.PorFeeSplitExact | crates/node/src/node.rs:882-900 | The fee split loses no flake, and burns at most half while the active count keeps to its limit |
| Chain.MineAssayWithinReward | crates/node/src/node.rs:871-880 | The mine assay stays within every reward if and only if the difficulty is at most 922,560 |
| Chain.ComputeMineAssay | crates/node/src/node.rs:871-880 | The assay as computed, over the Newton rounded root |
| FinalityLaws.FinalityAdvances | crates/node/src/node.rs:1830-1906 | Finality never regresses, and advances to a height only when Active refiners holding at least 667/1000 of the active weight have verified attestations of the canonical refiner block there |
| FinalityLaws.IndexIsVerified | crates/node/src/node.rs:1830-1872 | In every reachable state each index entry names a stored refiner-produced block by its hash and only refiners with a verified attestation of it |
| FinalityLaws.IndexRemembers | crates/node/src/node.rs:1754-1760 | Attestations accumulate: an accepted block forgets none for a height above the finalized one and at most an epoch old, and keeps none for any other height |
| FinalityLaws.StoredWereAccepted | crates/node/src/node.rs:2314-2320 | Every stored block, so every finalized one, is a block the run accepted at that height |
| FinalityLaws.QuorumsShareAttesters | crates/node/src/node.rs:1711-1752 | Any two quorums over one refiner set share verified attesters holding at least 334/1000 of the active weight |
| Finality.FinalityNeedsQuorum | crates/node/src/node.rs:1711-1752 | Reaching the rounded-up threshold means at least 667/1000 of the active weight |
| Finality.ActiveWeightThreshold | crates/node/src/node.rs:1711-1720 | The threshold over the Active refiners' stakes |
| Finality.IndexedWeight | crates/node/src/node.rs:1741-1752 | The saturating weight of the still-Active recorded attesters |
| Finality.NextFinalizedHeight | crates/node/src/node.rs:1722-1739 | The highest touched height that reaches the threshold, or the current one |
| Withdrawals.QueueInWindow | crates/consensus/src/refiner.rs:418-480 | In every reachable state the queue is sorted by maturity and everything in it matures after the tip and at most one epoch later |
| Withdrawals.WithdrawalWaits | crates/consensus/src/refiner.rs:439-480 | A withdrawal that is not due stays in the queue unchanged through any further calls unless its refiner is slashed |
| Withdrawals.UnbondPaidOneEpochLater | crates/node/src/node.rs:2227-2244 | What was unbonded at height h and not slashed is credited in full by the block accepted at height h + EPOCH |
| Withdrawals.UnbondsJoinForOneEpoch | crates/consensus/src/refiner.rs:418-424 | What an accepted block leaves queued for its height plus EPOCH is exactly what its own transactions unbonded |
| UnbondingQueue.SlashAllQueue | crates/consensus/src/refiner.rs:631-650 | Slashing keeps the queue's order and the withdrawals of every refiner it spares |
| UnbondingQueue.RunTransactionsQueue | crates/consensus/src/refiner.rs:418-424 | Transactions only append to the queue, each entry one epoch out |
| UnbondingQueue.MaturesOnTime | crates/consensus/src/refiner.rs:439-445 | With nothing overdue, what matures at a height is what was queued for that height |
| UnbondingQueue.CreditAllPays | crates/node/src/node.rs:2238-2244 | The payout credits each account with exactly what matured for it |
| Runs.SlashedForever | crates/consensus/src/refiner.rs:631-667 | A slashed refiner has zero custody in every later state of the run, and slashing it again burns 0 |
| SlashLaws.SlashedIff | crates/node/src/node.rs:1981-2013 | In every reachable state the slashed refiners are exactly those that valid evidence in an accepted block named while they were known |
| SlashLaws.BlockSlashesIff | crates/node/src/node.rs:1981-2013 | An accepted block newly slashes a refiner if and only if it is known and valid evidence in the block names it; nothing else in a block slashes, and a refused block slashes nobody |
| SlashLaws.SlashAllIff | crates/node/src/node.rs:1981-2013 | The evidence loop slashes exactly the known refiners that valid evidence names; its duplicate set spares nobody |
| SlashLaws.TwoBlocksConvict | crates/node/src/node.rs:1641-1664 | Any two different blocks signed by one key are valid evidence, under any stated height; they document a double sign if and only if they have the same height |
| LoneRefiner.SlashedWithoutDoubleSign | crates/consensus/src/refiner.rs:19-22 | A run from genesis whose one refiner signed one block per height and is slashed for two of them |
| RefinerInvariant.SlashBurnsAll | crates/consensus/src/refiner.rs:631-667 | Slashing burns the refiner's whole stake plus everything it had queued and touches no other refiner; it fails only for an unknown id, which never has anything queued |
| RefinerInvariant.SlashKeeps | crates/consensus/src/refiner.rs:631-667 | Slashing any id keeps the representation invariant |
| RefinerInvariant.BondKeeps | crates/consensus/src/refiner.rs:341-378 | Bonding keeps the invariant and locks exactly the stake |
| RefinerInvariant.BondFailsOnly | crates/consensus/src/refiner.rs:341-378 | A bond fails exactly below the minimum or for a slashed refiner; merging entries cannot overflow while stakes fit |
| RefinerInvariant.UnbondKeeps | crates/consensus/src/refiner.rs:391-435 | Unbonding moves the amount from entries to queue, keeping custody and the invariant |
| RefinerInvariant.MaturityKeeps | crates/consensus/src/refiner.rs:451-480 | Maturity releases exactly what matured and only drops refiners with nothing left |
| RefinerInvariant.ActivationKeeps | crates/consensus/src/refiner.rs:488-513 | Activation changes statuses only and keeps the active index sound |
| RefinerInvariant.TotalBondedIsStaked | crates/consensus/src/refiner.rs:691-707 | The total over the active index plus Bonding and Waiting refiners is the plain sum over all refiners |
| Runs.BondedTotalIsPlain | crates/consensus/src/refiner.rs:691-707 | In every reachable state the bonded total is that plain sum, with no wrap-around |
| RefinerInvariant.StakeNeverWraps | crates/consensus/src/refiner.rs:189-199 | No refiner's u64 stake sum wraps while the custody fits |
| Stake.AddEntryKeeps | crates/consensus/src/refiner.rs:207-235 | Adding or merging an entry keeps strictly increasing timestamps and positive stakes and adds exactly the stake |
| Stake.DropFlakesIsFifo | crates/consensus/src/refiner.rs:244-265 | Dropping flakes leaves a suffix of the entries whose head alone may have shrunk, keeping its timestamp and height |
| Stake.DropFlakesSum | crates/consensus/src/refiner.rs:244-265 | Exactly the amount is removed |
| Stake.DropFlakesAdds | crates/consensus/src/refiner.rs:244-265 | Unbonding a and then b leaves the same entries as unbonding a + b |
| RefinerStore.UnbondFifo | crates/consensus/src/refiner.rs:244-265 | The loop never indexes past the entries when the amount is covered, and drops exactly that amount from the front |
| RefinerStore.RefinerSet.BondStake | crates/consensus/src/refiner.rs:341-378 | In-place bond equals the functional one and keeps the invariant |
| RefinerStore.RefinerSet.UnbondAmount | crates/consensus/src/refiner.rs:391-435 | In-place unbond equals the functional one and keeps the invariant |
| RefinerStore.RefinerSet.MaturedUnbonds | crates/consensus/src/refiner.rs:439-445 | The preview lists exactly what has matured, without draining it |
| RefinerStore.RefinerSet.ProcessMaturedUnbonds | crates/consensus/src/refiner.rs:451-480 | The drain returns exactly what the preview shows |
| RefinerStore.RefinerSet.ActivateMaturedRefiners | crates/consensus/src/refiner.rs:488-513 | Bonding refiners whose oldest entry is an epoch old become Waiting |
| RefinerStore.RefinerSet.RerankRefiners | crates/consensus/src/refiner.rs:538-580 | The promotion and demotion loop equals the functional ranking |
| RefinerStore.RefinerSet.SlashRefiner | crates/consensus/src/refiner.rs:631-667 | In-place slash equals the functional one and keeps the invariant |
| RefinerStore.RefinerSet.RecordCorrectAttestation | crates/consensus/src/refiner.rs:675-687 | Only Active refiners are counted, saturating |
| RefinerStore.RefinerSet.TotalBondedStake | crates/consensus/src/refiner.rs:691-707 | The two partial sums as computed |
| RefinerStore.RefinerSet.SelectBlockProducer | crates/consensus/src/refiner.rs:805-826 | Walking the cumulative stakes finds the owner of the ticket, whatever the order of the active index |
| EpochRanking.RerankOrders | crates/consensus/src/refiner.rs:538-580 | After ranking every Active refiner precedes every Waiting one by larger stake, then smaller id |
| EpochRanking.RerankBounded | crates/consensus/src/refiner.rs:538-580 | Ranking leaves at most the limit of Active refiners |
| EpochRanking.RerankIdempotent | crates/consensus/src/refiner.rs:538-580 | Ranking a second time changes nothing |
| EpochRanking.RerankPlaces | crates/consensus/src/refiner.rs:538-580 | After ranking every Active refiner is inside the cut and every Waiting one outside it, nobody new is Bonding and no stake changed |
| EpochRanking.RerankSeatsBest | crates/consensus/src/refiner.rs:529-580 | The Active refiners are the best-staked `limit` of those ranked, as documented, if and only if none of these is Bonding |
| EpochRanking.BondingLeavesSeatsEmpty | crates/consensus/src/refiner.rs:529-580 | The seats filled and the Bonding refiners inside the cut together make up the cut: each of them leaves one seat empty |
| EpochRanking.BondingTakesASeat | crates/consensus/src/refiner.rs:529-580 | A concrete sound set, at any issuance, whose best-staked refiner is Bonding and stays unseated |
| EpochRanking.RerankKeeps | crates/consensus/src/refiner.rs:538-580 | Ranking keeps the invariant and custody and changes statuses only |
| EpochRanking.ActiveLimitMonotone | crates/consensus/src/refiner.rs:522-527 | The active limit never falls as issuance grows |
| Selection.MixSeedBijective | crates/consensus/src/refiner.rs:79-84 | `mix_seed` is a bijection on u64: injective, and every value is reached |
| Selection.TicketsEquallyLikely | crates/consensus/src/refiner.rs:86-103 | Of the 2^64 words the loop may draw exactly floor(2^64 / total) are accepted with any given ticket |
| Selection.UniformAmountFromSeed | crates/consensus/src/refiner.rs:86-103 | The rejection loop returns the first accepted candidate's ticket, below the bound, for every seed on which it halts |
| Selection.OwnerUnique | crates/consensus/src/refiner.rs:805-826 | No ticket belongs to two refiners |
| Selection.OwnerExists | crates/consensus/src/refiner.rs:805-826 | Every ticket below the total belongs to an active refiner, so the intervals leave no gap |
| Selection.IntervalsInOrder | crates/consensus/src/refiner.rs:805-826 | The refiners' intervals, each as long as its stake, follow one another in id order without overlap inside [0, total) |
| Selection.SelectionFindsOwner | crates/consensus/src/refiner.rs:805-826 | A producer is found exactly when some active stake exists, and it owns the drawn ticket |
| Dispatcher.FailureIsNoOp | crates/execution/src/dispatcher.rs:197-443 | A failed transaction leaves accounts and refiners exactly as before, refunded bonds included |
| Dispatcher.SuccessSettles | crates/execution/src/dispatcher.rs:197-443 | A success lowers balances, stakes and queue together by exactly fee plus assay, and bumps only the sender's nonce, which it matched |
| Dispatcher.SucceedsExactly | crates/execution/src/dispatcher.rs:197-443 | A transaction succeeds exactly when the common checks pass and the sender can pay for an action its refiner state allows |
| Dispatcher.AssayMonotone | crates/execution/src/dispatcher.rs:105-134 | The assay never falls when the amount or the pressure rises |
| Dispatcher.TransactionDispatcher.CalculateDynamicAssay | crates/execution/src/dispatcher.rs:105-134 | The assay as computed, over Newton floor roots |
| Dispatcher.TransactionDispatcher.CalculateBondAssay | crates/execution/src/dispatcher.rs:136-146 | Pressure of the bonded total after the bond against the baseline |
| Dispatcher.TransactionDispatcher.CalculateUnbondAssay | crates/execution/src/dispatcher.rs:148-162 | Pressure of the baseline against the bonded total |
| Dispatcher.TransactionDispatcher.Execute | crates/execution/src/dispatcher.rs:197-265 | The in-place dispatcher equals the functional one and keeps the refiner invariant |
| Dispatcher.TransactionDispatcher.ExecuteBond | crates/execution/src/dispatcher.rs:299-362 | Debit, bond, refund on failure, nonce bump, in place |
| Dispatcher.TransactionDispatcher.ExecuteUnbond | crates/execution/src/dispatcher.rs:377-443 | Unbond, then fee and nonce, in place |
| Nonces.NoncesConsecutive | crates/execution/src/dispatcher.rs:225-240 | Over any run a sender's successful transactions carry the nonces 0, 1, 2, … each exactly once |
| Nonces.RunTransactionsNonces | crates/execution/src/dispatcher.rs:225-240 | Within a block a sender's successful nonces continue its account nonce without gap |
| Ledger.TransferMoves | crates/consensus/src/account.rs:190-259 | A transfer loses exactly its fee, moves exactly the amount and bumps only the sender's nonce |
| Ledger.TransferFailsOnly | crates/consensus/src/account.rs:190-259 | A transfer fails exactly for a missing sender, too little balance or an exhausted nonce, as long as balances fit in u64 |
| Ledger.AccountStore.TransferBetween | crates/consensus/src/account.rs:190-259 | The in-place transfer opens the recipient before its last check, yet a refusal leaves every account unchanged |
| Ledger.AccountStore.CreditAccount | crates/consensus/src/account.rs:133-146 | Checked credit in place |
| Ledger.AccountStore.DebitAccount | crates/consensus/src/account.rs:167-180 | Checked debit in place |
| Ledger.CreditOrCreateAdds | crates/node/src/node.rs:964-984 | Crediting, opening the account if needed, succeeds while balances fit and raises one balance exactly |
| Ledger.AccountsRoundTrip | crates/consensus/src/account.rs:95-106 | Saving and loading accounts in any order gives the same accounts |
| IntegerSqrt.BinarySqrtFloor | crates/consensus/src/emission.rs:32-54 | The binary search returns the exact floor root for every u128 but the largest, where it is one too high |
| IntegerSqrt.NewtonSqrtFloor | crates/execution/src/dispatcher.rs:91-103 | Newton's iteration returns the exact floor root for every u128, with a real termination measure |
| IntegerSqrt.BinarySqrtRound | crates/consensus/src/emission.rs:56-66 | The rounded root over the binary search is the nearest integer for every u128 |
| IntegerSqrt.NewtonSqrtRound | crates/node/src/node.rs:850-869 | The rounded root over Newton's iteration is the nearest integer for every u128 |
| IntegerSqrt.SqrtNearestIsNearest | crates/consensus/src/emission.rs:56-66 | (2r-1)^2 < 4n < (2r+1)^2 for n >= 1, although the code compares squares |
| IntegerSqrt.SqrtNearestMonotone | crates/consensus/src/emission.rs:56-66 | The rounded root never falls |
| Emission.LnMantissaBelowLn2 | crates/consensus/src/emission.rs:68-89 | The truncated mantissa series never exceeds the constant ln 2 |
| Emission.LnU64Monotone | crates/consensus/src/emission.rs:91-106 | The fixed-point logarithm never falls, across powers of two included |
| Emission.LnMantissaQ32 | crates/consensus/src/emission.rs:68-89 | The series loop with its early exit, every intermediate value inside u128 |
| Emission.LuckierHashYieldsMore | crates/consensus/src/emission.rs:184-206 | For non-zero hashes a luckier one never yields less, and never below 1000 |
| Emission.VeinYieldBounds | crates/consensus/src/emission.rs:184-206 | No yield exceeds 7608 milli, and the hash value 0 earns only the floor |
| Emission.ZeroHashNeverBeatenIff | crates/consensus/src/emission.rs:184-206 | The hash value 0, the luckiest, yields at least as much as every other if and only if the difficulty is 0 or at least 63 |
| Emission.ZeroHashRewardIff | crates/consensus/src/emission.rs:147-157 | Its reward is beaten by none if and only if the difficulty is 0 or at least 63, the base share is saturated, or the base share is too small for the largest bonus to amount to a flake |
| Emission.BlockRewardMonotone | crates/consensus/src/emission.rs:147-157 | A luckier hash never earns less, and every reward is at least the base share |
| Emission.ComputeBlockReward | crates/consensus/src/emission.rs:147-157 | The reward as computed by the logarithm, root and series loops |
| Emission.SuggestedFeeBetween | crates/consensus/src/emission.rs:247-262 | The fee suggestion moves from the old one towards the block average: never above both, and never below both if and only if the weighted sum fits in u64 or the smaller of them is at most u64::MAX / 10 |
| Difficulty.RetargetOnWindow | crates/consensus/src/difficulty.rs:93-141 | The retarget on the pruned window equals the retarget on the whole chain |
| Difficulty.PruneAppend | crates/node/src/node.rs:303-308 | Pruning after every push keeps exactly the pruned full history |
| Difficulty.RetargetAtMostDoubles | crates/consensus/src/difficulty.rs:93-141 | With 45-second spacing the zero-time branch is unreachable, the cast truncates nothing and the difficulty at most doubles |
| History.WindowIsPrunedHistory | crates/node/src/node.rs:303-308 | In every reachable state the window is the last EPOCH + 1 of all height + 1 timestamps, and retargets like the whole history |
| History.HistorySpaced | crates/consensus/src/block.rs:251-259 | Consecutive blocks of a run are at least 45 seconds apart while clocks stay away from the end of u64 |
| History.RunRetargetAtMostDoubles | crates/consensus/src/difficulty.rs:93-141 | So in such runs, at difficulties below 2^63, the retarget at most doubles, and no epoch lasts under 43,200 seconds |
| TransactionPool.Mempool.AddTransaction | crates/consensus/src/mempool.rs:119-225 | Exact refusal conditions in order, refusals change nothing, MempoolFull is never returned; an admission drops only the replaced entry and, if needed, a lowest-first eviction |
| TransactionPool.Mempool.RemoveTransaction | crates/consensus/src/mempool.rs:229-243 | Removes one entry and keeps both counters exact |
| TransactionPool.Mempool.EvictLowestPriority | crates/consensus/src/mempool.rs:277-296 | Evicts a lowest-first set, stopping as soon as enough is freed |
| TransactionPool.Mempool.EvictExpired | crates/consensus/src/mempool.rs:95-107 | Removes exactly the expired entries and counts them |
| TransactionPool.Mempool.GetOrderedTransactions | crates/consensus/src/mempool.rs:253-262 | Lists every entry once, best first |
| TransactionPool.EvictionMakesRoom | crates/consensus/src/mempool.rs:198-206 | After eviction an admissible transaction always fits |
| Eviction.AdmissionSparesBetterIff | crates/consensus/src/mempool.rs:198-206 | An admission drops nothing of higher priority than itself if and only if the pool has room for it, or the entries up to its priority free enough |
| Eviction.BetterEvicted | crates/consensus/src/mempool.rs:14-17 | A pool filled by 1,000 admissions admits a transaction of lower fee and priority than all of them, and whatever it evicts was better |
| Eviction.PoolFills | crates/consensus/src/mempool.rs:119-225 | Each entry of that pool is admissible after the ones before it and evicts nothing |
| TransactionPool.InsertValid | crates/consensus/src/mempool.rs:208-222 | An admitted insert keeps the size cap, the per-sender limit and one entry per sender and nonce |
| TransactionPool.MinFeeFollowsDepth | crates/consensus/src/mempool.rs:85-91 | The congestion minimum rises with the pool from 1x to CAPACITY_RATIO x and the upper clamp never bites |
| TransactionPool.ReplacementBumpsTenPercent | crates/consensus/src/mempool.rs:179-196 | The replacement floor is the least fee ten percent above the old one exactly while eleven times the old fee fits in u64; beyond that it falls short |
| Restart.RestartSameIff | crates/node/src/node.rs:1060-1122 | A node stopped after any run and started again on its disk is equivalent to the one that stopped if and only if every block refused since the last accepted one was harmless |
| Restart.RestartAgrees | crates/node/src/node.rs:1060-1122 | In that case, so in particular right after an accepted block, it gives the same verdict on every further block and stays equivalent |
| Restart.RestartAfterRefusalIff | crates/node/src/node.rs:1908-1979 | Any sound node just saved, one refused block, a restart: the same node comes back if and only if the block was harmless |
| LoneRefiner.RestartForgets | crates/node/src/node.rs:1060-1122 | That run, restarted on its disk, is not the node that stopped, in whatever order the saved lists are read |
| LoneRefiner.RestartHappens | crates/node/src/node.rs:1060-1122 | A node that restarts on that run's disk exists |
| Restart.AnchorIsSaved | crates/node/src/node.rs:2314-2320 | In every run the disk holds exactly the state after the last accepted block, nothing before the first, and the live node differs from it by attestations at most |
| Restart.SavedStateLoads | crates/node/src/node.rs:336-412 | Loading a saved state, its lists in any order they were written, gives an equivalent node |
| Restart.SavedStateCanLoad | crates/node/src/node.rs:1060-1122 | Every saved state loads to some node unless the local key is refused |
| Restart.TailDecides | crates/node/src/node.rs:1835-1906 | Since its last accepted block a node has either not moved, when all it refused was harmless, or moved for good: no later refusal undoes it |
| Restart.ChainReloads | crates/node/src/node.rs:336-412 | The chain state round-trips exactly when its base reward is positive |
| Restart.RefinersReload | crates/consensus/src/refiner.rs:732-761 | Loading the sorted records restores every record and the queue with a sound active index |
| Restart.LoadFromRefiners | crates/consensus/src/refiner.rs:744-761 | The loading loop in place |
| Liveness.CountersWithinAttestations | crates/consensus/src/refiner.rs:675-687 | No liveness counter of a run exceeds the number of attestations its blocks carried |
| Liveness.StandingKept | crates/node/src/node.rs:986-1020 | No run changes the base reward or removes a registered account key |
| Equivalence.SameApply | crates/node/src/node.rs:1772-2335 | Equivalent nodes give the same result on any block and stay equivalent, error paths included |
| Agreement.AgreesThroughoutIff | crates/node/src/node.rs:1772-2335 | A node agrees after every call of a run with one that was sent the accepted blocks alone if and only if every block it refused was harmless |
| Agreement.SameTipIff | crates/node/src/node.rs:1835-1906 | Two nodes equivalent after their last accepted blocks, one with a harmless tail, are equivalent now if and only if the other's tail is harmless too |
| Agreement.RefusalAgreesIff | crates/node/src/node.rs:1835-1979 | Of two equivalent nodes, the one that refuses a block stays equivalent to the other if and only if the block was harmless |
| Agreement.SameBlocksSameState | crates/node/src/node.rs:1772-2335 | So two nodes that start equivalent, accept the same blocks in order and refuse nothing but harmless ones end equivalent, whatever else each was sent and whatever their clocks said |
| LoneRefiner.RefusalsBreakAgreement | crates/node/src/node.rs:1835-1925 | Two copies of the node of that run, of which one was sent the refused block, accepted the same blocks and differ |
| Agreement.NextBlockCertifies | crates/node/src/node.rs:1813-1828 | Two nodes that accept one and the same next block held the same accounts, refiner records, queue and totals right after their last accepted blocks, whatever either refused, barring a collision of state roots |

## Left out

- Selection.UniformAmountFromSeed: assumes that some candidate of the seed is accepted, because the source's rejection loop has no bound on its rounds; the ticket it returns is characterised for every seed on which it halts.
- Node.OpolysNode.ApplyBlock: assumes that this loop halts for the tip's seed when a refiner block gets as far as the draw; the functional transition has its own error for the other case.
- Node.OpolysNode.CheckProducer: likewise.
- Runs.SupplyConserved: assumes `Roomy`, which `Room.AcceptedBalancedIff` shows is needed at every accepted block, and `PowSound`.
- History.HistorySpaced: assumes clocks more than 345 seconds from the end of u64, where the source's timestamp bound saturates.
- Restart.RestartSameIff: pools are not compared, as the reloaded one is empty; it takes a positive base reward, as zero is replaced by the migration default on load, and a run whose blocks carry fewer than u64::MAX attestations, so that no counter is saturated.
- Restart.RestartAgrees: under the same conditions, and after a harmless tail.
- Agreement.SameBlocksSameState: one direction, as two nodes that refused the same harmful blocks agree all the same; the exact statements are `AgreesThroughoutIff` and `SameTipIff`.
- Agreement.SameTipIff: takes runs whose blocks carry fewer than u64::MAX attestations, as `Restart.RestartSameIff` does.
- Storage failures: every save succeeds; the source logs a failed one and goes on.
- Detected double-sign evidence and pending attestations: the queues feeding future blocks are not part of this model, only the evidence and attestations a block carries.
- Sums in u128 over all refiners are unbounded numbers; they would need 2^64 refiners to overflow.
- Transaction, evidence and attestation roots, the genesis ceremony hash and block hashes: opaque, as comparisons of hashes.
- `RefinerSet::activate`, bond-entry ages, producer display data and stake coverage: not used by block application.
- Block production, networking, gossip, sync, peer bans, RPC, wallet, key files and logging: plumbing around the transition.
- The genesis ceremony's JSON and floating-point checks: library behaviour.
- The accuracy of the fixed-point logarithm against the real one: only monotonicity and bounds are stated.
