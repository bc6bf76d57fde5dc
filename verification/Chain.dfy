/** Chain totals and the money arithmetic of one block
    (crates/node/src/node.rs, crates/core/src/types.rs). */
module Chain {
  import opened Numbers
  import opened IntegerSqrt
  import opened Emission
  import opened Difficulty
  import opened Collections
  import opened Ledger
  import opened Types

  // ---- Mine assay ----

  ghost function DifficultyPressure(difficulty: u64): u128 {
    Max(SqrtNearest(Max(difficulty, MIN_DIFFICULTY)), 1)
  }

  function Assayed(gross: u64, pressure: u128): u64 {
    ClampU64(Quotient(SatMul128(gross, pressure), EPOCH))
  }

  ghost function MineAssay(gross: u64, difficulty: u64): u64 {
    if gross == 0 then 0 else Assayed(gross, DifficultyPressure(difficulty))
  }

  ghost function NetReward(gross: u64, difficulty: u64): u64 {
    SatSub64(gross, MineAssay(gross, difficulty))
  }

  lemma PressureAtEpoch()
    ensures SqrtNearest(922_560) == 960 && SqrtNearest(922_561) == 961
  {
    SqrtFloorUnique(922_560, 960);
    SqrtFloorUnique(922_561, 960);
  }

  lemma PressureBound(difficulty: u64)
    ensures difficulty <= 922_560 ==> DifficultyPressure(difficulty) <= EPOCH
    ensures difficulty > 922_560 ==> DifficultyPressure(difficulty) > EPOCH
  {
    PressureAtEpoch();
    hide SqrtNearest;
    if difficulty <= 922_560 {
      SqrtNearestMonotone(Max(difficulty, MIN_DIFFICULTY), 922_560);
    } else {
      SqrtNearestMonotone(922_561, difficulty);
    }
  }

  lemma AssayedWithin(gross: u64, pressure: u128)
    requires pressure <= EPOCH
    ensures Assayed(gross, pressure) <= gross
  {
    MulMonotone(gross, pressure, EPOCH);
    DivMonotone(gross * pressure, gross * EPOCH, EPOCH);
  }

  lemma AssayedBeyond(gross: u64, pressure: u128)
    requires pressure > EPOCH && 960 <= gross < U64_MAX
    ensures Assayed(gross, pressure) > gross
  {
    MulMonotone(gross, EPOCH + 1, pressure);
    DivAtLeast(SatMul128(gross, pressure), EPOCH, gross + 1);
  }

  /** The assay stays within the reward exactly at difficulties whose rounded root
      does not pass EPOCH: beyond 922,560 it takes more than any reward of at least
      960 flakes, and the burn would exceed what was mined. */
  lemma MineAssayWithinReward(difficulty: u64)
    ensures (forall gross: u64 :: MineAssay(gross, difficulty) <= gross) <==> difficulty <= 922_560
  {
    PressureBound(difficulty);
    hide DifficultyPressure, Assayed;
    if difficulty <= 922_560 {
      forall gross: u64 ensures MineAssay(gross, difficulty) <= gross { AssayedWithin(gross, DifficultyPressure(difficulty)); }
    } else {
      AssayedBeyond(960, DifficultyPressure(difficulty));
      assert MineAssay(960, difficulty) > 960;
    }
  }

  method ComputeMineAssay(gross: u64, difficulty: u64) returns (assay: u64)
    ensures assay == MineAssay(gross, difficulty)
  {
    if gross == 0 { return 0; }
    var root := NewtonSqrtRound(Max(difficulty, MIN_DIFFICULTY));
    assay := Assayed(gross, Max(root, 1));
  }

  // ---- Fee split of a refiner block ----

  /** Burned and paid shares of the ordinary fees. */
  function PorFeeSplit(fees: u64, active: nat, limit: nat): (u64, u64) {
    if fees == 0 || active == 0 then (0, fees)
    else
      var burned := ClampU64(Min(Quotient(fees * active, limit + active), fees));
      (burned, SatSub64(fees, burned))
  }

  lemma HalfAtMost(fees: nat, active: nat, limit: nat)
    requires 0 < active <= limit
    ensures 2 * Quotient(fees * active, limit + active) <= fees
  {
    var half := fees / 2;
    MulMonotone(half + 1, 2 * active, limit + active);
    MulMonotone(active, fees + 1, 2 * (half + 1));
    assert (half + 1) * (2 * active) == active * (2 * (half + 1));
    assert fees * active < (limit + active) * (half + 1);
    DivBelow(fees * active, limit + active, half + 1);
  }

  /** The split is exact, and burns at most half while the active count keeps to
      its limit. */
  lemma PorFeeSplitExact(fees: u64, active: nat, limit: nat)
    ensures var (burned, paid) := PorFeeSplit(fees, active, limit);
      && (burned as int) + paid == fees
      && (active <= limit ==> 2 * burned <= fees)
  {
    if 0 < active <= limit { HalfAtMost(fees, active, limit); }
  }

  // ---- Mint ledger ----

  datatype Receipt = Receipt(
    height: u64,
    blockHash: Hash,
    kind: ProductionKind,
    producer: ObjectId,
    difficulty: u64,
    veinYieldMilli: u64,
    grossReward: u64,
    mineAssayBurned: u64,
    minerCredit: u64,
    successfulTransactions: u64,
    ordinaryFees: u64,
    ordinaryFeesBurned: u64,
    refinerFeeIncome: u64,
    bondUnbondAssayBurned: u64,
    slashedBurned: u64,
    totalBurned: u64)

  datatype MintLedger = MintLedger(
    genesisIssued: u64,
    minedGross: u64,
    mineAssayBurned: u64,
    ordinaryFeesBurned: u64,
    bondUnbondAssayBurned: u64,
    slashedBurned: u64,
    refinerFeeIncome: u64,
    minedBlocks: u64,
    refinedBlocks: u64,
    successfulTransactions: u64)

  const EMPTY_LEDGER := MintLedger(0, 0, 0, 0, 0, 0, 0, 0, 0, 0)

  function RecordGenesis(m: MintLedger, amount: u64): MintLedger {
    m.(genesisIssued := SatAdd64(m.genesisIssued, amount))
  }

  function RecordReceipt(m: MintLedger, r: Receipt): MintLedger {
    m.(minedBlocks := if r.kind.Mined? then SatAdd64(m.minedBlocks, 1) else m.minedBlocks,
       minedGross := if r.kind.Mined? then SatAdd64(m.minedGross, r.grossReward) else m.minedGross,
       refinedBlocks := if r.kind.Refined? then SatAdd64(m.refinedBlocks, 1) else m.refinedBlocks,
       mineAssayBurned := SatAdd64(m.mineAssayBurned, r.mineAssayBurned),
       ordinaryFeesBurned := SatAdd64(m.ordinaryFeesBurned, r.ordinaryFeesBurned),
       bondUnbondAssayBurned := SatAdd64(m.bondUnbondAssayBurned, r.bondUnbondAssayBurned),
       slashedBurned := SatAdd64(m.slashedBurned, r.slashedBurned),
       refinerFeeIncome := SatAdd64(m.refinerFeeIncome, r.refinerFeeIncome),
       successfulTransactions := SatAdd64(m.successfulTransactions, r.successfulTransactions))
  }

  /** Everything the ledger says was burned, and everything it says was issued. */
  function LedgerBurned(m: MintLedger): nat {
    (m.mineAssayBurned as int) + m.ordinaryFeesBurned + m.bondUnbondAssayBurned + m.slashedBurned
  }

  function LedgerIssued(m: MintLedger): nat { (m.genesisIssued as int) + m.minedGross }

  /** A receipt moves the ledger by exactly what it reports while the totals fit. */
  lemma RecordReceiptMoves(m: MintLedger, r: Receipt)
    requires LedgerIssued(m) + r.grossReward <= U64_MAX
    requires LedgerBurned(m) + r.mineAssayBurned + r.ordinaryFeesBurned + r.bondUnbondAssayBurned + r.slashedBurned <= U64_MAX
    requires !r.kind.Mined? ==> r.grossReward == 0
    ensures LedgerIssued(RecordReceipt(m, r)) == LedgerIssued(m) + r.grossReward
    ensures LedgerBurned(RecordReceipt(m, r))
         == LedgerBurned(m) + r.mineAssayBurned + r.ordinaryFeesBurned + r.bondUnbondAssayBurned + r.slashedBurned
  {
  }

  class MintLedgerTotals {
    var genesisIssued: u64
    var minedGross: u64
    var mineAssayBurned: u64
    var ordinaryFeesBurned: u64
    var bondUnbondAssayBurned: u64
    var slashedBurned: u64
    var refinerFeeIncome: u64
    var minedBlocks: u64
    var refinedBlocks: u64
    var successfulTransactions: u64

    function Totals(): MintLedger
      reads this
    {
      MintLedger(genesisIssued, minedGross, mineAssayBurned, ordinaryFeesBurned, bondUnbondAssayBurned, slashedBurned,
                 refinerFeeIncome, minedBlocks, refinedBlocks, successfulTransactions)
    }

    constructor (m: MintLedger)
      ensures Totals() == m
    {
      genesisIssued, minedGross := m.genesisIssued, m.minedGross;
      mineAssayBurned, ordinaryFeesBurned := m.mineAssayBurned, m.ordinaryFeesBurned;
      bondUnbondAssayBurned, slashedBurned := m.bondUnbondAssayBurned, m.slashedBurned;
      refinerFeeIncome, minedBlocks, refinedBlocks := m.refinerFeeIncome, m.minedBlocks, m.refinedBlocks;
      successfulTransactions := m.successfulTransactions;
    }

    method RecordGenesisIssuance(amount: u64)
      modifies this
      ensures Totals() == RecordGenesis(old(Totals()), amount)
    {
      genesisIssued := SatAdd64(genesisIssued, amount);
    }

    method Record(receipt: Receipt)
      modifies this
      ensures Totals() == RecordReceipt(old(Totals()), receipt)
    {
      match receipt.kind {
        case GenesisKind =>
        case Mined =>
          minedBlocks := SatAdd64(minedBlocks, 1);
          minedGross := SatAdd64(minedGross, receipt.grossReward);
        case Refined =>
          refinedBlocks := SatAdd64(refinedBlocks, 1);
      }
      mineAssayBurned := SatAdd64(mineAssayBurned, receipt.mineAssayBurned);
      ordinaryFeesBurned := SatAdd64(ordinaryFeesBurned, receipt.ordinaryFeesBurned);
      bondUnbondAssayBurned := SatAdd64(bondUnbondAssayBurned, receipt.bondUnbondAssayBurned);
      slashedBurned := SatAdd64(slashedBurned, receipt.slashedBurned);
      refinerFeeIncome := SatAdd64(refinerFeeIncome, receipt.refinerFeeIncome);
      successfulTransactions := SatAdd64(successfulTransactions, receipt.successfulTransactions);
    }
  }

  // ---- Chain state ----

  type FinalityIndex = map<(u64, Hash), set<ObjectId>>

  type Signatures = map<(u64, ObjectId), (Hash, Bytes)>

  datatype ChainState = ChainState(
    height: u64,
    difficulty: u64,
    issued: u64,
    burned: u64,
    ledger: MintLedger,
    timestamps: seq<u64>,
    latestHash: Hash,
    stateRoot: Hash,
    suggestedFee: u64,
    signatures: Signatures,
    baseReward: u64,
    finalizedHeight: u64,
    finality: FinalityIndex)
}
