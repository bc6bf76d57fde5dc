/** Block validation (crates/consensus/src/block.rs). */
module BlockValidation {
  import opened Numbers
  import opened Emission
  import opened Difficulty
  import opened Collections
  import opened Types
  import TransactionPool

  const BLOCK_VERSION := 4
  const MAX_FUTURE_BLOCK_TIME_SECS: u64 := 300
  const MAX_TRANSACTIONS_PER_BLOCK := 10_000
  const MAX_SLASH_EVIDENCE_PER_BLOCK := 10
  const MAX_ATTESTATIONS_PER_BLOCK := 1_024
  const MAX_TX_DATA_SIZE_BYTES := 1_024

  datatype BlockError =
    | WrongVersion
    | WrongHeight
    | WrongParent
    | TimestampCompressed
    | TimestampInFuture
    | WrongDifficulty
    | TooManyTransactions
    | TooMuchEvidence
    | TooManyAttestations
    | BlockTooLarge
    | RootMismatch
    | DuplicateTransaction
    | DataTooLarge
    | FeeBelowMinimum
    | NoSingleProof
    | ZeroProducer
    | ProofOfWorkRejected
    | BadSignatureLength

  /** What the parent, the retarget and the clock say the block must match. */
  datatype Expected = Expected(height: u64, parentHash: Hash, parentTimestamp: u64, difficulty: u64, now: u64)

  predicate DistinctTransactions(txs: seq<Transaction>) {
    forall i, j :: 0 <= i < j < |txs| ==> txs[i].txId != txs[j].txId
  }

  predicate DataFits(txs: seq<Transaction>) {
    forall i :: 0 <= i < |txs| ==> |txs[i].data| <= MAX_TX_DATA_SIZE_BYTES
  }

  predicate FeesReach(txs: seq<Transaction>) {
    forall i :: 0 <= i < |txs| ==> txs[i].fee >= MIN_FEE
  }

  function HeaderError(header: BlockHeader, e: Expected): Option<BlockError> {
    if header.version != BLOCK_VERSION then Some(WrongVersion)
    else if header.height != e.height then Some(WrongHeight)
    else if header.previousHash != e.parentHash then Some(WrongParent)
    else if e.height > 0 && header.timestamp < SatAdd64(e.parentTimestamp, MinimumTimestampDelta()) then Some(TimestampCompressed)
    else if header.timestamp > SatAdd64(e.now, MAX_FUTURE_BLOCK_TIME_SECS) then Some(TimestampInFuture)
    else if header.difficulty != e.difficulty then Some(WrongDifficulty)
    else None
  }

  function BodyError(c: Crypto, block: Block): Option<BlockError> {
    if |block.transactions| > MAX_TRANSACTIONS_PER_BLOCK then Some(TooManyTransactions)
    else if |block.slashEvidence| > MAX_SLASH_EVIDENCE_PER_BLOCK then Some(TooMuchEvidence)
    else if |block.attestations| > MAX_ATTESTATIONS_PER_BLOCK then Some(TooManyAttestations)
    else if c.blockSize(block) > TransactionPool.MAX_BLOCK_SIZE_BYTES then Some(BlockTooLarge)
    else if !c.bodyRootsMatch(block) then Some(RootMismatch)
    else if !DistinctTransactions(block.transactions) then Some(DuplicateTransaction)
    else if !DataFits(block.transactions) then Some(DataTooLarge)
    else if !FeesReach(block.transactions) then Some(FeeBelowMinimum)
    else None
  }

  function ProofError(c: Crypto, header: BlockHeader): Option<BlockError> {
    match KindOf(header)
    case None => Some(NoSingleProof)
    case Some(kind) =>
      if header.producer == 0 then Some(ZeroProducer)
      else if kind.Mined? && !c.powAccepts(header, header.difficulty) then Some(ProofOfWorkRejected)
      else if kind.Refined? && |header.refinerSignature.value| != 64 then Some(BadSignatureLength)
      else None
  }

  function Validate(c: Crypto, block: Block, e: Expected): Option<BlockError> {
    var headerError := HeaderError(block.header, e);
    if headerError.Some? then headerError
    else
      var bodyError := BodyError(c, block);
      if bodyError.Some? then bodyError
      else if e.height > 0 then ProofError(c, block.header)
      else None
  }

  /** What the rest of block application relies on. */
  lemma ValidBlockFacts(c: Crypto, block: Block, e: Expected)
    requires Validate(c, block, e).None? && PowSound(c)
    ensures |block.transactions| <= MAX_TRANSACTIONS_PER_BLOCK
    ensures block.header.height == e.height && block.header.difficulty == e.difficulty
    ensures e.height > 0 ==> KindOf(block.header).Some? && !KindOf(block.header).value.GenesisKind? && block.header.producer != 0
    ensures KindOf(block.header) == Some(Mined) ==> block.header.difficulty <= 256
    ensures e.height > 0 && (e.parentTimestamp as int) + MinimumTimestampDelta() <= U64_MAX ==>
              (e.parentTimestamp as int) + MinimumTimestampDelta() <= block.header.timestamp
  {
  }

  method CheckDistinct(txs: seq<Transaction>) returns (ok: bool)
    ensures ok <==> DistinctTransactions(txs)
  {
    var seen := {};
    for i := 0 to |txs|
      invariant seen == set k | 0 <= k < i :: txs[k].txId
      invariant DistinctTransactions(txs[..i])
    {
      if txs[i].txId in seen { return false; }
      seen := seen + {txs[i].txId};
    }
    assert txs[..|txs|] == txs;
    return true;
  }

  method ValidateBlock(c: Crypto, block: Block, e: Expected) returns (error: Option<BlockError>)
    ensures error == Validate(c, block, e)
  {
    var headerError := HeaderError(block.header, e);
    if headerError.Some? { return headerError; }
    if |block.transactions| > MAX_TRANSACTIONS_PER_BLOCK { return Some(TooManyTransactions); }
    if |block.slashEvidence| > MAX_SLASH_EVIDENCE_PER_BLOCK { return Some(TooMuchEvidence); }
    if |block.attestations| > MAX_ATTESTATIONS_PER_BLOCK { return Some(TooManyAttestations); }
    if c.blockSize(block) > TransactionPool.MAX_BLOCK_SIZE_BYTES { return Some(BlockTooLarge); }
    if !c.bodyRootsMatch(block) { return Some(RootMismatch); }
    var distinct := CheckDistinct(block.transactions);
    if !distinct { return Some(DuplicateTransaction); }
    for i := 0 to |block.transactions|
      invariant DataFits(block.transactions[..i])
    {
      if |block.transactions[i].data| > MAX_TX_DATA_SIZE_BYTES { return Some(DataTooLarge); }
    }
    assert block.transactions[..|block.transactions|] == block.transactions;
    for i := 0 to |block.transactions|
      invariant FeesReach(block.transactions[..i])
    {
      if block.transactions[i].fee < MIN_FEE { return Some(FeeBelowMinimum); }
    }
    if e.height > 0 { return ProofError(c, block.header); }
    return None;
  }
}
