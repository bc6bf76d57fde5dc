/** Transactions, blocks and the opaque cryptography they are checked with. */
module Types {
  import opened Numbers
  import opened Collections
  import opened Ledger
  import opened Refiner

  datatype TransactionAction =
    | Transfer(recipient: ObjectId, transferred: u64)
    | RefinerBond(bonded: u64)
    | RefinerUnbond(unbonded: u64)

  datatype Transaction = Transaction(
    txId: ObjectId,
    sender: ObjectId,
    action: TransactionAction,
    fee: u64,
    signature: Bytes,
    signatureType: nat,
    nonce: u64,
    chainId: u64,
    data: Bytes,
    publicKey: Bytes)

  datatype DoubleSignEvidence = DoubleSignEvidence(
    producer: ObjectId,
    producerKey: Bytes,
    height: u64,
    hashA: Hash,
    signatureA: Bytes,
    hashB: Hash,
    signatureB: Bytes)

  datatype BlockAttestation = BlockAttestation(
    refiner: ObjectId,
    refinerKey: Bytes,
    height: u64,
    blockHash: Hash,
    signature: Bytes)

  datatype BlockHeader = BlockHeader(
    version: nat,
    height: u64,
    previousHash: Hash,
    stateRoot: Hash,
    timestamp: u64,
    difficulty: u64,
    producer: ObjectId,
    powProof: Option<Bytes>,
    refinerSignature: Option<Bytes>)

  datatype Block = Block(
    header: BlockHeader,
    transactions: seq<Transaction>,
    slashEvidence: seq<DoubleSignEvidence>,
    attestations: seq<BlockAttestation>)

  datatype ProductionKind = GenesisKind | Mined | Refined

  /** The proof fields are mutually exclusive; anything else is malformed. */
  function KindOf(header: BlockHeader): Option<ProductionKind> {
    if header.height == 0 then
      if header.powProof.None? && header.refinerSignature.None? then Some(GenesisKind) else None
    else if header.powProof.Some? && header.refinerSignature.None? then Some(Mined)
    else if header.powProof.None? && header.refinerSignature.Some? then Some(Refined)
    else None
  }

  /** Hashes, signatures, sizes and proofs of work, as opaque functions of what
      they are computed from. */
  datatype Crypto = Crypto(
    idOfKey: Bytes -> ObjectId,
    txIdOf: Transaction -> ObjectId,
    txSigned: Transaction -> bool,
    txSize: Transaction -> nat,
    blockHash: BlockHeader -> Hash,
    blockSize: Block -> nat,
    bodyRootsMatch: Block -> bool,
    powAccepts: (BlockHeader, u64) -> bool,
    powValue: BlockHeader -> Option<u64>,
    keySigned: (Bytes, Hash, Bytes) -> bool,
    keySignedStrictly: (Bytes, Hash, Bytes) -> bool,
    keyAttested: (Bytes, u64, Hash, Bytes) -> bool,
    stateRoot: (Accounts, Infos, seq<PendingUnbond>, u64, u64, u64) -> Hash)

  /** A proof of work counts leading zero bits of a 256-bit hash. */
  ghost predicate PowSound(c: Crypto) {
    forall h, d :: c.powAccepts(h, d) ==> d <= 256
  }
}
