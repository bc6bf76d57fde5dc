/** What a full pool gives up for a new transaction. */
module Eviction {
  import opened Numbers
  import opened Emission
  import opened Collections
  import opened Types
  import opened Dispatcher
  import opened TransactionPool

  /** Entries of no higher priority than `priority`. */
  function UpTo(entries: Entries, priority: u64): set<ObjectId> {
    set id | id in entries && entries[id].priority <= priority
  }

  /** Nothing evicted had a higher priority than the arrival. */
  ghost predicate SparesBetter(entries: Entries, gone: set<ObjectId>, priority: u64) {
    forall id :: id in gone && id in entries ==> entries[id].priority <= priority
  }

  lemma FreedMonotone(entries: Entries, s: set<ObjectId>, t: set<ObjectId>)
    requires s <= t
    ensures FreedBy(entries, s) <= FreedBy(entries, t)
  {
    PartBound(Sizes(entries), s, t);
  }

  /** An eviction spares everything better than the arrival if and only if what is not
      better makes room enough, or nothing is better. */
  lemma SparesBetterIff(entries: Entries, gone: set<ObjectId>, needed: nat, priority: u64)
    requires Evicts(entries, gone, needed)
    ensures SparesBetter(entries, gone, priority)
       <==> FreedBy(entries, UpTo(entries, priority)) >= needed || UpTo(entries, priority) == entries.Keys
  {
    hide FreedBy;
    var low := UpTo(entries, priority);
    if SparesBetter(entries, gone, priority) {
      FreedMonotone(entries, gone, low);
    } else {
      var g :| g in gone && g in entries && entries[g].priority > priority;
      var last :| LastEvicted(entries, gone, needed, last);
      assert entries[last].priority > priority;
      assert forall id :: id in low ==> Lower(entries[id], entries[last]);
      FreedMonotone(entries, low, gone - {last});
    }
  }

  /** What an admission drops besides the transaction it replaces. */
  ghost predicate Drops(kept: Entries, gone: set<ObjectId>, size: nat) {
    if SizeOf(kept) + size > MEMPOOL_MAX_SIZE_BYTES then Evicts(kept, gone, size) else gone == {}
  }

  /** An admission drops nothing better than itself if and only if the pool has room
      for it, or the entries that are not better make room enough. */
  lemma AdmissionSparesBetterIff(kept: Entries, gone: set<ObjectId>, size: nat, priority: u64)
    requires size <= TX_MAX_SIZE_BYTES && Drops(kept, gone, size)
    ensures SparesBetter(kept, gone, priority)
       <==> SizeOf(kept) + size <= MEMPOOL_MAX_SIZE_BYTES || FreedBy(kept, UpTo(kept, priority)) >= size
  {
    hide SizeOf, FreedBy, Evicts, UpTo;
    if SizeOf(kept) + size > MEMPOOL_MAX_SIZE_BYTES {
      SparesBetterIff(kept, gone, size, priority);
      FreedAll(kept);
    }
  }

  lemma FreedAll(entries: Entries)
    ensures FreedBy(entries, entries.Keys) == SizeOf(entries)
  {
    assert Restrict(Sizes(entries), entries.Keys) == Sizes(entries);
  }

  // ---- A pool of better entries ----

  /** Two bytes of a key are its owner's id, transactions are known by their sender,
      and all signatures are good. */
  ghost function SmallCrypto(): Crypto {
    Crypto(key => if |key| >= 2 then (key[0] as int) + 256 * (key[1] as int) else 0, (tx: Transaction) => tx.sender, _ => true, _ => TX_MAX_SIZE_BYTES,
           _ => 0, _ => 0, _ => true, (_, d) => d <= 256, _ => None,
           (_, _, _) => true, (_, _, _) => true, (_, _, _, _) => true, (_, _, _, _, _, _) => 0)
  }

  /** The largest transaction there may be, sent by account `k`. */
  function TxOf(k: nat, fee: u64): Transaction
    requires k < 0x1_0000
  {
    Transaction(k, k, Transfer(0, 0), fee, [], 0, 0, MAINNET_CHAIN_ID, [], [k % 256, k / 256] + seq(30, _ => 0))
  }

  const HIGH_FEE: u64 := 1_000
  const LOW_FEE: u64 := 10
  const FULL: nat := 1_000

  /** The first `n` accounts have a transaction pending, with its fee as priority. */
  function PoolOf(n: nat): Entries
    requires n <= FULL
  {
    if n == 0 then map[] else PoolOf(n - 1)[n - 1 := EntryOf(n - 1)]
  }

  function EntryOf(k: nat): Entry
    requires k < FULL
  {
    Entry(TxOf(k, HIGH_FEE), HIGH_FEE, TX_MAX_SIZE_BYTES, 0)
  }

  lemma {:induction false} PoolHolds(n: nat)
    requires n <= FULL
    ensures EntriesValid(PoolOf(n)) && SizeOf(PoolOf(n)) == n * TX_MAX_SIZE_BYTES
    ensures forall id :: id in PoolOf(n) <==> 0 <= id < n
    ensures forall id :: id in PoolOf(n) ==> PoolOf(n)[id] == EntryOf(id)
  {
    hide EntriesValid, SizeOf, SentBy, EntryOf;
    EntriesNamed();
    if n == 0 {
      EmptyPool();
    } else {
      PoolHolds(n - 1);
      InsertSize(PoolOf(n - 1), n - 1, EntryOf(n - 1));
      NoneSent(PoolOf(n - 1), n - 1);
      InsertValid(PoolOf(n - 1), n - 1, EntryOf(n - 1));
    }
  }

  lemma EntriesNamed()
    ensures forall k :: 0 <= k < FULL ==>
              EntryOf(k).transaction.txId == k && EntryOf(k).transaction.sender == k && EntryOf(k).size == TX_MAX_SIZE_BYTES
  {
  }

  lemma EmptyPool()
    ensures EntriesValid(map[]) && SizeOf(map[]) == 0
  {
    assert Sizes(map[]) == map[];
    assert forall s :: SentBy(map[], s) == {};
  }

  lemma NoneSent(entries: Entries, sender: ObjectId)
    requires forall id :: id in entries ==> entries[id].transaction.sender != sender
    ensures |SentBy(entries, sender)| == 0
  {
    assert SentBy(entries, sender) == {};
  }

  lemma FeeReaches(size: nat, fee: u64)
    requires fee >= LOW_FEE
    ensures fee >= EffectiveMinFee(size, MIN_FEE)
  {
  }

  /** The next account's transaction is admissible at any fee from `LOW_FEE` up. */
  lemma NextAdmitted(n: nat, fee: u64)
    requires n <= FULL && fee >= LOW_FEE
    ensures Refusal(SmallCrypto(), PoolOf(n), TxOf(n, fee), 0, MIN_FEE).None?
    ensures Replaced(PoolOf(n), TxOf(n, fee)) == {}
  {
    hide SizeOf, EntriesValid, SentBy, PoolOf, EffectiveMinFee, Verified, TxOf, SmallCrypto, ReplacementMinFee;
    PoolHolds(n);
    var tx := TxOf(n, fee);
    FreshSender(n, fee);
    FeeReaches(SizeOf(PoolOf(n)), fee);
    KeyNamesSender(n, fee);
  }

  lemma FreshSender(n: nat, fee: u64)
    requires n <= FULL
    ensures var tx := TxOf(n, fee);
      && tx.fee == fee && tx.nonce == 0 && tx.sender == n && tx.txId == n
      && SmallCrypto().txSize(tx) == TX_MAX_SIZE_BYTES
      && tx.txId !in PoolOf(n) && |SentBy(PoolOf(n), tx.sender)| == 0
      && forall id :: id in PoolOf(n) ==> !Occupies(PoolOf(n), id, tx)
  {
    hide EntriesValid, PoolOf, SentBy;
    PoolHolds(n);
    NoneSent(PoolOf(n), n);
  }

  /** Each entry was admitted into the pool of the ones before it. */
  lemma PoolFills(n: nat)
    requires n < FULL
    ensures Refusal(SmallCrypto(), PoolOf(n), TxOf(n, HIGH_FEE), 0, MIN_FEE).None?
    ensures Replaced(PoolOf(n), TxOf(n, HIGH_FEE)) == {} && Drops(PoolOf(n), {}, TX_MAX_SIZE_BYTES)
    ensures PoolOf(n + 1) == PoolOf(n)[n := Entry(TxOf(n, HIGH_FEE), HIGH_FEE, SmallCrypto().txSize(TxOf(n, HIGH_FEE)), 0)]
  {
    PoolHolds(n);
    NextAdmitted(n, HIGH_FEE);
    hide SizeOf, EntriesValid, SentBy, Refusal, Replaced;
  }

  lemma KeyNamesSender(k: nat, fee: u64)
    requires k < 0x1_0000
    ensures Verified(SmallCrypto(), TxOf(k, fee))
  {
  }

  lemma FreedFromNone(entries: Entries)
    ensures FreedBy(entries, {}) == 0
  {
    PartEmpty(Sizes(entries));
  }

  lemma AllBetter()
    ensures FreedBy(PoolOf(FULL), UpTo(PoolOf(FULL), LOW_FEE)) == 0 && SizeOf(PoolOf(FULL)) == MEMPOOL_MAX_SIZE_BYTES
  {
    hide SizeOf, FreedBy, EntriesValid, PoolOf;
    PoolHolds(FULL);
    assert UpTo(PoolOf(FULL), LOW_FEE) == {};
    FreedFromNone(PoolOf(FULL));
  }

  /** The failing input: a pool filled by admissions admits a transaction of lower fee
      and priority than all its entries, and whatever it evicts for it was better. */
  lemma BetterEvicted(gone: set<ObjectId>)
    requires Drops(PoolOf(FULL), gone, TX_MAX_SIZE_BYTES)
    ensures var full, tx := PoolOf(FULL), TxOf(FULL, LOW_FEE);
      && Refusal(SmallCrypto(), full, tx, 0, MIN_FEE).None? && Replaced(full, tx) == {}
      && !SparesBetter(full, gone, LOW_FEE)
  {
    hide PoolOf, SizeOf, FreedBy, Refusal, Replaced, Drops, UpTo, SparesBetter, EntriesValid;
    NextAdmitted(FULL, LOW_FEE);
    AllBetter();
    AdmissionSparesBetterIff(PoolOf(FULL), gone, TX_MAX_SIZE_BYTES, LOW_FEE);
  }
}
