/** The fee-prioritised pool of pending transactions
    (crates/consensus/src/mempool.rs). */
module TransactionPool {
  import opened Numbers
  import opened IntegerSqrt
  import opened Emission
  import opened Collections
  import opened Types
  import Dispatcher

  const MEMPOOL_MAX_SIZE_BYTES: nat := 100_000_000
  const MEMPOOL_MAX_TXS_PER_ACCOUNT: nat := 50
  const MEMPOOL_TX_EXPIRY_SECS: u64 := 86_400
  const TX_MAX_SIZE_BYTES: nat := 100_000
  const MAX_BLOCK_SIZE_BYTES: nat := 10_485_760
  const MAX_NONCE_GAP: u64 := 10

  datatype Entry = Entry(transaction: Transaction, priority: u64, size: nat, submittedAt: u64)

  type Entries = map<ObjectId, Entry>

  datatype PoolError =
    | NotVerified
    | FeeBelowMinimum
    | FeeBelowCongestion
    | TooLarge
    | TooManyFromSender
    | NonceGap
    | Duplicate
    | ReplacementFee
    | MempoolFull

  // ---- What the counters stand for ----

  function Sizes(entries: Entries): map<ObjectId, nat> {
    map id | id in entries :: entries[id].size
  }

  ghost function SizeOf(entries: Entries): nat { Total(Sizes(entries)) }

  function SentBy(entries: Entries, sender: ObjectId): set<ObjectId> {
    set id | id in entries && entries[id].transaction.sender == sender
  }

  ghost predicate CountsExact(counts: map<ObjectId, nat>, entries: Entries) {
    && (forall s :: Lookup(counts, s) == |SentBy(entries, s)|)
    && (forall s :: s in counts ==> counts[s] > 0)
  }

  predicate SameSlot(a: Transaction, b: Transaction) { a.sender == b.sender && a.nonce == b.nonce }

  /** What the entry map itself promises: ids are keys, at most one transaction per
      sender and nonce, nothing oversized, no sender over its limit. */
  ghost predicate EntriesValid(entries: Entries) {
    && (forall id :: id in entries ==> entries[id].transaction.txId == id && entries[id].size <= TX_MAX_SIZE_BYTES)
    && (forall i, j :: i in entries && j in entries && SameSlot(entries[i].transaction, entries[j].transaction) ==> i == j)
    && (forall s :: |SentBy(entries, s)| <= MEMPOOL_MAX_TXS_PER_ACCOUNT)
    && SizeOf(entries) <= MEMPOOL_MAX_SIZE_BYTES
  }

  lemma RemoveSize(entries: Entries, id: ObjectId)
    requires id in entries
    ensures SizeOf(entries) == SizeOf(entries - {id}) + entries[id].size
  {
    assert Sizes(entries - {id}) == Sizes(entries) - {id};
    TotalRemove(Sizes(entries), id);
  }

  lemma InsertSize(entries: Entries, id: ObjectId, entry: Entry)
    requires id !in entries
    ensures SizeOf(entries[id := entry]) == SizeOf(entries) + entry.size
  {
    assert Sizes(entries[id := entry]) == Sizes(entries)[id := entry.size];
    TotalUpdate(Sizes(entries), id, entry.size);
  }

  lemma RemoveSentBy(entries: Entries, id: ObjectId, sender: ObjectId)
    requires id in entries
    ensures |SentBy(entries - {id}, sender)| == |SentBy(entries, sender)| - if entries[id].transaction.sender == sender then 1 else 0
  {
    assert SentBy(entries - {id}, sender) == SentBy(entries, sender) - {id};
  }

  lemma InsertSentBy(entries: Entries, id: ObjectId, entry: Entry, sender: ObjectId)
    requires id !in entries
    ensures |SentBy(entries[id := entry], sender)| == |SentBy(entries, sender)| + if entry.transaction.sender == sender then 1 else 0
  {
    var before := SentBy(entries, sender);
    assert SentBy(entries[id := entry], sender) == if entry.transaction.sender == sender then before + {id} else before;
  }

  lemma RemoveValid(entries: Entries, id: ObjectId)
    requires EntriesValid(entries) && id in entries
    ensures EntriesValid(entries - {id})
  {
    hide SizeOf, SentBy;
    RemoveSize(entries, id);
    forall s ensures |SentBy(entries - {id}, s)| <= MEMPOOL_MAX_TXS_PER_ACCOUNT { RemoveSentBy(entries, id, s); }
  }

  lemma InsertValid(entries: Entries, id: ObjectId, entry: Entry)
    requires EntriesValid(entries) && id !in entries
    requires entry.transaction.txId == id && entry.size <= TX_MAX_SIZE_BYTES
    requires forall j :: j in entries ==> !SameSlot(entries[j].transaction, entry.transaction)
    requires |SentBy(entries, entry.transaction.sender)| < MEMPOOL_MAX_TXS_PER_ACCOUNT
    requires SizeOf(entries) + entry.size <= MEMPOOL_MAX_SIZE_BYTES
    ensures EntriesValid(entries[id := entry])
  {
    hide SizeOf, SentBy;
    InsertSize(entries, id, entry);
    var after := entries[id := entry];
    forall s ensures |SentBy(after, s)| <= MEMPOOL_MAX_TXS_PER_ACCOUNT { InsertSentBy(entries, id, entry, s); }
  }

  // ---- Fees and refusals ----

  function EffectiveMinFee(totalSize: nat, suggestedFee: u64): u64 {
    var depth := Min(Max(DivCeil(totalSize, MAX_BLOCK_SIZE_BYTES), 1), CAPACITY_RATIO);
    Max(SatMul64(suggestedFee, depth), MIN_FEE)
  }

  /** A same-nonce replacement must pay at least ten percent more, rounded up. */
  function ReplacementMinFee(oldFee: u64): u64 {
    DivCeil(SatMul64(oldFee, 11), 10)
  }

  /** A fuller pool never asks for less, an almost empty one asks for the suggestion,
      a full one for CAPACITY_RATIO times it; the clamp never bites. */
  lemma MinFeeFollowsDepth(size: nat, more: nat, suggestedFee: u64)
    requires size <= more
    ensures EffectiveMinFee(size, suggestedFee) <= EffectiveMinFee(more, suggestedFee)
    ensures size <= MAX_BLOCK_SIZE_BYTES ==> EffectiveMinFee(size, suggestedFee) == Max(suggestedFee, MIN_FEE)
    ensures more == MEMPOOL_MAX_SIZE_BYTES ==> EffectiveMinFee(more, suggestedFee) == Max(SatMul64(suggestedFee, CAPACITY_RATIO), MIN_FEE)
    ensures more <= MEMPOOL_MAX_SIZE_BYTES ==> DivCeil(more, MAX_BLOCK_SIZE_BYTES) <= CAPACITY_RATIO
  {
    var d, e := Min(Max(DivCeil(size, MAX_BLOCK_SIZE_BYTES), 1), CAPACITY_RATIO), Min(Max(DivCeil(more, MAX_BLOCK_SIZE_BYTES), 1), CAPACITY_RATIO);
    assert d <= e;
    MulMonotone(suggestedFee, d, e);
  }

  /** The replacement floor is the smallest fee at least ten percent above the old
      one exactly while eleven times the old fee fits in u64; beyond that the
      multiplication saturates and the floor falls short, even below the old fee. */
  lemma ReplacementBumpsTenPercent(oldFee: u64)
    ensures 10 * (ReplacementMinFee(oldFee) as int) >= 11 * oldFee <==> 11 * (oldFee as int) <= U64_MAX
    ensures 11 * (oldFee as int) <= U64_MAX && oldFee > 0 ==> ReplacementMinFee(oldFee) > oldFee && 10 * ((ReplacementMinFee(oldFee) as int) - 1) < 11 * oldFee
    ensures ReplacementMinFee(U64_MAX) < U64_MAX
  {
  }

  predicate Occupies(entries: Entries, id: ObjectId, tx: Transaction) {
    id in entries && SameSlot(entries[id].transaction, tx)
  }

  /** The pending transaction that `tx` would replace. */
  ghost function Replaced(entries: Entries, tx: Transaction): set<ObjectId> {
    set id | id in entries && Occupies(entries, id, tx)
  }

  ghost function Refusal(c: Crypto, entries: Entries, tx: Transaction, accountNonce: u64, suggestedFee: u64): Option<PoolError> {
    if !Dispatcher.Verified(c, tx) then Some(NotVerified)
    else if tx.fee < MIN_FEE then Some(FeeBelowMinimum)
    else if tx.fee < EffectiveMinFee(SizeOf(entries), suggestedFee) then Some(FeeBelowCongestion)
    else if c.txSize(tx) > TX_MAX_SIZE_BYTES then Some(TooLarge)
    else if |SentBy(entries, tx.sender)| >= MEMPOOL_MAX_TXS_PER_ACCOUNT then Some(TooManyFromSender)
    else if tx.nonce > Wrap64(accountNonce + MAX_NONCE_GAP) then Some(NonceGap)
    else if tx.txId in entries then Some(Duplicate)
    else if exists id :: Occupies(entries, id, tx) && tx.fee < ReplacementMinFee(entries[id].transaction.fee) then Some(ReplacementFee)
    else None
  }

  // ---- Priority order ----

  /** Both sorts put the older of two equal priorities first; block production
      (`best`) starts from the highest priority, eviction from the lowest. */
  predicate Before(a: Entry, b: Entry, best: bool) {
    || (if best then a.priority > b.priority else a.priority < b.priority)
    || (a.priority == b.priority && a.submittedAt < b.submittedAt)
  }

  predicate Lower(a: Entry, b: Entry) { Before(a, b, false) }

  ghost predicate Lists(order: seq<ObjectId>, entries: Entries) {
    NoRepeats(order) && AsSet(order) == entries.Keys
  }

  ghost predicate Sorted(order: seq<ObjectId>, entries: Entries, best: bool) {
    forall i, j :: 0 <= i < j < |order| ==> InOrder(entries, order[i], order[j], best)
  }

  predicate InOrder(entries: Entries, x: ObjectId, y: ObjectId, best: bool) {
    x in entries && y in entries && !Before(entries[y], entries[x], best)
  }

  /** `gone` is a lowest-first prefix of some eviction order of `entries`, no longer
      than it takes to free `needed` bytes. */
  ghost predicate Evicts(entries: Entries, gone: set<ObjectId>, needed: nat) {
    && gone <= entries.Keys
    && (forall g, k :: g in gone && k in entries && k !in gone ==> !Lower(entries[k], entries[g]))
    && (gone == entries.Keys || FreedBy(entries, gone) >= needed)
    && (gone != {} ==> exists last :: LastEvicted(entries, gone, needed, last))
  }

  /** Before `last` went, too little had been freed, and nothing evicted was worth
      more than `last`. */
  ghost predicate LastEvicted(entries: Entries, gone: set<ObjectId>, needed: nat, last: ObjectId) {
    && last in gone && last in entries && gone <= entries.Keys
    && FreedBy(entries, gone - {last}) < needed
    && (forall g :: g in gone ==> !Lower(entries[last], entries[g]))
  }

  ghost function FreedBy(entries: Entries, gone: set<ObjectId>): nat { Part(Sizes(entries), gone) }

  lemma FreedRemains(entries: Entries, gone: set<ObjectId>)
    requires gone <= entries.Keys
    ensures SizeOf(entries - gone) + FreedBy(entries, gone) == SizeOf(entries)
  {
    var m := Sizes(entries);
    PartUnion(m, m.Keys - gone, gone);
    assert Restrict(m, m.Keys - gone + gone) == m;
    assert Restrict(m, m.Keys - gone) == Sizes(entries - gone);
  }

  /** Evicting enough to fit an admissible transaction always succeeds, which is
      why `MempoolFull` is never returned. */
  lemma EvictionMakesRoom(entries: Entries, gone: set<ObjectId>, size: nat)
    requires SizeOf(entries) <= MEMPOOL_MAX_SIZE_BYTES && size <= TX_MAX_SIZE_BYTES
    requires Evicts(entries, gone, size)
    ensures SizeOf(entries - gone) + size <= MEMPOOL_MAX_SIZE_BYTES
  {
    FreedRemains(entries, gone);
    if gone == entries.Keys {
      assert Sizes(entries - gone) == map[];
    }
  }

  lemma {:induction false} DropValid(entries: Entries, gone: set<ObjectId>)
    requires EntriesValid(entries)
    ensures EntriesValid(entries - gone)
    decreases |gone|
  {
    hide EntriesValid;
    if gone == {} {
      assert entries - gone == entries;
    } else {
      var id :| id in gone;
      DropValid(entries, gone - {id});
      if id in entries {
        RemoveValid(entries - (gone - {id}), id);
        assert entries - (gone - {id}) - {id} == entries - gone;
      } else {
        assert entries - (gone - {id}) == entries - gone;
      }
    }
  }

  // ---- The pool ----

  /** Entries past their expiry at `now`. */
  function Expired(entries: Entries, now: u64): set<ObjectId> {
    set id | id in entries && SatSub64(now, entries[id].submittedAt) > MEMPOOL_TX_EXPIRY_SECS
  }

  lemma DropAnother(entries: Entries, gone: set<ObjectId>, id: ObjectId)
    ensures entries - gone - {id} == entries - (gone + {id})
  {
  }

  lemma FreedNothing(entries: Entries, order: seq<ObjectId>)
    ensures FreedBy(entries, AsSet(order[..0])) == 0 && entries - AsSet(order[..0]) == entries
  {
    PartEmpty(Sizes(entries));
    assert AsSet(order[..0]) == {};
  }

  lemma FreedNext(entries: Entries, order: seq<ObjectId>, k: nat)
    requires Lists(order, entries) && k < |order|
    ensures order[k] in entries - AsSet(order[..k])
    ensures AsSet(order[..k + 1]) == AsSet(order[..k]) + {order[k]}
    ensures FreedBy(entries, AsSet(order[..k + 1])) == FreedBy(entries, AsSet(order[..k])) + entries[order[k]].size
  {
    var id := order[k];
    assert order[..k + 1] == order[..k] + [id];
    AsSetAppend(order[..k], id);
    assert id !in AsSet(order[..k]);
    assert id in AsSet(order);
    PartInsert(Sizes(entries), AsSet(order[..k]), id);
  }

  class Mempool {
    var entries: Entries
    var accountTxCounts: map<ObjectId, nat>
    var totalSize: nat

    /** The two counters are exactly what the entries add up to. */
    ghost predicate Exact()
      reads this
    {
      totalSize == SizeOf(entries) && CountsExact(accountTxCounts, entries)
    }

    ghost predicate Valid()
      reads this
    {
      Exact() && EntriesValid(entries)
    }

    constructor ()
      ensures Valid() && entries == map[]
    {
      entries, accountTxCounts, totalSize := map[], map[], 0;
      assert Sizes(map[]) == map[];
      assert forall s :: SentBy(map[], s) == {};
    }

    method RemoveTransaction(id: ObjectId) returns (removed: Option<Transaction>)
      requires Exact()
      modifies this
      ensures Exact()
      ensures entries == old(entries) - {id}
      ensures removed == if id in old(entries) then Some(old(entries)[id].transaction) else None
    {
      hide SizeOf, SentBy;
      if id !in entries {
        assert entries == entries - {id};
        return None;
      }
      var entry := entries[id];
      RemoveSize(entries, id);
      forall s ensures |SentBy(entries - {id}, s)| == |SentBy(entries, s)| - if entry.transaction.sender == s then 1 else 0 {
        RemoveSentBy(entries, id, s);
      }
      var sender := entry.transaction.sender;
      if sender in accountTxCounts {
        var count := if accountTxCounts[sender] == 0 then 0 else accountTxCounts[sender] - 1;
        accountTxCounts := if count == 0 then accountTxCounts - {sender} else accountTxCounts[sender := count];
      }
      entries := entries - {id};
      totalSize := Max(totalSize - entry.size, 0);
      return Some(entry.transaction);
    }

    method RemoveAll(ids: set<ObjectId>)
      requires Exact()
      modifies this
      ensures Exact()
      ensures entries == old(entries) - ids
    {
      hide *;
      ghost var before := entries;
      ghost var gone := {};
      var rest := ids;
      while rest != {}
        invariant Exact()
        invariant gone + rest == ids
        invariant entries == before - gone
        decreases rest
      {
        var id :| id in rest;
        var removed := RemoveTransaction(id);
        DropAnother(before, gone, id);
        rest := rest - {id};
        gone := gone + {id};
      }
      assert gone == ids;
    }

    method EvictExpired(now: u64) returns (count: nat)
      requires Valid()
      modifies this
      ensures Valid()
      ensures entries == old(entries) - Expired(old(entries), now)
      ensures count == |Expired(old(entries), now)|
    {
      hide EntriesValid, SizeOf, CountsExact;
      DropValid(entries, Expired(entries, now));
      var expired := Expired(entries, now);
      count := |expired|;
      RemoveAll(expired);
    }

    method GetEffectiveMinFee(suggestedFee: u64) returns (fee: u64)
      requires Exact()
      ensures fee == EffectiveMinFee(SizeOf(entries), suggestedFee)
    {
      fee := EffectiveMinFee(totalSize, suggestedFee);
    }

    /** The library sort of the entries; ties in any order. */
    method SortEntries(best: bool) returns (order: seq<ObjectId>)
      ensures Lists(order, entries) && Sorted(order, entries, best)
    {
      hide InOrder, PartlySorted;
      order := [];
      SortNothing(entries, best);
      var rest := entries.Keys;
      while rest != {}
        invariant PartlySorted(order, rest, entries, best) && rest <= entries.Keys
        decreases |rest|
      {
        FirstExists(entries, rest, best);
        var id :| id in rest && IsFirst(entries, rest, best, id);
        SortNext(order, rest, entries, best, id);
        order := order + [id];
        rest := rest - {id};
      }
      SortedAll(order, entries, best);
    }

    /** Remove in eviction order until enough is freed. */
    method EvictInOrder(order: seq<ObjectId>, needed: nat) returns (ghost i: nat)
      requires Exact() && Lists(order, entries)
      modifies this
      ensures Exact()
      ensures i <= |order| && entries == old(entries) - AsSet(order[..i])
      ensures i == |order| || FreedBy(old(entries), AsSet(order[..i])) >= needed
      ensures i > 0 ==> FreedBy(old(entries), AsSet(order[..i - 1])) < needed
    {
      ghost var before := entries;
      var freed := 0;
      var k := 0;
      FreedNothing(before, order);
      hide FreedBy, SizeOf, CountsExact, SentBy;
      while k < |order| && freed < needed
        invariant k <= |order|
        invariant Exact() && entries == before - AsSet(order[..k])
        invariant freed == FreedBy(before, AsSet(order[..k]))
        invariant k > 0 ==> FreedBy(before, AsSet(order[..k - 1])) < needed
      {
        var id := order[k];
        FreedNext(before, order, k);
        DropAnother(before, AsSet(order[..k]), id);
        var size := entries[id].size;
        var removed := RemoveTransaction(id);
        freed := freed + size;
        k := k + 1;
      }
      i := k;
    }

    method EvictLowestPriority(needed: nat) returns (ghost gone: set<ObjectId>)
      requires Valid()
      modifies this
      ensures Valid()
      ensures entries == old(entries) - gone
      ensures Evicts(old(entries), gone, needed)
    {
      hide EntriesValid, Evicts, Lists, Sorted, FreedBy, SizeOf, CountsExact;
      ghost var before := entries;
      var order := SortEntries(false);
      ghost var i := EvictInOrder(order, needed);
      gone := AsSet(order[..i]);
      EvictedPrefix(before, order, i, needed);
      DropValid(before, gone);
    }

    /** `add_transaction`: refusals change nothing; an admission drops the
        transaction it replaces and, only when the pool would overflow, a
        lowest-first prefix of the rest. */
    method AddTransaction(c: Crypto, tx: Transaction, priority: u64, submittedAt: u64, accountNonce: u64, suggestedFee: u64)
      returns (r: Result<(), PoolError>, ghost gone: set<ObjectId>)
      requires Valid()
      modifies this
      ensures Valid()
      ensures match Refusal(c, old(entries), tx, accountNonce, suggestedFee)
              case Some(e) => r == Err(e) && entries == old(entries) && e != MempoolFull
              case None =>
                var kept := old(entries) - Replaced(old(entries), tx);
                && r == Ok(())
                && entries == (kept - gone)[tx.txId := Entry(tx, priority, c.txSize(tx), submittedAt)]
                && (if SizeOf(kept) + c.txSize(tx) > MEMPOOL_MAX_SIZE_BYTES then Evicts(kept, gone, c.txSize(tx)) else gone == {})
    {
      hide SizeOf, Evicts, SentBy, Dispatcher.Verified, ReplacementMinFee, EffectiveMinFee;
      gone := {};
      if !Dispatcher.Verified(c, tx) { return Err(NotVerified), gone; }
      if tx.fee < MIN_FEE { return Err(FeeBelowMinimum), gone; }
      var minimum := GetEffectiveMinFee(suggestedFee);
      if tx.fee < minimum { return Err(FeeBelowCongestion), gone; }
      var size := c.txSize(tx);
      if size > TX_MAX_SIZE_BYTES { return Err(TooLarge), gone; }
      if Lookup(accountTxCounts, tx.sender) >= MEMPOOL_MAX_TXS_PER_ACCOUNT { return Err(TooManyFromSender), gone; }
      if tx.nonce > Wrap64(accountNonce + MAX_NONCE_GAP) { return Err(NonceGap), gone; }
      if tx.txId in entries { return Err(Duplicate), gone; }
      ghost var before := entries;
      var accepted := DropReplaced(tx);
      if !accepted { return Err(ReplacementFee), gone; }
      ghost var kept := entries;
      gone := MakeRoom(size);
      AdmissionFits(before, Replaced(before, tx), gone, tx);
      InsertValid(entries, tx.txId, Entry(tx, priority, size, submittedAt));
      Insert(tx, priority, size, submittedAt);
      r := Ok(());
    }

    /** Same-nonce replacement: false, and nothing changed, when the bump is too small. */
    method DropReplaced(tx: Transaction) returns (accepted: bool)
      requires Valid()
      modifies this
      ensures Valid()
      ensures accepted <==> !(exists id :: Occupies(old(entries), id, tx) && tx.fee < ReplacementMinFee(old(entries)[id].transaction.fee))
      ensures entries == if accepted then old(entries) - Replaced(old(entries), tx) else old(entries)
    {
      hide SizeOf, SentBy, CountsExact;
      ghost var before := entries;
      var same := set id | id in entries && SameSlot(entries[id].transaction, tx);
      assert same == Replaced(before, tx);
      if same == {} {
        assert before == before - {};
        return true;
      }
      var id :| id in same;
      assert same == {id};
      assert Occupies(before, id, tx);
      if tx.fee < ReplacementMinFee(entries[id].transaction.fee) { return false; }
      RemoveValid(entries, id);
      var removed := RemoveTransaction(id);
      return true;
    }

    method MakeRoom(size: nat) returns (ghost gone: set<ObjectId>)
      requires Valid() && size <= TX_MAX_SIZE_BYTES
      modifies this
      ensures Valid()
      ensures entries == old(entries) - gone
      ensures totalSize + size <= MEMPOOL_MAX_SIZE_BYTES
      ensures if SizeOf(old(entries)) + size > MEMPOOL_MAX_SIZE_BYTES then Evicts(old(entries), gone, size) else gone == {}
    {
      gone := {};
      if totalSize + size > MEMPOOL_MAX_SIZE_BYTES {
        ghost var before := entries;
        gone := EvictLowestPriority(size);
        EvictionMakesRoom(before, gone, size);
      }
    }

    method Insert(tx: Transaction, priority: u64, size: nat, submittedAt: u64)
      requires Valid() && tx.txId !in entries
      requires EntriesValid(entries[tx.txId := Entry(tx, priority, size, submittedAt)])
      modifies this
      ensures Valid()
      ensures entries == old(entries)[tx.txId := Entry(tx, priority, size, submittedAt)]
    {
      hide SizeOf, SentBy;
      var entry := Entry(tx, priority, size, submittedAt);
      hide EntriesValid;
      InsertSize(entries, tx.txId, entry);
      ghost var before, counts := entries, accountTxCounts;
      accountTxCounts := accountTxCounts[tx.sender := Lookup(accountTxCounts, tx.sender) + 1];
      totalSize := totalSize + size;
      entries := entries[tx.txId := entry];
      forall s ensures Lookup(accountTxCounts, s) == |SentBy(entries, s)| {
        InsertSentBy(before, tx.txId, entry, s);
        assert Lookup(counts, s) == |SentBy(before, s)|;
      }
    }

    /** Block producers read the pool best first. */
    method GetOrderedTransactions() returns (transactions: seq<Transaction>)
      ensures exists order :: ListsBest(transactions, order, entries)
    {
      var order := SortEntries(true);
      forall i | 0 <= i < |order| ensures order[i] in entries {
        assert order[i] in AsSet(order);
      }
      var pool := entries;
      transactions := seq(|order|, i requires 0 <= i < |order| && order[i] in pool => pool[order[i]].transaction);
      assert ListsBest(transactions, order, entries);
    }
  }

  /** `transactions` are those of all entries, each once, best first. */
  ghost predicate ListsBest(transactions: seq<Transaction>, order: seq<ObjectId>, entries: Entries) {
    && Lists(order, entries) && Sorted(order, entries, true)
    && |transactions| == |order|
    && forall i :: 0 <= i < |order| ==> order[i] in entries && transactions[i] == entries[order[i]].transaction
  }

  /** `order` lists, in order, everything but `rest`, and nothing in `rest` comes
      before it. */
  ghost predicate PartlySorted(order: seq<ObjectId>, rest: set<ObjectId>, entries: Entries, best: bool) {
    && NoRepeats(order) && AsSet(order) + rest == entries.Keys && AsSet(order) !! rest
    && Sorted(order, entries, best)
    && forall x, y :: x in AsSet(order) && y in rest ==> InOrder(entries, x, y, best)
  }

  lemma SortNothing(entries: Entries, best: bool)
    ensures PartlySorted([], entries.Keys, entries, best)
  {
  }

  lemma SortedAll(order: seq<ObjectId>, entries: Entries, best: bool)
    requires PartlySorted(order, {}, entries, best)
    ensures Lists(order, entries) && Sorted(order, entries, best)
  {
  }

  lemma SortNext(order: seq<ObjectId>, rest: set<ObjectId>, entries: Entries, best: bool, id: ObjectId)
    requires PartlySorted(order, rest, entries, best) && IsFirst(entries, rest, best, id)
    ensures PartlySorted(order + [id], rest - {id}, entries, best)
  {
    hide InOrder;
    var longer := order + [id];
    AsSetAppend(order, id);
    forall i, j | 0 <= i < j < |longer| ensures InOrder(entries, longer[i], longer[j], best) && longer[i] != longer[j] {
      assert longer[i] in AsSet(order);
    }
  }

  predicate IsFirst(entries: Entries, ids: set<ObjectId>, best: bool, id: ObjectId) {
    id in ids && forall y :: y in ids ==> InOrder(entries, id, y, best)
  }

  lemma {:induction false} FirstExists(entries: Entries, ids: set<ObjectId>, best: bool)
    requires ids != {} && ids <= entries.Keys
    ensures exists id :: IsFirst(entries, ids, best, id)
    decreases |ids|
  {
    var x :| x in ids;
    if ids == {x} {
      assert IsFirst(entries, ids, best, x);
    } else {
      FirstExists(entries, ids - {x}, best);
      var y :| IsFirst(entries, ids - {x}, best, y);
      var first := if Before(entries[x], entries[y], best) then x else y;
      forall z | z in ids ensures InOrder(entries, first, z, best) {
        assert z != x ==> InOrder(entries, y, z, best);
      }
      assert IsFirst(entries, ids, best, first);
    }
  }

  /** A prefix of an eviction order, stopped as soon as enough is freed. */
  lemma EvictedPrefix(entries: Entries, order: seq<ObjectId>, i: nat, needed: nat)
    requires Lists(order, entries) && i <= |order|
    requires Sorted(order, entries, false)
    requires i == |order| || FreedBy(entries, AsSet(order[..i])) >= needed
    requires i > 0 ==> FreedBy(entries, AsSet(order[..i - 1])) < needed
    ensures Evicts(entries, AsSet(order[..i]), needed)
  {
    hide FreedBy, Before;
    var gone := AsSet(order[..i]);
    assert i == |order| ==> order[..i] == order;
    forall id | id in gone ensures id in AsSet(order) {
      var a :| 0 <= a < i && order[..i][a] == id;
      assert order[a] == id;
    }
    forall g, k | g in gone && k in entries && k !in gone ensures !Lower(entries[k], entries[g]) {
      var a :| 0 <= a < i && order[..i][a] == g;
      assert k in AsSet(order);
      var b :| 0 <= b < |order| && order[b] == k;
      assert forall c :: 0 <= c < i ==> order[..i][c] == order[c];
      assert InOrder(entries, order[a], order[b], false);
    }
    if i > 0 {
      LastOfPrefix(entries, order, i, needed);
    }
  }

  lemma LastOfPrefix(entries: Entries, order: seq<ObjectId>, i: nat, needed: nat)
    requires Lists(order, entries) && 0 < i <= |order|
    requires Sorted(order, entries, false)
    requires FreedBy(entries, AsSet(order[..i - 1])) < needed
    ensures LastEvicted(entries, AsSet(order[..i]), needed, order[i - 1])
  {
    hide FreedBy;
    var last := order[i - 1];
    assert order[..i] == order[..i - 1] + [last];
    AsSetAppend(order[..i - 1], last);
    assert last !in AsSet(order[..i - 1]);
    assert AsSet(order[..i]) - {last} == AsSet(order[..i - 1]);
    assert last in AsSet(order);
    forall g | g in AsSet(order[..i]) ensures g in entries && !Lower(entries[last], entries[g]) {
      var a :| 0 <= a < i && order[..i][a] == g;
      assert order[a] == g && g in AsSet(order);
      assert a < i - 1 ==> InOrder(entries, order[a], last, false);
    }
  }

  lemma AdmissionFits(before: Entries, replaced: set<ObjectId>, gone: set<ObjectId>, tx: Transaction)
    requires replaced == Replaced(before, tx)
    requires |SentBy(before, tx.sender)| < MEMPOOL_MAX_TXS_PER_ACCOUNT
    ensures var left := before - replaced - gone;
      && (forall j :: j in left ==> !SameSlot(left[j].transaction, tx))
      && |SentBy(left, tx.sender)| < MEMPOOL_MAX_TXS_PER_ACCOUNT
  {
    SetSizeMonotone(SentBy(before - replaced - gone, tx.sender), SentBy(before, tx.sender));
  }
}
