/** Stake-weighted choice of the next refiner producer by rejection sampling
    (crates/consensus/src/refiner.rs). */
module Selection {
  import opened Numbers
  import opened Collections
  import opened Emission
  import opened Refiner

  // ---- Seed mixing ----

  function Shift30(z: bv64): bv64 { z ^ (z >> 30) }
  function Shift27(z: bv64): bv64 { z ^ (z >> 27) }
  function Shift31(z: bv64): bv64 { z ^ (z >> 31) }
  function Scale1(z: bv64): bv64 { z * 0xBF58_476D_1CE4_E5B9 }
  function Scale2(z: bv64): bv64 { z * 0x94D0_49BB_1331_11EB }

  function MixSeed(seed: bv64): bv64 {
    Shift31(Scale2(Shift27(Scale1(Shift30(seed + 0x9E37_79B9_7F4A_7C15)))))
  }

  function Unshift30(y: bv64): bv64 { y ^ (y >> 30) ^ (y >> 60) }
  function Unshift27(y: bv64): bv64 { y ^ (y >> 27) ^ (y >> 54) }
  function Unshift31(y: bv64): bv64 { y ^ (y >> 31) ^ (y >> 62) }
  function Unscale1(y: bv64): bv64 { y * 0x96DE_1B17_3F11_9089 }
  function Unscale2(y: bv64): bv64 { y * 0x3196_42B2_D24D_8EC3 }

  /** The inverse of `MixSeed`: undo each xor-shift, multiply by inverse constants. */
  function UnmixSeed(mixed: bv64): bv64 {
    Unshift30(Unscale1(Unshift27(Unscale2(Unshift31(mixed))))) - 0x9E37_79B9_7F4A_7C15
  }

  lemma Unshift30Shift30(z: bv64)
    ensures Unshift30(Shift30(z)) == z
  {
    assert Shift30(z) == z ^ (z >> 30);
    assert (var y := z ^ (z >> 30); y ^ (y >> 30) ^ (y >> 60)) == z;
    hide Shift30;
  }

  lemma Shift30Unshift30(z: bv64)
    ensures Shift30(Unshift30(z)) == z
  {
    assert Unshift30(z) == z ^ (z >> 30) ^ (z >> 60);
    assert (var y := z ^ (z >> 30) ^ (z >> 60); y ^ (y >> 30)) == z;
    hide Unshift30;
  }

  lemma Unshift27Shift27(z: bv64)
    ensures Unshift27(Shift27(z)) == z
  {
    assert Shift27(z) == z ^ (z >> 27);
    assert (var y := z ^ (z >> 27); y ^ (y >> 27) ^ (y >> 54)) == z;
    hide Shift27;
  }

  lemma Shift27Unshift27(z: bv64)
    ensures Shift27(Unshift27(z)) == z
  {
    assert Unshift27(z) == z ^ (z >> 27) ^ (z >> 54);
    assert (var y := z ^ (z >> 27) ^ (z >> 54); y ^ (y >> 27)) == z;
    hide Unshift27;
  }

  lemma Unshift31Shift31(z: bv64)
    ensures Unshift31(Shift31(z)) == z
  {
    assert Shift31(z) == z ^ (z >> 31);
    assert (var y := z ^ (z >> 31); y ^ (y >> 31) ^ (y >> 62)) == z;
    hide Shift31;
  }

  lemma Shift31Unshift31(z: bv64)
    ensures Shift31(Unshift31(z)) == z
  {
    assert Unshift31(z) == z ^ (z >> 31) ^ (z >> 62);
    assert (var y := z ^ (z >> 31) ^ (z >> 62); y ^ (y >> 31)) == z;
    hide Unshift31;
  }

  lemma ScaleProducts(z: bv64)
    ensures (z * 0xBF58_476D_1CE4_E5B9) * 0x96DE_1B17_3F11_9089 == z
    ensures (z * 0x96DE_1B17_3F11_9089) * 0xBF58_476D_1CE4_E5B9 == z
    ensures (z * 0x94D0_49BB_1331_11EB) * 0x3196_42B2_D24D_8EC3 == z
    ensures (z * 0x3196_42B2_D24D_8EC3) * 0x94D0_49BB_1331_11EB == z
  {
  }

  lemma Scale1Is(z: bv64)
    ensures Scale1(z) == z * 0xBF58_476D_1CE4_E5B9
  {
  }

  lemma Unscale1Is(z: bv64)
    ensures Unscale1(z) == z * 0x96DE_1B17_3F11_9089
  {
  }

  lemma Scale2Is(z: bv64)
    ensures Scale2(z) == z * 0x94D0_49BB_1331_11EB
  {
  }

  lemma Unscale2Is(z: bv64)
    ensures Unscale2(z) == z * 0x3196_42B2_D24D_8EC3
  {
  }

  lemma Unscale1Scale1(z: bv64)
    ensures Unscale1(Scale1(z)) == z
  {
    hide Scale1;
    Scale1Is(z);
    ScaleProducts(z);
  }

  lemma Scale1Unscale1(z: bv64)
    ensures Scale1(Unscale1(z)) == z
  {
    hide Unscale1;
    Unscale1Is(z);
    ScaleProducts(z);
  }

  lemma Unscale2Scale2(z: bv64)
    ensures Unscale2(Scale2(z)) == z
  {
    hide Scale2;
    Scale2Is(z);
    ScaleProducts(z);
  }

  lemma Scale2Unscale2(z: bv64)
    ensures Scale2(Unscale2(z)) == z
  {
    hide Unscale2;
    Unscale2Is(z);
    ScaleProducts(z);
  }

  lemma UnmixAfterMix(seed: bv64)
    ensures UnmixSeed(MixSeed(seed)) == seed
  {
    hide Shift30, Shift27, Shift31, Scale1, Scale2, Unshift30, Unshift27, Unshift31, Unscale1, Unscale2;
    var z0 := seed + 0x9E37_79B9_7F4A_7C15;
    var z1 := Scale1(Shift30(z0));
    var z2 := Scale2(Shift27(z1));
    Unshift30Shift30(z0);
    Unscale1Scale1(Shift30(z0));
    Unshift27Shift27(z1);
    Unscale2Scale2(Shift27(z1));
    Unshift31Shift31(z2);
  }

  lemma MixAfterUnmix(mixed: bv64)
    ensures MixSeed(UnmixSeed(mixed)) == mixed
  {
    hide Shift30, Shift27, Shift31, Scale1, Scale2, Unshift30, Unshift27, Unshift31, Unscale1, Unscale2;
    var y2 := Unshift31(mixed);
    var y1 := Unshift27(Unscale2(y2));
    Shift31Unshift31(mixed);
    Scale2Unscale2(y2);
    Shift27Unshift27(Unscale2(y2));
    Scale1Unscale1(y1);
    Shift30Unshift30(Unscale1(y1));
  }

  /** Mixing is a bijection on u64: no two seeds ever collapse and none is lost. */
  lemma MixSeedBijective(a: bv64, b: bv64)
    ensures MixSeed(a) == MixSeed(b) <==> a == b
    ensures exists c :: MixSeed(c) == a
  {
    hide MixSeed, UnmixSeed;
    UnmixAfterMix(a);
    UnmixAfterMix(b);
    MixAfterUnmix(a);
  }

  // ---- Rejection sampling ----

  /** The seed after `k` rejections. */
  function Candidate(seed: bv64, k: nat): bv64 {
    if k == 0 then seed else MixSeed(Candidate(seed, k - 1))
  }

  /** Values below the zone are spread evenly over the tickets. */
  function UnbiasedZone(upper: u64): (zone: nat)
    requires upper > 0
    ensures 0 < zone <= TWO_64
  {
    TWO_64 - TWO_64 % upper
  }

  predicate Accepted(candidate: bv64, upper: u64)
    requires upper > 0
  {
    candidate as nat < UnbiasedZone(upper)
  }

  /** The loop ends exactly for the seeds whose orbit meets the zone. */
  ghost predicate Settles(seed: bv64, upper: u64)
    requires upper > 0
  {
    exists k: nat :: Accepted(Candidate(seed, k), upper)
  }

  ghost predicate FirstAccepted(seed: bv64, upper: u64, k: nat)
    requires upper > 0
  {
    Accepted(Candidate(seed, k), upper) && forall j: nat :: j < k ==> !Accepted(Candidate(seed, j), upper)
  }

  lemma {:induction false} FirstFrom(seed: bv64, upper: u64, k: nat)
    requires upper > 0 && Accepted(Candidate(seed, k), upper)
    ensures exists f: nat :: FirstAccepted(seed, upper, f)
  {
    hide Accepted;
    if j: nat :| j < k && Accepted(Candidate(seed, j), upper) {
      FirstFrom(seed, upper, j);
    } else {
      assert FirstAccepted(seed, upper, k);
    }
  }

  ghost function Rounds(seed: bv64, upper: u64): (k: nat)
    requires upper > 0 && Settles(seed, upper)
    ensures FirstAccepted(seed, upper, k)
  {
    assert exists f: nat :: FirstAccepted(seed, upper, f) by {
      var k: nat :| Accepted(Candidate(seed, k), upper);
      FirstFrom(seed, upper, k);
    }
    var k: nat :| FirstAccepted(seed, upper, k);
    k
  }

  function TicketOf(candidate: bv64, upper: u64): (t: u64)
    requires upper > 0
    ensures t < upper
  {
    (candidate as nat) % upper
  }

  function SeedBits(seed: u64): bv64 { seed as bv64 }

  ghost function Ticket(seed: u64, upper: u64): (t: u64)
    requires upper > 0 && Settles(SeedBits(seed), upper)
    ensures t < upper
  {
    TicketOf(Candidate(SeedBits(seed), Rounds(SeedBits(seed), upper)), upper)
  }

  method UniformAmountFromSeed(seed: u64, upper: u64) returns (r: Option<u64>)
    requires upper > 0 ==> Settles(SeedBits(seed), upper)
    ensures r == if upper == 0 then None else Some(Ticket(seed, upper))
  {
    hide Accepted, MixSeed, TicketOf, SeedBits, UnbiasedZone;
    if upper == 0 { return None; }
    var candidate: bv64 := SeedBits(seed);
    ghost var k: nat := 0;
    ghost var rounds := Rounds(SeedBits(seed), upper);
    while !Accepted(candidate, upper)
      invariant candidate == Candidate(SeedBits(seed), k)
      invariant k <= rounds
      decreases rounds - k
    {
      candidate := MixSeed(candidate);
      k := k + 1;
    }
    return Some(TicketOf(candidate, upper));
  }

  /** Seeds in the first `n` full rounds of tickets that give ticket `t`. */
  ghost function SeedsFor(upper: u64, t: u64, n: nat): set<nat>
    requires upper > 0
  {
    set s: nat | 0 <= s < n * upper && s % upper == t
  }

  lemma NextSeed(upper: u64, t: u64, n: nat)
    requires t < upper
    ensures SeedsFor(upper, t, n + 1) == SeedsFor(upper, t, n) + {n * upper + t}
    ensures n * upper + t !in SeedsFor(upper, t, n)
  {
    assert (n + 1) * upper == n * upper + upper;
    assert (n * upper + t) % upper == t by { ModOffset(n, upper, t); }
    forall s: nat | n * upper <= s < (n + 1) * upper && s % upper == t
      ensures s == n * upper + t
    {
      ModOffset(n, upper, s - n * upper);
    }
  }

  lemma ModOffset(n: nat, upper: nat, t: nat)
    requires t < upper
    ensures (n * upper + t) % upper == t
  {
    var x := n * upper + t;
    var q := x / upper;
    DivAtLeast(x, upper, n);
    assert upper * (n + 1) == n * upper + upper;
    DivBelow(x, upper, n + 1);
    assert x == upper * q + x % upper;
  }

  lemma {:induction false} SeedsForCount(upper: u64, t: u64, n: nat)
    requires t < upper
    ensures |SeedsFor(upper, t, n)| == n
  {
    if n == 0 {
      assert SeedsFor(upper, t, 0) == {};
    } else {
      SeedsForCount(upper, t, n - 1);
      NextSeed(upper, t, n - 1);
    }
  }

  // A number below 2^64 and its word. The solver does not know that converting
  // there and back is the identity, so it is shown bit by bit.

  function Number(word: bv64): nat { word as nat }

  lemma Doubled(word: bv64)
    requires word < 0x8000_0000_0000_0000
    ensures Number(word << 1) == 2 * Number(word) && Number((word << 1) | 1) == 2 * Number(word) + 1
  {
  }

  lemma TopBitClear(word: bv64)
    requires Number(word) < 0x8000_0000_0000_0000
    ensures word < 0x8000_0000_0000_0000
  {
  }

  lemma NumberInRange(word: bv64)
    ensures Number(word) < TWO_64
  {
  }

  lemma NumberInjective(a: bv64, b: bv64)
    requires Number(a) == Number(b)
    ensures a == b
  {
    NumberBack(a);
    NumberBack(b);
  }

  lemma NumberBack(word: bv64)
    ensures Number(word) < TWO_64 && (Number(word) as bv64) == word
  {
  }

  ghost function Word(n: nat): (word: bv64)
    requires n < TWO_64
    ensures Number(word) == n
    decreases n
  {
    if n == 0 then 0
    else
      hide Number;
      var half := Word(n / 2);
      TopBitClear(half);
      Doubled(half);
      if n % 2 == 0 then half << 1 else (half << 1) | 1
  }

  /** The loop accepts candidate `word` and turns it into ticket `t`. */
  predicate Gives(word: bv64, upper: u64, t: u64)
    requires upper > 0
  {
    Accepted(word, upper) && TicketOf(word, upper) == t
  }

  /** Two sets that correspond under the numbering of words are equally large. */
  lemma {:induction false} SameCount(numbers: set<nat>, words: set<bv64>)
    requires forall n :: n in numbers ==> n < TWO_64 && Word(n) in words
    requires forall b: bv64 :: b in words ==> Number(b) in numbers
    ensures |numbers| == |words|
    decreases |numbers|
  {
    hide Word, Number;
    if numbers == {} {
      forall b: bv64 ensures b !in words { ghost var n := Number(b); }
      assert words == {};
    } else {
      var n :| n in numbers;
      var w := Word(n);
      forall m | m in numbers - {n} ensures m < TWO_64 && Word(m) in words - {w} {
        assert Number(Word(m)) == m;
      }
      forall b: bv64 | b in words - {w} ensures Number(b) in numbers - {n} {
        if Number(b) == n { NumberInjective(b, w); }
      }
      SameCount(numbers - {n}, words - {w});
    }
  }

  lemma ZoneIsFullRounds(upper: u64)
    requires upper > 0
    ensures UnbiasedZone(upper) == TWO_64 / upper * upper
  {
  }

  ghost function WordsOf(numbers: set<nat>): set<bv64> {
    set n | n in numbers && n < TWO_64 :: Word(n)
  }

  lemma WordsOfMember(numbers: set<nat>, word: bv64)
    ensures word in WordsOf(numbers) <==> Number(word) in numbers
  {
    hide Word, Number;
    NumberInRange(word);
    if Number(word) in numbers { NumberInjective(word, Word(Number(word))); }
  }

  /** The candidates the loop turns into ticket `t`. */
  ghost function CandidatesFor(upper: u64, t: u64): set<bv64>
    requires t < upper
  {
    WordsOf(SeedsFor(upper, t, TWO_64 / upper))
  }

  lemma GivesByNumber(upper: u64, t: u64, word: bv64)
    requires t < upper
    ensures Gives(word, upper, t) <==> Number(word) in SeedsFor(upper, t, TWO_64 / upper)
  {
    ZoneIsFullRounds(upper);
    hide UnbiasedZone;
  }

  lemma SeedsInRange(upper: u64, t: u64)
    requires t < upper
    ensures forall n :: n in SeedsFor(upper, t, TWO_64 / upper) ==> n < TWO_64
  {
    assert TWO_64 / upper * upper <= TWO_64;
  }

  /** No modulo bias: for every ticket, exactly floor(2^64 / upper) of all candidates
      are accepted and turned into it. */
  lemma TicketsEquallyLikely(upper: u64, t: u64)
    requires t < upper
    ensures forall word: bv64 :: word in CandidatesFor(upper, t) <==> Gives(word, upper, t)
    ensures |CandidatesFor(upper, t)| == TWO_64 / upper
  {
    var numbers, words := SeedsFor(upper, t, TWO_64 / upper), CandidatesFor(upper, t);
    SeedsForCount(upper, t, TWO_64 / upper);
    SeedsInRange(upper, t);
    hide Gives, Number, Word, WordsOf, SeedsFor;
    forall word: bv64 ensures word in words <==> Gives(word, upper, t) {
      WordsOfMember(numbers, word);
      GivesByNumber(upper, t, word);
    }
    forall n | n in numbers ensures n < TWO_64 && Word(n) in words { WordsOfMember(numbers, Word(n)); }
    forall word: bv64 | word in words ensures Number(word) in numbers { WordsOfMember(numbers, word); }
    SameCount(numbers, words);
  }

  // ---- Producer choice ----

  function Contenders(infos: Infos): set<ObjectId> {
    set id | id in infos && infos[id].status.Active? && TotalStake(infos[id]) > 0
  }

  function Below(ids: set<ObjectId>, id: ObjectId): set<ObjectId> {
    set j | j in ids && j < id
  }

  /** Where one contender's tickets start: after those of all smaller ids. */
  ghost function TicketsStart(infos: Infos, id: ObjectId): nat {
    Part(StakeMap(infos), Below(Contenders(infos), id))
  }

  ghost function TicketCount(infos: Infos): nat {
    Part(StakeMap(infos), Contenders(infos))
  }

  ghost predicate Owns(infos: Infos, id: ObjectId, ticket: nat) {
    id in Contenders(infos) && TicketsStart(infos, id) <= ticket < TicketsStart(infos, id) + TotalStake(infos[id])
  }

  /** Intervals are consecutive and never run past the ticket count. */
  lemma IntervalsInOrder(infos: Infos, a: ObjectId, b: ObjectId)
    requires a in Contenders(infos) && b in Contenders(infos) && a < b
    ensures TicketsStart(infos, a) + TotalStake(infos[a]) <= TicketsStart(infos, b)
    ensures TicketsStart(infos, b) + TotalStake(infos[b]) <= TicketCount(infos)
  {
    var m, ids := StakeMap(infos), Contenders(infos);
    PartInsert(m, Below(ids, a), a);
    PartBound(m, Below(ids, a) + {a}, Below(ids, b));
    PartInsert(m, Below(ids, b), b);
    PartBound(m, Below(ids, b) + {b}, ids);
  }

  /** Every ticket belongs to at most one contender. */
  lemma OwnerUnique(infos: Infos, a: ObjectId, b: ObjectId, ticket: nat)
    requires Owns(infos, a, ticket) && Owns(infos, b, ticket)
    ensures a == b
  {
    if a < b { IntervalsInOrder(infos, a, b); }
    if b < a { IntervalsInOrder(infos, b, a); }
  }

  ghost function Owner(infos: Infos, ticket: nat): Option<ObjectId> {
    if id :| Owns(infos, id, ticket) then Some(id) else None
  }

  /** Along the id-ordered listing the running stake is where an interval starts. */
  lemma PrefixIsStart(infos: Infos, ids: seq<ObjectId>, i: nat)
    requires AsSet(ids) == Contenders(infos) && IsAscending(ids) && i < |ids|
    ensures ids[i] in Contenders(infos)
    ensures SumAlong(ids[..i], StakeMap(infos)) == TicketsStart(infos, ids[i])
    ensures SumAlong(ids[..i + 1], StakeMap(infos)) == TicketsStart(infos, ids[i]) + TotalStake(infos[ids[i]])
  {
    var m := StakeMap(infos);
    assert ids[i] in AsSet(ids);
    SumAlongTotal(ids[..i], m);
    forall j | j in Below(Contenders(infos), ids[i]) ensures j in AsSet(ids[..i]) {
      assert j in AsSet(ids);
      var k :| 0 <= k < |ids| && ids[k] == j;
      assert k < i;
      assert ids[..i][k] == j;
    }
    forall j | j in AsSet(ids[..i]) ensures j in Below(Contenders(infos), ids[i]) {
      var k :| 0 <= k < i && ids[..i][k] == j;
      assert ids[k] in AsSet(ids);
    }
    assert AsSet(ids[..i]) == Below(Contenders(infos), ids[i]);
    assert ids[..i + 1][..i] == ids[..i];
  }

  lemma AscendingNoRepeats(s: seq<ObjectId>)
    requires IsAscending(s)
    ensures NoRepeats(s)
  {
  }

  /** The first position where the running stake passes the ticket. */
  lemma {:induction false} PassingPosition(ids: seq<ObjectId>, m: map<ObjectId, nat>, ticket: nat) returns (i: nat)
    requires ticket < SumAlong(ids, m)
    ensures i < |ids| && SumAlong(ids[..i], m) <= ticket < SumAlong(ids[..i + 1], m)
  {
    var init := ids[..|ids| - 1];
    if ticket < SumAlong(init, m) {
      i := PassingPosition(init, m, ticket);
      assert ids[..i] == init[..i] && ids[..i + 1] == init[..i + 1];
    } else {
      i := |ids| - 1;
      assert ids[..i + 1] == ids;
    }
  }

  /** Every ticket below the count belongs to some contender. */
  lemma OwnerExists(infos: Infos, ticket: nat)
    requires ticket < TicketCount(infos)
    ensures Owner(infos, ticket).Some? && Owns(infos, Owner(infos, ticket).value, ticket)
  {
    var ids, m := Ascending(Contenders(infos)), StakeMap(infos);
    AscendingSorted(Contenders(infos));
    AscendingNoRepeats(ids);
    SumAlongTotal(ids, m);
    hide SumAlong, Ascending, Part;
    var i := PassingPosition(ids, m, ticket);
    PrefixIsStart(infos, ids, i);
    assert Owns(infos, ids[i], ticket);
  }

  ghost predicate SelectionSettles(infos: Infos, seed: u64) {
    var total := ClampU64(TicketCount(infos));
    total > 0 ==> Settles(SeedBits(seed), total)
  }

  /** `select_block_producer`: it reads the records, not the order of the index. */
  ghost function SelectProducer(infos: Infos, seed: u64): Option<ObjectId>
    requires SelectionSettles(infos, seed)
  {
    var total := ClampU64(TicketCount(infos));
    if total == 0 then None else Owner(infos, Ticket(seed, total))
  }

  /** A producer is found exactly when some active stake exists; it is Active and
      its own interval holds the drawn ticket. */
  lemma SelectionFindsOwner(infos: Infos, seed: u64)
    requires SelectionSettles(infos, seed)
    ensures SelectProducer(infos, seed).Some? <==> TicketCount(infos) > 0
    ensures SelectProducer(infos, seed).Some? ==>
              Owns(infos, SelectProducer(infos, seed).value, Ticket(seed, ClampU64(TicketCount(infos))))
  {
    if TicketCount(infos) > 0 {
      OwnerExists(infos, Ticket(seed, ClampU64(TicketCount(infos))));
    }
  }
}
