/** Laws of bond entries: FIFO unbonding, top-ups and stake sums. */
module Stake {
  import opened Numbers
  import opened Refiner

  ghost predicate EntriesOk(entries: seq<BondEntry>) {
    && (forall i :: 0 <= i < |entries| ==> entries[i].stake > 0)
    && (forall i, j :: 0 <= i < j < |entries| ==> entries[i].timestamp < entries[j].timestamp)
  }

  lemma {:induction false} StakeSumConcat(a: seq<BondEntry>, b: seq<BondEntry>)
    ensures StakeSum(a + b) == StakeSum(a) + StakeSum(b)
  {
    if a == [] {
      assert a + b == b;
    } else {
      StakeSumConcat(a[1..], b);
      assert (a + b)[1..] == a[1..] + b;
    }
  }

  lemma StakeSumSplit(entries: seq<BondEntry>, i: nat)
    requires i < |entries|
    ensures StakeSum(entries) == StakeSum(entries[..i]) + entries[i].stake + StakeSum(entries[i + 1..])
  {
    assert entries == entries[..i] + entries[i..];
    assert entries[i..][1..] == entries[i + 1..];
    StakeSumConcat(entries[..i], entries[i..]);
  }

  lemma StakeSumUpdate(entries: seq<BondEntry>, i: nat, e: BondEntry)
    requires i < |entries|
    ensures StakeSum(entries[i := e]) == StakeSum(entries) - entries[i].stake + e.stake
  {
    StakeSumSplit(entries, i);
    StakeSumSplit(entries[i := e], i);
    assert entries[i := e][..i] == entries[..i] && entries[i := e][i + 1..] == entries[i + 1..];
  }

  lemma {:induction false} ZeroStakeSum(entries: seq<BondEntry>)
    requires forall i :: 0 <= i < |entries| ==> entries[i].stake == 0
    ensures StakeSum(entries) == 0
  {
    if entries != [] { ZeroStakeSum(entries[1..]); }
  }

  lemma PositiveStakeSum(entries: seq<BondEntry>)
    requires entries != [] && entries[0].stake > 0
    ensures StakeSum(entries) > 0
  {
  }

  // ---- Top-ups ----

  lemma {:induction false} FindTimestampMisses(entries: seq<BondEntry>, timestamp: u64)
    requires FindTimestamp(entries, timestamp) == |entries|
    ensures forall i :: 0 <= i < |entries| ==> entries[i].timestamp != timestamp
  {
    if entries != [] {
      FindTimestampMisses(entries[1..], timestamp);
      forall i | 0 <= i < |entries| ensures entries[i].timestamp != timestamp {
        if i > 0 { assert entries[i] == entries[1..][i - 1]; }
      }
    }
  }

  lemma {:induction false} InsertPositionSplits(entries: seq<BondEntry>, timestamp: u64)
    ensures var p := InsertPosition(entries, timestamp);
      && (forall i :: 0 <= i < p ==> entries[i].timestamp <= timestamp)
      && (p < |entries| ==> entries[p].timestamp > timestamp)
  {
    if entries != [] && entries[0].timestamp <= timestamp {
      InsertPositionSplits(entries[1..], timestamp);
      forall i | 0 <= i < InsertPosition(entries, timestamp) ensures entries[i].timestamp <= timestamp {
        if i > 0 { assert entries[i] == entries[1..][i - 1]; }
      }
    }
  }

  lemma MergeKeeps(entries: seq<BondEntry>, i: nat, sum: u64)
    requires EntriesOk(entries) && i < |entries| && sum > 0
    ensures var merged := entries[i := entries[i].(stake := sum)];
      EntriesOk(merged) && StakeSum(merged) == StakeSum(entries) - entries[i].stake + sum
  {
    StakeSumUpdate(entries, i, entries[i].(stake := sum));
  }

  function Inserted(entries: seq<BondEntry>, p: nat, e: BondEntry): seq<BondEntry>
    requires p <= |entries|
  {
    entries[..p] + [e] + entries[p..]
  }

  lemma InsertSum(entries: seq<BondEntry>, p: nat, e: BondEntry)
    requires p <= |entries|
    ensures StakeSum(Inserted(entries, p, e)) == StakeSum(entries) + e.stake
  {
    StakeSumSplit(Inserted(entries, p, e), p);
    assert Inserted(entries, p, e)[..p] == entries[..p] && Inserted(entries, p, e)[p + 1..] == entries[p..];
    assert entries == entries[..p] + entries[p..];
    StakeSumConcat(entries[..p], entries[p..]);
  }

  lemma InsertOrdered(entries: seq<BondEntry>, p: nat, e: BondEntry)
    requires EntriesOk(entries) && p <= |entries| && e.stake > 0
    requires forall i :: 0 <= i < p ==> entries[i].timestamp < e.timestamp
    requires p < |entries| ==> e.timestamp < entries[p].timestamp
    ensures EntriesOk(Inserted(entries, p, e))
  {
    var added := Inserted(entries, p, e);
    forall i, j | 0 <= i < j < |added| ensures added[i].timestamp < added[j].timestamp {
      assert i < p ==> added[i] == entries[i];
      assert j > p ==> added[j] == entries[j - 1];
      assert i > p ==> added[i] == entries[i - 1];
      assert j < p ==> added[j] == entries[j];
      if i == p { assert entries[p].timestamp <= entries[j - 1].timestamp; }
    }
  }

  /** A top-up adds exactly `stake` and keeps the entries in strict time order; it
      fails only when the merged entry would overflow. */
  lemma AddEntryKeeps(entries: seq<BondEntry>, stake: u64, height: u64, timestamp: u64)
    requires EntriesOk(entries) && stake > 0
    ensures match AddEntry(entries, stake, height, timestamp)
            case None => StakeSum(entries) + stake > U64_MAX
            case Some(added) => added != [] && EntriesOk(added) && StakeSum(added) == StakeSum(entries) + stake
  {
    hide StakeSum;
    var i := FindTimestamp(entries, timestamp);
    if i < |entries| {
      StakeSumSplit(entries, i);
      if entries[i].stake + stake <= U64_MAX { MergeKeeps(entries, i, entries[i].stake + stake); }
    } else {
      FindTimestampMisses(entries, timestamp);
      InsertPositionSplits(entries, timestamp);
      var p := InsertPosition(entries, timestamp);
      forall j | 0 <= j < p ensures entries[j].timestamp < timestamp {
        assert entries[j].timestamp != timestamp;
      }
      InsertSum(entries, p, BondEntry(stake, height, timestamp));
      InsertOrdered(entries, p, BondEntry(stake, height, timestamp));
    }
  }

  // ---- FIFO unbonding ----

  lemma {:induction false} DropFlakesSum(entries: seq<BondEntry>, amount: nat)
    requires amount <= StakeSum(entries)
    ensures StakeSum(DropFlakes(entries, amount)) == StakeSum(entries) - amount
  {
    if amount > 0 && entries[0].stake <= amount {
      DropFlakesSum(entries[1..], amount - entries[0].stake);
    }
  }

  /** Unbonding a and then b leaves the same entries as unbonding a + b at once. */
  lemma {:induction false} DropFlakesAdds(entries: seq<BondEntry>, a: nat, b: nat)
    requires a + b <= StakeSum(entries)
    ensures DropFlakes(DropFlakes(entries, a), b) == DropFlakes(entries, a + b)
  {
    if a > 0 {
      if entries[0].stake <= a {
        DropFlakesAdds(entries[1..], a - entries[0].stake, b);
      } else if entries[0].stake <= a + b {
        var rest := [entries[0].(stake := entries[0].stake - a)] + entries[1..];
        assert rest[1..] == entries[1..];
      } else {
        var rest := [entries[0].(stake := entries[0].stake - a)] + entries[1..];
        assert rest[1..] == entries[1..];
      }
    }
  }

  /** `left` is `entries` without its first `k`; only the new head may be smaller,
      and it keeps its height and timestamp. */
  ghost predicate FifoSuffix(entries: seq<BondEntry>, left: seq<BondEntry>, k: nat) {
    && k + |left| == |entries|
    && (left != [] ==>
          && left[1..] == entries[k + 1..]
          && left[0].height == entries[k].height
          && left[0].timestamp == entries[k].timestamp
          && left[0].stake <= entries[k].stake)
  }

  /** The oldest entries go first: what is left is a FIFO suffix, and the entries
      dropped whole are covered by the amount. */
  lemma {:induction false} DropFlakesIsFifo(entries: seq<BondEntry>, amount: nat)
    requires amount <= StakeSum(entries)
    ensures var left := DropFlakes(entries, amount);
      var k := |entries| - |left|;
      && k >= 0 && FifoSuffix(entries, left, k)
      && StakeSum(entries[..k]) <= amount
      && (left != [] ==> amount == StakeSum(entries[..k]) + entries[k].stake - left[0].stake)
  {
    var left := DropFlakes(entries, amount);
    if amount == 0 || entries == [] {
      assert entries[..0] == [];
    } else if entries[0].stake <= amount {
      DropFlakesIsFifo(entries[1..], amount - entries[0].stake);
      var k := |entries| - |left|;
      assert entries[..k][1..] == entries[1..][..k - 1];
    } else {
      assert left[1..] == entries[1..] && entries[..0] == [];
    }
  }

  lemma {:induction false} DropFlakesOk(entries: seq<BondEntry>, amount: nat)
    requires EntriesOk(entries)
    ensures EntriesOk(DropFlakes(entries, amount))
  {
    if amount > 0 && entries != [] && entries[0].stake <= amount {
      DropFlakesOk(entries[1..], amount - entries[0].stake);
    }
  }
}
