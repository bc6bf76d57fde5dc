/** Sums over finite maps and order-preserving filters over sequences. */
module Collections {

  /** A 32-byte identifier or hash, read as one big-endian number. */
  type ObjectId = nat
  type Hash = nat

  // ---- Sums over maps ----

  /** The sum of a map's values. */
  ghost function Total(m: map<ObjectId, nat>): nat {
    if m == map[] then 0
    else
      var k :| k in m;
      m[k] + Total(m - {k})
  }

  function Lookup(m: map<ObjectId, nat>, k: ObjectId): nat {
    if k in m then m[k] else 0
  }

  lemma {:induction false} TotalRemove(m: map<ObjectId, nat>, k: ObjectId)
    ensures Total(m) == Lookup(m, k) + Total(m - {k})
    decreases |m|
  {
    if k in m {
      var c :| c in m && Total(m) == m[c] + Total(m - {c});
      if c != k {
        TotalRemove(m - {c}, k);
        TotalRemove(m - {k}, c);
        assert m - {c} - {k} == m - {k} - {c};
      }
    } else {
      assert m - {k} == m;
    }
  }

  lemma TotalUpdate(m: map<ObjectId, nat>, k: ObjectId, v: nat)
    ensures Total(m[k := v]) == Total(m) - Lookup(m, k) + v
    ensures Lookup(m, k) <= Total(m)
  {
    TotalRemove(m, k);
    TotalRemove(m[k := v], k);
    assert m[k := v] - {k} == m - {k};
  }

  /** The part of a map's sum that falls on `s`. */
  ghost function Part(m: map<ObjectId, nat>, s: set<ObjectId>): nat {
    Total(Restrict(m, s))
  }

  ghost function Restrict(m: map<ObjectId, nat>, s: set<ObjectId>): map<ObjectId, nat> {
    map k | k in m && k in s :: m[k]
  }

  lemma PartEmpty(m: map<ObjectId, nat>)
    ensures Part(m, {}) == 0
  {
    assert Restrict(m, {}) == map[];
  }

  lemma PartInsert(m: map<ObjectId, nat>, s: set<ObjectId>, k: ObjectId)
    requires k !in s
    ensures Part(m, s + {k}) == Part(m, s) + Lookup(m, k)
  {
    TotalRemove(Restrict(m, s + {k}), k);
    assert Restrict(m, s + {k}) - {k} == Restrict(m, s);
  }

  lemma {:induction false} PartUnion(m: map<ObjectId, nat>, s: set<ObjectId>, t: set<ObjectId>)
    requires s !! t
    ensures Part(m, s + t) == Part(m, s) + Part(m, t)
    decreases |t|
  {
    hide Part;
    if t == {} {
      assert s + t == s;
      PartEmpty(m);
    } else {
      var k :| k in t;
      var rest := t - {k};
      PartUnion(m, s, rest);
      PartInsert(m, s + rest, k);
      PartInsert(m, rest, k);
      assert s + rest + {k} == s + t && rest + {k} == t;
    }
  }

  lemma PartBound(m: map<ObjectId, nat>, s: set<ObjectId>, t: set<ObjectId>)
    requires s <= t
    ensures Part(m, s) <= Part(m, t) <= Total(m)
  {
    PartUnion(m, s, t - s);
    assert s + (t - s) == t;
    PartUnion(m, t, m.Keys - t);
    assert Restrict(m, t + (m.Keys - t)) == m;
  }

  lemma PartSingle(m: map<ObjectId, nat>, k: ObjectId)
    ensures Part(m, {k}) == Lookup(m, k)
  {
    PartInsert(m, {}, k);
    PartEmpty(m);
    assert {} + {k} == {k};
  }

  /** Two parts of one map overlap in at least what does not fit side by side. */
  lemma PartOverlap(m: map<ObjectId, nat>, s: set<ObjectId>, t: set<ObjectId>)
    ensures Part(m, s) + Part(m, t) <= Total(m) + Part(m, s * t)
  {
    PartUnion(m, s - t, s * t);
    assert (s - t) + (s * t) == s;
    PartUnion(m, s - t, t);
    PartBound(m, (s - t) + t, (s - t) + t);
  }

  // ---- Sequences without repetition ----

  predicate NoRepeats(s: seq<ObjectId>) {
    forall i, j :: 0 <= i < j < |s| ==> s[i] != s[j]
  }

  function AsSet(s: seq<ObjectId>): set<ObjectId> { set x | x in s }

  lemma AsSetAppend(s: seq<ObjectId>, x: ObjectId)
    ensures AsSet(s + [x]) == AsSet(s) + {x}
  {
  }

  lemma SplitLast(s: seq<ObjectId>)
    requires s != []
    ensures var init, last := s[..|s| - 1], s[|s| - 1];
      && s == init + [last]
      && AsSet(s) == AsSet(init) + {last}
      && (NoRepeats(s) <==> NoRepeats(init) && last !in init)
  {
    var init, last := s[..|s| - 1], s[|s| - 1];
    assert s == init + [last];
    if last in init {
      var i :| 0 <= i < |init| && init[i] == last;
      assert s[i] == s[|s| - 1];
    }
  }

  ghost function SumAlong(s: seq<ObjectId>, m: map<ObjectId, nat>): nat {
    if s == [] then 0 else SumAlong(s[..|s| - 1], m) + Lookup(m, s[|s| - 1])
  }

  /** Adding along any listing of the keys gives the map's sum. */
  lemma {:induction false} SumAlongTotal(s: seq<ObjectId>, m: map<ObjectId, nat>)
    requires NoRepeats(s)
    ensures SumAlong(s, m) == Part(m, AsSet(s))
  {
    if s == [] {
      assert Restrict(m, AsSet(s)) == map[];
    } else {
      var init, last := s[..|s| - 1], s[|s| - 1];
      SplitLast(s);
      SumAlongTotal(init, m);
      PartUnion(m, AsSet(init), {last});
      PartSingle(m, last);
    }
  }

  /** `Vec::retain`: drop the listed ids, keep the order. */
  function Retain(s: seq<ObjectId>, drop: set<ObjectId>): seq<ObjectId> {
    if s == [] then []
    else
      var init, last := s[..|s| - 1], s[|s| - 1];
      if last in drop then Retain(init, drop) else Retain(init, drop) + [last]
  }

  lemma {:induction false} RetainKeeps(s: seq<ObjectId>, drop: set<ObjectId>)
    ensures AsSet(Retain(s, drop)) == AsSet(s) - drop
    ensures NoRepeats(s) ==> NoRepeats(Retain(s, drop))
    ensures |Retain(s, drop)| <= |s|
  {
    if s != [] {
      var init, last := s[..|s| - 1], s[|s| - 1];
      SplitLast(s);
      RetainKeeps(init, drop);
      if last !in drop {
        var r := Retain(init, drop);
        assert (r + [last])[..|r|] == r;
        SplitLast(r + [last]);
        assert last in r ==> last in AsSet(r);
      }
    }
  }

  lemma RetainAppend(s: seq<ObjectId>, x: ObjectId, drop: set<ObjectId>)
    ensures Retain(s + [x], drop) == if x in drop then Retain(s, drop) else Retain(s, drop) + [x]
  {
    assert (s + [x])[..|s|] == s;
  }

  lemma {:induction false} RetainRetain(s: seq<ObjectId>, a: set<ObjectId>, b: set<ObjectId>)
    ensures Retain(Retain(s, a), b) == Retain(s, a + b)
  {
    if s != [] {
      var init, last := s[..|s| - 1], s[|s| - 1];
      RetainRetain(init, a, b);
      RetainAppend(Retain(init, a), last, b);
    }
  }

  lemma {:induction false} RetainNothing(s: seq<ObjectId>, drop: set<ObjectId>)
    requires AsSet(s) !! drop
    ensures Retain(s, drop) == s
  {
    if s != [] {
      SplitLast(s);
      RetainNothing(s[..|s| - 1], drop);
    }
  }

  /** The listed ids that are in `keep`, in order. */
  function Only(s: seq<ObjectId>, keep: set<ObjectId>): seq<ObjectId> {
    if s == [] then []
    else
      var init, last := s[..|s| - 1], s[|s| - 1];
      if last in keep then Only(init, keep) + [last] else Only(init, keep)
  }

  lemma {:induction false} OnlyKeeps(s: seq<ObjectId>, keep: set<ObjectId>)
    ensures AsSet(Only(s, keep)) == AsSet(s) * keep
    ensures NoRepeats(s) ==> NoRepeats(Only(s, keep))
  {
    if s != [] {
      var init, last := s[..|s| - 1], s[|s| - 1];
      SplitLast(s);
      OnlyKeeps(init, keep);
      if last in keep {
        var r := Only(init, keep);
        assert (r + [last])[..|r|] == r;
        SplitLast(r + [last]);
        assert last in r ==> last in AsSet(r);
      }
    }
  }

  lemma OnlyAppend(s: seq<ObjectId>, x: ObjectId, keep: set<ObjectId>)
    ensures Only(s + [x], keep) == if x in keep then Only(s, keep) + [x] else Only(s, keep)
  {
    assert (s + [x])[..|s|] == s;
  }

  lemma {:induction false} OnlyIgnores(s: seq<ObjectId>, x: ObjectId, keep: set<ObjectId>)
    requires x !in AsSet(s)
    ensures Only(s, keep + {x}) == Only(s, keep)
  {
    if s != [] {
      SplitLast(s);
      OnlyIgnores(s[..|s| - 1], x, keep);
    }
  }

  lemma SetSizeMonotone(s: set<ObjectId>, t: set<ObjectId>)
    requires s <= t
    ensures |s| <= |t|
  {
    assert |t - s| == |t| - |s|;
  }

  lemma {:induction false} NoRepeatsSize(s: seq<ObjectId>)
    requires NoRepeats(s)
    ensures |AsSet(s)| == |s|
  {
    if s != [] {
      SplitLast(s);
      NoRepeatsSize(s[..|s| - 1]);
    }
  }

  ghost predicate IsLeast(ids: set<ObjectId>, x: ObjectId) {
    x in ids && forall y :: y in ids ==> x <= y
  }

  lemma {:induction false} LeastFrom(ids: set<ObjectId>, x: ObjectId)
    requires x in ids
    ensures exists l :: IsLeast(ids, l)
    decreases x
  {
    if y :| y in ids && y < x {
      LeastFrom(ids, y);
    } else {
      assert IsLeast(ids, x);
    }
  }

  function Least(ids: set<ObjectId>): (l: ObjectId)
    requires ids != {}
    ensures l in ids && forall y :: y in ids ==> l <= y
  {
    assert exists l :: IsLeast(ids, l) by {
      var x :| x in ids;
      LeastFrom(ids, x);
    }
    var l :| l in ids && forall y :: y in ids ==> l <= y;
    l
  }

  /** A library sort of distinct ids: ascending byte order. */
  function Ascending(ids: set<ObjectId>): seq<ObjectId> {
    if ids == {} then [] else [Least(ids)] + Ascending(ids - {Least(ids)})
  }

  predicate IsAscending(s: seq<ObjectId>) {
    forall i, j :: 0 <= i < j < |s| ==> s[i] < s[j]
  }

  lemma {:induction false} AscendingSorted(ids: set<ObjectId>)
    ensures AsSet(Ascending(ids)) == ids && IsAscending(Ascending(ids))
  {
    if ids != {} {
      var x := Least(ids);
      var rest := ids - {x};
      AscendingSorted(rest);
      PrependAscending(x, Ascending(rest));
      assert {x} + rest == ids;
    }
  }

  lemma PrependAscending(x: ObjectId, s: seq<ObjectId>)
    requires IsAscending(s) && forall y :: y in AsSet(s) ==> x < y
    ensures IsAscending([x] + s) && AsSet([x] + s) == {x} + AsSet(s)
  {
    var t := [x] + s;
    forall i, j | 0 <= i < j < |t| ensures t[i] < t[j] {
      assert t[j] == s[j - 1] && s[j - 1] in AsSet(s);
    }
    forall y | y in {x} + AsSet(s) ensures y in AsSet(t) {
      if y in AsSet(s) {
        var i :| 0 <= i < |s| && s[i] == y;
        assert t[i + 1] == y;
      } else {
        assert t[0] == y;
      }
    }
  }
}
