/** Block rewards (crates/consensus/src/emission.rs): fixed-point logarithm, vein
    yield and the fee average. */
module Emission {
  import opened Numbers
  import opened IntegerSqrt

  const Q32_ONE: nat := 0x1_0000_0000
  const LN_2_Q32: nat := 2_977_044_471
  const MIN_DIFFICULTY: u64 := 1
  const MIN_FEE: u64 := 1
  const CAPACITY_RATIO: u64 := 10

  // ---- Fixed-point natural logarithm ----

  function Quotient(a: nat, b: nat): nat
    requires b > 0
  {
    a / b
  }

  function Q32Mul(a: nat, b: nat): nat { a * b / Q32_ONE }

  /** What the logarithm's loop adds up from `divisor` on: y + y^3/3 + y^5/5 + ... */
  function AtanhTail(term: nat, ySquared: nat, divisor: nat): nat
    requires divisor > 0
    decreases 41 - divisor
  {
    if divisor > 39 then 0
    else
      var next := Q32Mul(term, ySquared);
      Quotient(term, divisor) + if next == 0 then 0 else AtanhTail(next, ySquared, divisor + 2)
  }

  function MantissaRatio(mantissa: nat): nat
    requires mantissa > Q32_ONE
  {
    (mantissa - Q32_ONE) * Q32_ONE / (mantissa + Q32_ONE)
  }

  function LnMantissa(mantissa: nat): nat {
    if mantissa <= Q32_ONE then 0
    else
      var y := MantissaRatio(mantissa);
      2 * AtanhTail(y, Q32Mul(y, y), 1)
  }

  function Log2Floor(value: u64): nat
    requires value > 0
  {
    BitLength(value) - 1
  }

  function Mantissa(value: u64): nat
    requires value > 0
  {
    var k := Log2Floor(value);
    if k <= 32 then value * Pow2(32 - k) else value / Pow2(k - 32)
  }

  function LnU64(value: u64): nat {
    if value <= 1 then 0 else Log2Floor(value) * LN_2_Q32 + LnMantissa(Mantissa(value))
  }

  lemma DivBelow(a: nat, b: nat, k: nat)
    requires b > 0 && a < b * k
    ensures a / b < k
  {
    assert b * (a / b) <= a;
    if a / b >= k {
      MulMonotone(b, k, a / b);
      assert false;
    }
  }

  lemma DivAtLeast(a: nat, b: nat, k: nat)
    requires b > 0 && b * k <= a
    ensures k <= a / b
  {
    assert a < b * (a / b + 1) by { assert a == b * (a / b) + a % b; }
    if a / b + 1 <= k {
      MulMonotone(b, a / b + 1, k);
      assert false;
    }
  }

  lemma DivCross(a: nat, b: nat, c: nat, d: nat)
    requires b > 0 && d > 0 && a * d <= c * b
    ensures a / b <= c / d
  {
    var p := a / b;
    MulMonotone(d, p * b, a);
    assert b * (d * p) == d * (p * b) <= a * d <= b * c;
    if d * p > c {
      MulMonotone(b, c + 1, d * p);
      assert false;
    }
    DivAtLeast(c, d, p);
  }

  lemma DivMonotone(a: nat, c: nat, d: nat)
    requires d > 0 && a <= c
    ensures a / d <= c / d
  {
    DivAtLeast(c, d, a / d);
  }

  lemma ProductMonotone(a: nat, b: nat, c: nat, d: nat)
    requires a <= c && b <= d
    ensures a * b <= c * d
  {
    MulMonotone(a, b, d);
    MulMonotone(d, a, c);
  }

  lemma Q32MulMonotone(a: nat, b: nat, c: nat, d: nat)
    requires a <= c && b <= d
    ensures Q32Mul(a, b) <= Q32Mul(c, d)
  {
    ProductMonotone(a, b, c, d);
    DivMonotone(a * b, c * d, Q32_ONE);
  }

  lemma {:induction false} AtanhTailMonotone(t: nat, y: nat, t': nat, y': nat, divisor: nat)
    requires divisor > 0 && t <= t' && y <= y'
    ensures AtanhTail(t, y, divisor) <= AtanhTail(t', y', divisor)
    decreases 41 - divisor
  {
    if divisor <= 39 {
      Q32MulMonotone(t, y, t', y');
      DivMonotone(t, t', divisor);
      AtanhTailMonotone(Q32Mul(t, y), y, Q32Mul(t', y'), y', divisor + 2);
    }
  }

  lemma MantissaRatioMonotone(m: nat, m': nat)
    requires Q32_ONE < m <= m'
    ensures MantissaRatio(m) <= MantissaRatio(m')
  {
    var K := Q32_ONE;
    var a, b, c, d := m - K, m + K, m' - K, m' + K;
    assert a * d <= c * b by {
      assert a * d == m * m' + m * K - K * m' - K * K;
      assert c * b == m' * m + m' * K - K * m - K * K;
    }
    assert (a * K) * d <= (c * K) * b by {
      MulMonotone(K, a * d, c * b);
      assert (a * K) * d == K * (a * d) && (c * K) * b == K * (c * b);
    }
    DivCross(a * K, b, c * K, d);
  }

  lemma LnMantissaMonotone(m: nat, m': nat)
    requires m <= m'
    ensures LnMantissa(m) <= LnMantissa(m')
  {
    if m > Q32_ONE {
      MantissaRatioMonotone(m, m');
      var y, y' := MantissaRatio(m), MantissaRatio(m');
      Q32MulMonotone(y, y, y', y');
      AtanhTailMonotone(y, Q32Mul(y, y), y', Q32Mul(y', y'), 1);
    }
  }

  lemma AtanhStep(term: nat, ySquared: nat, divisor: nat, next: nat, tail: nat)
    requires 0 < divisor <= 39 && next == Q32Mul(term, ySquared) && next > 0
    requires AtanhTail(next, ySquared, divisor + 2) == tail
    ensures AtanhTail(term, ySquared, divisor) == Quotient(term, divisor) + tail
  {
  }

  lemma SeriesAtTwo()
    ensures AtanhTail(1431655765, 477218588, 1) == 1488522231
  {
    var y2: nat := 477218588;
    assert AtanhTail(3, y2, 19) == 0;
    AtanhStep(33, y2, 17, 3, 0);
    AtanhStep(299, y2, 15, 33, 1);
    AtanhStep(2693, y2, 13, 299, 20);
    AtanhStep(24245, y2, 11, 2693, 227);
    AtanhStep(218206, y2, 9, 24245, 2431);
    AtanhStep(1963862, y2, 7, 218206, 26676);
    AtanhStep(17674762, y2, 5, 1963862, 307227);
    AtanhStep(159072862, y2, 3, 17674762, 3842179);
    AtanhStep(1431655765, y2, 1, 159072862, 56866466);
  }

  lemma LnMantissaAtTwo()
    ensures LnMantissa(2 * Q32_ONE) <= LN_2_Q32
  {
    assert MantissaRatio(2 * Q32_ONE) == 1431655765;
    assert Q32Mul(1431655765, 1431655765) == 477218588;
    SeriesAtTwo();
  }

  /** The truncated series never overshoots ln 2, so crossing a power of two never
      makes the logarithm drop. */
  lemma LnMantissaBelowLn2(m: nat)
    requires m <= 2 * Q32_ONE
    ensures LnMantissa(m) <= LN_2_Q32
  {
    LnMantissaMonotone(m, 2 * Q32_ONE);
    LnMantissaAtTwo();
  }

  lemma StrictMulMonotone(a: nat, b: nat, p: nat)
    requires p > 0 && a < b
    ensures a * p < b * p
  {
  }

  lemma MantissaBelowTwo(v: u64)
    requires v > 0
    ensures Mantissa(v) < 2 * Q32_ONE
  {
    var k := Log2Floor(v);
    assert Pow2(33) == 2 * Q32_ONE by { Pow2Values(); }
    var p := Pow2(if k <= 32 then 32 - k else k - 32);
    if k <= 32 {
      Pow2Add(k + 1, 32 - k);
      StrictMulMonotone(v, Pow2(k + 1), p);
    } else {
      Pow2Add(k - 32, 33);
      DivBelow(v, p, 2 * Q32_ONE);
    }
  }

  lemma MantissaMonotone(v: u64, w: u64)
    requires 0 < v <= w && Log2Floor(v) == Log2Floor(w)
    ensures Mantissa(v) <= Mantissa(w)
  {
    var k := Log2Floor(v);
    var p := Pow2(if k <= 32 then 32 - k else k - 32);
    if k <= 32 {
      MulMonotone(p, v, w);
      assert v * p == p * v && w * p == p * w;
    } else {
      DivMonotone(v, w, p);
    }
  }

  lemma LnU64Monotone(v: u64, w: u64)
    requires v <= w
    ensures LnU64(v) <= LnU64(w)
  {
    if v > 1 {
      var k, l := Log2Floor(v), Log2Floor(w);
      assert k <= l by {
        if l < k {
          Pow2Monotone(l + 1, k);
          assert false;
        }
      }
      if k == l {
        MantissaMonotone(v, w);
        LnMantissaMonotone(Mantissa(v), Mantissa(w));
      } else {
        MantissaBelowTwo(v);
        LnMantissaBelowLn2(Mantissa(v));
        MulMonotone(LN_2_Q32, k + 1, l);
      }
    }
  }

  lemma LnU64Bound(v: u64, k: nat)
    requires v < Pow2(k) && k > 0
    ensures LnU64(v) <= k * LN_2_Q32
  {
    if v > 1 {
      BitLengthBound(v, k);
      MantissaBelowTwo(v);
      LnMantissaBelowLn2(Mantissa(v));
      MulMonotone(LN_2_Q32, Log2Floor(v) + 1, k);
    }
  }

  /** One Q32 product of two values at most one stays at most one. */
  lemma Q32Product(a: nat, b: nat)
    requires a <= Q32_ONE && b <= Q32_ONE
    ensures a * b <= 0x1_0000_0000_0000_0000
    ensures Q32Mul(a, b) <= Q32_ONE
  {
    ProductMonotone(a, b, Q32_ONE, Q32_ONE);
    DivMonotone(a * b, Q32_ONE * Q32_ONE, Q32_ONE);
  }

  lemma MantissaRatioBelowOne(m: nat)
    requires Q32_ONE < m < 2 * Q32_ONE
    ensures (m - Q32_ONE) * Q32_ONE <= 0x1_0000_0000_0000_0000
    ensures MantissaRatio(m) <= Q32_ONE
  {
    Q32Product(m - Q32_ONE, Q32_ONE);
    DivCross((m - Q32_ONE) * Q32_ONE, m + Q32_ONE, Q32_ONE, 1);
  }

  /** The loop of `ln_mantissa_q32`, with its early exit once a term vanishes. */
  method SumAtanh(y: u128, ySquared: u128) returns (sum: u128)
    requires y <= Q32_ONE && ySquared <= Q32_ONE && AtanhTail(y, ySquared, 1) <= Q32_ONE
    ensures sum == AtanhTail(y, ySquared, 1)
  {
    hide Q32Mul, Quotient;
    var term: u128 := y;
    sum := 0;
    var divisor := 1;
    while divisor <= 39
      invariant 1 <= divisor <= 41
      invariant term <= Q32_ONE
      invariant sum + AtanhTail(term, ySquared, divisor) == AtanhTail(y, ySquared, 1)
      decreases 41 - divisor
    {
      Q32Product(term, ySquared);
      sum := SatAdd128(sum, Quotient(term, divisor));
      term := Q32Mul(term, ySquared);
      if term == 0 { break; }
      divisor := divisor + 2;
    }
  }

  /** Every intermediate value of `ln_mantissa_q32` stays inside u128. */
  method LnMantissaQ32(mantissa: u128) returns (r: u128)
    requires mantissa < 2 * Q32_ONE
    ensures r == LnMantissa(mantissa)
  {
    LnMantissaBelowLn2(mantissa);
    if mantissa <= Q32_ONE { return 0; }
    MantissaRatioBelowOne(mantissa);
    var numerator: u128 := (mantissa - Q32_ONE) * Q32_ONE;
    var y: u128 := numerator / (mantissa + Q32_ONE);
    Q32Product(y, y);
    var sum := SumAtanh(y, Q32Mul(y, y));
    r := SatMul128(sum, 2);
  }

  // ---- Vein yield and reward ----

  function Q32ToMilli(q32: u128): u64 {
    Min(SatAdd128(SatMul128(q32, 1000), Q32_ONE / 2) / Q32_ONE, U64_MAX)
  }

  ghost function LnRatioMilli(numerator: u64, denominator: u64): u64 {
    if denominator == 0 || numerator <= denominator then 0
    else Q32ToMilli(ClampU128(LnU64(numerator) - LnU64(denominator)))
  }

  /** Largest 64-bit hash prefix with `difficulty` leading zero bits. */
  function DifficultyToTarget(difficulty: u64): (t: u64) {
    if difficulty == 0 || difficulty > 64 then 0
    else
      Pow2Values();
      Pow2Monotone(64 - difficulty, 64);
      Pow2(64 - difficulty) - 1
  }

  ghost function VeinYield(difficulty: u64, hash: u64): u64 {
    if difficulty == 0 || hash == 0 then 1000
    else
      var target := DifficultyToTarget(difficulty);
      if target == 0 || target <= hash then 1000
      else SatAdd64(1000, ClampU64(SqrtNearest(LnRatioMilli(target, hash) * 1000)))
  }

  function ScaledReward(base: nat, yieldMilli: u64): u64 {
    ClampU64(base * yieldMilli / 1000)
  }

  ghost function BlockReward(baseReward: u64, difficulty: u64, hash: u64): u64 {
    ScaledReward(baseReward / Max(difficulty, MIN_DIFFICULTY), VeinYield(difficulty, hash))
  }

  lemma TargetBelowTwo63(difficulty: u64)
    ensures DifficultyToTarget(difficulty) < Pow2(63)
  {
    hide Pow2;
    if 1 <= difficulty <= 64 { Pow2Monotone(64 - difficulty, 63); }
  }

  lemma Q32ToMilliMonotone(p: u128, q: u128)
    requires p <= q
    ensures Q32ToMilli(p) <= Q32ToMilli(q)
  {
    DivMonotone(SatAdd128(SatMul128(p, 1000), Q32_ONE / 2), SatAdd128(SatMul128(q, 1000), Q32_ONE / 2), Q32_ONE);
  }

  lemma LnRatioMonotone(target: u64, h1: u64, h2: u64)
    requires 1 <= h1 <= h2
    ensures LnRatioMilli(target, h2) <= LnRatioMilli(target, h1)
  {
    LnU64Monotone(h1, h2);
    hide LnU64, Q32ToMilli;
    Q32ToMilliMonotone(ClampU128(LnU64(target) - LnU64(h2)), ClampU128(LnU64(target) - LnU64(h1)));
  }

  lemma LargestRatio()
    ensures Q32ToMilli(63 * LN_2_Q32) == 43668
  {
  }

  lemma LnRatioBound(target: u64, hash: u64)
    requires target < Pow2(63)
    ensures LnRatioMilli(target, hash) <= 43668
  {
    hide LnU64, Q32ToMilli, Pow2;
    LnU64Bound(target, 63);
    LargestRatio();
    Q32ToMilliMonotone(ClampU128(LnU64(target) - LnU64(hash)), 63 * LN_2_Q32);
  }

  /** Luckier hashes never pay less: the yield only falls as the hash grows. */
  lemma LuckierHashYieldsMore(difficulty: u64, h1: u64, h2: u64)
    requires 1 <= h1 <= h2
    ensures VeinYield(difficulty, h1) >= VeinYield(difficulty, h2) >= 1000
  {
    var target := DifficultyToTarget(difficulty);
    if difficulty != 0 && h2 < target {
      LnRatioMonotone(target, h1, h2);
      hide LnRatioMilli, SqrtNearest, DifficultyToTarget;
      SqrtNearestMonotone(LnRatioMilli(target, h2) * 1000, LnRatioMilli(target, h1) * 1000);
    }
  }

  lemma LargestRoot()
    ensures SqrtNearest(43_668_000) == 6608
  {
    SqrtFloorUnique(43_668_000, 6608);
  }

  /** No hash at any difficulty yields more than 7.608 times the base, and the
      luckiest value of all, 0, earns only the floor. */
  lemma VeinYieldBounds(difficulty: u64, hash: u64)
    ensures 1000 <= VeinYield(difficulty, hash) <= 7608
    ensures VeinYield(difficulty, 0) == 1000
  {
    hide LnRatioMilli, SqrtNearest, DifficultyToTarget, Pow2;
    var target := DifficultyToTarget(difficulty);
    if difficulty != 0 && hash != 0 && hash < target {
      TargetBelowTwo63(difficulty);
      LnRatioBound(target, hash);
      LargestRoot();
      SqrtNearestMonotone(LnRatioMilli(target, hash) * 1000, 43_668_000);
    }
  }

  lemma SmallestLuck()
    ensures Q32ToMilli(LN_2_Q32) == 693 && SqrtNearest(693_000) == 832
  {
    SqrtFloorUnique(693_000, 832);
  }

  lemma TargetAtLeastThree(difficulty: u64)
    requires 1 <= difficulty <= 62
    ensures DifficultyToTarget(difficulty) >= 3
  {
    assert Pow2(2) == 4;
    hide Pow2;
    Pow2Monotone(2, 64 - difficulty);
  }

  lemma TargetTooSmall(difficulty: u64)
    requires difficulty == 0 || difficulty >= 63
    ensures DifficultyToTarget(difficulty) <= 1
  {
    assert Pow2(0) == 1 && Pow2(1) == 2;
  }

  lemma LnRatioOfOne(target: u64)
    requires target >= 3
    ensures LnRatioMilli(target, 1) >= 693
  {
    assert LnU64(target) >= LN_2_Q32 by {
      assert Pow2(1) == 2;
      hide Pow2, BitLength, LnMantissa, Mantissa;
      BitLengthLower(target, 1);
      MulMonotone(LN_2_Q32, 1, Log2Floor(target));
    }
    SmallestLuck();
    hide LnU64, Q32ToMilli;
    assert LnU64(1) == 0 by { LnOfOne(); }
    LnU64InU128(target);
    Q32ToMilliMonotone(LN_2_Q32, ClampU128(LnU64(target) - LnU64(1)));
  }

  lemma LnOfOne()
    ensures LnU64(1) == 0
  {
  }

  lemma LnU64InU128(value: u64)
    ensures LnU64(value) <= U128_MAX
  {
    hide LnU64, Pow2;
    Pow2Values();
    LnU64Bound(value, 64);
  }

  /** A hash value of 1 always finds a bonus where the difficulty leaves room for one. */
  lemma LuckyHashYieldsBonus(difficulty: u64)
    requires 1 <= difficulty <= 62
    ensures VeinYield(difficulty, 1) > 1000
  {
    hide LnRatioMilli, SqrtNearest, DifficultyToTarget, Pow2;
    var target := DifficultyToTarget(difficulty);
    TargetAtLeastThree(difficulty);
    LnRatioOfOne(target);
    SmallestLuck();
    SqrtNearestMonotone(693_000, LnRatioMilli(target, 1) * 1000);
  }

  lemma NoBonus(difficulty: u64, hash: u64)
    requires difficulty == 0 || difficulty >= 63
    ensures VeinYield(difficulty, hash) == 1000
  {
    hide LnRatioMilli, SqrtNearest, DifficultyToTarget, Pow2;
    TargetTooSmall(difficulty);
  }

  /** The luckiest value of all, 0, keeps up with every other hash exactly at the
      difficulties where no hash earns a bonus; at 1 to 62 the value 1 beats it. */
  lemma ZeroHashNeverBeatenIff(difficulty: u64)
    ensures (forall hash: u64 :: VeinYield(difficulty, 0) >= VeinYield(difficulty, hash)) <==> difficulty == 0 || difficulty >= 63
  {
    VeinYieldBounds(difficulty, 0);
    hide VeinYield;
    if difficulty == 0 || difficulty >= 63 {
      forall hash: u64 ensures VeinYield(difficulty, 0) >= VeinYield(difficulty, hash) { NoBonus(difficulty, hash); }
    } else {
      LuckyHashYieldsBonus(difficulty);
      assert VeinYield(difficulty, 1) > VeinYield(difficulty, 0);
    }
  }

  /** Every mined block earns at least the base share of its difficulty, and a
      luckier hash at the same difficulty never earns less. */
  lemma BlockRewardMonotone(baseReward: u64, difficulty: u64, h1: u64, h2: u64)
    requires 1 <= h1 <= h2
    ensures BlockReward(baseReward, difficulty, h1) >= BlockReward(baseReward, difficulty, h2)
    ensures BlockReward(baseReward, difficulty, h2) >= baseReward / Max(difficulty, MIN_DIFFICULTY)
  {
    hide VeinYield, ScaledReward;
    LuckierHashYieldsMore(difficulty, h1, h2);
    BaseShareFits(baseReward, Max(difficulty, MIN_DIFFICULTY));
    ScaledRewardMonotone(baseReward / Max(difficulty, MIN_DIFFICULTY), VeinYield(difficulty, h2), VeinYield(difficulty, h1));
  }

  lemma ScaledRewardMonotone(base: u64, y: u64, z: u64)
    requires 1000 <= y <= z
    ensures base <= ScaledReward(base, y) <= ScaledReward(base, z)
  {
    MulMonotone(base, 1000, y);
    MulMonotone(base, y, z);
    DivAtLeast(base * y, 1000, base);
    DivMonotone(base * y, base * z, 1000);
  }

  lemma ScaledRewardRises(base: u64, y: u64)
    requires y >= 1000
    ensures ScaledReward(base, y) > ScaledReward(base, 1000) <==> base < U64_MAX && base * (y - 1000) >= 1000
  {
    MulMonotone(base, 1000, y);
    assert base * y == base * 1000 + base * (y - 1000);
    if base * (y - 1000) >= 1000 { DivAtLeast(base * y, 1000, base + 1); } else { DivBelow(base * y, 1000, base + 1); }
  }

  lemma BestRewardIsOne(baseReward: u64, difficulty: u64, hash: u64)
    ensures BlockReward(baseReward, difficulty, 1) >= BlockReward(baseReward, difficulty, hash)
  {
    hide VeinYield, ScaledReward;
    if hash > 0 {
      BlockRewardMonotone(baseReward, difficulty, 1, hash);
    } else {
      var base := baseReward / Max(difficulty, MIN_DIFFICULTY);
      BaseShareFits(baseReward, Max(difficulty, MIN_DIFFICULTY));
      VeinYieldBounds(difficulty, 0);
      VeinYieldBounds(difficulty, 1);
      ScaledRewardMonotone(base, 1000, VeinYield(difficulty, 1));
    }
  }

  /** The share of the base reward a block at this difficulty earns before luck. */
  function BaseShare(baseReward: u64, difficulty: u64): u64 {
    BaseShareFits(baseReward, Max(difficulty, MIN_DIFFICULTY));
    baseReward / Max(difficulty, MIN_DIFFICULTY)
  }

  lemma ZeroVersusOne(baseReward: u64, difficulty: u64)
    ensures var base := BaseShare(baseReward, difficulty);
      BlockReward(baseReward, difficulty, 0) >= BlockReward(baseReward, difficulty, 1)
      <==> base == U64_MAX || base * (VeinYield(difficulty, 1) - 1000) < 1000
  {
    hide VeinYield, ScaledReward;
    VeinYieldBounds(difficulty, 0);
    VeinYieldBounds(difficulty, 1);
    ScaledRewardRises(BaseShare(baseReward, difficulty), VeinYield(difficulty, 1));
  }

  /** The reward of hash 0 keeps up with every other exactly where no hash earns a
      bonus, or where the best bonus is lost in rounding or saturation. */
  lemma ZeroHashRewardIff(baseReward: u64, difficulty: u64)
    ensures var base := BaseShare(baseReward, difficulty);
      (forall hash: u64 :: BlockReward(baseReward, difficulty, 0) >= BlockReward(baseReward, difficulty, hash))
      <==> difficulty == 0 || difficulty >= 63 || base == U64_MAX || base * (VeinYield(difficulty, 1) - 1000) < 1000
  {
    hide VeinYield, BlockReward, BaseShare;
    ZeroVersusOne(baseReward, difficulty);
    forall hash: u64 ensures BlockReward(baseReward, difficulty, 1) >= BlockReward(baseReward, difficulty, hash) {
      BestRewardIsOne(baseReward, difficulty, hash);
    }
    if difficulty == 0 || difficulty >= 63 { NoBonus(difficulty, 1); }
  }

  lemma BaseShareFits(baseReward: nat, difficulty: nat)
    requires difficulty >= 1
    ensures baseReward / difficulty <= baseReward
  {
    MulMonotone(baseReward, 1, difficulty);
    DivCross(baseReward, difficulty, baseReward, 1);
  }

  // ---- Computing the reward ----

  method LnU64Q32(value: u64) returns (r: u128)
    ensures r == LnU64(value)
  {
    if value <= 1 { return 0; }
    Pow2Values();
    LnU64Bound(value, 64);
    MantissaBelowTwo(value);
    var mantissa := LnMantissaQ32(Mantissa(value));
    r := Log2Floor(value) * LN_2_Q32 + mantissa;
  }

  method ComputeLnRatioMilli(numerator: u64, denominator: u64) returns (r: u64)
    ensures r == LnRatioMilli(numerator, denominator)
  {
    if denominator == 0 || numerator <= denominator { return 0; }
    hide LnU64;
    var a := LnU64Q32(numerator);
    var b := LnU64Q32(denominator);
    r := Q32ToMilli(SatSub128(a, b));
  }

  method ComputeVeinYield(difficulty: u64, hash: u64) returns (r: u64)
    ensures r == VeinYield(difficulty, hash)
  {
    hide LnRatioMilli, SqrtNearest, DifficultyToTarget, Pow2;
    if difficulty == 0 || hash == 0 { return 1000; }
    var target := DifficultyToTarget(difficulty);
    if target == 0 { return 1000; }
    if target <= hash { return 1000; }
    var ratio := ComputeLnRatioMilli(target, hash);
    var root := BinarySqrtRound((ratio as int) * 1000);
    r := SatAdd64(1000, ClampU64(root));
  }

  method ComputeBlockReward(baseReward: u64, difficulty: u64, hash: u64) returns (r: u64)
    ensures r == BlockReward(baseReward, difficulty, hash)
  {
    hide VeinYield;
    var yieldMilli := ComputeVeinYield(difficulty, hash);
    r := ScaledReward(baseReward / Max(difficulty, MIN_DIFFICULTY), yieldMilli);
  }

  // ---- Suggested fee ----

  /** `average` is the block's mean explicit fee, MIN_FEE when nothing succeeded. */
  function AverageFee(fees: u64, count: u64): u64 {
    if count == 0 then MIN_FEE else fees / count
  }

  function SuggestedFee(fees: u64, count: u64, previous: u64): u64 {
    Max(SatAdd64(AverageFee(fees, count), SatMul64(previous, CAPACITY_RATIO - 1)) / CAPACITY_RATIO, MIN_FEE)
  }

  /** The suggestion moves from the old one towards the block's average and never
      past either; the lower bound needs the weighted sum to fit. */
  lemma SuggestedFeeBetween(fees: u64, count: u64, previous: u64)
    requires previous >= MIN_FEE
    ensures var average, fee := AverageFee(fees, count), SuggestedFee(fees, count, previous);
      && MIN_FEE <= fee <= Max(previous, average)
      && (Min(previous, average) <= fee <==> average + 9 * previous <= U64_MAX || Min(previous, average) <= U64_MAX / 10)
  {
  }
}
