/** The two integer square roots of the consensus code: binary search
    (crates/consensus) and Newton iteration (crates/execution, crates/node). */
module IntegerSqrt {
  import opened Numbers

  lemma {:induction false} SquareMonotone(a: nat, b: nat)
    requires a <= b
    ensures a * a <= b * b
  {
    assert a * a <= a * b;
    assert a * b <= b * b;
  }

  ghost predicate IsFloorRoot(r: nat, n: nat) {
    r * r <= n < (r + 1) * (r + 1)
  }

  lemma {:induction false} FloorRootExists(n: nat)
    ensures exists r: nat :: IsFloorRoot(r, n)
  {
    if n == 0 {
      assert IsFloorRoot(0, 0);
    } else {
      FloorRootExists(n - 1);
      var r: nat :| IsFloorRoot(r, n - 1);
      assert IsFloorRoot(r, n) || IsFloorRoot(r + 1, n);
    }
  }

  /** The floor of the real square root. */
  ghost function SqrtFloor(n: nat): (r: nat)
    ensures IsFloorRoot(r, n)
  {
    FloorRootExists(n);
    var r: nat :| IsFloorRoot(r, n);
    r
  }

  /** The nearest integer to the real square root. */
  ghost function SqrtNearest(n: nat): nat {
    var r := SqrtFloor(n);
    if n > r * r + r then r + 1 else r
  }

  lemma SqrtFloorUnique(n: nat, r: nat)
    requires IsFloorRoot(r, n)
    ensures r == SqrtFloor(n)
  {
    var s := SqrtFloor(n);
    if r < s {
      SquareMonotone(r + 1, s);
    } else if s < r {
      SquareMonotone(s + 1, r);
    }
  }

  lemma SqrtFloorMonotone(m: nat, n: nat)
    requires m <= n
    ensures SqrtFloor(m) <= SqrtFloor(n)
  {
    var r, s := SqrtFloor(m), SqrtFloor(n);
    if s < r {
      SquareMonotone(s + 1, r);
    }
  }

  /** Although the code compares squares, the rounded root is the integer
      nearest to the real root: |r - sqrt(n)| < 1/2, never a tie. */
  lemma SqrtNearestIsNearest(n: nat)
    requires n >= 1
    ensures SqrtNearest(n) >= 1
    ensures var r := SqrtNearest(n); (2 * r - 1) * (2 * r - 1) < 4 * n < (2 * r + 1) * (2 * r + 1)
  {
    var f := SqrtFloor(n);
    NearestOf(n, f, SqrtNearest(n));
  }

  lemma NearestOf(n: nat, f: nat, r: nat)
    requires n >= 1 && IsFloorRoot(f, n) && r == if n > f * f + f then f + 1 else f
    ensures r >= 1 && (2 * r - 1) * (2 * r - 1) < 4 * n < (2 * r + 1) * (2 * r + 1)
  {
    var q, p := f * f, r * r;
    assert (f + 1) * (f + 1) == q + 2 * f + 1;
    assert (2 * r - 1) * (2 * r - 1) == 4 * p - 4 * r + 1;
    assert (2 * r + 1) * (2 * r + 1) == 4 * p + 4 * r + 1;
  }

  lemma SqrtNearestMonotone(m: nat, n: nat)
    requires m <= n
    ensures SqrtNearest(m) <= SqrtNearest(n)
  {
    SqrtFloorMonotone(m, n);
  }

  function Pow2(k: nat): (p: nat)
    ensures p >= 1
  {
    if k == 0 then 1 else 2 * Pow2(k - 1)
  }

  lemma {:induction false} Pow2Add(a: nat, b: nat)
    ensures Pow2(a + b) == Pow2(a) * Pow2(b)
  {
    if a == 0 {
    } else {
      Pow2Add(a - 1, b);
      assert Pow2(a + b) == 2 * Pow2(a - 1 + b);
    }
  }

  lemma {:induction false} Pow2Monotone(a: nat, b: nat)
    requires a <= b
    ensures Pow2(a) <= Pow2(b)
  {
    if a < b { Pow2Monotone(a, b - 1); }
  }

  /** `BITS - n.leading_zeros()`. */
  function BitLength(n: nat): (b: nat)
    ensures n < Pow2(b)
    ensures n > 0 ==> b > 0 && Pow2(b - 1) <= n
  {
    if n == 0 then 0 else 1 + BitLength(n / 2)
  }

  lemma {:induction false} BitLengthBound(n: nat, k: nat)
    requires n < Pow2(k)
    ensures BitLength(n) <= k
  {
    if n > 0 { BitLengthBound(n / 2, k - 1); }
  }

  lemma {:induction false} BitLengthLower(n: nat, k: nat)
    requires Pow2(k) <= n
    ensures k < BitLength(n)
  {
    if k > 0 { BitLengthLower(n / 2, k - 1); }
  }

  lemma Pow2Doubles(k: nat, p: nat)
    requires Pow2(k) == p
    ensures Pow2(2 * k) == p * p
    ensures Pow2(k + 1) == 2 * p
    ensures k > 0 ==> p == 2 * Pow2(k - 1)
  {
    Pow2Add(k, k);
  }

  lemma Pow2Values()
    ensures Pow2(31) == 0x8000_0000
    ensures Pow2(32) == 0x1_0000_0000 && Pow2(33) == 0x2_0000_0000
    ensures Pow2(63) == 0x8000_0000_0000_0000
    ensures Pow2(64) == 0x1_0000_0000_0000_0000
    ensures Pow2(127) == 0x8000_0000_0000_0000_0000_0000_0000_0000
    ensures Pow2(128) == 0x1_0000_0000_0000_0000_0000_0000_0000_0000
  {
    var two: nat := 2;
    Pow2Doubles(two, 4);
    Pow2Doubles(2 * two, 0x10);
    Pow2Doubles(4 * two, 0x100);
    Pow2Doubles(8 * two, 0x1_0000);
    Pow2Doubles(16 * two, 0x1_0000_0000);
    Pow2Doubles(32 * two, 0x1_0000_0000_0000_0000);
    Pow2Doubles(64 * two, 0x1_0000_0000_0000_0000_0000_0000_0000_0000);
  }

  /** The upper bound the binary search starts from. */
  ghost function SearchTop(n: nat): (top: nat)
    ensures top >= 1
  {
    Pow2(DivCeil(BitLength(n), 2))
  }

  lemma BitsOfU128(n: nat)
    requires n <= U128_MAX
    ensures BitLength(n) <= 128
    ensures n == U128_MAX ==> BitLength(n) == 128
  {
    hide Pow2, BitLength;
    Pow2Values();
    BitLengthBound(n, 128);
    if n == U128_MAX { BitLengthLower(n, 127); }
  }

  lemma Pow2Of64()
    ensures Pow2(64) == TWO_64
  {
    Pow2Values();
  }

  lemma SearchTopBounds(n: nat)
    requires 2 <= n <= U128_MAX
    ensures SearchTop(n) <= TWO_64
    ensures n < SearchTop(n) * SearchTop(n)
    ensures n == U128_MAX ==> SearchTop(n) == TWO_64
  {
    var b := BitLength(n);
    var h := DivCeil(b, 2);
    assert n < Pow2(b);
    BitsOfU128(n);
    Pow2Of64();
    hide Pow2, BitLength;
    assert h <= 64 && (b == 128 ==> h == 64) && b <= 2 * h;
    Pow2Monotone(h, 64);
    Pow2Monotone(b, 2 * h);
    Pow2Add(h, h);
  }

  /** Binary search with a saturating square. It is the exact floor root of every
      u128 but the largest, where saturation makes it one too big. */
  method BinarySqrtFloor(n: u128) returns (r: u128)
    ensures n != U128_MAX ==> r == SqrtFloor(n)
    ensures n == U128_MAX ==> r == SqrtFloor(n) + 1
  {
    if n < 2 {
      SqrtFloorUnique(n, n);
      return n;
    }
    SearchTopBounds(n);
    ghost var top := SearchTop(n);
    var left: int, right: int, result: int := 1, Pow2(DivCeil(BitLength(n), 2)), 1;
    while left <= right
      invariant 1 <= left <= right + 1 <= top + 1 <= TWO_64 + 1
      invariant result == Max(left - 1, 1)
      invariant SatMul128(result, result) <= n
      invariant right == top || (right + 1 <= top && n < SatMul128(right + 1, right + 1))
      decreases right + 1 - left
    {
      var mid := (left + right) / 2;
      var square := SatMul128(mid, mid);
      if square <= n {
        result := mid;
        left := mid + 1;
      } else {
        right := mid - 1;
      }
    }
    r := result;
    BinarySearchStops(n, top, r, right);
  }

  lemma BinarySearchStops(n: u128, top: nat, r: u128, right: int)
    requires 2 <= n < top * top && top <= TWO_64 && (n == U128_MAX ==> top == TWO_64)
    requires right == r || (right == 0 && r == 1)
    requires SatMul128(r, r) <= n && right <= top
    requires right == top || (right + 1 <= top && n < SatMul128(right + 1, right + 1))
    ensures n != U128_MAX ==> r == SqrtFloor(n)
    ensures n == U128_MAX ==> r == SqrtFloor(n) + 1
  {
    if n == U128_MAX {
      SqrtFloorUnique(n, TWO_64 - 1);
    } else {
      assert r * r <= n;
      assert right != top;
      SqrtFloorUnique(n, r);
    }
  }

  lemma {:induction false} HalfAboveRoot(n: nat)
    requires n >= 2
    ensures 1 <= SqrtFloor(n) <= DivCeil(n, 2) < n
  {
    var s := SqrtFloor(n);
    assert s * s <= n < (s + 1) * (s + 1);
    assert s != 0;
    if s >= 2 { assert 2 * s <= s * s; }
  }

  lemma MulMonotone(x: nat, a: int, b: int)
    requires a <= b
    ensures x * a <= x * b
  {
  }

  /** A difference-of-squares step: x(2s - x) <= s^2. */
  lemma BelowSquare(s: int, x: int)
    ensures x * (2 * s - x) <= s * s
  {
    var d := s - x;
    assert d * d >= 0;
    assert x * (2 * s - x) == s * s - d * d;
  }

  lemma NewtonAboveRoot(n: nat, x: nat)
    requires x > 0
    ensures SqrtFloor(n) <= (x + n / x) / 2
  {
    var s := SqrtFloor(n);
    var q := n / x;
    assert n < x * (q + 1) by { assert n == x * q + n % x; }
    BelowSquare(s, x);
    if q + 1 <= 2 * s - x {
      MulMonotone(x, q + 1, 2 * s - x);
      assert false;
    }
  }

  lemma NewtonFits(n: nat, x: nat)
    requires 1 <= x < n
    ensures x + n / x <= n + 1
  {
    var q := n / x;
    assert x * q <= n;
    if q >= 2 {
      assert (x - 1) * (q - 1) == x * q - x - q + 1;
      assert 0 <= (x - 1) * (q - 1);
    } else {
      assert x + q <= n + 1;
    }
  }

  lemma NewtonStops(n: nat, x: nat)
    requires n >= 2 && SqrtFloor(n) <= x && 1 <= x
    requires (x + n / x) / 2 >= x
    ensures x == SqrtFloor(n)
  {
    var s := SqrtFloor(n);
    var q := n / x;
    assert q >= x;
    assert n == x * q + n % x;
    assert x * x <= x * q;
    if s < x {
      SquareMonotone(s + 1, x);
      assert false;
    }
  }

  /** Newton iteration from above: exact on every u128, and no step leaves u128. */
  method NewtonSqrtFloor(n: u128) returns (r: u128)
    ensures r == SqrtFloor(n)
  {
    if n < 2 {
      SqrtFloorUnique(n, n);
      return n;
    }
    var x: u128, y: u128 := n, DivCeil(n, 2);
    ghost var s := SqrtFloor(n);
    HalfAboveRoot(n);
    while y < x
      invariant 1 <= s <= x <= n && s <= y
      invariant (x == n && y < x) || y == (x + n / x) / 2
      decreases x
    {
      x := y;
      NewtonAboveRoot(n, x);
      NewtonFits(n, x);
      y := (x + n / x) / 2;
    }
    r := x;
    NewtonStops(n, x);
  }

  /** The rounding step shared by the two `integer_sqrt_round`s. */
  function RoundFrom(floor: u128, n: u128): (r: nat) {
    var floorSquare := SatMul128(floor, floor);
    var next := SatAdd128(floor, 1);
    var nextSquare := SatMul128(next, next);
    if SatSub128(nextSquare, n) < SatSub128(n, floorSquare) then next else floor
  }

  /** Whichever floor root feeds it, the rounding step lands on the nearest
      integer for every u128: saturating `next * next` never changes the
      comparison, and at the largest u128 it hides the floor root's error. */
  lemma RoundFromFloor(n: u128)
    ensures SqrtFloor(n) < TWO_64
    ensures RoundFrom(SqrtFloor(n), n) == SqrtNearest(n)
    ensures n == U128_MAX ==> RoundFrom(SqrtFloor(n) + 1, n) == SqrtNearest(n)
  {
    var f := SqrtFloor(n);
    if f >= TWO_64 {
      SquareMonotone(TWO_64, f);
      assert false;
    }
    assert (f + 1) * (f + 1) == f * f + 2 * f + 1;
    if f + 1 < TWO_64 {
      SquareMonotone(f + 1, TWO_64 - 1);
    } else {
      assert f == TWO_64 - 1;
    }
    if n == U128_MAX { SqrtFloorUnique(n, TWO_64 - 1); }
  }

  method BinarySqrtRound(n: u128) returns (r: u128)
    ensures r == SqrtNearest(n)
  {
    var floor := BinarySqrtFloor(n);
    r := RoundFrom(floor, n);
    RoundFromFloor(n);
  }

  method NewtonSqrtRound(n: u128) returns (r: u128)
    ensures r == SqrtNearest(n)
  {
    if n < 2 {
      SqrtFloorUnique(n, n);
      return n;
    }
    var floor := NewtonSqrtFloor(n);
    r := RoundFrom(floor, n);
    RoundFromFloor(n);
  }
}
