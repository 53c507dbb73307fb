/**
 * The outcode classifier of scripts/renderer.js (`outcodePerspective`) and the
 * integer bit arithmetic the clipper performs on outcodes: JavaScript's `|`,
 * `&`, `toString(2)`, and the six-character bit string scanned for its
 * leftmost '1'.
 *
 * Outcodes are JavaScript numbers holding small non-negative integers; they
 * are `nat` here, and a bit of an outcode is read by halving (`Bit`).
 */
module Outcodes {
  import opened Wrappers
  import opened Vectors

  /** The tolerance of every plane test (`FLOAT_EPSILON`). */
  const Epsilon: real := 0.000001

  /** The six planes of the perspective view volume. */
  datatype Plane = Left | Right | Bottom | Top | Far | Near

  /** The outcode bit of each plane (`LEFT` = 32 ... `NEAR` = 1). */
  function Mask(plane: Plane): nat
  {
    match plane
    case Left => 32
    case Right => 16
    case Bottom => 8
    case Top => 4
    case Far => 2
    case Near => 1
  }

  /** The position of the plane's bit, counted from the least significant bit. */
  function BitIndex(plane: Plane): (k: nat)
    ensures k < 6
  {
    match plane
    case Left => 5
    case Right => 4
    case Bottom => 3
    case Top => 2
    case Far => 1
    case Near => 0
  }

  /** The plane whose bit is `k`; `BitIndex` undone. */
  function PlaneOfBit(k: nat): (plane: Plane)
    requires k < 6
    ensures BitIndex(plane) == k
  {
    if k == 5 then Left
    else if k == 4 then Right
    else if k == 3 then Bottom
    else if k == 2 then Top
    else if k == 1 then Far
    else Near
  }

  function Pow2(k: nat): (r: nat)
    ensures r >= 1
  {
    if k == 0 then 1 else 2 * Pow2(k - 1)
  }

  /** Bit `k` of `n`, bit 0 being the least significant. */
  function Bit(n: nat, k: nat): bool
  {
    if k == 0 then n % 2 == 1 else Bit(n / 2, k - 1)
  }

  // ---------------------------------------------------------------------------
  // The classifier
  // ---------------------------------------------------------------------------

  /**
   * The NEAR test of the source compares `z > z_min + FLOAT_EPSILON`; when the
   * clipper recurses it passes no `z_min`, the sum is NaN and the comparison is
   * false.  `None` stands for that missing `z_min`.
   */
  predicate BeyondNear(z: real, zMin: Option<real>)
  {
    zMin.Some? && z > zMin.value + Epsilon
  }

  /**
   * The view volume with its tolerance: `z - eps <= x <= -z + eps`,
   * `z - eps <= y <= -z + eps` and `-1 - eps <= z <= z_min + eps`, the last
   * bound only when a `z_min` is given.
   */
  predicate InViewVolume(p: Vector3, zMin: Option<real>)
  {
    && p.z - Epsilon <= p.x <= -p.z + Epsilon
    && p.z - Epsilon <= p.y <= -p.z + Epsilon
    && -1.0 - Epsilon <= p.z
    && (zMin.Some? ==> p.z <= zMin.value + Epsilon)
  }

  /** `outcodePerspective`: one bit for each plane the point lies beyond. */
  function Outcode(p: Vector3, zMin: Option<real>): (code: nat)
    ensures code < 64
    ensures code == 0 <==> InViewVolume(p, zMin)
    ensures zMin.None? ==> code % 2 == 0
  {
    (if p.x < p.z - Epsilon then Mask(Left)
     else if p.x > -p.z + Epsilon then Mask(Right)
     else 0)
    + (if p.y < p.z - Epsilon then Mask(Bottom)
       else if p.y > -p.z + Epsilon then Mask(Top)
       else 0)
    + (if p.z < -1.0 - Epsilon then Mask(Far)
       else if BeyondNear(p.z, zMin) then Mask(Near)
       else 0)
  }

  /**
   * What the bit of `plane` in an outcode means.  The second test of each
   * pair is an `else if`, so it only flags a point that passed the first.
   */
  predicate Violates(p: Vector3, zMin: Option<real>, plane: Plane)
  {
    match plane
    case Left => p.x < p.z - Epsilon
    case Right => !(p.x < p.z - Epsilon) && p.x > -p.z + Epsilon
    case Bottom => p.y < p.z - Epsilon
    case Top => !(p.y < p.z - Epsilon) && p.y > -p.z + Epsilon
    case Far => p.z < -1.0 - Epsilon
    case Near => !(p.z < -1.0 - Epsilon) && BeyondNear(p.z, zMin)
  }

  lemma {:induction false} ZeroHasNoBits(k: nat)
    ensures !Bit(0, k)
  {
    if k > 0 {
      ZeroHasNoBits(k - 1);
    }
  }

  /** Writing `n` as `4 * high + low` splits its bits at position 2. */
  lemma BitOfQuad(high: nat, low: nat, k: nat)
    requires low < 4
    ensures Bit(4 * high + low, k) == if k < 2 then Bit(low, k) else Bit(high, k - 2)
  {
    var n := 4 * high + low;
    assert n / 2 == 2 * high + low / 2;
    if k >= 2 {
      assert (n / 2) / 2 == high;
      assert Bit(n, k) == Bit(n / 2, k - 1) == Bit((n / 2) / 2, k - 2);
    } else if k == 1 {
      assert Bit(n, 1) == Bit(n / 2, 0);
      assert Bit(low, 1) == Bit(low / 2, 0);
    }
  }

  /** A number below 4 has no bit at position 2 or higher. */
  lemma SmallHasNoHighBits(low: nat, k: nat)
    requires low < 4 && k >= 2
    ensures !Bit(low, k)
  {
    BitOfQuad(0, low, k);
    ZeroHasNoBits(k - 2);
  }

  /** The three-valued code of one axis: 2 for its first plane, 1 for its second. */
  function PairCode(first: bool, second: bool): nat
  {
    if first then 2 else if second then 1 else 0
  }

  lemma PairCodeBits(first: bool, second: bool, k: nat)
    ensures Bit(PairCode(first, second), k) == ((k == 1 && first) || (k == 0 && !first && second))
  {
    if k >= 2 {
      SmallHasNoHighBits(PairCode(first, second), k);
    } else if k == 1 {
      assert Bit(PairCode(first, second), 1) == Bit(PairCode(first, second) / 2, 0);
    }
  }

  /**
   * Each bit of the outcode is set exactly when the point violates that
   * plane, and no bit above the six plane bits is ever set.
   */
  lemma OutcodeBits(p: Vector3, zMin: Option<real>)
    ensures forall plane :: Bit(Outcode(p, zMin), BitIndex(plane)) <==> Violates(p, zMin, plane)
    ensures forall k: nat :: k >= 6 ==> !Bit(Outcode(p, zMin), k)
  {
    var xs := PairCode(p.x < p.z - Epsilon, p.x > -p.z + Epsilon);
    var ys := PairCode(p.y < p.z - Epsilon, p.y > -p.z + Epsilon);
    var zs := PairCode(p.z < -1.0 - Epsilon, BeyondNear(p.z, zMin));
    var code := Outcode(p, zMin);
    assert code == 4 * (4 * xs + ys) + zs;
    forall k: nat
      ensures Bit(code, k) == if k < 2 then Bit(zs, k) else if k < 4 then Bit(ys, k - 2) else Bit(xs, k - 4)
    {
      BitOfQuad(4 * xs + ys, zs, k);
      if k >= 2 {
        BitOfQuad(xs, ys, k - 2);
      }
    }
    forall k: nat
      ensures Bit(code, k) == (
        || (k == 5 && p.x < p.z - Epsilon)
        || (k == 4 && !(p.x < p.z - Epsilon) && p.x > -p.z + Epsilon)
        || (k == 3 && p.y < p.z - Epsilon)
        || (k == 2 && !(p.y < p.z - Epsilon) && p.y > -p.z + Epsilon)
        || (k == 1 && p.z < -1.0 - Epsilon)
        || (k == 0 && !(p.z < -1.0 - Epsilon) && BeyondNear(p.z, zMin)))
    {
      if k < 2 {
        PairCodeBits(p.z < -1.0 - Epsilon, BeyondNear(p.z, zMin), k);
      } else if k < 4 {
        PairCodeBits(p.y < p.z - Epsilon, p.y > -p.z + Epsilon, k - 2);
      } else {
        PairCodeBits(p.x < p.z - Epsilon, p.x > -p.z + Epsilon, k - 4);
      }
    }
  }

  /**
   * The outcode never flags both planes of a pair (LEFT/RIGHT, BOTTOM/TOP,
   * FAR/NEAR), and a point exactly on a plane is not flagged for it.
   */
  lemma OutcodePairsExclusive(p: Vector3, zMin: Option<real>)
    ensures !(Bit(Outcode(p, zMin), 5) && Bit(Outcode(p, zMin), 4))
    ensures !(Bit(Outcode(p, zMin), 3) && Bit(Outcode(p, zMin), 2))
    ensures !(Bit(Outcode(p, zMin), 1) && Bit(Outcode(p, zMin), 0))
    ensures p.x == p.z ==> !Bit(Outcode(p, zMin), 5)
    ensures p.x == -p.z ==> !Bit(Outcode(p, zMin), 4)
    ensures p.y == p.z ==> !Bit(Outcode(p, zMin), 3)
    ensures p.y == -p.z ==> !Bit(Outcode(p, zMin), 2)
    ensures p.z == -1.0 ==> !Bit(Outcode(p, zMin), 1)
    ensures zMin.Some? && p.z == zMin.value ==> !Bit(Outcode(p, zMin), 0)
  {
    OutcodeBits(p, zMin);
    assert BitIndex(Left) == 5 && BitIndex(Right) == 4 && BitIndex(Bottom) == 3;
    assert BitIndex(Top) == 2 && BitIndex(Far) == 1 && BitIndex(Near) == 0;
  }

  // ---------------------------------------------------------------------------
  // JavaScript's `|` and `&` on non-negative integers
  // ---------------------------------------------------------------------------

  lemma {:induction false} NonzeroHasBit(n: nat)
    requires n > 0
    ensures exists k: nat :: Bit(n, k)
  {
    if n % 2 == 1 {
      assert Bit(n, 0);
    } else {
      NonzeroHasBit(n / 2);
      var k: nat :| Bit(n / 2, k);
      assert Bit(n, k + 1);
    }
  }

  /** `a | b`. */
  function BitOr(a: nat, b: nat): (r: nat)
    ensures r == 0 <==> a == 0 && b == 0
  {
    if a == 0 then b
    else if b == 0 then a
    else 2 * BitOr(a / 2, b / 2) + (if a % 2 == 1 || b % 2 == 1 then 1 else 0)
  }

  /** `a & b`. */
  function BitAnd(a: nat, b: nat): (r: nat)
    ensures a == 0 || b == 0 ==> r == 0
  {
    if a == 0 || b == 0 then 0
    else 2 * BitAnd(a / 2, b / 2) + (if a % 2 == 1 && b % 2 == 1 then 1 else 0)
  }

  /** Each bit of `a | b` is set exactly when it is set in `a` or in `b`. */
  lemma {:induction false} BitOrBits(a: nat, b: nat)
    ensures forall k: nat :: Bit(BitOr(a, b), k) == (Bit(a, k) || Bit(b, k))
  {
    ZeroHasNoBitsAll();
    if a != 0 && b != 0 {
      BitOrBits(a / 2, b / 2);
      var r := BitOr(a, b);
      assert r / 2 == BitOr(a / 2, b / 2);
      forall k: nat
        ensures Bit(r, k) == (Bit(a, k) || Bit(b, k))
      {
        if k > 0 {
          assert Bit(r, k) == Bit(r / 2, k - 1);
        }
      }
    }
  }

  /** Each bit of `a & b` is set exactly when it is set in both `a` and `b`. */
  lemma {:induction false} BitAndBits(a: nat, b: nat)
    ensures forall k: nat :: Bit(BitAnd(a, b), k) == (Bit(a, k) && Bit(b, k))
  {
    ZeroHasNoBitsAll();
    if a != 0 && b != 0 {
      BitAndBits(a / 2, b / 2);
      var r := BitAnd(a, b);
      assert r / 2 == BitAnd(a / 2, b / 2);
      forall k: nat
        ensures Bit(r, k) == (Bit(a, k) && Bit(b, k))
      {
        if k > 0 {
          assert Bit(r, k) == Bit(r / 2, k - 1);
        }
      }
    }
  }

  lemma ZeroHasNoBitsAll()
    ensures forall k: nat :: !Bit(0, k)
  {
    forall k: nat
      ensures !Bit(0, k)
    {
      ZeroHasNoBits(k);
    }
  }

  /** Two outcodes have `(out0 | out1) === 0` exactly when both points lie in the view volume. */
  lemma BothInsideIff(p0: Vector3, p1: Vector3, zMin: Option<real>)
    ensures BitOr(Outcode(p0, zMin), Outcode(p1, zMin)) == 0
            <==> InViewVolume(p0, zMin) && InViewVolume(p1, zMin)
  {
  }

  /** Two outcodes have `(out0 & out1) !== 0` exactly when both points violate one same plane. */
  lemma SharedPlaneIff(p0: Vector3, p1: Vector3, zMin: Option<real>)
    ensures BitAnd(Outcode(p0, zMin), Outcode(p1, zMin)) != 0
            <==> exists plane :: Violates(p0, zMin, plane) && Violates(p1, zMin, plane)
  {
    var out0, out1 := Outcode(p0, zMin), Outcode(p1, zMin);
    var both := BitAnd(out0, out1);
    BitAndBits(out0, out1);
    OutcodeBits(p0, zMin);
    OutcodeBits(p1, zMin);
    if both != 0 {
      NonzeroHasBit(both);
      var k: nat :| Bit(both, k);
      assert k < 6;
      var plane := PlaneOfBit(k);
      assert Violates(p0, zMin, plane) && Violates(p1, zMin, plane);
    }
    if exists plane :: Violates(p0, zMin, plane) && Violates(p1, zMin, plane) {
      var plane :| Violates(p0, zMin, plane) && Violates(p1, zMin, plane);
      assert Bit(both, BitIndex(plane));
      ZeroHasNoBits(BitIndex(plane));
    }
  }

  // ---------------------------------------------------------------------------
  // The bit string and the plane the clipper picks
  // ---------------------------------------------------------------------------

  function Digit(b: bool): char
  {
    if b then '1' else '0'
  }

  /** `n.toString(2)`: the binary digits of `n`, most significant first, no leading zeros. */
  function ToBinaryString(n: nat): (s: string)
    ensures |s| >= 1
  {
    if n < 2 then [Digit(n == 1)] else ToBinaryString(n / 2) + [Digit(n % 2 == 1)]
  }

  /** The digits of `toString(2)` are the bits of `n`, and every higher bit is clear. */
  lemma {:induction false} BinaryDigits(n: nat)
    ensures forall k: nat :: k < |ToBinaryString(n)| ==> ToBinaryString(n)[|ToBinaryString(n)| - 1 - k] == Digit(Bit(n, k))
    ensures forall k: nat :: k >= |ToBinaryString(n)| ==> !Bit(n, k)
  {
    var s := ToBinaryString(n);
    if n < 2 {
      forall k: nat | k >= 1
        ensures !Bit(n, k)
      {
        ZeroHasNoBits(k - 1);
      }
    } else {
      BinaryDigits(n / 2);
      var h := ToBinaryString(n / 2);
      assert s == h + [Digit(n % 2 == 1)];
      forall k: nat | k < |s|
        ensures s[|s| - 1 - k] == Digit(Bit(n, k))
      {
        if k > 0 {
          assert s[|s| - 1 - k] == h[|h| - 1 - (k - 1)];
        }
      }
      forall k: nat | k >= |s|
        ensures !Bit(n, k)
      {
        assert Bit(n, k) == Bit(n / 2, k - 1);
      }
    }
  }

  /** `toString(2)` of a number below `2^m` has at most `m` digits. */
  lemma {:induction false} BinaryLength(n: nat, m: nat)
    requires m >= 1 && n < Pow2(m)
    ensures |ToBinaryString(n)| <= m
  {
    if n >= 2 {
      assert m >= 2;
      BinaryLength(n / 2, m - 1);
    }
  }

  /** The six-character string of the outcode's bits, LEFT's bit first and NEAR's last. */
  function BitString(code: nat): (s: string)
    ensures |s| == 6
  {
    seq(6, i requires 0 <= i < 6 => Digit(Bit(code, 5 - i)))
  }

  /** The string index at which the clipper finds a plane's bit. */
  function StringIndex(plane: Plane): (i: nat)
    ensures i == 5 - BitIndex(plane)
  {
    match plane
    case Left => 0
    case Right => 1
    case Bottom => 2
    case Top => 3
    case Far => 4
    case Near => 5
  }

  /**
   * The plane the clipper resolves for an outcode: the highest-order set bit,
   * so LEFT first and NEAR last.
   */
  function ChosenPlane(code: nat): (plane: Plane)
    requires 0 < code < 64
    ensures Bit(code, BitIndex(plane))
  {
    NonzeroHasBit(code);
    BinaryDigits(code);
    BinaryLength(code, 6);
    if Bit(code, 5) then Left
    else if Bit(code, 4) then Right
    else if Bit(code, 3) then Bottom
    else if Bit(code, 2) then Top
    else if Bit(code, 1) then Far
    else Near
  }

  /** No plane of a higher-order bit than the chosen plane's is flagged. */
  lemma ChosenPlaneIsHighest(code: nat)
    requires 0 < code < 64
    ensures forall other :: BitIndex(other) > BitIndex(ChosenPlane(code)) ==> !Bit(code, BitIndex(other))
  {
    BinaryDigits(code);
    BinaryLength(code, 6);
  }

  /**
   * The leftmost '1' of the padded bit string sits at the chosen plane's
   * string index.
   */
  lemma LeftmostOneIsChosenPlane(code: nat)
    requires 0 < code < 64
    ensures BitString(code)[StringIndex(ChosenPlane(code))] == '1'
    ensures forall i :: 0 <= i < StringIndex(ChosenPlane(code)) ==> BitString(code)[i] != '1'
  {
    var plane := ChosenPlane(code);
    ChosenPlaneIsHighest(code);
    forall i | 0 <= i < StringIndex(plane)
      ensures BitString(code)[i] != '1'
    {
      assert BitIndex(PlaneOfBit(5 - i)) > BitIndex(plane);
    }
  }

  /**
   * `out.toString(2)` followed by the source's padding loop: prepend '0'
   * until the string has six characters.
   */
  method PaddedBitString(code: nat) returns (bitString: string)
    requires code < 64
    ensures bitString == BitString(code)
  {
    bitString := ToBinaryString(code);
    BinaryDigits(code);
    BinaryLength(code, 6);
    while |bitString| < 6
      invariant |bitString| <= 6
      invariant forall k: nat :: k < |bitString| ==> bitString[|bitString| - 1 - k] == Digit(Bit(code, k))
      invariant forall k: nat :: k >= |bitString| ==> !Bit(code, k)
    {
      bitString := "0" + bitString;
    }
    forall i | 0 <= i < 6
      ensures bitString[i] == BitString(code)[i]
    {
      assert bitString[i] == bitString[|bitString| - 1 - (5 - i)];
    }
  }

  /**
   * The source's scan from the last character down to the first, keeping
   * the index of every '1' it meets: it ends on the leftmost '1', or -1.
   */
  method LeftmostOne(bitString: string) returns (firstBitIndex: int)
    ensures firstBitIndex == -1 <==> forall i :: 0 <= i < |bitString| ==> bitString[i] != '1'
    ensures firstBitIndex != -1 ==>
              && 0 <= firstBitIndex < |bitString|
              && bitString[firstBitIndex] == '1'
              && forall i :: 0 <= i < firstBitIndex ==> bitString[i] != '1'
  {
    firstBitIndex := -1;
    for i := |bitString| downto 0
      invariant firstBitIndex == -1 <==> forall j :: i <= j < |bitString| ==> bitString[j] != '1'
      invariant firstBitIndex != -1 ==>
                  && i <= firstBitIndex < |bitString|
                  && bitString[firstBitIndex] == '1'
                  && forall j :: i <= j < firstBitIndex ==> bitString[j] != '1'
    {
      if bitString[i] == '1' {
        firstBitIndex := i;
      }
    }
  }

}
