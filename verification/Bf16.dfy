/** The bfloat16 scalar codec (probes/rccl_two_rank_all_reduce.py) on bit patterns. */
module Bf16 {

  /** A binary32 bit pattern. */
  type Bits32 = b: int | 0 <= b < 0x1_0000_0000

  /** A bfloat16 bit pattern. */
  type Bits16 = b: int | 0 <= b < 0x1_0000

  const SIGN32 := 0x8000_0000
  const SIGN16 := 0x8000
  const INFINITY32 := 0x7F80_0000
  const INFINITY16 := 0x7F80
  /** Units of the last place of bfloat16 in units of the last place of binary32. */
  const ULP := 0x1_0000

  /** Exponent and fraction: the magnitude of a finite pattern grows with this number. */
  function Magnitude32(b: Bits32): nat { b % SIGN32 }
  function Magnitude16(b: Bits16): nat { b % SIGN16 }
  predicate Negative32(b: Bits32) { b >= SIGN32 }
  predicate Negative16(b: Bits16) { b >= SIGN16 }
  predicate NaN32(b: Bits32) { Magnitude32(b) > INFINITY32 }
  predicate NaN16(b: Bits16) { Magnitude16(b) > INFINITY16 }

  function Encode(b: Bits32): Bits16 {
    (b + 0x7FFF + b / ULP % 2) / ULP % 0x1_0000
  }

  function Decode(h: Bits16): Bits32 {
    h * ULP
  }

  function Distance(x: int, y: int): nat {
    if x <= y then y - x else x - y
  }

  /** `h` is the result of roundTiesToEven (section 4.3.1 of IEEE 754-2019) for the magnitude of `b`: no
      representable magnitude is nearer, and of two equally near the even one is taken. */
  ghost predicate RoundsTiesToEven(b: Bits32, h: Bits16) {
    && Negative16(h) == Negative32(b)
    && forall other: Bits16 :: Magnitude16(other) <= INFINITY16 && Magnitude16(other) != Magnitude16(h) ==> Preferred(b, h, other)
  }

  /** `h` is nearer to `b` than `other`, or equally near and even. */
  predicate Preferred(b: Bits32, h: Bits16, other: Bits16) {
    var here, there := Distance(Magnitude32(Decode(h)), Magnitude32(b)), Distance(Magnitude32(Decode(other)), Magnitude32(b));
    here < there || (here == there && h % 2 == 0)
  }

  /** The rounding step on a magnitude. */
  function RoundedMagnitude(m: nat): nat {
    (m + 0x7FFF + m / ULP % 2) / ULP
  }

  lemma EncodePositive(m: nat)
    requires m <= INFINITY32
    ensures RoundedMagnitude(m) <= INFINITY16 && Encode(m) == RoundedMagnitude(m)
  {
    Nearest(m, RoundedMagnitude(m));
  }

  /** The sign rides along: it shifts the kept half by its own high half. */
  lemma EncodeNegative(m: nat)
    requires m <= INFINITY32
    ensures RoundedMagnitude(m) <= INFINITY16 && Encode(m + SIGN32) == RoundedMagnitude(m) + SIGN16
  {
    Nearest(m, RoundedMagnitude(m));
    assert (m + SIGN32) / ULP == m / ULP + SIGN16;
  }

  /** What encoding does to the magnitude, and that no carry reaches the sign. */
  lemma EncodedMagnitude(b: Bits32)
    requires !NaN32(b)
    ensures Negative16(Encode(b)) == Negative32(b)
    ensures Magnitude16(Encode(b)) == RoundedMagnitude(Magnitude32(b)) <= INFINITY16
  {
    if Negative32(b) {
      EncodeNegative(b - SIGN32);
    } else {
      EncodePositive(b);
    }
  }

  lemma DecodedMagnitude(h: Bits16)
    ensures Magnitude32(Decode(h)) == Magnitude16(h) * ULP && Negative32(Decode(h)) == Negative16(h)
  {
  }

  /** The rounding on magnitudes: within half a unit, and even on the halfway point. */
  lemma Nearest(m: nat, q: nat)
    requires q == RoundedMagnitude(m)
    ensures Distance(q * ULP, m) <= 0x8000
    ensures Distance(q * ULP, m) == 0x8000 ==> q % 2 == 0
    ensures q * ULP <= m + 0x8000
  {
    var k, low := m / ULP, m % ULP;
    assert m == k * ULP + low;
    if low < 0x8000 || (low == 0x8000 && k % 2 == 0) {
      assert q == k;
    } else {
      assert q == k + 1;
    }
  }

  /** For every finite binary32 pattern and both infinities, encoding is roundTiesToEven. */
  lemma EncodeRoundsTiesToEven(b: Bits32)
    requires b % 0x8000_0000 <= 0x7F80_0000
    ensures RoundsTiesToEven(b, Encode(b))
    ensures Distance(Decode(Encode(b)), b) <= 0x8000
    ensures Distance(Decode(Encode(b)), b) == 0x8000 ==> Encode(b) % 2 == 0
  {
    var h := Encode(b);
    EncodedMagnitude(b);
    RoundedIsNear(b, h);
    DecodedMagnitude(h);
    SameSignDistance(b, Decode(h));
    forall other: Bits16 | Magnitude16(other) <= INFINITY16 && Magnitude16(other) != Magnitude16(h)
      ensures Preferred(b, h, other)
    {
      NearIsPreferred(b, h, other);
    }
  }

  lemma RoundedIsNear(b: Bits32, h: Bits16)
    requires Magnitude16(h) == RoundedMagnitude(Magnitude32(b))
    ensures Distance(Magnitude32(Decode(h)), Magnitude32(b)) <= 0x8000
    ensures Distance(Magnitude32(Decode(h)), Magnitude32(b)) == 0x8000 ==> h % 2 == 0
  {
    DecodedMagnitude(h);
    Nearest(Magnitude32(b), Magnitude16(h));
  }

  lemma NearIsPreferred(b: Bits32, h: Bits16, other: Bits16)
    requires Magnitude16(other) != Magnitude16(h)
    requires Distance(Magnitude32(Decode(h)), Magnitude32(b)) <= 0x8000
    requires Distance(Magnitude32(Decode(h)), Magnitude32(b)) == 0x8000 ==> h % 2 == 0
    ensures Preferred(b, h, other)
  {
    DecodedMagnitude(h);
    DecodedMagnitude(other);
    Farther(Magnitude32(b), Magnitude16(h), Magnitude16(other));
  }

  lemma SameSignDistance(a: Bits32, b: Bits32)
    requires Negative32(a) == Negative32(b)
    ensures Distance(b, a) == Distance(Magnitude32(b), Magnitude32(a))
  {
  }

  /** Another multiple of a unit is at least as far as one within half a unit. */
  lemma Farther(m: nat, q: nat, other: nat)
    requires Distance(q * ULP, m) <= 0x8000 && other != q
    ensures Distance(other * ULP, m) >= 0x8000
  {
  }

  /** roundTiesToEven determines the result, so the contract leaves nothing open. */
  lemma RoundingIsUnique(b: Bits32, h: Bits16, other: Bits16)
    requires RoundsTiesToEven(b, h) && RoundsTiesToEven(b, other) && Magnitude16(h) <= INFINITY16 && Magnitude16(other) <= INFINITY16
    ensures h == other
  {
    if Magnitude16(h) < Magnitude16(other) {
      TiesDiffer(b, h, other);
    } else if Magnitude16(other) < Magnitude16(h) {
      TiesDiffer(b, other, h);
    }
  }

  /** Of two distinct magnitudes that are equally near, one pattern between them is nearer or one is odd. */
  lemma TiesDiffer(b: Bits32, h: Bits16, other: Bits16)
    requires Magnitude16(h) < Magnitude16(other) <= INFINITY16
    ensures !RoundsTiesToEven(b, h) || !RoundsTiesToEven(b, other)
  {
    var middle: Bits16 := Magnitude16(h) + 1;
    DecodedMagnitude(h);
    DecodedMagnitude(middle);
    DecodedMagnitude(other);
    assert Magnitude16(middle) == Magnitude16(h) + 1;
  }

  /** A larger magnitude never encodes to a smaller one. */
  lemma EncodeIsMonotone(a: Bits32, b: Bits32)
    requires !NaN32(a) && !NaN32(b) && Magnitude32(a) <= Magnitude32(b)
    ensures Magnitude16(Encode(a)) <= Magnitude16(Encode(b))
  {
    EncodedMagnitude(a);
    EncodedMagnitude(b);
    var p, q := Magnitude16(Encode(a)), Magnitude16(Encode(b));
    Nearest(Magnitude32(a), p);
    Nearest(Magnitude32(b), q);
  }

  /** Encoding undoes decoding on every pattern. */
  lemma EncodeAfterDecode(h: Bits16)
    ensures Encode(Decode(h)) == h
  {
    assert Decode(h) / ULP == h;
  }

  /** A pattern survives the round trip exactly when it has no bits below the kept half. */
  lemma DecodeAfterEncode(b: Bits32)
    ensures Decode(Encode(b)) == b <==> b % ULP == 0
  {
    if b % ULP == 0 {
      assert b == Decode(b / ULP);
      EncodeAfterDecode(b / ULP);
    }
  }

  /** Overflow: exactly the finite magnitudes from the halfway point above the largest finite bfloat16 become infinite. */
  lemma OverflowsExactlyFromHalfway(b: Bits32)
    requires !NaN32(b)
    ensures Encode(b) % 0x8000 == 0x7F80 <==> Magnitude32(b) >= 0x7F7F_8000
  {
    EncodedMagnitude(b);
  }

  /** Exactly which NaNs stay NaN. The others are rounded away: those close above infinity become an infinity
      of the same sign, and those close below the sign bit carry into it and become a zero of the other sign. */
  lemma NaNSurvivesExactly(b: Bits32)
    requires b % 0x8000_0000 > 0x7F80_0000
    ensures NaN16(Encode(b)) <==> Encode(b) % 0x8000 > 0x7F80
    ensures NaN16(Encode(b)) <==> 0x7F80_8000 < Magnitude32(b) < 0x7FFF_8000
    ensures Encode(b) % 0x8000 == 0x7F80 <==> Magnitude32(b) <= 0x7F80_8000
    ensures Magnitude16(Encode(b)) == 0 <==> Magnitude32(b) >= 0x7FFF_8000
    ensures Negative16(Encode(b)) == Negative32(b) <==> Magnitude32(b) < 0x7FFF_8000
  {
  }

  /** Concrete NaNs of both lost kinds. */
  lemma NaNCanBecomeZero()
    ensures NaN32(0xFFFF_FFFF) && Encode(0xFFFF_FFFF) == 0
    ensures NaN32(0x7F80_0001) && Encode(0x7F80_0001) == INFINITY16
  {
  }
}
