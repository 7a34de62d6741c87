/** Which hour granularities have steps that divide an hour, once the 64-bit product has
    wrapped. An hour is 2^13 * 3^2 * 5^11 nanoseconds, so a wrapped product that divides it is
    2^13 times a divisor of 3^2 * 5^11, and the value is known modulo 2^51. */
module WrappedHours {
  import opened Grid
  import opened Granularity

  /** The odd part of an hour, 2^64 / 2^13, and the inverse of the one modulo the other. */
  const ODD: int := 439_453_125
  const MODULUS: int := 0x8_0000_0000_0000
  const INVERSE: int := 1_450_916_808_208_653

  function Pow(b: nat, n: nat): nat {
    if n == 0 then 1 else b * Pow(b, n - 1)
  }

  // ---------------------------------------------------------------- divisors

  lemma ThreeDivides(m: nat, r: nat, d: nat)
    requires r < 3 && (3 * m + r * d) % 3 == 0
    ensures r == 0 || d % 3 == 0
  {
    match r
    case 0 =>
    case 1 => assert 1 * d == d;
    case 2 => assert 2 * d == d + d;
  }

  lemma FiveDivides(m: nat, r: nat, d: nat)
    requires r < 5 && (5 * m + r * d) % 5 == 0
    ensures r == 0 || d % 5 == 0
  {
    match r
    case 0 =>
    case 1 => assert 1 * d == d;
    case 2 => assert 2 * d == d + d;
    case 3 => assert 3 * d == d + d + d;
    case 4 => assert 4 * d == d + d + d + d;
  }

  lemma PrimeDivides(p: nat, u: nat, d: nat)
    requires (p == 3 || p == 5) && (u * d) % p == 0
    ensures u % p == 0 || d % p == 0
  {
    var x, r := u / p, u % p;
    Distribute(p, x, r, d);
    if p == 3 { ThreeDivides(x * d, r, d); } else { FiveDivides(x * d, r, d); }
  }

  lemma Distribute(p: nat, x: nat, r: nat, d: nat)
    ensures (p * x + r) * d == p * (x * d) + r * d
  {
  }

  /** A factor of p * n leaves one of n when p is taken out of one of the two factors. */
  lemma TakeOut(p: nat, u: nat, d: nat, n: nat) returns (u': nat, d': nat)
    requires (p == 3 || p == 5) && u * d == p * n
    ensures u' * d' == n && ((u == p * u' && d == d') || (u == u' && d == p * d'))
  {
    FloorDiv(u * d, p, n, 0);
    PrimeDivides(p, u, d);
    if u % p == 0 {
      u', d' := u / p, d;
      assert p * (u' * d') == p * n;
    } else {
      u', d' := u, d / p;
      assert p * (u' * d') == p * n;
    }
  }

  lemma {:induction false} DivisorOfPower(u: nat, d: nat, a: nat) returns (i: nat)
    requires u * d == Pow(3, a)
    ensures i <= a && u == Pow(3, i)
  {
    if a == 0 {
      assert u == 1;
      i := 0;
    } else {
      var u', d' := TakeOut(3, u, d, Pow(3, a - 1));
      i := DivisorOfPower(u', d', a - 1);
      if u != u' { i := i + 1; }
    }
  }

  lemma {:induction false} DivisorShape(u: nat, d: nat, a: nat, b: nat) returns (i: nat, j: nat)
    requires u * d == Pow(3, a) * Pow(5, b)
    ensures i <= a && j <= b && u == Pow(3, i) * Pow(5, j)
    decreases b
  {
    if b == 0 {
      i := DivisorOfPower(u, d, a);
      j := 0;
    } else {
      assert Pow(3, a) * Pow(5, b) == 5 * (Pow(3, a) * Pow(5, b - 1));
      var u', d' := TakeOut(5, u, d, Pow(3, a) * Pow(5, b - 1));
      i, j := DivisorShape(u', d', a, b - 1);
      if u != u' {
        assert 5 * (Pow(3, i) * Pow(5, j)) == Pow(3, i) * Pow(5, j + 1);
        j := j + 1;
      }
    }
  }

  // ---------------------------------------------------------------- values

  /** The residue of a 32-bit value is small, or close below the modulus. */
  predicate IsInt32Residue(r: int) {
    0 <= r < 0x8000_0000 || MODULUS - 0x8000_0000 <= r < MODULUS
  }

  lemma ResiduesWithoutThree(j: nat)
    requires j <= 11
    ensures !IsInt32Residue((Pow(5, j) * INVERSE) % MODULUS)
  {
    hide Pow;
    FivePowers();
    match j
    case 0 => assert INVERSE % MODULUS == 1450916808208653;
    case 1 => assert (5 * INVERSE) % MODULUS == 499184599987521;
    case 2 => assert (25 * INVERSE) % MODULUS == 244123186252357;
    case 3 => assert (125 * INVERSE) % MODULUS == 1220615931261785;
    case 4 => assert (625 * INVERSE) % MODULUS == 1599480028938429;
    case 5 => assert (3125 * INVERSE) % MODULUS == 1242000703636401;
    case 6 => assert (15625 * INVERSE) % MODULUS == 1706403890811509;
    case 7 => assert (78125 * INVERSE) % MODULUS == 1776620013001801;
    case 8 => assert (390625 * INVERSE) % MODULUS == 2127700623953261;
    case 9 => assert (1953125 * INVERSE) % MODULUS == 1631303865025313;
    case 10 => assert (9765625 * INVERSE) % MODULUS == 1401119884070821;
    case 11 => assert (48828125 * INVERSE) % MODULUS == 250199979298361;
  }

  lemma ResiduesWithThree(j: nat)
    requires j <= 11
    ensures !IsInt32Residue((3 * Pow(5, j) * INVERSE) % MODULUS)
  {
    hide Pow;
    FivePowers();
    match j
    case 0 => assert (3 * INVERSE) % MODULUS == 2100950610940711;
    case 1 => assert (15 * INVERSE) % MODULUS == 1497553799962563;
    case 2 => assert (75 * INVERSE) % MODULUS == 732369558757071;
    case 3 => assert (375 * INVERSE) % MODULUS == 1410047980100107;
    case 4 => assert (1875 * INVERSE) % MODULUS == 294840459444791;
    case 5 => assert (9375 * INVERSE) % MODULUS == 1474202297223955;
    case 6 => assert (46875 * INVERSE) % MODULUS == 615612045064031;
    case 7 => assert (234375 * INVERSE) % MODULUS == 826260411634907;
    case 8 => assert (1171875 * INVERSE) % MODULUS == 1879502244489287;
    case 9 => assert (5859375 * INVERSE) % MODULUS == 390311967705443;
    case 10 => assert (29296875 * INVERSE) % MODULUS == 1951559838527215;
    case 11 => assert (146484375 * INVERSE) % MODULUS == 750599937895083;
  }

  lemma ResiduesWithNine(j: nat)
    requires j <= 11
    ensures j < 11 ==> !IsInt32Residue((9 * Pow(5, j) * INVERSE) % MODULUS)
    ensures j == 11 ==> 9 * Pow(5, j) == ODD
  {
    hide Pow;
    FivePowers();
    match j
    case 0 => assert (9 * INVERSE) % MODULUS == 1799252205451637;
    case 1 => assert (45 * INVERSE) % MODULUS == 2240861586202441;
    case 2 => assert (225 * INVERSE) % MODULUS == 2197108676271213;
    case 3 => assert (1125 * INVERSE) % MODULUS == 1978344126615073;
    case 4 => assert (5625 * INVERSE) % MODULUS == 884521378334373;
    case 5 => assert (28125 * INVERSE) % MODULUS == 2170807077986617;
    case 6 => assert (140625 * INVERSE) % MODULUS == 1846836135192093;
    case 7 => assert (703125 * INVERSE) % MODULUS == 226981421219473;
    case 8 => assert (3515625 * INVERSE) % MODULUS == 1134907106097365;
    case 9 => assert (17578125 * INVERSE) % MODULUS == 1170935903116329;
    case 10 => assert (87890625 * INVERSE) % MODULUS == 1351079888211149;
    case 11 => assert (439453125 * INVERSE) % MODULUS == 1;
  }

  lemma FivePowers()
    ensures Pow(5, 0) == 1
    ensures Pow(5, 1) == 5
    ensures Pow(5, 2) == 25
    ensures Pow(5, 3) == 125
    ensures Pow(5, 4) == 625
    ensures Pow(5, 5) == 3125
    ensures Pow(5, 6) == 15625
    ensures Pow(5, 7) == 78125
    ensures Pow(5, 8) == 390625
    ensures Pow(5, 9) == 1953125
    ensures Pow(5, 10) == 9765625
    ensures Pow(5, 11) == 48828125
  {
    assert Pow(5, 3) == 125;
    assert Pow(5, 6) == 15625;
    assert Pow(5, 9) == 1953125;
  }

  /** The value is known from the odd part of the wrapped product, modulo 2^51. */
  lemma ValueResidue(v: int32, u: int, q: int)
    requires v * ODD == u + q * MODULUS
    ensures (u * INVERSE) % MODULUS == v % MODULUS && IsInt32Residue(v % MODULUS)
  {
    var k := 283_155_688;
    assert ODD * INVERSE == 1 + k * MODULUS;
    var t := v * k - q * INVERSE;
    assert u * INVERSE == v * (ODD * INVERSE) - q * MODULUS * INVERSE;
    assert u * INVERSE == v + MODULUS * t;
    FloorDiv(u * INVERSE, MODULUS, v / MODULUS + t, v % MODULUS);
    if v >= 0 { FloorDiv(v, MODULUS, 0, v); } else { FloorDiv(v, MODULUS, -1, v + MODULUS); }
  }

  lemma OddDivisor(v: int32, u: nat, e: nat, q: int)
    requires v * ODD == u + q * MODULUS && u * e == ODD
    ensures u == ODD
  {
    FivePowers();
    assert Pow(3, 2) == 9;
    var i, j := DivisorShape(u, e, 2, 11);
    ValueResidue(v, u, q);
    assert Pow(3, 0) == 1 && Pow(3, 1) == 3;
    ResiduesWithoutThree(j);
    ResiduesWithThree(j);
    ResiduesWithNine(j);
  }

  lemma DividesMeansOne(v: int32, w: int, e: nat)
    requires w == Wrap64(v * HOUR) && w > 0 && w * e == HOUR
    ensures v == 1
  {
    var q := (v * HOUR + 0x8000_0000_0000_0000) / 0x1_0000_0000_0000_0000;
    var u := v * ODD - q * MODULUS;
    assert w == 8192 * u;
    assert 8192 * (u * e) == 8192 * ODD;
    OddDivisor(v, u, e, q);
    ValueResidue(v, u, q);
    assert (ODD * INVERSE) % MODULUS == 1;
  }

  /** The step of an hour granularity divides an hour exactly for the value 1. */
  lemma StepDividesHourIffOne(v: int32)
    requires Wrap64(v * HOUR) > 0
    ensures HOUR % Wrap64(v * HOUR) == 0 <==> v == 1
  {
    var w := Wrap64(v * HOUR);
    if HOUR % w == 0 { DividesMeansOne(v, w, HOUR / w); }
  }
}
