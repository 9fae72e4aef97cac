/** Memory limit and request of the PHP-FPM container (pkg/controller/drupalenvironment/drupal.go).

    The limit is computed in 32-bit integers that wrap around; the request multiplies the limit, as
    a 64-bit float, by the constant 1.0/3.0 and truncates.  Floats are modelled as integers times a
    power of two, with round-half-to-even to 53 significant bits (section 4.3.1 of IEEE 754-2008). */
module PhpMemory {

  const TWO_32 := 0x1_0000_0000
  const TWO_31 := 0x8000_0000
  const TWO_52 := 0x10_0000_0000_0000
  const TWO_53 := 0x20_0000_0000_0000
  const TWO_54 := 0x40_0000_0000_0000
  const MIB := 1024 * 1024

  /** The significand of the double nearest to one third, which stands for THIRD / 2^54. */
  const THIRD := 6004799503160661

  newtype int32 = x: int | -0x8000_0000 <= x < 0x8000_0000

  datatype SpecPhpFpm = SpecPhpFpm(
    procs: int32, procMemoryLimitMiB: int32, opcacheMemoryLimitMiB: int32, apcMemoryLimitMiB: int32)
  {

    /** The total that the field names call for, without wrap-around. */
    function TotalMiB(): int {
      procs as int * procMemoryLimitMiB as int + opcacheMemoryLimitMiB as int + apcMemoryLimitMiB as int
    }
  }

  function Wrap32(x: int): (r: int32)
    ensures (r as int - x) % TWO_32 == 0
  {
    var m := (x + TWO_31) % TWO_32 - TWO_31;
    assert (m - x) % TWO_32 == 0 by {
      assert m - x == -TWO_32 * ((x + TWO_31) / TWO_32);
    }
    m as int32
  }

  function Add32(x: int32, y: int32): int32 { Wrap32(x as int + y as int) }

  function Mul32(x: int32, y: int32): int32 { Wrap32(x as int * y as int) }

  /** The limit in bytes: the sum wraps in 32 bits, the scaling by 2^20 happens in 64 bits. */
  function MemoryLimit(p: SpecPhpFpm): (bytes: int)
    ensures -0x8_0000_0000_0000 <= bytes < 0x8_0000_0000_0000
  {
    Add32(Add32(Mul32(p.procs, p.procMemoryLimitMiB), p.opcacheMemoryLimitMiB), p.apcMemoryLimitMiB) as int * MIB
  }

  /** The unit in the last place of a double of this magnitude, for magnitudes from 1 upwards. */
  function Ulp(p: nat): (u: nat)
    ensures u > 0 && p < TWO_53 * u && (u > 1 ==> TWO_52 * u <= p)
  {
    if p < TWO_53 then 1 else 2 * Ulp(p / 2)
  }

  /** The multiple of `u` nearest to `p`; of two equally near ones the even multiple. */
  function RoundHalfEven(p: nat, u: nat): nat
    requires u > 0
  {
    var q, r := p / u, p % u;
    if 2 * r < u || (2 * r == u && q % 2 == 0) then q * u else (q + 1) * u
  }

  /** The integer `p`, rounded to the nearest double. */
  function ToDouble(p: nat): nat { RoundHalfEven(p, Ulp(p)) }

  /** int64(float64(bytes) * (1.0/3.0)): the product is rounded and then truncated toward zero.
      The common scale 2^-54 of the product does not affect the rounding. */
  function MemoryRequest(bytes: int): int {
    if bytes >= 0 then ToDouble(ToDouble(bytes) * THIRD) / TWO_54
    else -(ToDouble(ToDouble(-bytes) * THIRD) / TWO_54)
  }

  /** Integer division that truncates toward zero. */
  function Truncated(x: int, d: int): int
    requires d > 0
  {
    if x >= 0 then x / d else -((-x) / d)
  }

  /** THIRD / 2^54 is the double nearest to one third: every other significand is further away. */
  lemma ThirdIsNearest(m: int)
    requires TWO_52 <= m < TWO_53 && m != THIRD
    ensures TWO_52 <= THIRD < TWO_53
    ensures Distance(3 * THIRD, TWO_54) < Distance(3 * m, TWO_54)
  {
  }

  function Distance(x: int, y: int): nat { if x < y then y - x else x - y }

  lemma LimitIsWrappedTotal(p: SpecPhpFpm)
    ensures MemoryLimit(p) == Wrap32(p.TotalMiB()) as int * MIB
  {
    var a := p.procs as int * p.procMemoryLimitMiB as int;
    var b := Mul32(p.procs, p.procMemoryLimitMiB);
    var c := Add32(b, p.opcacheMemoryLimitMiB);
    var d := Add32(c, p.apcMemoryLimitMiB);
    Congruent(b as int, a, p.opcacheMemoryLimitMiB as int, c as int);
    Congruent(c as int, a + p.opcacheMemoryLimitMiB as int, p.apcMemoryLimitMiB as int, d as int);
    SameResidue(d, Wrap32(p.TotalMiB()), p.TotalMiB());
  }

  lemma Congruent(x: int, y: int, z: int, w: int)
    requires (x - y) % TWO_32 == 0 && (w - (x + z)) % TWO_32 == 0
    ensures (w - (y + z)) % TWO_32 == 0
  {
    var i, j := (x - y) / TWO_32, (w - (x + z)) / TWO_32;
    assert w - (y + z) == TWO_32 * (i + j);
  }

  lemma SameResidue(x: int32, y: int32, t: int)
    requires (x as int - t) % TWO_32 == 0 && (y as int - t) % TWO_32 == 0
    ensures x == y
  {
    var i, j := (x as int - t) / TWO_32, (y as int - t) / TWO_32;
    assert x as int - y as int == TWO_32 * (i - j);
  }

  /** Wrapping after every operation is wrapping once: the limit is a whole number of mebibytes that
      fits into 32 bits and differs from the total by a multiple of 2^32. */
  lemma LimitWrapsOnce(p: SpecPhpFpm)
    ensures var total := p.procs as int * p.procMemoryLimitMiB as int
                         + p.opcacheMemoryLimitMiB as int + p.apcMemoryLimitMiB as int;
            var mib := MemoryLimit(p) / 0x10_0000;
            && MemoryLimit(p) == mib * 0x10_0000
            && -0x8000_0000 <= mib < 0x8000_0000 && (mib - total) % 0x1_0000_0000 == 0
  {
    LimitIsWrappedTotal(p);
    assert MemoryLimit(p) / 0x10_0000 == Wrap32(p.TotalMiB()) as int;
  }

  /** The limit is the intended total exactly when the total fits into 32 bits. */
  lemma LimitIsExactIff(p: SpecPhpFpm)
    ensures var total := p.procs as int * p.procMemoryLimitMiB as int
                         + p.opcacheMemoryLimitMiB as int + p.apcMemoryLimitMiB as int;
            MemoryLimit(p) == total * 0x10_0000 <==> -0x8000_0000 <= total < 0x8000_0000
  {
    LimitIsWrappedTotal(p);
    var t := p.TotalMiB();
    if -TWO_31 <= t < TWO_31 {
      SameResidue(Wrap32(t), t as int32, t);
    }
  }

  function Pow2(e: nat): nat {
    if e == 0 then 1 else 2 * Pow2(e - 1)
  }

  /** The unit of a double below 2^53 * 2^e divides 2^e. */
  lemma {:induction false} UlpDivides(p: nat, e: nat) returns (c: nat)
    requires p < TWO_53 * Pow2(e)
    ensures Pow2(e) == c * Ulp(p)
    decreases p
  {
    if p < TWO_53 {
      c := Pow2(e);
    } else {
      c := UlpDivides(p / 2, e - 1);
    }
  }

  lemma PowerOfTwo54()
    ensures Pow2(54) == TWO_54
  {
    assert Pow2(9) == 0x200;
    assert Pow2(18) == 0x4_0000;
    assert Pow2(27) == 0x800_0000;
    assert Pow2(36) == 0x10_0000_0000;
    assert Pow2(45) == 0x2000_0000_0000;
  }

  lemma MulMonotone(a: nat, b: nat, u: nat)
    requires a < b
    ensures a * u + u <= b * u
  {
    var d := b - a - 1;
    assert b * u == a * u + u + d * u by {
      assert b == a + 1 + d;
    }
  }

  lemma DivModUnique(p: nat, u: nat, q: nat, r: nat)
    requires u > 0 && p == q * u + r && r < u
    ensures p / u == q && p % u == r
  {
    var q' := p / u;
    assert p == q' * u + p % u;
    if q < q' {
      MulMonotone(q, q', u);
    } else if q' < q {
      MulMonotone(q', q, u);
    }
  }

  /** An exact double rounds to itself, and rounding never crosses a multiple of the unit. */
  lemma RoundingBrackets(p: nat, u: nat, m: nat)
    requires u > 0
    ensures m * u <= p ==> m * u <= RoundHalfEven(p, u)
    ensures p <= m * u ==> RoundHalfEven(p, u) <= m * u
    ensures 2 * RoundHalfEven(p, u) <= 2 * p + u
  {
    var q, r := p / u, p % u;
    assert p == q * u + r;
    assert (q + 1) * u == q * u + u;
    if m < q {
      MulMonotone(m, q, u);
    } else if q < m {
      MulMonotone(q, m, u);
    }
  }

  /** Just below a multiple, by at most half a unit, the multiple is the nearest; on a tie it wins
      when it is even. */
  lemma RoundsUpTo(m: nat, u: nat, below: nat)
    requires u > 0 && below < u && below <= m * u && 2 * below <= u && (2 * below == u ==> m % 2 == 0)
    ensures RoundHalfEven(m * u - below, u) == m * u
  {
    var p := m * u - below;
    if below == 0 {
      DivModUnique(p, u, m, 0);
    } else {
      assert m >= 1;
      assert p == (m - 1) * u + (u - below);
      DivModUnique(p, u, m - 1, u - below);
    }
  }

  lemma SmallIntegersAreDoubles(p: nat)
    requires p < TWO_53
    ensures ToDouble(p) == p
  {
  }

  /** TWO_54 * k is a multiple of every unit `u` that divides TWO_54. */
  lemma ScaledMultiple(k: nat, c: nat, u: nat)
    requires TWO_54 == c * u
    ensures k * TWO_54 == (k * c) * u
    ensures 2 * k == u ==> (k * c) % 2 == 0
  {
    if 2 * k == u {
      assert 2 * (k * c) == c * u;
    }
  }

  lemma UnitOf(p: nat) returns (u: nat, c: nat)
    requires p < TWO_53 * TWO_54
    ensures u == Ulp(p) && u > 0 && TWO_54 == c * u
  {
    PowerOfTwo54();
    u := Ulp(p);
    c := UlpDivides(p, 54);
  }

  lemma UnitOfThird(k: nat) returns (u: nat, c: nat)
    requires 3 * k <= 0x8_0000_0000_0000
    ensures u == Ulp(k * (TWO_54 - 1)) && u > 0 && TWO_54 == c * u && 2 * k <= u
  {
    u, c := UnitOf(k * (TWO_54 - 1));
  }

  lemma RoundsThird(k: nat, c: nat, u: nat)
    requires TWO_54 == c * u && 2 * k <= u
    ensures u > 0 && RoundHalfEven(k * (TWO_54 - 1), u) == k * TWO_54
  {
    ScaledMultiple(k, c, u);
    RoundsUpTo(k * c, u, k);
  }

  /** The product of a limit divisible by three falls short of an exact third by at most half a
      unit, so it rounds up to the exact third. */
  lemma ExactThird(k: nat)
    requires 3 * k <= 0x8_0000_0000_0000
    ensures ToDouble(3 * k * THIRD) == k * TWO_54
  {
    assert 3 * k * THIRD == k * (TWO_54 - 1);
    var u, c := UnitOfThird(k);
    RoundsThird(k, c, u);
  }

  /** With a remainder the product stays strictly between two whole bytes. */
  lemma InexactThird(k: nat, r: nat)
    requires r == 1 || r == 2
    requires 3 * k + r <= 0x8_0000_0000_0000
    ensures ToDouble((3 * k + r) * THIRD) / TWO_54 == k
  {
    var p := (3 * k + r) * THIRD;
    assert k * TWO_54 <= p && 3 * p <= 3 * k * TWO_54 + 2 * TWO_54;
    var u, c := UnitOf(p);
    assert 2 * u <= THIRD;
    ScaledMultiple(k, c, u);
    RoundingBrackets(p, u, k * c);
  }

  lemma RequestIsThird(p: SpecPhpFpm)
    ensures MemoryRequest(MemoryLimit(p)) == Truncated(MemoryLimit(p), 3)
  {
    var n := if MemoryLimit(p) >= 0 then MemoryLimit(p) else -MemoryLimit(p);
    SmallIntegersAreDoubles(n);
    var k, r := n / 3, n % 3;
    assert n == 3 * k + r;
    if r == 0 {
      ExactThird(k);
    } else {
      InexactThird(k, r);
    }
  }

  /** For every specification the float computation gives exactly a third of the limit, truncated
      toward zero; so it is a third of the total whenever that fits into 32 bits. */
  lemma RequestIsThirdOfLimit(p: SpecPhpFpm)
    ensures var limit, request := MemoryLimit(p), MemoryRequest(MemoryLimit(p));
            request == if limit >= 0 then limit / 3 else -(-limit / 3)
    ensures var total := p.procs as int * p.procMemoryLimitMiB as int
                         + p.opcacheMemoryLimitMiB as int + p.apcMemoryLimitMiB as int;
            -0x8000_0000 <= total < 0x8000_0000 ==>
              MemoryRequest(MemoryLimit(p)) == if total >= 0 then total * 0x10_0000 / 3 else -(-total * 0x10_0000 / 3)
  {
    RequestIsThird(p);
    LimitIsExactIff(p);
  }
}
