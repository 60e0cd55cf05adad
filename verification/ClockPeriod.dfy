/** The clock period as the real-time clock's registers hold it: whole ns and 32 fraction bits. */
module ClockPeriod {
  import opened Words
  import opened ScaledTime

  const TWO32R: real := 4294967296.0

  /** Periods the cast to a 32-bit unsigned number is defined for. */
  type Period = p: real | 0.0 <= p < TWO32R

  /** What the two registers stand for, in units of 2^-32 ns. */
  function Units(h: u32, l: u32): int { h * TWO32 + l }

  /** The nearest number of units; halves are rounded down. */
  predicate Nearest(p: Period, units: int) {
    p * TWO32R - 0.5 <= units as real < p * TWO32R + 0.5
  }

  /** Rounding carries out of the top register. */
  predicate Overflows(p: Period) {
    p * TWO32R > TWO32R * TWO32R - 0.5
  }

  /** Ceiling of the number of units less one half. */
  function Rounded(p: Period): (units: int)
    ensures Nearest(p, units) && 0 <= units <= TWO64
  {
    -(0.5 - p * TWO32R).Floor
  }

  /** What the registers are to hold: 64 bits of the rounded period. */
  function Registers(p: Period): (r: (u32, u32))
    ensures Units(r.0, r.1) == Rounded(p) % TWO64
  {
    var units := Rounded(p) % TWO64;
    (units / TWO32, units % TWO32)
  }

  /** The registers hold the nearest value exactly when rounding does not carry out of them. */
  lemma RegistersNearest(p: Period)
    ensures Nearest(p, Units(Registers(p).0, Registers(p).1)) <==> !Overflows(p)
  {
    NearestUnique(p, Rounded(p), Units(Registers(p).0, Registers(p).1));
  }

  lemma NearestUnique(p: Period, m: int, n: int)
    requires Nearest(p, m)
    ensures Nearest(p, n) <==> m == n
  {
  }

  /**
    After the bits above 2^n are done: `l` holds them, a multiple of 2^n, and `t` is what is left, as
    a fraction of 2^n. `x` is the whole fraction in units.
   */
  ghost predicate Partial(x: real, l: int, t: real, scale: int, q: int) {
    && 0.0 <= t <= 1.0 && 0 <= l && l + scale <= TWO32 && l == q * scale
    && x == l as real + t * scale as real
  }

  lemma BitSet(x: real, l: int, t: real, half: int, q: int)
    requires Partial(x, l, t, 2 * half, q) && t * 2.0 > 1.0 && half >= 0
    ensures Partial(x, l + half, t * 2.0 - 1.0, half, 2 * q + 1)
  {
    assert t * (2 * half) as real == (t * 2.0 - 1.0) * half as real + half as real;
    assert q * (2 * half) + half == (2 * q + 1) * half;
  }

  lemma BitClear(x: real, l: int, t: real, half: int, q: int)
    requires Partial(x, l, t, 2 * half, q) && t * 2.0 <= 1.0 && half >= 0
    ensures Partial(x, l, t * 2.0, half, 2 * q)
  {
    assert t * (2 * half) as real == t * 2.0 * half as real;
    assert q * (2 * half) == 2 * q * half;
  }

  /** The loop: 32 fraction bits from the top, and the rest as a fraction of the last one. */
  method FractionBits(fraction: real) returns (l: u32, t: real)
    requires 0.0 <= fraction < 1.0
    ensures 0.0 <= t <= 1.0 && fraction * TWO32R == l as real + t
  {
    l, t := 0, fraction;
    ghost var q, x := 0, fraction * TWO32R;
    Pow2Is32();
    var bit := TWO32;  // twice the bit to be decided next
    var i := 0;
    while i < 32
      invariant 0 <= i <= 32 && bit == Pow2(32 - i)
      invariant Partial(x, l, t, bit, q)
    {
      ghost var l0, t0 := l, t;
      bit := bit / 2;
      if t * 2.0 > 1.0 {
        BitSet(x, l0, t0, bit, q);
        l, t, q := l + bit, t * 2.0 - 1.0, 2 * q + 1;
      } else {
        BitClear(x, l0, t0, bit, q);
        t, q := t * 2.0, 2 * q;
      }
      i := i + 1;
    }
  }

  lemma Pow2Is32()
    ensures Pow2(32) == TWO32
  {
    assert Pow2(8) == 0x100;
    assert Pow2(16) == TWO16;
    assert Pow2(24) == 0x100_0000;
  }

  /**
    The bit loop, the rounding and the carry of updateSlavePeriod; a fraction of 1/2 comes out right
    although the loop sees it as the bits 0111...
   */
  method ToRegisters(p: Period) returns (h: u32, l: u32)
    ensures (h, l) == Registers(p)
  {
    h := p.Floor;
    var t;
    l, t := FractionBits(p - p.Floor as real);
    ghost var units := h * TWO32 + l + (if t * 2.0 > 1.0 then 1 else 0);
    assert p * TWO32R == (h * TWO32 + l) as real + t;
    NearestUnique(p, Rounded(p), units);
    if t * 2.0 > 1.0 {
      if l == 0xFFFF_FFFF {
        l := 0;
        h := (h + 1) % TWO32;
      } else {
        l := l + 1;
      }
    }
    HalvesOf(units, h, l);
  }

  lemma HalvesOf(units: int, h: u32, l: u32)
    requires 0 <= units <= TWO64 && h * TWO32 + l == if units == TWO64 then 0 else units
    ensures units % TWO64 == h * TWO32 + l
    ensures units % TWO64 / TWO32 == h && units % TWO64 % TWO32 == l
  {
    Split32(h, l);
  }
}
