/**
  The 96-bit fixed-point time of the time-synchronization stack: 16 bits of 2^64 nanoseconds,
  64 bits of nanoseconds, 16 bits of 2^-16 nanoseconds. The operations follow the C code digit
  by digit; `Value` is the integer number of 2^-16 ns units they are compared with.
 */
module ScaledTime {
  import opened Words

  const NS_PER_SEC: int := 1_000_000_000

  datatype UScaledNs = UScaledNs(nsecMsb: u16, nsec: u64, subns: u16)

  /** The timestamp that travels in a PTP message: 48-bit seconds and nanoseconds. */
  datatype PtpTimestamp = PtpTimestamp(secondsMsb: u16, secondsLsb: u32, nanoseconds: u32)

  const ZERO := UScaledNs(0, 0, 0)
  const ONE_SECOND := UScaledNs(0, NS_PER_SEC, 0)

  /** Time after which the clocks start over: their seconds are read in 32 bits. */
  const CLOCK_PERIOD_NS: int := TWO32 * NS_PER_SEC

  /** What reading a clock or a timestamping unit yields. */
  type Reading = t: UScaledNs | t.nsecMsb == 0 && t.nsec < CLOCK_PERIOD_NS witness UScaledNs(0, 0, 0)

  function Value(t: UScaledNs): (v: int)
    ensures 0 <= v < TWO96
  {
    t.nsecMsb * TWO80 + t.nsec * TWO16 + t.subns
  }

  /** The reading of a 96-bit counter that has counted `v` units. */
  function OfValue(v: int): (t: UScaledNs)
    ensures Value(t) == v % TWO96
  {
    var w := v % TWO96;
    UScaledNs(w / TWO80, w % TWO80 / TWO16, w % TWO16)
  }

  lemma ValueInjective(a: UScaledNs, b: UScaledNs)
    ensures Value(a) == Value(b) <==> a == b
  {
    if Value(a) == Value(b) {
      assert (a.nsecMsb - b.nsecMsb) * TWO80 == (b.nsec - a.nsec) * TWO16 + (b.subns - a.subns);
      assert a.nsecMsb == b.nsecMsb;
      assert a.nsec == b.nsec;
    }
  }

  /** One digit of uscaledns_subtract: a zero digit with a borrow is a special case of the code. */
  function SubtractDigit(a: int, b: int, borrow: int, base: int): (r: (int, int))
    requires 0 <= a < base && 0 <= b < base && 0 <= borrow <= 1
    ensures 0 <= r.0 < base && 0 <= r.1 <= 1
    ensures r.0 == a - b - borrow + r.1 * base
  {
    if a == 0 && borrow == 1 then (base - 1 - b, 1)
    else if a - borrow >= b then (a - borrow - b, 0)
    else (a - borrow - b + base, 1)
  }

  /** uscaledns_subtract */
  function Subtract(a: UScaledNs, b: UScaledNs): (r: UScaledNs)
    ensures Value(r) == if Value(a) >= Value(b) then Value(a) - Value(b) else Value(a) - Value(b) + TWO96
  {
    var (subns, borrow0) := SubtractDigit(a.subns, b.subns, 0, TWO16);
    var (nsec, borrow1) := SubtractDigit(a.nsec, b.nsec, borrow0, TWO64);
    var (msb, borrow2) := SubtractDigit(a.nsecMsb, b.nsecMsb, borrow1, TWO16);
    assert Value(UScaledNs(msb, nsec, subns)) == Value(a) - Value(b) + borrow2 * TWO96;
    UScaledNs(msb, nsec, subns)
  }

  /** check_overflow: carry out of a 64-bit addition, judged from the wrapped sum. */
  function CheckOverflow(a: u64, b: u64, carry: int): (c: int)
    requires carry == 0 || carry == 1
    ensures c == if a + b + carry >= TWO64 then 1 else 0
  {
    var s := (a + b + carry) % TWO64;
    if carry == 0 then (if s < a then 1 else 0)
    else (if s > a then 0 else 1)
  }

  /** The addition carries out of the low digit one unit too early, when its sum is 0xFFFF. */
  predicate CarriesEarly(a: UScaledNs, b: UScaledNs) {
    a.subns + b.subns == 0xFFFF
  }

  function AddLowDigit(a: u16, b: u16): (r: (u16, int))
    ensures 0 <= r.1 <= 1
    ensures r.0 == a + b - r.1 * TWO16 + (if a + b == 0xFFFF then TWO16 else 0)
  {
    ((a + b) % TWO16, if a + b >= 0xFFFF then 1 else 0)
  }

  function AddDigit(a: int, b: int, carry: int, base: int): (r: int)
    requires 0 <= a < base && 0 <= b < base && 0 <= carry <= 1
    ensures 0 <= r < base
    ensures r == if a + b + carry >= base then a + b + carry - base else a + b + carry
  {
    if a + b + carry >= base then a + b + carry - base else a + b + carry
  }

  /** uscaledns_add, with its `>= 0xFFFF` carry test. */
  function Add(a: UScaledNs, b: UScaledNs): (r: UScaledNs)
    ensures var s := Value(a) + Value(b) + (if CarriesEarly(a, b) then TWO16 else 0);
            Value(r) == if s < TWO96 then s else s - TWO96
  {
    var (low, c0) := AddLowDigit(a.subns, b.subns);
    var c1 := CheckOverflow(a.nsec, b.nsec, c0);
    var nsec := AddDigit(a.nsec, b.nsec, c0, TWO64);
    var c2 := if a.nsecMsb + b.nsecMsb + c1 >= TWO16 then 1 else 0;
    var msb := AddDigit(a.nsecMsb, b.nsecMsb, c1, TWO16);
    assert Value(UScaledNs(msb, nsec, low)) ==
           Value(a) + Value(b) + (if CarriesEarly(a, b) then TWO16 else 0) - c2 * TWO96;
    UScaledNs(msb, nsec, low)
  }

  /** uscaledns_divide_by_2: the bit shifted out of each digit is or-ed into the next one. */
  function DivideBy2(t: UScaledNs): (r: UScaledNs)
    ensures Value(r) == Value(t) / 2
  {
    UScaledNs(t.nsecMsb / 2,
              t.nsec / 2 + (if t.nsecMsb % 2 == 1 then 0x8000_0000_0000_0000 else 0),
              t.subns / 2 + (if t.nsec % 2 == 1 then 0x8000 else 0))
  }

  /** uscaledns_compare */
  function Compare(a: UScaledNs, b: UScaledNs): (c: int)
    ensures c == if Value(a) > Value(b) then 1 else if Value(a) < Value(b) then -1 else 0
  {
    if a.nsecMsb > b.nsecMsb then 1
    else if a.nsecMsb < b.nsecMsb then -1
    else if a.nsec > b.nsec then 1
    else if a.nsec < b.nsec then -1
    else if a.subns > b.subns then 1
    else if a.subns < b.subns then -1
    else 0
  }

  lemma LowWord(msb: u16, high: u16, low: int, subns: u16)
    requires 0 <= low < TWO48
    ensures (msb * TWO80 + (high * TWO48 + low) * TWO16 + subns) % TWO64 == low * TWO16 + subns
  {
    SplitTwo64(msb * TWO16 + high, low * TWO16 + subns);
  }

  lemma SplitTwo64(q: int, r: int)
    requires 0 <= r < TWO64
    ensures (q * TWO64 + r) % TWO64 == r
  {
  }

  /** uint64_uscaledns: what a 64-bit correction field can hold. */
  function ToUint64(t: UScaledNs): (r: u64)
    ensures r == Value(t) % TWO64
  {
    LowWord(t.nsecMsb, t.nsec / TWO48, t.nsec % TWO48, t.subns);
    t.nsec % TWO48 * TWO16 + t.subns
  }

  /** uscaledns_uint64 */
  function FromUint64(v: u64): (t: UScaledNs)
    ensures Value(t) == v
  {
    UScaledNs(0, v / TWO16, v % TWO16)
  }

  /** uscaledns_ptpmsgtimestamp: ignores the upper 16 bits of the seconds. */
  function FromPtp(p: PtpTimestamp): (t: UScaledNs)
    ensures Value(t) == (p.secondsLsb * NS_PER_SEC + p.nanoseconds) * TWO16
  {
    UScaledNs(0, p.secondsLsb * NS_PER_SEC + p.nanoseconds, 0)
  }

  /** ptpmsgtimestamp_uscaledns: drops the fraction and the top digit, wraps the seconds at 32 bits. */
  function ToPtp(t: UScaledNs): (p: PtpTimestamp)
    ensures p.secondsMsb == 0 && p.nanoseconds < NS_PER_SEC
    ensures t.nsec - (p.secondsLsb * NS_PER_SEC + p.nanoseconds) == t.nsec / CLOCK_PERIOD_NS * CLOCK_PERIOD_NS
  {
    SecondsOf(t.nsec);
    PtpTimestamp(0, t.nsec / NS_PER_SEC % TWO32, t.nsec % NS_PER_SEC)
  }

  lemma SecondsOf(nsec: u64)
    ensures nsec / NS_PER_SEC / TWO32 == nsec / CLOCK_PERIOD_NS
  {
    var q := nsec / NS_PER_SEC;
    assert nsec == q / TWO32 * CLOCK_PERIOD_NS + (q % TWO32 * NS_PER_SEC + nsec % NS_PER_SEC);
  }

  /** The fixed-point form of the rate ratio 1.0. */
  const RATIO_ONE := UScaledNs(0, 1, 0)

  /** The 32-bit limbs uscaledns_mul works on, least significant first. */
  function Limbs(t: UScaledNs): (int, int, int) {
    (t.subns + t.nsec % TWO16 * TWO16, t.nsec / TWO16 % TWO32, t.nsec / TWO48 + t.nsecMsb * TWO16)
  }

  /** The end of uscaledns_mul: carries between the 64-bit words, and the limbs put together again. */
  function Reassemble(w0: u64, w1: u64, w2: u64, w3: u64): UScaledNs {
    var c1 := (w1 + w0 / TWO32) % TWO64;
    var c2 := (w2 + c1 / TWO32) % TWO64;
    var c3 := (w3 + c2 / TWO32) % TWO64;
    UScaledNs(c3 % TWO32 % TWO16, (c1 % TWO32 + c2 % TWO32 * TWO16) % TWO64, w0 % TWO32 / TWO16)
  }

  /** uscaledns_mul: partial products accumulated in 64-bit words, then Reassemble. */
  function Multiply(x: UScaledNs, y: UScaledNs): UScaledNs {
    var (a0, a1, a2) := Limbs(x);
    var (b0, b1, b2) := Limbs(y);
    MultiplyLimbs(a0, a1, a2, b0, b1, b2)
  }

  function MultiplyLimbs(a0: int, a1: int, a2: int, b0: int, b1: int, b2: int): UScaledNs {
    Reassemble(a0 * b0 % TWO64,
               (a0 * b1 + a1 * b0) % TWO64,
               (a0 * b2 + a1 * b1 + a2 * b0) % TWO64,
               (a1 * b2 + a2 * b1) % TWO64)
  }

  // ---- What the operations mean together ----

  /**
    Multiplying by a ratio below 2^16 gives the product, rounded down, but puts its third limb back 16
    bits too low: the result is right exactly for products below 2^32 ns.
   */
  lemma MultiplyByRatio(t: UScaledNs, ratio: UScaledNs)
    requires Value(ratio) < TWO32
    ensures var p := OfValue(Value(t) * Value(ratio) / TWO16);
            && Multiply(t, ratio) == UScaledNs(p.nsecMsb, p.nsec % TWO32 + p.nsec / TWO32 * TWO16, p.subns)
            && (Multiply(t, ratio) == p <==> p.nsec < TWO32)
  {
    hide Multiply, OfValue, Value, Reassemble, Limbs;
    var a := LimbsOf(t);
    var l0, l1, l2, h2 := LongProduct(Value(t), a.0, a.1, a.2, Value(ratio));
    SmallRatio(ratio);
    ProductsWithRatio(t, ratio);
    var p := UScaledNs(h2 % TWO16, l2 * TWO32 + l1, l0 / TWO16);
    ShiftedProduct(Value(t) * Value(ratio), l0, l1, l2, h2, p);
    ValueInjective(p, OfValue(Value(t) * Value(ratio) / TWO16));
    LimbMisplaced(l1, l2, p.nsec);
  }

  lemma LimbMisplaced(l1: u32, l2: u32, nsec: int)
    requires nsec == l2 * TWO32 + l1
    ensures nsec % TWO32 == l1 && nsec / TWO32 == l2
    ensures l1 + l2 * TWO16 == nsec <==> nsec < TWO32
  {
    Split32(l2, l1);
  }

  /** The value of a time is that of its limbs. */
  lemma LimbsOf(t: UScaledNs) returns (a: (u32, u32, u32))
    ensures Limbs(t) == a && Value(t) == a.0 + a.1 * TWO32 + a.2 * TWO64
  {
    var n0, n1, n2, n3 := SplitDigits(t.nsec);
    LimbsOfDigits(t, n0, n1, n2, n3);
    a := (n0 * TWO16 + t.subns, n2 * TWO16 + n1, t.nsecMsb * TWO16 + n3);
  }

  lemma SmallRatio(ratio: UScaledNs)
    requires Value(ratio) < TWO32
    ensures Limbs(ratio) == (Value(ratio), 0, 0)
  {
    assert ratio.nsecMsb == 0 && ratio.nsec < TWO16;
  }

  lemma ProductsWithRatio(t: UScaledNs, ratio: UScaledNs)
    requires Limbs(ratio) == (Value(ratio), 0, 0)
    ensures var (a0, a1, a2) := Limbs(t);
            var b := Value(ratio);
            Multiply(t, ratio) == Reassemble(a0 * b % TWO64, a1 * b % TWO64, a2 * b % TWO64, 0)
  {
    hide Reassemble, Limbs, Value;
    var (a0, a1, a2) := Limbs(t);
    assert a0 * 0 == 0 && a1 * 0 == 0 && a2 * 0 == 0;
  }

  /** Three limbs times one: the limbs of the product, by the carry chain of uscaledns_mul. */
  lemma LongProduct(v: int, a0: u32, a1: u32, a2: u32, b: u32) returns (l0: u32, l1: u32, l2: u32, h2: u32)
    requires v == a0 + a1 * TWO32 + a2 * TWO64
    ensures v * b == l0 + l1 * TWO32 + l2 * TWO64 + h2 * TWO96
    ensures Reassemble(a0 * b % TWO64, a1 * b % TWO64, a2 * b % TWO64, 0)
            == UScaledNs(h2 % TWO16, l1 + l2 * TWO16, l0 / TWO16)
  {
    hide Reassemble;
    var w0, w1, w2 := a0 * b, a1 * b, a2 * b;
    LimbProduct(a0, b);
    LimbProduct(a1, b);
    LimbProduct(a2, b);
    var h0, h1;
    h0, l0 := w0 / TWO32, w0 % TWO32;
    h1, l1 := (w1 + h0) / TWO32, (w1 + h0) % TWO32;
    h2, l2 := (w2 + h1) / TWO32, (w2 + h1) % TWO32;
    CarryChain(w0, w1, w2, h0, l0, h1, l1, h2, l2);
    Distributed(v, a0, a1, a2, b, w0, w1, w2);
    SumOfHalves(w0, w1, w2, h0, l0, h1, l1, h2, l2);
  }

  lemma Distributed(v: int, a0: u32, a1: u32, a2: u32, b: u32, w0: int, w1: int, w2: int)
    requires v == a0 + a1 * TWO32 + a2 * TWO64 && w0 == a0 * b && w1 == a1 * b && w2 == a2 * b
    ensures v * b == w0 + w1 * TWO32 + w2 * TWO64
  {
    assert v * b == a0 * b + (a1 * b) * TWO32 + (a2 * b) * TWO64;
  }

  lemma SumOfHalves(w0: int, w1: int, w2: int, h0: u32, l0: u32, h1: u32, l1: u32, h2: u32, l2: u32)
    requires w0 == h0 * TWO32 + l0 && w1 + h0 == h1 * TWO32 + l1 && w2 + h1 == h2 * TWO32 + l2
    ensures w0 + w1 * TWO32 + w2 * TWO64 == l0 + l1 * TWO32 + l2 * TWO64 + h2 * TWO96
  {
  }

  lemma LimbProduct(a: u32, b: u32)
    ensures 0 <= a * b <= (TWO32 - 1) * (TWO32 - 1)
    ensures a * b % TWO64 == a * b
  {
    Larger(a, TWO32 - 1, b);
    Larger(b, TWO32 - 1, TWO32 - 1);
    BelowTwo64(a * b);
  }

  lemma Larger(x: nat, y: nat, z: nat)
    requires x <= y
    ensures 0 <= x * z <= y * z
  {
    assert y * z - x * z == (y - x) * z;
  }

  lemma BelowTwo64(x: int)
    requires 0 <= x <= (TWO32 - 1) * (TWO32 - 1)
    ensures x % TWO64 == x
  {
  }

  /** Reassemble, once the words and the carries into them are known as pairs of halves. */
  lemma CarryChain(w0: u64, w1: u64, w2: u64, h0: u32, l0: u32, h1: u32, l1: u32, h2: u32, l2: u32)
    requires w0 == h0 * TWO32 + l0 && w1 + h0 == h1 * TWO32 + l1 && w2 + h1 == h2 * TWO32 + l2
    ensures Reassemble(w0, w1, w2, 0) == UScaledNs(h2 % TWO16, l1 + l2 * TWO16, l0 / TWO16)
  {
    TwoHalves(h0, l0, w0);
    TwoHalves(h1, l1, w1 + h0);
    TwoHalves(h2, l2, w2 + h1);
    SmallModulus(h2);
    SmallModulus(l1 + l2 * TWO16);
  }

  lemma ShiftedProduct(product: int, l0: u32, l1: u32, l2: u32, h2: u32, p: UScaledNs)
    requires p == UScaledNs(h2 % TWO16, l2 * TWO32 + l1, l0 / TWO16)
    requires product == l0 + l1 * TWO32 + l2 * TWO64 + h2 * TWO96
    ensures product / TWO16 % TWO96 == Value(p)
  {
    var q := l0 / TWO16 + l1 * TWO16 + l2 * TWO48 + h2 * TWO80;
    assert product == q * TWO16 + l0 % TWO16;
    Split16(q, l0 % TWO16);
    assert q == h2 / TWO16 * TWO96 + Value(p);
    TopDropped(h2 / TWO16, Value(p));
  }

  lemma TopDropped(q: int, r: int)
    requires 0 <= r < TWO96
    ensures (q * TWO96 + r) % TWO96 == r
  {
  }

  lemma SmallModulus(x: u64)
    ensures x % TWO64 == x
    ensures x < TWO32 ==> x % TWO32 == x
    ensures x < TWO16 ==> x % TWO16 == x
  {
  }

  lemma TwoHalves(high: u32, low: u32, w: int)
    requires w == high * TWO32 + low
    ensures 0 <= w < TWO64 && w % TWO64 == w && w / TWO32 == high && w % TWO32 == low
  {
    Split32(high, low);
  }

  lemma LimbsOfDigits(t: UScaledNs, n0: u16, n1: u16, n2: u16, n3: u16)
    requires t.nsec == ((n3 * TWO16 + n2) * TWO16 + n1) * TWO16 + n0
    ensures t.nsec % TWO32 == n1 * TWO16 + n0 && t.nsec / TWO32 == n3 * TWO16 + n2
    ensures Limbs(t) == (n0 * TWO16 + t.subns, n2 * TWO16 + n1, t.nsecMsb * TWO16 + n3)
  {
    Split32(n3 * TWO16 + n2, n1 * TWO16 + n0);
    Split16((n3 * TWO16 + n2) * TWO16 + n1, n0);
    Split32(n3, n2 * TWO16 + n1);
    assert t.nsec == n3 * TWO48 + ((n2 * TWO16 + n1) * TWO16 + n0);
  }

  /** Multiplying by 1.0 is the identity exactly for durations below 2^32 ns. */
  lemma MultiplyByOne(t: UScaledNs)
    ensures Multiply(t, RATIO_ONE) == t <==> t.nsec < TWO32
    ensures Multiply(t, RATIO_ONE) == UScaledNs(t.nsecMsb, t.nsec % TWO32 + t.nsec / TWO32 * TWO16, t.subns)
  {
    hide Multiply, OfValue, Value;
    ValueOfOne();
    MultiplyByRatio(t, RATIO_ONE);
    assert Value(t) * TWO16 / TWO16 == Value(t);
    SmallRemainder(Value(t));
    ValueInjective(OfValue(Value(t)), t);
  }

  lemma ValueOfOne()
    ensures Value(RATIO_ONE) == TWO16
  {
  }

  /** Adding and taking away again is the identity exactly when the addition carried correctly. */
  lemma AddThenSubtract(a: UScaledNs, b: UScaledNs)
    ensures Subtract(Add(a, b), b) == a <==> !CarriesEarly(a, b)
  {
    ValueInjective(Subtract(Add(a, b), b), a);
  }

  /** Taking away and adding again fails for exactly one low digit of the minuend. */
  lemma SubtractThenAdd(a: UScaledNs, b: UScaledNs)
    ensures Add(Subtract(a, b), b) == a <==> a.subns != 0xFFFF
  {
    ValueInjective(Add(Subtract(a, b), b), a);
  }

  /** A value survives the 64-bit correction field exactly when it is below 2^64 units. */
  lemma Uint64RoundTrip(t: UScaledNs)
    ensures FromUint64(ToUint64(t)) == t <==> Value(t) < TWO64
  {
    ValueInjective(FromUint64(ToUint64(t)), t);
  }

  /** Whole nanoseconds survive the PTP timestamp exactly while the seconds fit 32 bits. */
  lemma PtpRoundTrip(t: UScaledNs)
    ensures FromPtp(ToPtp(t)) == t <==> t.nsecMsb == 0 && t.subns == 0 && t.nsec < TWO32 * NS_PER_SEC
    ensures t.nsec < TWO32 * NS_PER_SEC ==> Value(FromPtp(ToPtp(t))) == t.nsec * TWO16
  {
    var s := t.nsec / NS_PER_SEC;
    assert t.nsec == s * NS_PER_SEC + t.nsec % NS_PER_SEC;
    if s >= TWO32 {
      assert s % TWO32 * NS_PER_SEC < TWO32 * NS_PER_SEC;
    }
  }

  // ---- Readings of a 96-bit counter ----

  /** The two's-complement difference of two counter readings is the time that passed between them. */
  lemma Elapsed(x: int, d: nat)
    requires d < TWO96
    ensures Subtract(OfValue(x + d), OfValue(x)) == OfValue(d)
    ensures Value(OfValue(d)) == d
    ensures Compare(OfValue(x + d), OfValue(x)) < 0 <==> x % TWO96 + d >= TWO96
  {
    hide Value, OfValue, Subtract, Compare;
    SumModulo(x, d);
    SmallRemainder(d);
    ValueInjective(Subtract(OfValue(x + d), OfValue(x)), OfValue(d));
  }

  lemma SumModulo(x: int, d: int)
    requires 0 <= d < TWO96
    ensures (x + d) % TWO96 == if x % TWO96 + d < TWO96 then x % TWO96 + d else x % TWO96 + d - TWO96
  {
  }

  lemma SmallRemainder(x: int)
    requires 0 <= x < TWO96
    ensures x % TWO96 == x
  {
  }
}
