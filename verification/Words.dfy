/** Machine integers: their ranges, the words and bytes they are made of, and their binary digits. */
module Words {

  const TWO16: int := 0x1_0000
  const TWO32: int := 0x1_0000_0000
  const TWO48: int := 0x1_0000_0000_0000
  const TWO64: int := 0x1_0000_0000_0000_0000
  const TWO80: int := 0x1_0000_0000_0000_0000_0000
  const TWO96: int := 0x1_0000_0000_0000_0000_0000_0000

  type u8 = x: int | 0 <= x < 0x100
  type u16 = x: int | 0 <= x < 0x1_0000
  type u32 = x: int | 0 <= x < 0x1_0000_0000
  type u64 = x: int | 0 <= x < 0x1_0000_0000_0000_0000

  // ---- Quotient and remainder by a power of two ----

  lemma Split16(q: int, r: int)
    requires 0 <= r < TWO16
    ensures (q * TWO16 + r) / TWO16 == q && (q * TWO16 + r) % TWO16 == r
  {
  }

  lemma Split32(q: int, r: int)
    requires 0 <= r < TWO32
    ensures (q * TWO32 + r) / TWO32 == q && (q * TWO32 + r) % TWO32 == r
  {
  }

  lemma Split48(q: int, r: int)
    requires 0 <= r < TWO48
    ensures (q * TWO48 + r) / TWO48 == q && (q * TWO48 + r) % TWO48 == r
  {
  }

  lemma SplitDigits(x: u64) returns (n0: u16, n1: u16, n2: u16, n3: u16)
    ensures x == ((n3 * TWO16 + n2) * TWO16 + n1) * TWO16 + n0
  {
    n0 := x % TWO16;
    var q1 := x / TWO16;
    n1 := q1 % TWO16;
    var q2 := q1 / TWO16;
    n2 := q2 % TWO16;
    n3 := q2 / TWO16;
  }

  // ---- Bytes of a word ----

  function HighByte(w: u16): u8 { w / 0x100 }

  function LowByte(w: u16): u8 { w % 0x100 }

  function Word(high: u8, low: u8): (w: u16)
    ensures HighByte(w) == high && LowByte(w) == low
  {
    high * 0x100 + low
  }

  // ---- Bits of a byte ----

  /** 2^j, a single bit. */
  function Pow2(j: nat): (m: nat)
    ensures m >= 1
  {
    if j == 0 then 1 else 2 * Pow2(j - 1)
  }

  function Digit(b: nat, j: nat): (d: nat)
    ensures d < 2
  {
    if j == 0 then b % 2 else Digit(b / 2, j - 1)
  }

  /** bitRead */
  predicate Bit(b: nat, j: nat) { Digit(b, j) == 1 }

  /** The number with these binary digits, lowest first. */
  function Number(d: seq<nat>): nat {
    if d == [] then 0 else d[0] + 2 * Number(d[1..])
  }

  predicate Binary(d: seq<nat>) { forall j :: 0 <= j < |d| ==> d[j] < 2 }

  function Digits(b: nat, n: nat): (d: seq<nat>)
    ensures |d| == n && Binary(d)
    ensures forall j :: 0 <= j < n ==> d[j] == Digit(b, j)
  {
    if n == 0 then [] else [b % 2] + Digits(b / 2, n - 1)
  }

  lemma {:induction false} NumberOfDigits(b: nat, n: nat)
    requires b < Pow2(n)
    ensures Number(Digits(b, n)) == b
  {
    if n > 0 {
      NumberOfDigits(b / 2, n - 1);
      assert Digits(b, n)[1..] == Digits(b / 2, n - 1);
    }
  }

  lemma {:induction false} DigitOfNumber(d: seq<nat>, j: nat)
    requires Binary(d) && j < |d|
    ensures Digit(Number(d), j) == d[j]
  {
    assert Number(d) / 2 == Number(d[1..]);
    if j > 0 {
      DigitOfNumber(d[1..], j - 1);
    }
  }

  lemma {:induction false} NumberBound(d: seq<nat>)
    requires Binary(d)
    ensures Number(d) < Pow2(|d|)
  {
    if d != [] {
      NumberBound(d[1..]);
    }
  }

  lemma {:induction false} ChangeDigit(d: seq<nat>, j: nat, x: nat)
    requires Binary(d) && j < |d| && x < 2
    ensures Number(d[j := x]) == Number(d) + (if x > d[j] then Pow2(j) else 0) - (if x < d[j] then Pow2(j) else 0)
  {
    if j > 0 {
      ChangeDigit(d[1..], j - 1, x);
      assert d[j := x][1..] == d[1..][j - 1 := x];
    } else {
      assert d[0 := x][1..] == d[1..];
    }
  }

  /** bitWrite: or-ing the mask in, or masking it out. */
  function SetBit(b: u8, j: nat, on: bool): (r: u8)
    requires j < 8
    ensures r == Number(Digits(b, 8)[j := if on then 1 else 0])
  {
    var d := Digits(b, 8);
    assert Pow2(8) == 0x100;
    NumberOfDigits(b, 8);
    ChangeDigit(d, j, if on then 1 else 0);
    NumberBound(d[j := if on then 1 else 0]);
    if Bit(b, j) == on then b else if on then b + Pow2(j) else b - Pow2(j)
  }

  lemma SetBitEffect(b: u8, j: nat, on: bool, k: nat)
    requires j < 8 && k < 8
    ensures Bit(SetBit(b, j, on), k) == if k == j then on else Bit(b, k)
  {
    hide SetBit, Digit;
    DigitOfNumber(Digits(b, 8)[j := if on then 1 else 0], k);
  }

  /** A byte is its eight bits. */
  lemma SameBits(a: u8, b: u8)
    requires forall j :: 0 <= j < 8 ==> Bit(a, j) == Bit(b, j)
    ensures a == b
  {
    hide Digit, Number;
    assert Pow2(8) == 0x100;
    NumberOfDigits(a, 8);
    NumberOfDigits(b, 8);
    forall j | 0 <= j < 8 ensures Digits(a, 8)[j] == Digits(b, 8)[j] {
      assert Bit(a, j) == Bit(b, j);
    }
    assert Digits(a, 8) == Digits(b, 8);
  }
}
