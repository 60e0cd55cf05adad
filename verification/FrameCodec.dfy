/**
  PTP frames on the wire: the header and the Follow_Up (sections 11.4.2 and 11.4.4 of IEEE Std
  802.1AS-2020), written by a little-endian host through byte swaps.
 */
module FrameCodec {
  import opened Words
  import opened ScaledTime

  type Bytes = seq<u8>

  // ---- Integers in memory, and the byte swaps ----

  function Pow256(n: nat): (p: nat)
    ensures p >= 1
  {
    if n == 0 then 1 else 0x100 * Pow256(n - 1)
  }

  /** The n bytes of a number in the memory of the host, least significant first. */
  function InMemory(x: nat, n: nat): (b: Bytes)
    ensures |b| == n
  {
    if n == 0 then [] else [x % 0x100] + InMemory(x / 0x100, n - 1)
  }

  function FromMemory(b: Bytes): nat {
    if b == [] then 0 else b[0] + 0x100 * FromMemory(b[1..])
  }

  function Reversed(b: Bytes): (r: Bytes)
    ensures |r| == |b|
    ensures forall i :: 0 <= i < |b| ==> r[i] == b[|b| - 1 - i]
  {
    seq(|b|, i requires 0 <= i < |b| => b[|b| - 1 - i])
  }

  /** htons, htonl, htonll and their inverses: byte i of the result is byte n - 1 - i of the operand. */
  function Swap(x: nat, n: nat): nat { FromMemory(Reversed(InMemory(x, n))) }

  /** Network byte order: most significant byte first. */
  function NetworkOrder(x: nat, n: nat): (b: Bytes)
    ensures |b| == n
  {
    if n == 0 then [] else NetworkOrder(x / 0x100, n - 1) + [x % 0x100]
  }

  lemma {:induction false} MemoryRoundTrip(x: nat, n: nat)
    requires x < Pow256(n)
    ensures FromMemory(InMemory(x, n)) == x
  {
    if n > 0 {
      MemoryRoundTrip(x / 0x100, n - 1);
      assert InMemory(x, n)[1..] == InMemory(x / 0x100, n - 1);
    }
  }

  lemma {:induction false} MemoryOfBytes(b: Bytes)
    ensures InMemory(FromMemory(b), |b|) == b
    ensures FromMemory(b) < Pow256(|b|)
  {
    if b != [] {
      MemoryOfBytes(b[1..]);
      assert FromMemory(b) / 0x100 == FromMemory(b[1..]) && FromMemory(b) % 0x100 == b[0];
      assert b == [b[0]] + b[1..];
    }
  }

  /** Swapping twice is the identity. */
  lemma SwapInvolution(x: nat, n: nat)
    requires x < Pow256(n)
    ensures Swap(x, n) < Pow256(n) && Swap(Swap(x, n), n) == x
  {
    hide FromMemory, InMemory;
    var b := Reversed(InMemory(x, n));
    MemoryOfBytes(b);
    assert Reversed(b) == InMemory(x, n);
    MemoryRoundTrip(x, n);
  }

  /** A swapped number lies in the host's memory in network byte order. */
  lemma SwappedIsNetworkOrder(x: nat, n: nat)
    ensures InMemory(Swap(x, n), n) == NetworkOrder(x, n)
  {
    hide FromMemory, InMemory, NetworkOrder;
    MemoryOfBytes(Reversed(InMemory(x, n)));
    ReversedMemory(x, n);
  }

  lemma {:induction false} ReversedMemory(x: nat, n: nat)
    ensures Reversed(InMemory(x, n)) == NetworkOrder(x, n)
  {
    if n > 0 {
      ReversedMemory(x / 0x100, n - 1);
      assert InMemory(x, n) == [x % 0x100] + InMemory(x / 0x100, n - 1);
      assert Reversed(InMemory(x, n)) == Reversed(InMemory(x / 0x100, n - 1)) + [x % 0x100];
    }
  }

  /** A field written with a swap and read back with one. */
  function Put(x: nat, n: nat): (b: Bytes)
    ensures |b| == n
  {
    InMemory(Swap(x, n), n)
  }

  function Get(b: Bytes): nat { Swap(FromMemory(b), |b|) }

  lemma PutGet(x: nat, n: nat)
    requires x < Pow256(n)
    ensures Get(Put(x, n)) == x
  {
    hide Swap;
    SwapInvolution(x, n);
    MemoryRoundTrip(Swap(x, n), n);
  }

  lemma GetFits(b: Bytes)
    ensures Get(b) < Pow256(|b|)
  {
    MemoryOfBytes(b);
    SwapInvolution(FromMemory(b), |b|);
  }

  lemma Widths()
    ensures Pow256(2) == TWO16 && Pow256(4) == TWO32 && Pow256(8) == TWO64
  {
    assert Pow256(4) == Pow256(2) * TWO16;
    assert Pow256(6) == Pow256(4) * TWO16;
    assert Pow256(8) == Pow256(6) * TWO16;
  }

  function Get16(b: Bytes): (x: u16)
    requires |b| == 2
    ensures x == Get(b)
  {
    GetFits(b);
    Widths();
    Get(b)
  }

  function Get32(b: Bytes): (x: u32)
    requires |b| == 4
    ensures x == Get(b)
  {
    GetFits(b);
    Widths();
    Get(b)
  }

  function Get64(b: Bytes): (x: u64)
    requires |b| == 8
    ensures x == Get(b)
  {
    GetFits(b);
    Widths();
    Get(b)
  }

  // ---- Two four-bit fields in a byte ----

  function OrBits(a: nat, b: nat, n: nat): nat {
    if n == 0 then 0 else (if a % 2 == 1 || b % 2 == 1 then 1 else 0) + 2 * OrBits(a / 2, b / 2, n - 1)
  }

  /** (high << 4) | low, cut to a byte. */
  function Pack(high: u8, low: u8): (b: u8)
  {
    OrBound(high * 16 % 0x100, low, 8);
    assert Pow2(8) == 0x100;
    OrBits(high * 16 % 0x100, low, 8)
  }

  lemma {:induction false} OrBound(a: nat, b: nat, n: nat)
    ensures OrBits(a, b, n) < Pow2(n)
  {
    if n > 0 {
      OrBound(a / 2, b / 2, n - 1);
    }
  }

  /** Where the first number has a zero digit, the second one's digit stands. */
  lemma OrShifted(a: nat, half: nat, b: nat, rest: nat, n: nat)
    requires n > 0 && a == 2 * half && rest == b / 2 && OrBits(half, rest, n - 1) == half + rest
    ensures OrBits(a, b, n) == a + b
  {
    assert a % 2 == 0 && a / 2 == half;
  }

  lemma {:induction false} OrZero(a: nat, n: nat)
    requires a < Pow2(n)
    ensures OrBits(a, 0, n) == a
  {
    if n > 0 {
      OrZero(a / 2, n - 1);
    }
  }

  /** Two four-bit numbers do not meet: or-ing them is adding. */
  lemma Packed(high: u8, low: u8)
    requires high < 16 && low < 16
    ensures Pack(high, low) == high * 16 + low
  {
    hide OrBits;
    NibblesApart(high, low, low / 2, low / 2 / 2, low / 2 / 2 / 2);
    SmallProduct(high);
  }

  lemma NibblesApart(high: nat, low: nat, low1: nat, low2: nat, low3: nat)
    requires high < 16 && low3 < 2 && low1 == low / 2 && low2 == low1 / 2 && low3 == low2 / 2
    ensures OrBits(16 * high, low, 8) == 16 * high + low
  {
    assert Pow2(4) == 16;
    OrZero(high, 4);
    hide OrBits, Pow2;
    OrShifted(2 * high, high, low3, 0, 5);
    OrShifted(4 * high, 2 * high, low2, low3, 6);
    OrShifted(8 * high, 4 * high, low1, low2, 7);
    OrShifted(16 * high, 8 * high, low, low1, 8);
  }

  lemma SmallProduct(high: u8)
    requires high < 16
    ensures high * 16 % 0x100 == 16 * high
  {
  }

  // ---- Fields of fixed width one after the other ----

  function Flatten(fields: seq<Bytes>): Bytes {
    if fields == [] then [] else fields[0] + Flatten(fields[1..])
  }

  function Total(widths: seq<nat>): nat {
    if widths == [] then 0 else widths[0] + Total(widths[1..])
  }

  function Split(b: Bytes, widths: seq<nat>): (fields: seq<Bytes>)
    requires |b| >= Total(widths)
    ensures |fields| == |widths|
    ensures forall i :: 0 <= i < |widths| ==> |fields[i]| == widths[i]
  {
    if widths == [] then [] else [b[..widths[0]]] + Split(b[widths[0]..], widths[1..])
  }

  predicate HasWidths(fields: seq<Bytes>, widths: seq<nat>) {
    |fields| == |widths| && forall i :: 0 <= i < |widths| ==> |fields[i]| == widths[i]
  }

  lemma {:induction false} SplitOfFlatten(fields: seq<Bytes>, widths: seq<nat>, rest: Bytes)
    requires HasWidths(fields, widths)
    ensures |Flatten(fields)| == Total(widths) && Split(Flatten(fields) + rest, widths) == fields
  {
    if fields != [] {
      var tail := Flatten(fields[1..]);
      SplitOfFlatten(fields[1..], widths[1..], rest);
      FirstField(fields[0], tail, rest);
      assert Flatten(fields) == fields[0] + tail;
      assert fields == [fields[0]] + fields[1..];
    }
  }

  lemma FirstField(first: Bytes, tail: Bytes, rest: Bytes)
    ensures first + tail + rest == first + (tail + rest)
    ensures (first + tail + rest)[..|first|] == first && (first + tail + rest)[|first|..] == tail + rest
  {
  }

  // ---- The header ----

  /** Signed fields are given by their bit patterns. */
  datatype Header = Header(
    majorSdoId: u8, messageType: u8, minorVersionPTP: u8, versionPTP: u8, messageLength: u16,
    domainNumber: u8, minorSdoId: u8, flags: Bytes, correctionField: u64, messageTypeSpecific: Bytes,
    clockIdentity: Bytes, portNumber: u16, sequenceId: u16, controlField: u8, logMessageInterval: u8)
  {
    predicate Sized() { |flags| == 2 && |messageTypeSpecific| == 4 && |clockIdentity| == 8 }

    predicate Nibbles() { majorSdoId < 16 && messageType < 16 && minorVersionPTP < 16 && versionPTP < 16 }
  }

  const HEADER_WIDTHS: seq<nat> := [1, 1, 2, 1, 1, 2, 8, 4, 8, 2, 2, 1, 1]

  /** set_ptp_frame_header, as the bytes of the packed frame. */
  function HeaderFields(h: Header): (f: seq<Bytes>)
    requires h.Sized()
    ensures HasWidths(f, HEADER_WIDTHS)
  {
    [[Pack(h.majorSdoId, h.messageType)], [Pack(h.minorVersionPTP, h.versionPTP)], Put(h.messageLength, 2),
     [h.domainNumber], [h.minorSdoId], h.flags, Put(h.correctionField, 8), h.messageTypeSpecific,
     h.clockIdentity, Put(h.portNumber, 2), Put(h.sequenceId, 2), [h.controlField], [h.logMessageInterval]]
  }

  /** get_ptp_msg_header */
  function HeaderOf(f: seq<Bytes>): Header
    requires HasWidths(f, HEADER_WIDTHS)
  {
    Header(f[0][0] / 16 % 16, f[0][0] % 16, f[1][0] / 16 % 16, f[1][0] % 16, Get16(f[2]),
           f[3][0], f[4][0], f[5], Get64(f[6]), f[7], f[8], Get16(f[9]), Get16(f[10]), f[11][0], f[12][0])
  }

  function EncodeHeader(h: Header): Bytes
    requires h.Sized()
  {
    Flatten(HeaderFields(h))
  }

  function DecodeHeader(b: Bytes): Header
    requires |b| >= Total(HEADER_WIDTHS)
  {
    HeaderOf(Split(b, HEADER_WIDTHS))
  }

  lemma FieldsRoundTrip(h: Header)
    requires h.Sized()
    ensures HeaderOf(HeaderFields(h)) == h <==> h.Nibbles()
  {
    hide Put, Get, Pack;
    Widths();
    PutGet(h.messageLength, 2);
    PutGet(h.correctionField, 8);
    PutGet(h.portNumber, 2);
    PutGet(h.sequenceId, 2);
    if h.Nibbles() {
      Packed(h.majorSdoId, h.messageType);
      Packed(h.minorVersionPTP, h.versionPTP);
    }
  }

  /** Decoding an encoded header recovers every field exactly if the four-bit fields are below 16. */
  lemma HeaderRoundTrip(h: Header, rest: Bytes)
    requires h.Sized()
    ensures |EncodeHeader(h)| == Total(HEADER_WIDTHS) == 34
    ensures DecodeHeader(EncodeHeader(h) + rest) == h <==> h.Nibbles()
  {
    hide HeaderFields, HeaderOf;
    SplitOfFlatten(HeaderFields(h), HEADER_WIDTHS, rest);
    FieldsRoundTrip(h);
    HeaderLength();
  }

  lemma HeaderLength()
    ensures Total(HEADER_WIDTHS) == 34
  {
    var w := HEADER_WIDTHS;
    assert w[6..] == [8, 4, 8, 2, 2, 1, 1];
    assert Total([8, 4, 8, 2, 2, 1, 1]) == 26;
    assert w[3..] == [1, 1, 2] + w[6..];
    assert w[3..][1..][1..][1..] == w[6..];
    assert w[1..][1..][1..] == w[3..];
  }

  // ---- The Follow_Up ----

  datatype FollowUp = FollowUp(
    head: Header, secondsMsb: u16, secondsLsb: u32, nanoseconds: u32,
    tlvType: u16, lengthField: u16, organizationId: Bytes, organizationSubType: Bytes,
    cumulativeScaledRateOffset: u32, gmTimeBaseIndicator: u16, lastGmPhaseChange: UScaledNs,
    scaledLastGmFreqChange: u32)
  {
    predicate Sized() { head.Sized() && |organizationId| == 3 && |organizationSubType| == 3 }
  }

  const FOLLOW_UP_WIDTHS: seq<nat> := [2, 4, 4, 2, 2, 3, 3, 4, 2, 2, 8, 2, 4]

  /** txFollowUp, after the header. */
  function FollowUpFields(m: FollowUp): (f: seq<Bytes>)
    requires m.Sized()
    ensures HasWidths(f, FOLLOW_UP_WIDTHS)
  {
    [Put(m.secondsMsb, 2), Put(m.secondsLsb, 4), Put(m.nanoseconds, 4), Put(m.tlvType, 2), Put(m.lengthField, 2),
     m.organizationId, m.organizationSubType, Put(m.cumulativeScaledRateOffset, 4), Put(m.gmTimeBaseIndicator, 2),
     Put(m.lastGmPhaseChange.nsecMsb, 2), Put(m.lastGmPhaseChange.nsec, 8), Put(m.lastGmPhaseChange.subns, 2),
     Put(m.scaledLastGmFreqChange, 4)]
  }

  /** The FOLLOW_UP case of recv_ptp_frame. */
  function FollowUpOf(h: Header, f: seq<Bytes>): FollowUp
    requires HasWidths(f, FOLLOW_UP_WIDTHS)
  {
    FollowUp(h, Get16(f[0]), Get32(f[1]), Get32(f[2]), Get16(f[3]), Get16(f[4]), f[5], f[6], Get32(f[7]), Get16(f[8]),
             UScaledNs(Get16(f[9]), Get64(f[10]), Get16(f[11])), Get32(f[12]))
  }

  function EncodeFollowUp(m: FollowUp): Bytes
    requires m.Sized()
  {
    EncodeHeader(m.head) + Flatten(FollowUpFields(m))
  }

  function DecodeFollowUp(b: Bytes): FollowUp
    requires |b| >= Total(HEADER_WIDTHS) + Total(FOLLOW_UP_WIDTHS)
  {
    FollowUpOf(DecodeHeader(b), Split(b[Total(HEADER_WIDTHS)..], FOLLOW_UP_WIDTHS))
  }

  lemma FollowUpFieldsRoundTrip(m: FollowUp, h: Header)
    requires m.Sized()
    ensures FollowUpOf(h, FollowUpFields(m)) == m.(head := h)
  {
    hide Put, Get;
    Widths();
    PutGet(m.secondsMsb, 2);
    PutGet(m.secondsLsb, 4);
    PutGet(m.nanoseconds, 4);
    PutGet(m.tlvType, 2);
    PutGet(m.lengthField, 2);
    PutGet(m.cumulativeScaledRateOffset, 4);
    PutGet(m.gmTimeBaseIndicator, 2);
    PutGet(m.lastGmPhaseChange.nsecMsb, 2);
    PutGet(m.lastGmPhaseChange.nsec, 8);
    PutGet(m.lastGmPhaseChange.subns, 2);
    PutGet(m.scaledLastGmFreqChange, 4);
  }

  lemma DecodedFollowUp(m: FollowUp, rest: Bytes)
    requires m.Sized()
    ensures |EncodeFollowUp(m)| == Total(HEADER_WIDTHS) + Total(FOLLOW_UP_WIDTHS)
    ensures DecodeFollowUp(EncodeFollowUp(m) + rest)
            == m.(head := DecodeHeader(EncodeHeader(m.head) + (Flatten(FollowUpFields(m)) + rest)))
  {
    hide EncodeHeader, DecodeHeader, FollowUpFields, FollowUpOf, Split, Flatten, Total;
    var tail := Flatten(FollowUpFields(m));
    HeaderRoundTrip(m.head, tail + rest);
    SplitOfFlatten(FollowUpFields(m), FOLLOW_UP_WIDTHS, rest);
    FirstField(EncodeHeader(m.head), tail, rest);
    FollowUpFieldsRoundTrip(m, DecodeHeader(EncodeFollowUp(m) + rest));
  }

  /** The same for a whole Follow_Up, whatever bytes an earlier, longer frame left behind it. */
  lemma FollowUpRoundTrip(m: FollowUp, rest: Bytes)
    requires m.Sized()
    ensures |EncodeFollowUp(m)| == Total(HEADER_WIDTHS) + Total(FOLLOW_UP_WIDTHS)
    ensures DecodeFollowUp(EncodeFollowUp(m) + rest) == m <==> m.head.Nibbles()
  {
    hide EncodeFollowUp, DecodeFollowUp, EncodeHeader, DecodeHeader, FollowUpFields, Flatten, Total;
    DecodedFollowUp(m, rest);
    HeaderRoundTrip(m.head, Flatten(FollowUpFields(m)) + rest);
    assert m == m.(head := m.head);
  }

  // ---- Where the fields lie on the wire ----

  lemma {:induction false} FlattenTwo(a: seq<Bytes>, b: seq<Bytes>)
    ensures Flatten(a + b) == Flatten(a) + Flatten(b)
  {
    if a == [] {
      assert a + b == b;
    } else {
      var rest := a[1..];
      FlattenTwo(rest, b);
      assert (a + b)[0] == a[0] && (a + b)[1..] == rest + b;
      assert a[0] + (Flatten(rest) + Flatten(b)) == a[0] + Flatten(rest) + Flatten(b);
    }
  }

  /** Field k stands after as many bytes as the fields before it are wide. */
  lemma FieldStands(fields: seq<Bytes>, widths: seq<nat>, k: nat)
    requires HasWidths(fields, widths) && k < |fields|
    ensures var at := Total(widths[..k]); at + widths[k] <= |Flatten(fields)| && Flatten(fields)[at..at + widths[k]] == fields[k]
  {
    hide Flatten;
    SplitOfFlatten(fields[..k], widths[..k], []);
    FlattenTwo(fields[..k], fields[k..]);
    assert fields == fields[..k] + fields[k..];
    FlattenTwo([fields[k]], fields[k + 1..]);
    assert fields[k..] == [fields[k]] + fields[k + 1..];
    FlattenOne(fields[k]);
  }

  lemma FlattenOne(x: Bytes)
    ensures Flatten([x]) == x
  {
    var one := [x];
    assert one[1..] == [] && Flatten(one) == x + Flatten(one[1..]);
  }

  lemma PutIsNetworkOrder(x: nat, n: nat)
    ensures Put(x, n) == NetworkOrder(x, n)
  {
    hide Swap, InMemory, NetworkOrder;
    SwappedIsNetworkOrder(x, n);
  }

  /** Byte k of n counts 256^(n - 1 - k). */
  lemma {:induction false} NetworkOrderByte(x: nat, n: nat, k: nat)
    requires k < n
    ensures NetworkOrder(x, n)[k] == x / Pow256(n - 1 - k) % 0x100
  {
    if k < n - 1 {
      NetworkOrderByte(x / 0x100, n - 1, k);
      DividedTwice(x, Pow256(n - 2 - k));
    }
  }

  lemma DividedTwice(x: nat, p: nat)
    requires p > 0
    ensures x / 0x100 / p == x / (0x100 * p)
  {
    var q, r := x / 0x100, x % 0x100;
    var a, b := q / p, q % p;
    assert x == 0x100 * (a * p + b) + r;
    assert x == a * (0x100 * p) + (0x100 * b + r);
    QuotientIs(x, 0x100 * p, a, 0x100 * b + r);
  }

  lemma QuotientIs(x: nat, d: nat, q: nat, r: nat)
    requires d > 0 && x == q * d + r && r < d
    ensures x / d == q
  {
    var e := x / d - q;
    assert e * d == r - x % d;
    Multiples(e, d);
  }

  lemma Multiples(e: int, d: nat)
    requires d > 0
    ensures e > 0 ==> e * d >= d
    ensures e < 0 ==> e * d + d <= 0
  {
  }

  /** The header on the wire: the fields in this order, numbers most significant byte first. */
  function HeaderOnWire(h: Header): seq<Bytes> {
    [[16 * (h.majorSdoId % 16) + h.messageType % 16], [16 * (h.minorVersionPTP % 16) + h.versionPTP % 16],
     NetworkOrder(h.messageLength, 2), [h.domainNumber], [h.minorSdoId], h.flags, NetworkOrder(h.correctionField, 8),
     h.messageTypeSpecific, h.clockIdentity, NetworkOrder(h.portNumber, 2), NetworkOrder(h.sequenceId, 2),
     [h.controlField], [h.logMessageInterval]]
  }

  lemma HeaderLayout(h: Header)
    requires h.Sized() && h.Nibbles()
    ensures EncodeHeader(h) == Flatten(HeaderOnWire(h)) && HasWidths(HeaderOnWire(h), HEADER_WIDTHS)
  {
    hide Put, Pack, NetworkOrder, Flatten;
    PutIsNetworkOrder(h.messageLength, 2);
    PutIsNetworkOrder(h.correctionField, 8);
    PutIsNetworkOrder(h.portNumber, 2);
    PutIsNetworkOrder(h.sequenceId, 2);
    Packed(h.majorSdoId, h.messageType);
    Packed(h.minorVersionPTP, h.versionPTP);
    assert HeaderFields(h) == HeaderOnWire(h);
  }

  /** The body of a Follow_Up on the wire. */
  function FollowUpOnWire(m: FollowUp): seq<Bytes> {
    [NetworkOrder(m.secondsMsb, 2), NetworkOrder(m.secondsLsb, 4), NetworkOrder(m.nanoseconds, 4),
     NetworkOrder(m.tlvType, 2), NetworkOrder(m.lengthField, 2), m.organizationId, m.organizationSubType,
     NetworkOrder(m.cumulativeScaledRateOffset, 4), NetworkOrder(m.gmTimeBaseIndicator, 2),
     NetworkOrder(m.lastGmPhaseChange.nsecMsb, 2), NetworkOrder(m.lastGmPhaseChange.nsec, 8),
     NetworkOrder(m.lastGmPhaseChange.subns, 2), NetworkOrder(m.scaledLastGmFreqChange, 4)]
  }

  lemma FollowUpLayout(m: FollowUp)
    requires m.Sized() && m.head.Nibbles()
    ensures EncodeFollowUp(m) == Flatten(HeaderOnWire(m.head)) + Flatten(FollowUpOnWire(m))
    ensures HasWidths(FollowUpOnWire(m), FOLLOW_UP_WIDTHS)
  {
    hide Put, NetworkOrder, Flatten, EncodeHeader, HeaderOnWire;
    HeaderLayout(m.head);
    PutIsNetworkOrder(m.secondsMsb, 2);
    PutIsNetworkOrder(m.secondsLsb, 4);
    PutIsNetworkOrder(m.nanoseconds, 4);
    PutIsNetworkOrder(m.tlvType, 2);
    PutIsNetworkOrder(m.lengthField, 2);
    PutIsNetworkOrder(m.cumulativeScaledRateOffset, 4);
    PutIsNetworkOrder(m.gmTimeBaseIndicator, 2);
    PutIsNetworkOrder(m.lastGmPhaseChange.nsecMsb, 2);
    PutIsNetworkOrder(m.lastGmPhaseChange.nsec, 8);
    PutIsNetworkOrder(m.lastGmPhaseChange.subns, 2);
    PutIsNetworkOrder(m.scaledLastGmFreqChange, 4);
    assert FollowUpFields(m) == FollowUpOnWire(m);
  }
}
