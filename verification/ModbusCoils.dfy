/**
  Coils of the Modbus/TCP server (sections 6.1 and 6.11 of the MODBUS Application Protocol V1.1b3),
  read and written in blocks of whole bytes.
 */
module ModbusCoils {
  import opened Words
  import opened ModbusRegisters

  const MAX_COILS: int := 8192
  type Coil = Cell<bool>

  predicate IsOn(c: Coil) { c.Mapped? && c.value }

  // ---- Blocks of coils ----

  /** Bit k of a block of bytes, least significant bit of the first byte first. */
  predicate BlockBit(bytes: seq<u8>, k: nat)
    requires k < 8 * |bytes|
  {
    Bit(bytes[k / 8], k % 8)
  }

  /** The first m bits of the block are stored from coil `start` on, where a variable is mapped. */
  function Written(coils: seq<Coil>, start: nat, bytes: seq<u8>, m: nat): (r: seq<Coil>)
    requires m <= 8 * |bytes|
    ensures |r| == |coils|
  {
    seq(|coils|, p requires 0 <= p < |coils| =>
      if start <= p < start + m && coils[p].Mapped? then Mapped(BlockBit(bytes, p - start)) else coils[p])
  }

  /** A byte holds the eight coils from `position` on, as far as there are any, unmapped ones as 0. */
  predicate ByteShows(coils: seq<Coil>, position: nat, b: u8) {
    forall j :: 0 <= j < 8 && position + j < |coils| ==> Bit(b, j) == IsOn(coils[position + j])
  }

  /** The bytes hold the coils from `start` on. */
  predicate Shows(coils: seq<Coil>, start: nat, bytes: seq<u8>) {
    forall i :: 0 <= i < |bytes| ==> ByteShows(coils, start + 8 * i, bytes[i])
  }

  /**
    Reading any block shows the same bytes before and after a write, if it has no coil in common with the
    rounded-up range written.
   */
  lemma OtherBlocksReadSame(coils: seq<Coil>, start: nat, bytes: seq<u8>, other: nat, answer: seq<u8>)
    requires other + 8 * |answer| <= start || start + 8 * |bytes| <= other
    ensures Shows(Written(coils, start, bytes, 8 * |bytes|), other, answer) <==> Shows(coils, other, answer)
  {
    hide Bit;
    var after := Written(coils, start, bytes, 8 * |bytes|);
    forall i | 0 <= i < |answer|
      ensures ByteShows(after, other + 8 * i, answer[i]) <==> ByteShows(coils, other + 8 * i, answer[i])
    {
      SameCoilsSameByte(coils, after, other + 8 * i, answer[i]);
    }
  }

  lemma SameCoilsSameByte(a: seq<Coil>, b: seq<Coil>, position: nat, byte: u8)
    requires |a| == |b| && forall p :: position <= p < position + 8 && p < |a| ==> a[p] == b[p]
    ensures ByteShows(a, position, byte) <==> ByteShows(b, position, byte)
  {
    hide Bit;
  }

  /**
    Reading the block just written gives the same bytes, padding bits included, exactly if every bit
    written to a coil without a variable was 0.
   */
  lemma BlockRoundTrip(coils: seq<Coil>, start: nat, bytes: seq<u8>, answer: seq<u8>)
    requires start + 8 * |bytes| <= |coils| && |answer| == |bytes|
    requires Shows(Written(coils, start, bytes, 8 * |bytes|), start, answer)
    ensures answer == bytes <==> forall k :: 0 <= k < 8 * |bytes| && coils[start + k].Unmapped? ==> !BlockBit(bytes, k)
  {
    hide Bit;
    forall i, j | 0 <= i < |bytes| && 0 <= j < 8
      ensures Bit(answer[i], j) == (coils[start + (8 * i + j)].Mapped? && BlockBit(bytes, 8 * i + j))
    {
      ShownBit(coils, start, bytes, answer, i, j);
    }
    if forall k :: 0 <= k < 8 * |bytes| && coils[start + k].Unmapped? ==> !BlockBit(bytes, k) {
      forall i | 0 <= i < |bytes| ensures answer[i] == bytes[i] {
        forall j | 0 <= j < 8 ensures Bit(answer[i], j) == Bit(bytes[i], j) {
          assert Bit(bytes[i], j) == BlockBit(bytes, 8 * i + j);
        }
        SameBits(answer[i], bytes[i]);
      }
    }
    if answer == bytes {
      forall k | 0 <= k < 8 * |bytes| && coils[start + k].Unmapped? ensures !BlockBit(bytes, k) {
        ShownBit(coils, start, bytes, answer, k / 8, k % 8);
        assert 8 * (k / 8) + k % 8 == k;
      }
    }
  }

  lemma ShownBit(coils: seq<Coil>, start: nat, bytes: seq<u8>, answer: seq<u8>, i: nat, j: nat)
    requires start + 8 * |bytes| <= |coils| && |answer| == |bytes| && i < |bytes| && j < 8
    requires Shows(Written(coils, start, bytes, 8 * |bytes|), start, answer)
    ensures Bit(answer[i], j) == (coils[start + (8 * i + j)].Mapped? && BlockBit(bytes, 8 * i + j))
  {
    hide Bit;
    assert ByteShows(Written(coils, start, bytes, 8 * |bytes|), start + 8 * i, answer[i]);
  }

  // ---- The requests, worked on in place ----

  /** The least number of bytes that has room for so many coils. */
  function ByteCount(coils: nat): (n: nat)
    ensures coils <= 8 * n < coils + 8
  {
    (coils + 7) / 8
  }

  class CoilServer {
    const coils: array<Coil>
    var messageLength: int

    constructor (coils: array<Coil>)
      requires coils.Length == MAX_COILS
      ensures this.coils == coils && messageLength == 0
    {
      this.coils := coils;
      messageLength := 0;
    }

    /** ModbusError */
    method Fail(buffer: array<u8>, code: u8)
      requires buffer.Length >= 9
      modifies buffer, `messageLength
      ensures messageLength == 9 && buffer[4] == 0 && buffer[5] == 3 && buffer[8] == code
      ensures buffer[7] == if old(buffer[7]) >= 0x80 then old(buffer[7]) else old(buffer[7]) + 0x80
    {
      buffer[4] := 0;
      buffer[5] := 3;
      buffer[7] := if buffer[7] >= 0x80 then buffer[7] else buffer[7] + 0x80;
      buffer[8] := code;
      messageLength := 9;
    }

    /** One byte of the answer, bit by bit; a coil past the end leaves its bit alone. */
    method ReadByte(before: u8, position: nat) returns (b: u8)
      requires coils.Length == MAX_COILS
      ensures ByteShows(coils[..], position, b)
    {
      hide Bit, SetBit;
      b := before;
      for j := 0 to 8
        invariant forall k :: 0 <= k < j && position + k < MAX_COILS ==> Bit(b, k) == IsOn(coils[position + k])
      {
        if position + j < MAX_COILS {
          ghost var b0 := b;
          b := SetBit(b, j, IsOn(coils[position + j]));
          forall k | 0 <= k < 8 ensures Bit(b, k) == if k == j then IsOn(coils[position + j]) else Bit(b0, k) {
            SetBitEffect(b0, j, IsOn(coils[position + j]), k);
          }
        }
      }
    }

    /** One byte of the request, bit by bit; bits for coils past the end are dropped. */
    method WriteByte(position: nat, b: u8)
      requires coils.Length == MAX_COILS
      modifies coils
      ensures forall p :: 0 <= p < MAX_COILS ==>
                coils[p] == if position <= p < position + 8 && old(coils[p]).Mapped?
                            then Mapped(Bit(b, p - position)) else old(coils[p])
    {
      hide Bit;
      for j := 0 to 8
        invariant forall p :: 0 <= p < MAX_COILS ==>
                    coils[p] == if position <= p < position + j && old(coils[p]).Mapped?
                                then Mapped(Bit(b, p - position)) else old(coils[p])
      {
        if position + j < MAX_COILS {
          if coils[position + j].Mapped? {
            coils[position + j] := Mapped(Bit(b, j));
          }
        }
      }
    }

    method PutHeader(buffer: array<u8>, n: nat)
      requires buffer.Length >= 264 && n <= 255
      modifies buffer
      ensures Word(buffer[4], buffer[5]) == n + 3 && buffer[8] == n
    {
      buffer[4] := HighByte(n + 3);
      buffer[5] := LowByte(n + 3);
      buffer[8] := n;
    }

    method CopyOut(buffer: array<u8>, start: nat, n: nat) returns (error: bool)
      requires coils.Length == MAX_COILS && n <= 255 && buffer.Length >= 264
      modifies buffer
      ensures error <==> n > 0 && start + 8 * n > 8192
      ensures buffer[..9] == old(buffer[..9])
      ensures Shows(coils[..], start, buffer[9..9 + n])
    {
      hide ByteShows;
      error := false;
      for i := 0 to n
        invariant error <==> i > 0 && start + 8 * i > MAX_COILS
        invariant buffer[..9] == old(buffer[..9])
        invariant forall q :: 9 <= q < 9 + i ==> ByteShows(coils[..], start + 8 * (q - 9), buffer[q])
      {
        buffer[9 + i] := ReadByte(buffer[9 + i], start + i * 8);
        if start + i * 8 + 7 >= MAX_COILS {
          error := true;
        }
      }
    }

    /** The error code a read answers with, and what it answers without one. */
    method ReadCoils(buffer: array<u8>, size: nat)
      requires coils.Length == MAX_COILS && buffer.Length >= 264 && size <= buffer.Length
      modifies buffer, `messageLength
      ensures size < 12 ==> messageLength == 9 && buffer[8] == 3
      ensures size >= 12 ==>
                var start, n := old(Word(buffer[8], buffer[9])), ByteCount(old(Word(buffer[10], buffer[11])));
                if n > 255 || (n > 0 && start + 8 * n > 8192) then messageLength == 9 && buffer[8] == 2
                else messageLength == 9 + n && buffer[8] == n && Word(buffer[4], buffer[5]) == n + 3
                     && Shows(coils[..], start, buffer[9..9 + n])
    {
      hide Shows, Word;
      if size < 12 {
        Fail(buffer, ILLEGAL_DATA_VALUE);
        return;
      }
      var start, n := Word(buffer[8], buffer[9]), ByteCount(Word(buffer[10], buffer[11]));
      if n > 255 {
        Fail(buffer, ILLEGAL_DATA_ADDRESS);
        return;
      }
      PutHeader(buffer, n);
      ghost var header := buffer[..9];
      var error := CopyOut(buffer, start, n);
      assert buffer[4] == header[4] && buffer[5] == header[5] && buffer[8] == header[8];
      if error {
        Fail(buffer, ILLEGAL_DATA_ADDRESS);
      } else {
        messageLength := n + 9;
      }
    }

    method CopyIn(buffer: array<u8>, start: nat, n: nat) returns (error: bool)
      requires coils.Length == MAX_COILS && buffer.Length >= 13 + n
      modifies coils
      ensures error <==> n > 0 && start + 8 * n > 8192
      ensures coils[..] == Written(old(coils[..]), start, buffer[13..13 + n], 8 * n)
    {
      hide Bit;
      error := false;
      ghost var bytes := buffer[13..13 + n];
      for i := 0 to n
        invariant error <==> i > 0 && start + 8 * i > MAX_COILS
        invariant coils[..] == Written(old(coils[..]), start, bytes, 8 * i)
      {
        ghost var before := coils[..];
        WriteByte(start + i * 8, buffer[13 + i]);
        OneMoreByte(old(coils[..]), start, bytes, i, before, coils[..]);
        if start + i * 8 + 7 >= MAX_COILS {
          error := true;
        }
      }
    }

    /** What is in range is written even if the answer is an error. */
    method WriteMultipleCoils(buffer: array<u8>, size: nat)
      requires coils.Length == MAX_COILS && buffer.Length >= 13 && size <= buffer.Length
      modifies buffer, coils, `messageLength
      ensures size < 12 ==> messageLength == 9 && buffer[8] == 3 && coils[..] == old(coils[..])
      ensures size >= 12 ==>
                var start, n := old(Word(buffer[8], buffer[9])), ByteCount(old(Word(buffer[10], buffer[11])));
                if size < 13 + n || old(buffer[12]) != n then
                  messageLength == 9 && buffer[8] == 3 && coils[..] == old(coils[..])
                else
                  && coils[..] == Written(old(coils[..]), start, old(buffer[13..13 + n]), 8 * n)
                  && (if n > 0 && start + 8 * n > 8192 then messageLength == 9 && buffer[8] == 2
                      else messageLength == 12 && buffer[4] == 0 && buffer[5] == 6)
    {
      hide Word, Written;
      if size < 12 {
        Fail(buffer, ILLEGAL_DATA_VALUE);
        return;
      }
      var start, n := Word(buffer[8], buffer[9]), ByteCount(Word(buffer[10], buffer[11]));
      if size < 13 + n || buffer[12] != n {
        Fail(buffer, ILLEGAL_DATA_VALUE);
        return;
      }
      ghost var bytes := buffer[13..13 + n];
      buffer[4] := 0;
      buffer[5] := 6;
      assert buffer[13..13 + n] == bytes;
      var error := CopyIn(buffer, start, n);
      if error {
        Fail(buffer, ILLEGAL_DATA_ADDRESS);
      } else {
        messageLength := 12;
      }
    }
  }

  lemma OneMoreByte(first: seq<Coil>, start: nat, bytes: seq<u8>, i: nat, before: seq<Coil>, after: seq<Coil>)
    requires i < |bytes| && |first| == |before| == |after|
    requires before == Written(first, start, bytes, 8 * i)
    requires forall p :: 0 <= p < |after| ==>
               after[p] == if start + i * 8 <= p < start + i * 8 + 8 && before[p].Mapped?
                           then Mapped(Bit(bytes[i], p - (start + i * 8))) else before[p]
    ensures after == Written(first, start, bytes, 8 * (i + 1))
  {
    hide Bit;
    forall p | 0 <= p < |after| ensures after[p] == Written(first, start, bytes, 8 * (i + 1))[p] {
      if start + i * 8 <= p < start + i * 8 + 8 {
        assert (p - start) / 8 == i && (p - start) % 8 == p - (start + i * 8);
      }
    }
  }
}
