/**
  Holding registers of the Modbus/TCP server (sections 6.3 and 6.6 of the MODBUS Application Protocol
  V1.1b3): one address space of 16-bit words over 16-, 32- and 64-bit storage.
 */
module ModbusRegisters {
  import opened Words

  const MIN_16B_RANGE: int := 1024
  const MIN_32B_RANGE: int := 2048
  const MIN_64B_RANGE: int := 4096
  const MAX_HOLD_REGS: int := 8192
  const BUFFER_SIZE: int := 1024

  const ILLEGAL_DATA_ADDRESS: u8 := 2
  const ILLEGAL_DATA_VALUE: u8 := 3

  /** A PLC variable behind an address, or none. */
  datatype Cell<T> = Unmapped | Mapped(value: T)

  /** All registers: PLC variables by width, and the words kept for unmapped addresses. */
  datatype Registers = Registers(outputs: seq<Cell<u16>>, memory16: seq<Cell<u16>>,
                                 memory32: seq<Cell<u32>>, memory64: seq<Cell<u64>>, holding: seq<u16>)

  predicate Sized(r: Registers) {
    && |r.outputs| == BUFFER_SIZE && |r.memory16| == BUFFER_SIZE && |r.memory32| == BUFFER_SIZE
    && |r.memory64| == BUFFER_SIZE && |r.holding| == MAX_HOLD_REGS
  }

  /** Address 1024 is taken for an output, one past the end of that table; the code has no answer for it. */
  predicate Addressable(p: int) { 0 <= p < MAX_HOLD_REGS && p != MIN_16B_RANGE }

  // ---- Words inside wider variables, most significant first ----

  function Word32(v: u32, k: int): u16
    requires 0 <= k < 2
  {
    if k == 0 then v / TWO16 else v % TWO16
  }

  /** Masking one word out and or-ing the new one in. */
  function SetWord32(v: u32, k: int, w: u16): u32
    requires 0 <= k < 2
  {
    if k == 0 then v % TWO16 + w * TWO16 else v / TWO16 * TWO16 + w
  }

  lemma SetThenGet32(v: u32, k: int, w: u16, j: int)
    requires 0 <= k < 2 && 0 <= j < 2
    ensures Word32(SetWord32(v, k, w), j) == if j == k then w else Word32(v, j)
  {
  }

  function Word64(v: u64, k: int): u16
    requires 0 <= k < 4
  {
    if k == 0 then v / TWO48 else if k == 1 then v / TWO32 % TWO16 else if k == 2 then v / TWO16 % TWO16 else v % TWO16
  }

  function SetWord64(v: u64, k: int, w: u16): (r: u64)
    requires 0 <= k < 4
  {
    if k == 0 then v % TWO48 + w * TWO48
    else if k == 1 then (assert v / TWO48 * TWO48 <= v; v / TWO48 * TWO48 + w * TWO32 + v % TWO32)
    else if k == 2 then v / TWO32 * TWO32 + w * TWO16 + v % TWO16
    else v / TWO16 * TWO16 + w
  }

  function Compose64(a: u16, b: u16, c: u16, d: u16): (v: u64)
  {
    a * TWO48 + b * TWO32 + c * TWO16 + d
  }

  lemma WordsOfCompose(a: u16, b: u16, c: u16, d: u16)
    ensures var v := Compose64(a, b, c, d); Word64(v, 0) == a && Word64(v, 1) == b && Word64(v, 2) == c && Word64(v, 3) == d
  {
    var v := Compose64(a, b, c, d);
    assert v == a * TWO48 + (b * TWO32 + c * TWO16 + d);
    assert v == (a * TWO16 + b) * TWO32 + (c * TWO16 + d);
    Split32(a * TWO16 + b, c * TWO16 + d);
    Split16(a, b);
    assert v == ((a * TWO16 + b) * TWO16 + c) * TWO16 + d;
    Split16((a * TWO16 + b) * TWO16 + c, d);
    Split16(a * TWO16 + b, c);
  }

  lemma ComposeOfWords(v: u64)
    ensures v == Compose64(Word64(v, 0), Word64(v, 1), Word64(v, 2), Word64(v, 3))
  {
    var n0, n1, n2, n3 := SplitDigits(v);
    assert v == Compose64(n3, n2, n1, n0);
    WordsOfCompose(n3, n2, n1, n0);
  }

  lemma SetWordComposed(a: u16, b: u16, c: u16, d: u16, w: u16)
    ensures var v := Compose64(a, b, c, d);
            && SetWord64(v, 0, w) == Compose64(w, b, c, d) && SetWord64(v, 1, w) == Compose64(a, w, c, d)
            && SetWord64(v, 2, w) == Compose64(a, b, w, d) && SetWord64(v, 3, w) == Compose64(a, b, c, w)
  {
    var v := Compose64(a, b, c, d);
    assert v == (a * TWO16 + b) * TWO32 + (c * TWO16 + d);
    Split32(a * TWO16 + b, c * TWO16 + d);
    assert v == ((a * TWO16 + b) * TWO16 + c) * TWO16 + d;
    Split16((a * TWO16 + b) * TWO16 + c, d);
    Split48(a, b * TWO32 + c * TWO16 + d);
  }

  lemma SetThenGet64(v: u64, k: int, w: u16, j: int)
    requires 0 <= k < 4 && 0 <= j < 4
    ensures Word64(SetWord64(v, k, w), j) == if j == k then w else Word64(v, j)
  {
    hide Word64, SetWord64, Compose64;
    ComposeOfWords(v);
    var a, b, c, d := Word64(v, 0), Word64(v, 1), Word64(v, 2), Word64(v, 3);
    SetWordComposed(a, b, c, d, w);
    WordsOfCompose(if k == 0 then w else a, if k == 1 then w else b, if k == 2 then w else c, if k == 3 then w else d);
  }

  // ---- One address ----

  /** The two bytes a read answers with; an unmapped wide register gives its low byte twice. */
  function ReadBytes(r: Registers, p: int): (u8, u8)
    requires Sized(r) && Addressable(p)
  {
    if p < MIN_16B_RANGE then Bytes16(r.outputs[p])
    else if p < MIN_32B_RANGE then Bytes16(r.memory16[p - MIN_16B_RANGE])
    else
      var spare := (LowByte(r.holding[p]), LowByte(r.holding[p]));
      if p < MIN_64B_RANGE then
        match r.memory32[(p - MIN_32B_RANGE) / 2]
        case Unmapped => spare
        case Mapped(v) => BytesOf(Word32(v, (p - MIN_32B_RANGE) % 2))
      else
        match r.memory64[(p - MIN_64B_RANGE) / 4]
        case Unmapped => spare
        case Mapped(v) => BytesOf(Word64(v, (p - MIN_64B_RANGE) % 4))
  }

  function BytesOf(w: u16): (u8, u8) { (HighByte(w), LowByte(w)) }

  function Bytes16(c: Cell<u16>): (u8, u8) {
    match c
    case Unmapped => (0, 0)
    case Mapped(v) => BytesOf(v)
  }

  /** Two bytes on the wire, as a number. */
  function Spelled(high: int, low: int): int { 256 * high + low }

  /** The word at an address: of the variable there, most significant word of a wide one first, or what stands for it. */
  function WordAt(r: Registers, p: int): int
    requires Sized(r) && Addressable(p)
  {
    if p < 1024 then (if r.outputs[p].Mapped? then r.outputs[p].value else 0)
    else if p < 2048 then (if r.memory16[p - 1024].Mapped? then r.memory16[p - 1024].value else 0)
    else if p < 4096 then
      var k := (p - 2048) / 2;
      if r.memory32[k].Unmapped? then 257 * (r.holding[p] % 256)
      else if p % 2 == 0 then r.memory32[k].value / 65536 else r.memory32[k].value % 65536
    else
      var k := (p - 4096) / 4;
      if r.memory64[k].Unmapped? then 257 * (r.holding[p] % 256)
      else
        var v := r.memory64[k].value;
        if p % 4 == 0 then v / 0x1_0000_0000_0000
        else if p % 4 == 1 then v / 0x1_0000_0000 % 65536
        else if p % 4 == 2 then v / 65536 % 65536
        else v % 65536
  }

  /** The two bytes of an answer spell that word, high byte first. */
  lemma BytesSpellWord(r: Registers, p: int)
    requires Sized(r) && Addressable(p)
    ensures var (high, low) := ReadBytes(r, p); Spelled(high, low) == WordAt(r, p)
  {
    if p >= MIN_64B_RANGE {
      WideBytes(r, p);
    } else {
      hide Word64;
    }
  }

  lemma WideBytes(r: Registers, p: int)
    requires Sized(r) && Addressable(p) && p >= MIN_64B_RANGE
    ensures var (high, low) := ReadBytes(r, p); Spelled(high, low) == WordAt(r, p)
  {
    var k := (p - MIN_64B_RANGE) % 4;
    assert k == p % 4;
    match r.memory64[(p - MIN_64B_RANGE) / 4]
    case Unmapped =>
    case Mapped(v) =>
      var w := Word64(v, k);
      assert ReadBytes(r, p) == BytesOf(w);
  }

  function Stored<T>(cells: seq<Cell<T>>, k: nat, v: T): seq<Cell<T>>
    requires k < |cells|
  {
    if cells[k].Mapped? then cells[k := Mapped(v)] else cells
  }

  function WriteWord(r: Registers, p: int, w: u16): Registers
    requires Sized(r) && Addressable(p)
  {
    if p < MIN_16B_RANGE then r.(outputs := Stored(r.outputs, p, w))
    else if p < MIN_32B_RANGE then r.(memory16 := Stored(r.memory16, p - MIN_16B_RANGE, w))
    else if p < MIN_64B_RANGE then
      var k := (p - MIN_32B_RANGE) / 2;
      match r.memory32[k]
      case Unmapped => r.(holding := r.holding[p := w])
      case Mapped(v) => r.(memory32 := r.memory32[k := Mapped(SetWord32(v, (p - MIN_32B_RANGE) % 2, w))])
    else
      var k := (p - MIN_64B_RANGE) / 4;
      match r.memory64[k]
      case Unmapped => r.(holding := r.holding[p := w])
      case Mapped(v) => r.(memory64 := r.memory64[k := Mapped(SetWord64(v, (p - MIN_64B_RANGE) % 4, w))])
  }

  predicate HasVariable(r: Registers, p: int)
    requires Sized(r) && Addressable(p)
  {
    if p < MIN_16B_RANGE then r.outputs[p].Mapped?
    else if p < MIN_32B_RANGE then r.memory16[p - MIN_16B_RANGE].Mapped?
    else if p < MIN_64B_RANGE then r.memory32[(p - MIN_32B_RANGE) / 2].Mapped?
    else r.memory64[(p - MIN_64B_RANGE) / 4].Mapped?
  }

  /** Writing one address changes what is read at that address only. */
  lemma WriteLeavesOthers(r: Registers, p: int, w: u16, q: int)
    requires Sized(r) && Addressable(p) && Addressable(q) && p != q
    ensures ReadBytes(WriteWord(r, p, w), q) == ReadBytes(r, q)
  {
    hide Word32, Word64, SetWord32, SetWord64, HighByte;
    if MIN_32B_RANGE <= p < MIN_64B_RANGE && MIN_32B_RANGE <= q < MIN_64B_RANGE
       && (p - MIN_32B_RANGE) / 2 == (q - MIN_32B_RANGE) / 2 {
      var cell := r.memory32[(p - MIN_32B_RANGE) / 2];
      if cell.Mapped? {
        SetThenGet32(cell.value, (p - MIN_32B_RANGE) % 2, w, (q - MIN_32B_RANGE) % 2);
      }
    }
    if p >= MIN_64B_RANGE && q >= MIN_64B_RANGE && (p - MIN_64B_RANGE) / 4 == (q - MIN_64B_RANGE) / 4 {
      var cell := r.memory64[(p - MIN_64B_RANGE) / 4];
      if cell.Mapped? {
        SetThenGet64(cell.value, (p - MIN_64B_RANGE) % 4, w, (q - MIN_64B_RANGE) % 4);
      }
    }
  }

  /**
    What is written is read back, high byte first, exactly if a variable is mapped there; without one,
    only the words that an absent 16-bit register (0) or a doubled low byte happens to spell.
   */
  lemma ReadAfterWrite(r: Registers, p: int, w: u16)
    requires Sized(r) && Addressable(p)
    ensures Sized(WriteWord(r, p, w))
    ensures !HasVariable(r, p) ==> WriteWord(r, p, w) == if p < 2048 then r else r.(holding := r.holding[p := w])
    ensures var (high, low) := ReadBytes(WriteWord(r, p, w), p);
            Spelled(high, low) == w <==> HasVariable(r, p) || (if p < 2048 then w == 0 else w / 256 == w % 256)
  {
    hide Word32, Word64, SetWord32, SetWord64;
    if HasVariable(r, p) && MIN_32B_RANGE <= p < MIN_64B_RANGE {
      var k := (p - MIN_32B_RANGE) % 2;
      SetThenGet32(r.memory32[(p - MIN_32B_RANGE) / 2].value, k, w, k);
    }
    if HasVariable(r, p) && p >= MIN_64B_RANGE {
      var k := (p - MIN_64B_RANGE) % 4;
      SetThenGet64(r.memory64[(p - MIN_64B_RANGE) / 4].value, k, w, k);
    }
  }

  /** Writing both words of a 32-bit variable stores the big-endian value they spell. */
  lemma WriteBothWords(r: Registers, k: nat, a: u16, b: u16)
    requires Sized(r) && k < BUFFER_SIZE && r.memory32[k].Mapped?
    ensures var p := MIN_32B_RANGE + 2 * k;
            var s := WriteWord(r, p, a);
            Sized(s) && WriteWord(s, p + 1, b) == r.(memory32 := r.memory32[k := Mapped(a * TWO16 + b)])
  {
    var v := r.memory32[k].value;
    assert SetWord32(v, 0, a) == a * TWO16 + v % TWO16;
    Split16(a, v % TWO16);
    assert SetWord32(SetWord32(v, 0, a), 1, b) == a * TWO16 + b;
    assert r.memory32[k := Mapped(SetWord32(v, 0, a))][k := Mapped(a * TWO16 + b)] == r.memory32[k := Mapped(a * TWO16 + b)];
  }

  function WriteFour(r: Registers, p: int, a: u16, b: u16, c: u16, d: u16): Registers
    requires Sized(r) && MIN_64B_RANGE <= p && p + 3 < MAX_HOLD_REGS
  {
    WriteWord(WriteWord(WriteWord(WriteWord(r, p, a), p + 1, b), p + 2, c), p + 3, d)
  }

  /** Writing all four words of a 64-bit variable stores the big-endian value they spell. */
  lemma WriteAllFourWords(r: Registers, k: nat, a: u16, b: u16, c: u16, d: u16)
    requires Sized(r) && k < BUFFER_SIZE && r.memory64[k].Mapped?
    ensures WriteFour(r, MIN_64B_RANGE + 4 * k, a, b, c, d)
            == r.(memory64 := r.memory64[k := Mapped(Compose64(a, b, c, d))])
  {
    hide SetWord64, Word64, Compose64;
    var v := r.memory64[k].value;
    ComposeOfWords(v);
    var v1, v2, v3 := Word64(v, 1), Word64(v, 2), Word64(v, 3);
    SetWordComposed(Word64(v, 0), v1, v2, v3, a);
    SetWordComposed(a, v1, v2, v3, b);
    SetWordComposed(a, b, v2, v3, c);
    SetWordComposed(a, b, c, v3, d);
    var m := r.memory64;
    assert m[k := Mapped(Compose64(a, b, c, v3))][k := Mapped(Compose64(a, b, c, d))] == m[k := Mapped(Compose64(a, b, c, d))];
    assert m[k := Mapped(Compose64(a, b, v2, v3))][k := Mapped(Compose64(a, b, c, v3))] == m[k := Mapped(Compose64(a, b, c, v3))];
    assert m[k := Mapped(Compose64(a, v1, v2, v3))][k := Mapped(Compose64(a, b, v2, v3))] == m[k := Mapped(Compose64(a, b, v2, v3))];
  }

  // ---- The requests, worked on in place ----

  /** The request: start address, and number of words or the word itself. */
  function Start(request: seq<u8>): u16
    requires |request| >= 12
  {
    Word(request[8], request[9])
  }

  function Argument(request: seq<u8>): u16
    requires |request| >= 12
  {
    Word(request[10], request[11])
  }

  /** Start address and argument are big-endian; the last two bytes of a write are read back as they were sent. */
  lemma RequestReadBack(r: Registers, request: seq<u8>)
    requires Sized(r) && |request| >= 12 && Addressable(Start(request))
    ensures Start(request) == Spelled(request[8], request[9]) && Argument(request) == Spelled(request[10], request[11])
    ensures HasVariable(r, Start(request)) ==>
              ReadBytes(WriteWord(r, Start(request), Argument(request)), Start(request)) == (request[10], request[11])
  {
    hide WriteWord, ReadBytes, HasVariable;
    var p, w := Start(request), Argument(request);
    ReadAfterWrite(r, p, w);
    if HasVariable(r, p) {
      var (high, low) := ReadBytes(WriteWord(r, p, w), p);
      assert Spelled(high, low) == Spelled(request[10], request[11]);
    }
  }

  /** An empty range is never out of bounds. */
  function RangeError(start: u16, count: nat): u8 {
    if count > 0 && start + count > MAX_HOLD_REGS then ILLEGAL_DATA_ADDRESS else 0
  }

  class ModbusServer {
    const outputs: array<Cell<u16>>
    const memory16: array<Cell<u16>>
    const memory32: array<Cell<u32>>
    const memory64: array<Cell<u64>>
    const holding: array<u16>
    var messageLength: int

    ghost predicate Valid()
    {
      && outputs.Length == BUFFER_SIZE && memory16.Length == BUFFER_SIZE && memory32.Length == BUFFER_SIZE
      && memory64.Length == BUFFER_SIZE && holding.Length == MAX_HOLD_REGS && outputs != memory16
    }

    ghost function Contents(): (r: Registers)
      reads outputs, memory16, memory32, memory64, holding
    {
      Registers(outputs[..], memory16[..], memory32[..], memory64[..], holding[..])
    }

    constructor (outputs: array<Cell<u16>>, memory16: array<Cell<u16>>, memory32: array<Cell<u32>>,
                 memory64: array<Cell<u64>>, holding: array<u16>)
      requires outputs.Length == BUFFER_SIZE && memory16.Length == BUFFER_SIZE && memory32.Length == BUFFER_SIZE
      requires memory64.Length == BUFFER_SIZE && holding.Length == MAX_HOLD_REGS && outputs != memory16
      ensures Valid() && messageLength == 0
      ensures this.outputs == outputs && this.memory16 == memory16 && this.memory32 == memory32
      ensures this.memory64 == memory64 && this.holding == holding
    {
      this.outputs, this.memory16, this.memory32, this.memory64, this.holding := outputs, memory16, memory32, memory64, holding;
      messageLength := 0;
    }

    /** `overran`: an address was looked up past the end of the output table. */
    method ReadAt(position: int) returns (high: u8, low: u8, overran: bool)
      requires Valid() && 0 <= position < MAX_HOLD_REGS
      ensures overran <==> !Addressable(position)
      ensures !overran ==> (high, low) == ReadBytes(Contents(), position)
    {
      hide Word32, Word64, HighByte, LowByte;
      high, low, overran := 0, 0, false;
      if position <= MIN_16B_RANGE {
        if position >= outputs.Length {
          high, low, overran := *, *, true;
        } else if outputs[position].Mapped? {
          high, low := HighByte(outputs[position].value), LowByte(outputs[position].value);
        }
      } else if position < MIN_32B_RANGE {
        var k := position - MIN_16B_RANGE;
        if memory16[k].Mapped? {
          high, low := HighByte(memory16[k].value), LowByte(memory16[k].value);
        }
      } else if position < MIN_64B_RANGE {
        var k := (position - MIN_32B_RANGE) / 2;
        if memory32[k].Mapped? {
          var w := Word32(memory32[k].value, (position - MIN_32B_RANGE) % 2);
          high, low := HighByte(w), LowByte(w);
        } else {
          high, low := LowByte(holding[position]), LowByte(holding[position]);
        }
      } else {
        var k := (position - MIN_64B_RANGE) / 4;
        if memory64[k].Mapped? {
          var w := Word64(memory64[k].value, (position - MIN_64B_RANGE) % 4);
          high, low := HighByte(w), LowByte(w);
        } else {
          high, low := LowByte(holding[position]), LowByte(holding[position]);
        }
      }
    }

    method StoreAt(position: int, w: u16) returns (overran: bool)
      requires Valid() && 0 <= position < MAX_HOLD_REGS
      modifies outputs, memory16, memory32, memory64, holding
      ensures overran <==> !Addressable(position)
      ensures !overran ==> Contents() == WriteWord(old(Contents()), position, w)
    {
      hide SetWord32, SetWord64;
      overran := false;
      if position <= MIN_16B_RANGE {
        if position >= outputs.Length {
          overran := true;
        } else if outputs[position].Mapped? {
          outputs[position] := Mapped(w);
        }
      } else if position < MIN_32B_RANGE {
        if memory16[position - MIN_16B_RANGE].Mapped? {
          memory16[position - MIN_16B_RANGE] := Mapped(w);
        }
      } else if position < MIN_64B_RANGE {
        var k := (position - MIN_32B_RANGE) / 2;
        if memory32[k].Mapped? {
          memory32[k] := Mapped(SetWord32(memory32[k].value, (position - MIN_32B_RANGE) % 2, w));
        } else {
          holding[position] := w;
        }
      } else {
        var k := (position - MIN_64B_RANGE) / 4;
        if memory64[k].Mapped? {
          memory64[k] := Mapped(SetWord64(memory64[k].value, (position - MIN_64B_RANGE) % 4, w));
        } else {
          holding[position] := w;
        }
      }
    }

    method Fail(buffer: array<u8>, code: u8)
      requires buffer.Length >= 9
      modifies buffer, `messageLength
      ensures messageLength == 9 && buffer[4] == 0 && buffer[5] == 3 && buffer[8] == code
      ensures buffer[7] == if old(buffer[7]) >= 0x80 then old(buffer[7]) else old(buffer[7]) + 0x80
    {
      buffer[4] := 0;
      buffer[5] := 3;
      buffer[7] := if buffer[7] >= 0x80 then buffer[7] else buffer[7] + 0x80;
      buffer[8] := code;
      messageLength := 9;
    }

    method CopyOut(buffer: array<u8>, start: u16, count: nat) returns (error: u8, overran: bool)
      requires Valid() && buffer.Length >= 9 + 2 * count
      modifies buffer
      ensures overran <==> start <= MIN_16B_RANGE < start + count
      ensures error == RangeError(start, count)
      ensures buffer[..9] == old(buffer[..9])
      ensures forall k :: 0 <= k < count && Addressable(start + k) ==>
                (buffer[9 + 2 * k], buffer[10 + 2 * k]) == ReadBytes(Contents(), start + k)
    {
      hide ReadBytes;
      error, overran := 0, false;
      var i := 0;
      while i < count
        invariant 0 <= i <= count && error == RangeError(start, i)
        invariant overran <==> start <= MIN_16B_RANGE < start + i
        invariant buffer[..9] == old(buffer[..9])
        invariant forall k :: 0 <= k < i && Addressable(start + k) ==>
                    (buffer[9 + 2 * k], buffer[10 + 2 * k]) == ReadBytes(Contents(), start + k)
      {
        if start + i < MAX_HOLD_REGS {
          var high, low, past := ReadAt(start + i);
          buffer[9 + i * 2] := high;
          buffer[10 + i * 2] := low;
          overran := overran || past;
        } else {
          error := ILLEGAL_DATA_ADDRESS;
        }
        i := i + 1;
      }
    }

    /** The words from `start` on, or the error that one of them lies outside the address space. */
    method AnswerRead(buffer: array<u8>, start: u16, count: nat) returns (overran: bool)
      requires Valid() && count * 2 <= 255 && buffer.Length >= 265
      modifies buffer, `messageLength
      ensures overran <==> start <= MIN_16B_RANGE < start + count
      ensures RangeError(start, count) != 0 ==>
                messageLength == 9 && buffer[4] == 0 && buffer[5] == 3 && buffer[8] == RangeError(start, count)
      ensures !overran && RangeError(start, count) == 0 ==>
                && messageLength == 9 + 2 * count && Word(buffer[4], buffer[5]) == 3 + 2 * count && buffer[8] == 2 * count
                && forall k :: 0 <= k < count ==> Spelled(buffer[9 + 2 * k], buffer[10 + 2 * k]) == WordAt(Contents(), start + k)
    {
      hide ReadBytes, WordAt;
      buffer[4] := HighByte(count * 2 + 3);
      buffer[5] := LowByte(count * 2 + 3);
      buffer[8] := count * 2;
      ghost var header := buffer[..9];
      var error;
      error, overran := CopyOut(buffer, start, count);
      assert buffer[4] == header[4] && buffer[5] == header[5] && buffer[8] == header[8];
      if error != 0 {
        Fail(buffer, error);
      } else {
        messageLength := count * 2 + 9;
        forall k | 0 <= k < count && Addressable(start + k)
          ensures Spelled(buffer[9 + 2 * k], buffer[10 + 2 * k]) == WordAt(Contents(), start + k)
        {
          BytesSpellWord(Contents(), start + k);
        }
      }
    }

    /**
      The buffer has room for the longest answer, and holds the request in its first `size` bytes.
      `overran` is no result of the code: it marks the requests that look past the output table.
     */
    method ReadHoldingRegisters(buffer: array<u8>, size: nat) returns (overran: bool)
      requires Valid() && buffer.Length >= 265 && size <= buffer.Length
      modifies buffer, `messageLength
      ensures size < 12 ==> !overran && messageLength == 9 && buffer[4] == 0 && buffer[5] == 3 && buffer[8] == 3
      ensures size >= 12 ==>
                var start, count := Start(old(buffer[..size])), Argument(old(buffer[..size]));
                && (overran <==> count <= 127 && start <= 1024 < start + count)
                && (overran ||
                    if count > 127 || (count > 0 && start + count > 8192) then
                      messageLength == 9 && buffer[4] == 0 && buffer[5] == 3 && buffer[8] == 2
                    else
                      && messageLength == 9 + 2 * count && Spelled(buffer[4], buffer[5]) == 3 + 2 * count
                      && buffer[8] == 2 * count
                      && forall k :: 0 <= k < count ==> Spelled(buffer[9 + 2 * k], buffer[10 + 2 * k]) == WordAt(Contents(), start + k))
      ensures Contents() == old(Contents())
    {
      hide ReadBytes, Contents, Word, WordAt;
      if size < 12 {
        Fail(buffer, ILLEGAL_DATA_VALUE);
        return false;
      }
      var start, count: int := Word(buffer[8], buffer[9]), Word(buffer[10], buffer[11]);
      assert start == Start(buffer[..size]) && count == Argument(buffer[..size]);
      if count * 2 > 255 {
        Fail(buffer, ILLEGAL_DATA_ADDRESS);
        return false;
      }
      overran := AnswerRead(buffer, start, count);
    }

    method WriteRegister(buffer: array<u8>, size: nat) returns (overran: bool)
      requires Valid() && buffer.Length >= 12 && size <= buffer.Length
      modifies buffer, `messageLength, outputs, memory16, memory32, memory64, holding
      ensures overran <==> size >= 12 && Start(old(buffer[..size])) == 1024
      ensures size < 12 ==> messageLength == 9 && buffer[8] == 3 && Contents() == old(Contents())
      ensures size >= 12 && !overran ==>
                var start, w := Start(old(buffer[..size])), Argument(old(buffer[..size]));
                if start < 8192 then
                  messageLength == 12 && buffer[4] == 0 && buffer[5] == 6 && Contents() == WriteWord(old(Contents()), start, w)
                else
                  messageLength == 9 && buffer[8] == 2 && Contents() == old(Contents())
    {
      hide WriteWord;
      overran := false;
      if size < 12 {
        Fail(buffer, ILLEGAL_DATA_VALUE);
        return;
      }
      var start := Word(buffer[8], buffer[9]);
      if start < MAX_HOLD_REGS {
        overran := StoreAt(start, Word(buffer[10], buffer[11]));
        buffer[4] := 0;
        buffer[5] := 6;
        messageLength := 12;
      } else {
        Fail(buffer, ILLEGAL_DATA_ADDRESS);
      }
    }
  }
}
