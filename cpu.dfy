/**
 * The CHIP-8 instruction decoder (`chip::decode`).
 *
 * A CHIP-8 instruction is two bytes, `first` and `second`. The decoder folds
 * the bits that tell instructions apart into one dense key (`code`) and keeps
 * the rest as the operand (`data`), so that a dispatch table can look keys up
 * by exact match. Which bits form the key depends on the top nibble of
 * `first`:
 *
 *   5XY0, 8XYn, 9XY0      key 0x50 / 0x8n / 0x90, data 0xXY
 *   EXnn, FXnn            key 0xEnn / 0xFnn,      data 0xX
 *   00nn                  key 0xnn,               data 0
 *   1NNN ... DXYN (rest)  key 0x1 ... 0xD,        data 0xNNN
 *
 * Masks and shifts are written as division and remainder by powers of two;
 * every bitwise `|` of the source joins disjoint bit ranges and is written `+`.
 */
module Cpu {
  import opened OpCodes

  /** `(b & 0xF0) >> 4`. */
  function HighNibble(b: byte): (n: nat)
    ensures n < 0x10
  {
    b / 0x10
  }

  /** `b & 0xF`; together with HighNibble it splits the byte without loss. */
  function LowNibble(b: byte): (n: nat)
    ensures n < 0x10
    ensures b == HighNibble(b) * 0x10 + n
  {
    b % 0x10
  }

  /** Top nibbles whose key is completed by the last nibble of the word: 5XY0, 8XYn, 9XY0. */
  predicate IsRegisterPairClass(n: int)
  {
    n == 0x5 || n == 0x8 || n == 0x9
  }

  /** Top nibbles whose key is completed by the whole second byte: EXnn, FXnn. */
  predicate IsRegisterClass(n: int)
  {
    n == 0xE || n == 0xF
  }

  /** Top nibbles that are the key on their own (the `default` branch of the switch). */
  predicate IsOperandClass(n: int)
  {
    0x1 <= n <= 0xD && n != 0x5 && n != 0x8 && n != 0x9
  }

  /** The four branches of the decoder cover every top nibble, and no nibble is in two. */
  lemma ClassesPartitionNibbles(n: nat)
    requires n < 0x10
    ensures (n == 0) || IsRegisterPairClass(n) || IsRegisterClass(n) || IsOperandClass(n)
    ensures !(IsRegisterPairClass(n) && IsRegisterClass(n))
    ensures !(IsOperandClass(n) && (n == 0 || IsRegisterPairClass(n) || IsRegisterClass(n)))
  {
  }

  /** The decoder on the two bytes of one instruction; both fields fit in 12 bits. */
  function DecodeWord(first: byte, second: byte): (op: OpCode)
    ensures op.code <= 0xFFF && op.data <= 0xFFF
  {
    var n := HighNibble(first);
    if IsRegisterPairClass(n) then
      OpCode(n * 0x10 + LowNibble(second), LowNibble(first) * 0x10 + HighNibble(second))
    else if IsRegisterClass(n) then
      OpCode(n * 0x100 + second, LowNibble(first))
    else if n == 0 then
      OpCode(second, 0)
    else
      OpCode(n, LowNibble(first) * 0x100 + second)
  }

  /**
   * `chip::decode(program, PC)`: the instruction at offset `pc`. The source
   * indexes the buffer unchecked, so the caller must keep `pc + 1` inside it.
   */
  function Decode(program: seq<byte>, pc: u16): OpCode
    requires pc + 1 < |program|
  {
    DecodeWord(program[pc], program[pc + 1])
  }

  /** Decoding reads the two bytes at `pc` and `pc + 1` and nothing else. */
  lemma DecodeReadsTwoBytes(program: seq<byte>, other: seq<byte>, pc: u16)
    requires pc + 1 < |program| && pc + 1 < |other|
    requires program[pc] == other[pc] && program[pc + 1] == other[pc + 1]
    ensures Decode(program, pc) == Decode(other, pc)
  {
  }

  /** 5XYn, 8XYn, 9XYn: key 0xDn (D the top nibble), data 0xXY with X and Y the register ids. */
  lemma DecodeRegisterPair(first: byte, second: byte)
    requires IsRegisterPairClass(HighNibble(first))
    ensures var op := DecodeWord(first, second);
      && op.code / 0x10 == HighNibble(first)
      && op.code % 0x10 == LowNibble(second)
      && op.data <= 0xFF
      && op.data / 0x10 == LowNibble(first)
      && op.data % 0x10 == HighNibble(second)
  {
  }

  /** EXnn, FXnn: key 0xDnn (D the top nibble), data the register id X alone. */
  lemma DecodeRegister(first: byte, second: byte)
    requires IsRegisterClass(HighNibble(first))
    ensures var op := DecodeWord(first, second);
      && op.code / 0x100 == HighNibble(first)
      && op.code % 0x100 == second
      && op.data <= 0xF
      && op.data == LowNibble(first)
  {
  }

  /** 0Xnn: the key is the second byte and the operand is empty. */
  lemma DecodeZero(first: byte, second: byte)
    requires HighNibble(first) == 0
    ensures DecodeWord(first, second) == OpCode(second, 0)
  {
  }

  /**
   * 1NNN to DXYN: the key is the top nibble and data keeps the other twelve
   * bits, so that the X, Y and N nibbles of DXYN stay in place.
   */
  lemma DecodeOperand(first: byte, second: byte)
    requires IsOperandClass(HighNibble(first))
    ensures var op := DecodeWord(first, second);
      && op.code == HighNibble(first)
      && op.data / 0x100 == LowNibble(first)
      && op.data % 0x100 == second
      && (op.data / 0x10) % 0x10 == HighNibble(second)
      && op.data % 0x10 == LowNibble(second)
  {
  }

  /** The instruction words the decoder can produce. */
  predicate IsDecoded(op: OpCode)
  {
    || (IsRegisterPairClass(op.code / 0x10) && op.code < 0x100 && op.data <= 0xFF)
    || (IsRegisterClass(op.code / 0x100) && op.data <= 0xF)
    || (op.code <= 0xFF && op.data == 0)
    || (IsOperandClass(op.code) && op.data <= 0xFFF)
  }

  /** Every decoded word lies in the image described by IsDecoded. */
  lemma DecodeWordIsDecoded(first: byte, second: byte)
    ensures IsDecoded(DecodeWord(first, second))
  {
  }

  /**
   * Re-encodes an instruction word as two bytes, preferring the classes other
   * than 0 (their keys are told apart by the key alone).
   */
  function EncodeWord(op: OpCode): (word: (byte, byte))
  {
    var c, d := op.code, op.data;
    if IsRegisterPairClass(c / 0x10) && c < 0x100 then
      ((c / 0x10) * 0x10 + (d / 0x10) % 0x10, (d % 0x10) * 0x10 + c % 0x10)
    else if IsRegisterClass(c / 0x100) && c < 0x1000 then
      ((c / 0x100) * 0x10 + d % 0x10, c % 0x100)
    else if IsOperandClass(c) then
      (c * 0x10 + (d / 0x100) % 0x10, d % 0x100)
    else
      (0, c % 0x100)
  }

  /** Every top nibble but 0 is lossless: the two bytes come back from (code, data). */
  lemma EncodeDecode(first: byte, second: byte)
    requires HighNibble(first) != 0
    ensures EncodeWord(DecodeWord(first, second)) == (first, second)
  {
    var n := HighNibble(first);
    ClassesPartitionNibbles(n);
    if IsRegisterPairClass(n) {
      EncodeDecodeRegisterPair(first, second);
    } else if IsRegisterClass(n) {
      EncodeDecodeRegister(first, second);
    } else {
      EncodeDecodeOperand(first, second);
    }
  }

  lemma EncodeDecodeRegisterPair(first: byte, second: byte)
    requires IsRegisterPairClass(HighNibble(first))
    ensures EncodeWord(DecodeWord(first, second)) == (first, second)
  {
    var _ := LowNibble(first);
    var _ := LowNibble(second);
    DecodeRegisterPair(first, second);
  }

  lemma EncodeDecodeRegister(first: byte, second: byte)
    requires IsRegisterClass(HighNibble(first))
    ensures EncodeWord(DecodeWord(first, second)) == (first, second)
  {
    var _ := LowNibble(first);
    DecodeRegister(first, second);
  }

  lemma EncodeDecodeOperand(first: byte, second: byte)
    requires IsOperandClass(HighNibble(first))
    ensures EncodeWord(DecodeWord(first, second)) == (first, second)
  {
    var _ := LowNibble(first);
    DecodeOperand(first, second);
  }

  /** Decoding undoes EncodeWord on every word the decoder can produce. */
  lemma DecodeEncode(op: OpCode)
    requires IsDecoded(op)
    ensures DecodeWord(EncodeWord(op).0, EncodeWord(op).1) == op
  {
    var c := op.code;
    if IsRegisterPairClass(c / 0x10) && c < 0x100 {
      DecodeEncodeRegisterPair(op);
    } else if IsRegisterClass(c / 0x100) && c < 0x1000 {
      DecodeEncodeRegister(op);
    } else if IsOperandClass(c) {
      DecodeEncodeOperand(op);
    } else {
      assert HighNibble(EncodeWord(op).0) == 0;
    }
  }

  lemma DecodeEncodeRegisterPair(op: OpCode)
    requires IsRegisterPairClass(op.code / 0x10) && op.code < 0x100 && op.data <= 0xFF
    ensures DecodeWord(EncodeWord(op).0, EncodeWord(op).1) == op
  {
    var c, d := op.code, op.data;
    var (first, second) := EncodeWord(op);
    assert HighNibble(first) == c / 0x10 && LowNibble(first) == d / 0x10;
    assert HighNibble(second) == d % 0x10 && LowNibble(second) == c % 0x10;
  }

  lemma DecodeEncodeRegister(op: OpCode)
    requires IsRegisterClass(op.code / 0x100) && op.code < 0x1000 && op.data <= 0xF
    ensures DecodeWord(EncodeWord(op).0, EncodeWord(op).1) == op
  {
    var c, d := op.code, op.data;
    var (first, second) := EncodeWord(op);
    assert HighNibble(first) == c / 0x100 && LowNibble(first) == d;
  }

  lemma DecodeEncodeOperand(op: OpCode)
    requires IsOperandClass(op.code) && op.data <= 0xFFF
    ensures DecodeWord(EncodeWord(op).0, EncodeWord(op).1) == op
  {
    var c, d := op.code, op.data;
    var (first, second) := EncodeWord(op);
    assert HighNibble(first) == c && LowNibble(first) == d / 0x100;
  }

  /** 0Xnn: the X nibble of the first byte is discarded. */
  lemma ZeroClassDropsNibble(first: byte, other: byte, second: byte)
    requires HighNibble(first) == 0 && HighNibble(other) == 0
    ensures DecodeWord(first, second) == DecodeWord(other, second)
  {
  }

  /** Second bytes whose 00nn key equals the key of another class. */
  predicate IsSharedKey(second: byte)
  {
    IsOperandClass(second) || IsRegisterPairClass(second / 0x10)
  }

  /**
   * A 00nn word whose nn is a key of another class decodes to the very word that
   * an instruction of that class decodes to (00 01 and 10 00 both give (0x1, 0)).
   */
  lemma ZeroClassSharesKey(first: byte, second: byte)
    requires HighNibble(first) == 0 && IsSharedKey(second)
    ensures var word := EncodeWord(DecodeWord(first, second));
      && HighNibble(word.0) != 0
      && DecodeWord(word.0, word.1) == DecodeWord(first, second)
  {
  }

  /** Otherwise a 00nn word is decoded from 0X nn only: its key and bytes agree. */
  lemma ZeroClassOwnKey(first: byte, second: byte, first': byte, second': byte)
    requires HighNibble(first) == 0 && !IsSharedKey(second)
    requires DecodeWord(first', second') == DecodeWord(first, second)
    ensures HighNibble(first') == 0 && second' == second
  {
    var n := HighNibble(first');
    ClassesPartitionNibbles(n);
    if IsRegisterPairClass(n) {
      DecodeRegisterPair(first', second');
    } else if IsRegisterClass(n) {
      DecodeRegister(first', second');
    } else if IsOperandClass(n) {
      DecodeOperand(first', second');
    }
  }
}
