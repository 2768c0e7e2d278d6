/**
 * The CHIP-8 disassembler (`chip::disassemble` and its 35 formatters).
 *
 * Each formatter renders one instruction word as a mnemonic line; the
 * dispatch map pairs every key the decoder produces for a known instruction
 * with its formatter. The listing walks a program two bytes at a time,
 * decodes each pair, looks its key up in the map and writes one numbered
 * line per instruction after two header lines.
 */
module Disassembler {
  import opened Wrappers
  import opened OpCodes
  import opened TextFormat
  import Cpu

  // ---------------------------------------------------------------------
  // Operand fields, as the formatters mask and shift them out of `data`
  // ---------------------------------------------------------------------

  /** `(data & 0xF00) >> 8`. */
  function Bits11To8(data: u16): (v: nat)
    ensures v < 0x10
  {
    (data / 0x100) % 0x10
  }

  /** `(data & 0xF0) >> 4`. */
  function Bits7To4(data: u16): (v: nat)
    ensures v < 0x10
  {
    (data / 0x10) % 0x10
  }

  /** `data & 0xF`. */
  function Bits3To0(data: u16): (v: nat)
    ensures v < 0x10
  {
    data % 0x10
  }

  /** `data & 0xFF`. */
  function Bits7To0(data: u16): (v: nat)
    ensures v < 0x100
  {
    data % 0x100
  }

  // ---------------------------------------------------------------------
  // The formatters
  // ---------------------------------------------------------------------

  /**
   * The layouts the 35 formatters use. Every number is written with
   * `std::hex`: lowercase, no prefix, no leading zeros.
   */
  datatype Layout =
      /** The constant `text`, whatever the operand (CLS, RET, NOP). */
    | Fixed(text: string)
      /** `prefix`, the whole of `data` in hex, `suffix` (JMP, CALL, MVI, and the E/F classes). */
    | Whole(prefix: string, suffix: string)
      /** `mnemonic\tV<x>, $<nn>` with x = bits 11-8 and nn = bits 7-0. */
    | RegByte(mnemonic: string)
      /** `mnemonic\tV<x>, V<y>` with x = bits 7-4 and y = bits 3-0. */
    | RegPair(mnemonic: string)
      /** `mnemonic\tV<x>` with x = bits 7-4 (SHR, SHL). */
    | RegHigh(mnemonic: string)
      /** `DRW\tV<x>, V<y>, $<n>` with x, y and n = bits 11-8, 7-4 and 3-0. */
    | Sprite

  /** The text a formatter of the given layout produces for the operand `data`. */
  function Render(layout: Layout, data: u16): string
  {
    match layout
    case Fixed(text) => text
    case Whole(prefix, suffix) => prefix + Hex(data) + suffix
    case RegByte(mnemonic) =>
      mnemonic + "\tV" + Hex(Bits11To8(data)) + ", $" + Hex(Bits7To0(data))
    case RegPair(mnemonic) =>
      mnemonic + "\tV" + Hex(Bits7To4(data)) + ", V" + Hex(Bits3To0(data))
    case RegHigh(mnemonic) =>
      mnemonic + "\tV" + Hex(Bits7To4(data))
    case Sprite =>
      "DRW\tV" + Hex(Bits11To8(data)) + ", V" + Hex(Bits7To4(data)) + ", $" + Hex(Bits3To0(data))
  }

  // ---------------------------------------------------------------------
  // The dispatch map
  // ---------------------------------------------------------------------

  /** One entry of the dispatch map: a key and the formatter it selects. */
  datatype Row = Row(key: u16, layout: Layout)

  const EntryCount: nat := 35

  /** Entry `i` of the dispatch map, in the order the map lists them. */
  function Entry(i: nat): Row
    requires i < EntryCount
  {
    match i
    case 0 => Row(0xE0, Fixed("CLS"))
    case 1 => Row(0xEE, Fixed("RET"))
    case 2 => Row(0x0, Fixed("NOP"))
    case 3 => Row(0x1, Whole("JMP\t$", ""))
    case 4 => Row(0x2, Whole("CALL\t$", ""))
    case 5 => Row(0x3, RegByte("SE"))
    case 6 => Row(0x4, RegByte("SNE"))
    case 7 => Row(0x50, RegPair("SE"))
    case 8 => Row(0x6, RegByte("MOV"))
    case 9 => Row(0x7, RegByte("ADD"))
    case 10 => Row(0x80, RegPair("MOV"))
    case 11 => Row(0x81, RegPair("OR"))
    case 12 => Row(0x82, RegPair("AND"))
    case 13 => Row(0x83, RegPair("XOR"))
    case 14 => Row(0x84, RegPair("ADD"))
    case 15 => Row(0x85, RegPair("SUB"))
    case 16 => Row(0x86, RegHigh("SHR"))
    case 17 => Row(0x87, RegPair("SUBN"))
    case 18 => Row(0x8E, RegHigh("SHL"))
    case 19 => Row(0x90, RegPair("SNE"))
    case 20 => Row(0xA, Whole("MVI\tI $", ""))
    case 21 => Row(0xB, Whole("JMP\tV0, $", ""))
    case 22 => Row(0xC, RegByte("RND"))
    case 23 => Row(0xD, Sprite)
    case 24 => Row(0xE9E, Whole("SKP\tV", ""))
    case 25 => Row(0xEA1, Whole("SKNP\tV", ""))
    case 26 => Row(0xF07, Whole("LD\tV", ", DT"))
    case 27 => Row(0xF0A, Whole("LD\tV", ", K"))
    case 28 => Row(0xF15, Whole("LD\tDT, V", ""))
    case 29 => Row(0xF18, Whole("LD\tST, V", ""))
    case 30 => Row(0xF1E, Whole("ADD\tI, V", ""))
    case 31 => Row(0xF29, Whole("LD\tF, V", ""))
    case 32 => Row(0xF33, Whole("LD\tB, V", ""))
    case 33 => Row(0xF55, Whole("LD\t[I], V", ""))
    case 34 => Row(0xF65, Whole("LD\tV", ", [I]"))
  }

  /** The position of `code` among the entries of the map, or None when it is not a key. */
  function Slot(code: int): (slot: Option<nat>)
    ensures slot.Some? ==> slot.value < EntryCount && Entry(slot.value).key == code
  {
    match code
    case 0xE0 => Some(0)
    case 0xEE => Some(1)
    case 0x0 => Some(2)
    case 0x1 => Some(3)
    case 0x2 => Some(4)
    case 0x3 => Some(5)
    case 0x4 => Some(6)
    case 0x50 => Some(7)
    case 0x6 => Some(8)
    case 0x7 => Some(9)
    case 0x80 => Some(10)
    case 0x81 => Some(11)
    case 0x82 => Some(12)
    case 0x83 => Some(13)
    case 0x84 => Some(14)
    case 0x85 => Some(15)
    case 0x86 => Some(16)
    case 0x87 => Some(17)
    case 0x8E => Some(18)
    case 0x90 => Some(19)
    case 0xA => Some(20)
    case 0xB => Some(21)
    case 0xC => Some(22)
    case 0xD => Some(23)
    case 0xE9E => Some(24)
    case 0xEA1 => Some(25)
    case 0xF07 => Some(26)
    case 0xF0A => Some(27)
    case 0xF15 => Some(28)
    case 0xF18 => Some(29)
    case 0xF1E => Some(30)
    case 0xF29 => Some(31)
    case 0xF33 => Some(32)
    case 0xF55 => Some(33)
    case 0xF65 => Some(34)
    case _ => None
  }

  /** Every entry is found at its own position, so no key is listed twice. */
  lemma SlotOfEntry(i: nat)
    requires i < EntryCount
    ensures Slot(Entry(i).key) == Some(i)
  {
  }

  /** The keys of the dispatch map, in the order it lists them. */
  function KeyList(): seq<int>
  {
    seq(EntryCount, i requires 0 <= i < EntryCount => Entry(i).key)
  }

  /** The keys of the dispatch map. */
  ghost const Keys: set<int> := set code | code in KeyList()

  /** A sequence without repeated elements has as many distinct elements as positions. */
  lemma {:induction false} DistinctCount(s: seq<int>)
    requires forall i, j | 0 <= i < j < |s| :: s[i] != s[j]
    ensures |set x | x in s| == |s|
  {
    if s != [] {
      var init := s[..|s| - 1];
      DistinctCount(init);
      assert (set x | x in s) == (set x | x in init) + {s[|s| - 1]};
      assert s[|s| - 1] !in init;
    }
  }

  /** The map has exactly 35 keys, and Slot finds exactly those. */
  lemma KeyCount()
    ensures |Keys| == 35
    ensures forall code :: code in Keys <==> Slot(code).Some?
  {
    var keys := KeyList();
    forall i, j | 0 <= i < j < |keys| ensures keys[i] != keys[j] {
      SlotOfEntry(i);
      SlotOfEntry(j);
    }
    DistinctCount(keys);
    forall code ensures code in Keys <==> Slot(code).Some? {
      if code in Keys {
        var i :| 0 <= i < |keys| && keys[i] == code;
        SlotOfEntry(i);
      }
      if Slot(code).Some? {
        assert keys[Slot(code).value] == code;
      }
    }
  }

  /**
   * `disassemblers.at(op.code)(op)`: the text of one instruction word, or
   * None when its key is not in the map (where `.at` throws).
   */
  function DisasmOne(op: OpCode): Option<string>
  {
    match Slot(op.code)
    case None => None
    case Some(i) => Some(Render(Entry(i).layout, op.data))
  }

  /** DisasmOne answers exactly for the keys of the map. */
  lemma DisasmOneDefined(op: OpCode)
    ensures DisasmOne(op).Some? <==> op.code in Keys
  {
    KeyCount();
  }

  // ---------------------------------------------------------------------
  // What the rendered text shows
  // ---------------------------------------------------------------------

  /** `t[from..to]` is a hex numeral for `value`, without leading zeros. */
  predicate ShowsHex(t: string, from: nat, to: nat, value: nat)
  {
    from < to <= |t| && AllDigitChars(t[from..to]) && NumeralValue(t[from..to], 0x10) == value
    && (t[from] == '0' ==> to == from + 1)
  }

  /** Hex(n) reads back as n, has no leading zero, and is short for small n. */
  lemma HexReadsBack(t: string, from: nat, n: nat)
    requires from + |Hex(n)| <= |t| && t[from..from + |Hex(n)|] == Hex(n)
    ensures ShowsHex(t, from, from + |Hex(n)|, n)
    ensures n < 0x10 ==> |Hex(n)| == 1
    ensures n < 0x100 ==> |Hex(n)| <= 2
    ensures n < 0x1_0000 ==> |Hex(n)| <= 4
  {
    NumeralRoundTrip(n, 0x10);
    NumeralNoLeadingZero(n, 0x10);
    NumeralLength(n, 0x10, 1);
    NumeralLength(n, 0x10, 2);
    NumeralLength(n, 0x10, 4);
    assert Pow(0x10, 1) == 0x10 && Pow(0x10, 2) == 0x100 && Pow(0x10, 4) == 0x1_0000;
  }

  /** CLS, RET and NOP are constants whatever the operand. */
  lemma FixedTexts(data: u16)
    ensures DisasmOne(OpCode(0xE0, data)) == Some("CLS")
    ensures DisasmOne(OpCode(0xEE, data)) == Some("RET")
    ensures DisasmOne(OpCode(0x0, data)) == Some("NOP")
  {
  }

  /** `prefix`, then all of `data` in hex, then `suffix`. */
  lemma WholeFields(prefix: string, suffix: string, data: u16)
    ensures var t, p := Render(Whole(prefix, suffix), data), |prefix|;
      && t[..p] == prefix
      && ShowsHex(t, p, |t| - |suffix|, data)
      && t[|t| - |suffix|..] == suffix
      && |t| <= p + 4 + |suffix|
  {
    var t, p := Render(Whole(prefix, suffix), data), |prefix|;
    var h := Hex(data);
    assert t == prefix + h + suffix;
    assert t[p..p + |h|] == h;
    HexReadsBack(t, p, data);
  }

  /** `mnemonic\tV`, one hex digit for bits 11-8, `, $`, bits 7-0 in one or two hex digits. */
  lemma RegByteFields(mnemonic: string, data: u16)
    ensures var t, m := Render(RegByte(mnemonic), data), |mnemonic|;
      && m + 7 <= |t| <= m + 8
      && t[..m] == mnemonic && t[m..m + 2] == "\tV"
      && ShowsHex(t, m + 2, m + 3, Bits11To8(data))
      && t[m + 3..m + 6] == ", $"
      && ShowsHex(t, m + 6, |t|, Bits7To0(data))
  {
    var t, m := Render(RegByte(mnemonic), data), |mnemonic|;
    var x, nn := Hex(Bits11To8(data)), Hex(Bits7To0(data));
    assert t == mnemonic + "\tV" + x + ", $" + nn;
    assert t[m + 2..m + 2 + |x|] == x;
    HexReadsBack(t, m + 2, Bits11To8(data));
    assert t[m + 6..m + 6 + |nn|] == nn;
    HexReadsBack(t, m + 6, Bits7To0(data));
  }

  /** `mnemonic\tV`, one hex digit for bits 7-4, `, V`, one hex digit for bits 3-0. */
  lemma RegPairFields(mnemonic: string, data: u16)
    ensures var t, m := Render(RegPair(mnemonic), data), |mnemonic|;
      && |t| == m + 7
      && t[..m] == mnemonic && t[m..m + 2] == "\tV"
      && ShowsHex(t, m + 2, m + 3, Bits7To4(data))
      && t[m + 3..m + 6] == ", V"
      && ShowsHex(t, m + 6, m + 7, Bits3To0(data))
  {
    var t, m := Render(RegPair(mnemonic), data), |mnemonic|;
    var x, y := Hex(Bits7To4(data)), Hex(Bits3To0(data));
    assert t == mnemonic + "\tV" + x + ", V" + y;
    assert t[m + 2..m + 2 + |x|] == x;
    HexReadsBack(t, m + 2, Bits7To4(data));
    assert t[m + 6..m + 6 + |y|] == y;
    HexReadsBack(t, m + 6, Bits3To0(data));
  }

  /** `mnemonic\tV` and one hex digit for bits 7-4; the other bits of the operand are not shown. */
  lemma RegHighFields(mnemonic: string, data: u16, other: u16)
    requires Bits7To4(other) == Bits7To4(data)
    ensures var t, m := Render(RegHigh(mnemonic), data), |mnemonic|;
      && |t| == m + 3
      && t[..m] == mnemonic && t[m..m + 2] == "\tV"
      && ShowsHex(t, m + 2, m + 3, Bits7To4(data))
      && Render(RegHigh(mnemonic), other) == t
  {
    var t, m := Render(RegHigh(mnemonic), data), |mnemonic|;
    var x := Hex(Bits7To4(data));
    assert t == mnemonic + "\tV" + x;
    assert t[m + 2..m + 2 + |x|] == x;
    HexReadsBack(t, m + 2, Bits7To4(data));
  }

  /** `DRW\tV<x>, V<y>, $<n>`: one hex digit each for bits 11-8, 7-4 and 3-0. */
  lemma SpriteFields(data: u16)
    ensures var t := Render(Sprite, data);
      && |t| == 14
      && t[..5] == "DRW\tV"
      && ShowsHex(t, 5, 6, Bits11To8(data))
      && t[6..9] == ", V"
      && ShowsHex(t, 9, 10, Bits7To4(data))
      && t[10..13] == ", $"
      && ShowsHex(t, 13, 14, Bits3To0(data))
  {
    var t := Render(Sprite, data);
    var x, y, n := Hex(Bits11To8(data)), Hex(Bits7To4(data)), Hex(Bits3To0(data));
    assert |x| == 1 && |y| == 1 && |n| == 1 by {
      HexReadsBack(x, 0, Bits11To8(data));
      HexReadsBack(y, 0, Bits7To4(data));
      HexReadsBack(n, 0, Bits3To0(data));
    }
    assert t == "DRW\tV" + x + ", V" + y + ", $" + n;
    assert t[5..6] == x && t[9..10] == y && t[13..14] == n;
    HexReadsBack(t, 5, Bits11To8(data));
    HexReadsBack(t, 9, Bits7To4(data));
    HexReadsBack(t, 13, Bits3To0(data));
  }

  // ---------------------------------------------------------------------
  // Agreement between the decoder and the dispatch map
  // ---------------------------------------------------------------------

  /**
   * The instruction patterns of the CHIP-8 set as raw bytes: 00E0, 00EE,
   * 1NNN to DXYN, 5XY0, 8XY0 to 8XY7, 8XYE, 9XY0, EX9E, EXA1 and the nine
   * FXnn patterns.
   */
  predicate IsChip8Instruction(first: byte, second: byte)
  {
    var n, low := Cpu.HighNibble(first), Cpu.LowNibble(second);
    || (first == 0x00 && (second == 0xE0 || second == 0xEE))
    || Cpu.IsOperandClass(n)
    || ((n == 0x5 || n == 0x9) && low == 0x0)
    || (n == 0x8 && (low <= 0x7 || low == 0xE))
    || (n == 0xE && (second == 0x9E || second == 0xA1))
    || (n == 0xF && second in {0x07, 0x0A, 0x15, 0x18, 0x1E, 0x29, 0x33, 0x55, 0x65})
  }

  /**
   * The second bytes a 0Xnn word may carry and still be rendered: 00 (NOP),
   * E0 and EE, and the keys of other classes (which the word is then
   * rendered as, see Cpu.ZeroClassSharesKey).
   */
  predicate IsZeroClassKey(second: byte)
  {
    || second in {0x00, 0xE0, 0xEE}
    || Cpu.IsOperandClass(second)
    || second in {0x50, 0x80, 0x81, 0x82, 0x83, 0x84, 0x85, 0x86, 0x87, 0x8E, 0x90}
  }

  /**
   * The map accepts the decoding of a word exactly when the word is a CHIP-8
   * instruction, or a 0Xnn word whose nn is one of IsZeroClassKey.
   */
  lemma DecodedWordKnown(first: byte, second: byte)
    ensures DisasmOne(Cpu.DecodeWord(first, second)).Some? <==>
      IsChip8Instruction(first, second) || (Cpu.HighNibble(first) == 0 && IsZeroClassKey(second))
  {
    var n := Cpu.HighNibble(first);
    Cpu.ClassesPartitionNibbles(n);
    if n == 0 {
      Cpu.DecodeZero(first, second);
    } else if Cpu.IsRegisterPairClass(n) {
      RegisterPairWordKnown(first, second);
    } else if Cpu.IsRegisterClass(n) {
      RegisterWordKnown(first, second);
    } else {
      Cpu.DecodeOperand(first, second);
    }
  }

  lemma RegisterPairWordKnown(first: byte, second: byte)
    requires Cpu.IsRegisterPairClass(Cpu.HighNibble(first))
    ensures DisasmOne(Cpu.DecodeWord(first, second)).Some? <==> IsChip8Instruction(first, second)
  {
    Cpu.DecodeRegisterPair(first, second);
  }

  lemma RegisterWordKnown(first: byte, second: byte)
    requires Cpu.IsRegisterClass(Cpu.HighNibble(first))
    ensures DisasmOne(Cpu.DecodeWord(first, second)).Some? <==> IsChip8Instruction(first, second)
  {
    Cpu.DecodeRegister(first, second);
  }

  /**
   * The operand fields the formatters print are the instruction's own
   * nibbles: for 3XNN to DXYN, X is bits 11-8, NN bits 7-0, Y bits 7-4 and N
   * bits 3-0 as in the word; for 5XY0, 8XYn and 9XY0, X and Y move to
   * bits 7-4 and 3-0; for EXnn and FXnn the operand is X alone.
   */
  lemma DecodedFieldsShown(first: byte, second: byte)
    ensures var op, n := Cpu.DecodeWord(first, second), Cpu.HighNibble(first);
      && (Cpu.IsOperandClass(n) ==>
            && op.data == Cpu.LowNibble(first) * 0x100 + second
            && Bits11To8(op.data) == Cpu.LowNibble(first)
            && Bits7To0(op.data) == second
            && Bits7To4(op.data) == Cpu.HighNibble(second)
            && Bits3To0(op.data) == Cpu.LowNibble(second))
      && (Cpu.IsRegisterPairClass(n) ==>
            && Bits7To4(op.data) == Cpu.LowNibble(first)
            && Bits3To0(op.data) == Cpu.HighNibble(second))
      && (Cpu.IsRegisterClass(n) ==> op.data == Cpu.LowNibble(first))
  {
    var n := Cpu.HighNibble(first);
    if Cpu.IsOperandClass(n) {
      Cpu.DecodeOperand(first, second);
    } else if Cpu.IsRegisterPairClass(n) {
      Cpu.DecodeRegisterPair(first, second);
    } else if Cpu.IsRegisterClass(n) {
      Cpu.DecodeRegister(first, second);
    }
  }

  /** The raw words the dispatch map has a formatter for, by DecodedWordKnown. */
  predicate IsRenderedWord(first: byte, second: byte)
  {
    IsChip8Instruction(first, second) || (Cpu.HighNibble(first) == 0 && IsZeroClassKey(second))
  }

  /** Every CHIP-8 instruction decodes to a key of the map. */
  lemma Chip8InstructionsKnown(first: byte, second: byte)
    requires IsChip8Instruction(first, second)
    ensures Cpu.DecodeWord(first, second).code in Keys
  {
    DecodedWordKnown(first, second);
    DisasmOneDefined(Cpu.DecodeWord(first, second));
  }

  // ---------------------------------------------------------------------
  // The listing
  // ---------------------------------------------------------------------

  /** Why a listing stopped early. */
  datatype DisasmError =
      /** The last instruction has only one byte: `decode` would read past the buffer. */
    | OutOfBounds(pc: u16)
      /** The word at `pc` decodes to a key the map does not hold (`.at` throws). */
    | UnknownOpcode(pc: u16, code: u16)

  /** The lines written to the output stream, and the error that ended the listing early, if any. */
  datatype Output = Output(lines: seq<string>, failure: Option<DisasmError>)

  /** The two header lines written before any instruction. */
  const Header: seq<string> := ["ADDR" + "  " + "Assembly", "----" + "  " + "--------"]

  /** Line `line` of the listing: its zero-padded number, two spaces, the instruction text. */
  function FormatLine(line: nat, text: string): string
  {
    LineNumber(line) + "  " + text
  }

  /** Below line 10000 a line is four decimal digits reading back as its number, two spaces, and the text. */
  lemma FormatLineFields(line: nat, text: string)
    requires line < 10000
    ensures var t := FormatLine(line, text);
      && |t| == 6 + |text|
      && (forall i | 0 <= i < 4 :: '0' <= t[i] <= '9')
      && AllDigitChars(t[..4]) && NumeralValue(t[..4], 10) == line
      && t[4..6] == "  "
      && t[6..] == text
  {
    var n := LineNumber(line);
    assert |n| == 4 && AllDigitChars(n) && NumeralValue(n, 10) == line
      && forall i | 0 <= i < 4 :: '0' <= n[i] <= '9' by {
      LineNumberDigits(line);
    }
    var t := n + "  " + text;
    assert t[..4] == n;
    assert t[4..6] == "  ";
    assert t[6..] == text;
  }

  /**
   * The offset `decode` receives for the instruction of line `line`: the
   * listing counts in 32 bits, `decode` takes a 16-bit offset.
   */
  function DecodeOffset(line: nat): (pc: u16)
    ensures pc % 2 == 0
    ensures line < 0x8000 ==> pc == 2 * line
  {
    (2 * line) % 0x1_0000
  }

  /** The text of the instruction at offset `pc`, or why it cannot be rendered. */
  function WordText(program: seq<byte>, pc: u16): Result<string, DisasmError>
  {
    if pc + 1 >= |program| then Failure(OutOfBounds(pc))
    else
      var op := Cpu.Decode(program, pc);
      match DisasmOne(op)
      case None => Failure(UnknownOpcode(pc, op.code))
      case Some(text) => Success(text)
  }

  /** Line `line` of the listing, or the error that stops the listing there. */
  function LineAt(program: seq<byte>, line: nat): Result<string, DisasmError>
  {
    match WordText(program, DecodeOffset(line))
    case Failure(e) => Failure(e)
    case Success(text) => Success(FormatLine(line, text))
  }

  /** The lines a listing writes for a sequence of per-line results: the texts up to the first failure. */
  function Collect(results: seq<Result<string, DisasmError>>): Output
  {
    if results == [] then Output([], None)
    else
      match results[0]
      case Failure(e) => Output([], Some(e))
      case Success(text) =>
        var rest := Collect(results[1..]);
        Output([text] + rest.lines, rest.failure)
  }

  /** The result of every line the loop starts: a buffer of n bytes starts (n + 1) / 2 of them. */
  function LineResults(program: seq<byte>): seq<Result<string, DisasmError>>
  {
    seq((|program| + 1) / 2, k requires 0 <= k => LineAt(program, k))
  }

  /** Everything `disassemble` writes for `program`, and how it ends. */
  function ListingOf(program: seq<byte>): Output
  {
    var body := Collect(LineResults(program));
    Output(Header + body.lines, body.failure)
  }

  /**
   * `chip::disassemble(program, output)`: writes the header, then for PC = 0,
   * 2, 4, ... while PC is inside the buffer decodes the word at PC, looks its
   * key up in the map (both in WordText) and writes its numbered line.
   * Returns the lines written and, if the loop was cut short, why.
   */
  method Disassemble(program: seq<byte>) returns (out: Output)
    ensures out == ListingOf(program)
  {
    ghost var results := LineResults(program);
    ghost var body := Collect(results);
    assert ListingOf(program) == Output(Header + body.lines, body.failure);
    var pc: nat := 0;
    var line: nat := 0;
    var written := Header;
    while pc < |program|
      invariant pc == 2 * line && line <= |results|
      invariant Header + body.lines == written + Collect(results[line..]).lines
      invariant body.failure == Collect(results[line..]).failure
      decreases |program| - pc
    {
      CollectStep(results, line);
      var at: u16 := pc % 0x1_0000;
      assert at == DecodeOffset(line) && results[line] == LineAt(program, line);
      var word := WordText(program, at);
      if word.Failure? {
        return Output(written, Some(word.error));
      }
      written := written + [FormatLine(line, word.value)];
      pc := pc + 2;
      line := line + 1;
    }
    assert results[line..] == [];
    out := Output(written, None);
  }

  /** Collecting from position `k` looks at result `k` first. */
  lemma CollectStep(results: seq<Result<string, DisasmError>>, k: nat)
    requires k < |results|
    ensures results[k].Failure? ==> Collect(results[k..]) == Output([], Some(results[k].error))
    ensures results[k].Success? ==>
      var rest := Collect(results[k + 1..]);
      Collect(results[k..]) == Output([results[k].value] + rest.lines, rest.failure)
  {
    assert results[k..][0] == results[k];
    assert results[k..][1..] == results[k + 1..];
  }

  /**
   * The lines collected are the leading successes, in order; the listing ends
   * with no failure only after every result, and otherwise carries the error
   * of the first failing result.
   */
  lemma {:induction false} CollectSpec(results: seq<Result<string, DisasmError>>)
    ensures var out := Collect(results);
      && |out.lines| <= |results|
      && (forall j | 0 <= j < |out.lines| :: results[j] == Success(out.lines[j]))
      && (out.failure.None? <==> |out.lines| == |results|)
      && (out.failure.Some? ==> results[|out.lines|] == Failure(out.failure.value))
  {
    if results != [] && results[0].Success? {
      var rest := results[1..];
      CollectSpec(rest);
      var out := Collect(results);
      assert out.lines == [results[0].value] + Collect(rest).lines;
      forall j | 0 <= j < |out.lines| ensures results[j] == Success(out.lines[j]) {
        if j > 0 {
          assert results[j] == rest[j - 1];
        }
      }
    }
  }

  /** The listing always opens with the two header lines. */
  lemma ListingStartsWithHeader(program: seq<byte>)
    ensures |ListingOf(program).lines| >= 2 && ListingOf(program).lines[..2] == Header
  {
  }

  /** Every instruction line written is the rendering of its line, in order. */
  lemma WrittenLinesRendered(program: seq<byte>)
    ensures var out := ListingOf(program);
      forall i: nat | i < |out.lines| - 2 :: 2 * i < |program| && LineAt(program, i) == Success(out.lines[2 + i])
  {
    var results := LineResults(program);
    var body := Collect(results);
    CollectSpec(results);
    forall i: nat | i < |body.lines| ensures 2 * i < |program| && LineAt(program, i) == Success(ListingOf(program).lines[2 + i]) {
      assert results[i] == Success(body.lines[i]);
    }
  }

  /**
   * A listing completes exactly when every started line renders; it then
   * holds the header and one line per started word, line i being the
   * formatted text of line i.
   */
  lemma ListingComplete(program: seq<byte>)
    ensures ListingOf(program).failure.None? <==>
      forall i: nat | 2 * i < |program| :: LineAt(program, i).Success?
    ensures var out := ListingOf(program);
      out.failure.None? ==>
        && |out.lines| == 2 + (|program| + 1) / 2
        && forall i: nat | 2 * i < |program| :: LineAt(program, i) == Success(out.lines[2 + i])
  {
    var results := LineResults(program);
    CollectSpec(results);
    var body := Collect(results);
    if body.failure.Some? {
      var j := |body.lines|;
      assert 2 * j < |program| && LineAt(program, j).Failure?;
    } else {
      WrittenLinesRendered(program);
      forall i: nat | 2 * i < |program| ensures i < |ListingOf(program).lines| - 2 {
        assert i < |results|;
      }
    }
  }

  /** A listing that fails stops at its first failing line; every line before it was written. */
  lemma ListingStopsAtFirstError(program: seq<byte>)
    requires ListingOf(program).failure.Some?
    ensures var out := ListingOf(program); var j := |out.lines| - 2;
      && 0 <= j && 2 * j < |program|
      && LineAt(program, j) == Failure(out.failure.value)
      && forall i: nat | i < j :: LineAt(program, i) == Success(out.lines[2 + i])
  {
    var results := LineResults(program);
    CollectSpec(results);
    WrittenLinesRendered(program);
  }

  /** Inside the first 64 KiB, line i renders the word at offset 2i exactly when its key is in the map. */
  lemma LineAtInBuffer(program: seq<byte>, i: nat)
    requires 2 * i + 1 < |program| && 2 * i < 0x1_0000
    ensures var op := Cpu.Decode(program, 2 * i);
      && DecodeOffset(i) == 2 * i
      && (LineAt(program, i).Success? <==> op.code in Keys)
      && (LineAt(program, i).Success? ==>
            DisasmOne(op).Some? && LineAt(program, i).value == FormatLine(i, DisasmOne(op).value))
  {
    DisasmOneDefined(Cpu.Decode(program, 2 * i));
  }

  /** A buffer of odd length up to 64 KiB fails on its last, one-byte word. */
  lemma OddLengthFails(program: seq<byte>)
    requires |program| <= 0x1_0000 && |program| % 2 == 1
    ensures LineAt(program, |program| / 2) == Failure(OutOfBounds(|program| - 1))
    ensures ListingOf(program).failure.Some?
  {
    assert DecodeOffset(|program| / 2) == |program| - 1;
    ListingComplete(program);
  }

  /** In an even-length buffer of at most 64 KiB, line i renders exactly when word i has a key in the map. */
  lemma EvenLengthLines(program: seq<byte>)
    requires |program| <= 0x1_0000 && |program| % 2 == 0
    ensures forall i: nat | 2 * i < |program| ::
      LineAt(program, i).Success? <==> Cpu.Decode(program, 2 * i).code in Keys
  {
    forall i: nat | 2 * i < |program|
      ensures LineAt(program, i).Success? <==> Cpu.Decode(program, 2 * i).code in Keys
    {
      assert 2 * i + 1 < |program|;
      LineAtInBuffer(program, i);
    }
  }

  /**
   * For a buffer of at most 65536 bytes line i shows the word at offset 2i:
   * the listing succeeds exactly when the length is even and every word's
   * key is in the map.
   */
  lemma ShortProgramSucceeds(program: seq<byte>)
    requires |program| <= 0x1_0000
    ensures ListingOf(program).failure.None? <==>
      (|program| % 2 == 0 && forall i: nat | 2 * i < |program| :: Cpu.Decode(program, 2 * i).code in Keys)
  {
    if |program| % 2 == 1 {
      OddLengthFails(program);
    } else {
      ListingComplete(program);
      EvenLengthLines(program);
    }
  }

  /**
   * An even-length buffer of at most 65536 bytes whose every word is one the
   * map renders lists without error: the header and one line per word.
   */
  lemma RenderedProgramLists(program: seq<byte>)
    requires |program| <= 0x1_0000 && |program| % 2 == 0
    requires forall k | 0 <= k < |program| / 2 :: IsRenderedWord(program[2 * k], program[2 * k + 1])
    ensures ListingOf(program).failure.None?
    ensures |ListingOf(program).lines| == 2 + |program| / 2
  {
    forall i: nat | 2 * i < |program| ensures Cpu.Decode(program, 2 * i).code in Keys {
      assert IsRenderedWord(program[2 * i], program[2 * i + 1]);
      DecodedWordKnown(program[2 * i], program[2 * i + 1]);
      DisasmOneDefined(Cpu.Decode(program, 2 * i));
    }
    ShortProgramSucceeds(program);
    ShortProgramListing(program);
  }

  /** A complete listing of a buffer of at most 65536 bytes has one line per word, line i showing word i. */
  lemma ShortProgramListing(program: seq<byte>)
    requires |program| <= 0x1_0000 && ListingOf(program).failure.None?
    ensures var out := ListingOf(program);
      && |program| % 2 == 0
      && |out.lines| == 2 + |program| / 2
      && forall i: nat | 2 * i + 1 < |program| ::
           var op := Cpu.Decode(program, 2 * i);
           DisasmOne(op).Some? && out.lines[2 + i] == FormatLine(i, DisasmOne(op).value)
  {
    ShortProgramSucceeds(program);
    ListingComplete(program);
    forall i: nat | 2 * i + 1 < |program| {
      LineAtInBuffer(program, i);
    }
  }

  /**
   * Past 64 KiB the listing shows the wrong words: the offset narrowed to 16
   * bits makes line k + 32768 decode the same word as line k, so the two
   * lines render alike and fail alike.
   */
  lemma LongProgramWraps(program: seq<byte>, k: nat)
    ensures DecodeOffset(k + 0x8000) == DecodeOffset(k)
    ensures LineAt(program, k).Failure? ==> LineAt(program, k + 0x8000) == LineAt(program, k)
    ensures LineAt(program, k).Success? <==> LineAt(program, k + 0x8000).Success?
  {
    var pc := DecodeOffset(k);
    assert DecodeOffset(k + 0x8000) == pc by {
      assert 2 * (k + 0x8000) == 2 * k + 0x1_0000;
    }
    var word := WordText(program, pc);
    assert LineAt(program, k) == if word.Failure? then word else Success(FormatLine(k, word.value));
    assert LineAt(program, k + 0x8000) == if word.Failure? then word else Success(FormatLine(k + 0x8000, word.value));
  }
}
