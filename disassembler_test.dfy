/**
 * The disassembler tests of the repository (test/disassembler_test.cpp): one
 * instruction word per formatter (all but NOP, which has no test) and the
 * text it must produce, compared without regard to letter case; and a
 * 246-byte program that must disassemble without the map lookup throwing.
 */
module DisassemblerTest {
  import opened Wrappers
  import opened OpCodes
  import opened TextFormat
  import opened Disassembler
  import Cpu

  /** ASCII upper case, as a case-insensitive comparison folds letters. */
  function Upper(c: char): char
  {
    if 'a' <= c <= 'z' then (c as int - 32) as char else c
  }

  /** The two strings are equal up to the case of their letters. */
  predicate SameIgnoringCase(s: string, t: string)
  {
    |s| == |t| && forall i | 0 <= i < |s| :: Upper(s[i]) == Upper(t[i])
  }

  /** The formatter for `op` produces a text equal to `expected` up to the case of its letters. */
  predicate Matches(op: OpCode, expected: string)
  {
    DisasmOne(op).Some? && SameIgnoringCase(DisasmOne(op).value, expected)
  }

  // One lemma per test of the test file, under the test's name.

  lemma CanDisassemble0xE0()
    ensures Matches(OpCode(0xE0, 0x0), "CLS")
  {
    assert Slot(0xE0) == Some(0);
    assert DisasmOne(OpCode(0xE0, 0x0)) == Some("CLS");
  }

  lemma CanDisassemble0xEE()
    ensures Matches(OpCode(0xEE, 0x0), "RET")
  {
    assert Slot(0xEE) == Some(1);
    assert DisasmOne(OpCode(0xEE, 0x0)) == Some("RET");
  }

  lemma CanDisassemble0x1()
    ensures Matches(OpCode(0x1, 0x223), "JMP\t$223")
  {
    assert Slot(0x1) == Some(3);
    assert Hex(0x223) == "223";
    assert "JMP\t$" + "223" + "" == "JMP\t$223";
    assert DisasmOne(OpCode(0x1, 0x223)) == Some("JMP\t$223");
  }

  lemma CanDisassemble0x2()
    ensures Matches(OpCode(0x2, 0x322), "CALL\t$322")
  {
    assert Slot(0x2) == Some(4);
    assert Hex(0x322) == "322";
    assert "CALL\t$" + "322" + "" == "CALL\t$322";
    assert DisasmOne(OpCode(0x2, 0x322)) == Some("CALL\t$322");
  }

  lemma CanDisassemble0x3()
    ensures Matches(OpCode(0x3, 0x11), "SE\tV0, $11")
  {
    assert Slot(0x3) == Some(5);
    assert Hex(0x0) == "0";
    assert Hex(0x11) == "11";
    assert "SE" + "\tV" + "0" + ", $" + "11" == "SE\tV0, $11";
    assert DisasmOne(OpCode(0x3, 0x11)) == Some("SE\tV0, $11");
  }

  lemma CanDisassemble0x4()
    ensures Matches(OpCode(0x4, 0x132), "SNE\tV1, $32")
  {
    assert Slot(0x4) == Some(6);
    assert Hex(0x1) == "1";
    assert Hex(0x32) == "32";
    assert "SNE" + "\tV" + "1" + ", $" + "32" == "SNE\tV1, $32";
    assert DisasmOne(OpCode(0x4, 0x132)) == Some("SNE\tV1, $32");
  }

  lemma CanDisassemble0x50()
    ensures Matches(OpCode(0x50, 0x21), "SE\tV2, V1")
  {
    assert Slot(0x50) == Some(7);
    assert Hex(0x2) == "2";
    assert Hex(0x1) == "1";
    assert "SE" + "\tV" + "2" + ", V" + "1" == "SE\tV2, V1";
    assert DisasmOne(OpCode(0x50, 0x21)) == Some("SE\tV2, V1");
  }

  lemma CanDisassemble0x6()
    ensures Matches(OpCode(0x6, 0x311), "MOV\tV3, $11")
  {
    assert Slot(0x6) == Some(8);
    assert Hex(0x3) == "3";
    assert Hex(0x11) == "11";
    assert "MOV" + "\tV" + "3" + ", $" + "11" == "MOV\tV3, $11";
    assert DisasmOne(OpCode(0x6, 0x311)) == Some("MOV\tV3, $11");
  }

  lemma CanDisassemble0x7()
    ensures Matches(OpCode(0x7, 0x40F), "ADD\tV4, $F")
  {
    assert Slot(0x7) == Some(9);
    assert Hex(0x4) == "4";
    assert Hex(0xf) == "f";
    assert "ADD" + "\tV" + "4" + ", $" + "f" == "ADD\tV4, $f";
    assert DisasmOne(OpCode(0x7, 0x40F)) == Some("ADD\tV4, $f");
  }

  lemma CanDisassemble0x80()
    ensures Matches(OpCode(0x80, 0x51), "MOV\tV5, V1")
  {
    assert Slot(0x80) == Some(10);
    assert Hex(0x5) == "5";
    assert Hex(0x1) == "1";
    assert "MOV" + "\tV" + "5" + ", V" + "1" == "MOV\tV5, V1";
    assert DisasmOne(OpCode(0x80, 0x51)) == Some("MOV\tV5, V1");
  }

  lemma CanDisassemble0x81()
    ensures Matches(OpCode(0x81, 0x61), "OR\tV6, V1")
  {
    assert Slot(0x81) == Some(11);
    assert Hex(0x6) == "6";
    assert Hex(0x1) == "1";
    assert "OR" + "\tV" + "6" + ", V" + "1" == "OR\tV6, V1";
    assert DisasmOne(OpCode(0x81, 0x61)) == Some("OR\tV6, V1");
  }

  lemma CanDisassemble0x82()
    ensures Matches(OpCode(0x82, 0x71), "AND\tV7, V1")
  {
    assert Slot(0x82) == Some(12);
    assert Hex(0x7) == "7";
    assert Hex(0x1) == "1";
    assert "AND" + "\tV" + "7" + ", V" + "1" == "AND\tV7, V1";
    assert DisasmOne(OpCode(0x82, 0x71)) == Some("AND\tV7, V1");
  }

  lemma CanDisassemble0x83()
    ensures Matches(OpCode(0x83, 0x81), "XOR\tV8, V1")
  {
    assert Slot(0x83) == Some(13);
    assert Hex(0x8) == "8";
    assert Hex(0x1) == "1";
    assert "XOR" + "\tV" + "8" + ", V" + "1" == "XOR\tV8, V1";
    assert DisasmOne(OpCode(0x83, 0x81)) == Some("XOR\tV8, V1");
  }

  lemma CanDisassemble0x84()
    ensures Matches(OpCode(0x84, 0x91), "ADD\tV9, V1")
  {
    assert Slot(0x84) == Some(14);
    assert Hex(0x9) == "9";
    assert Hex(0x1) == "1";
    assert "ADD" + "\tV" + "9" + ", V" + "1" == "ADD\tV9, V1";
    assert DisasmOne(OpCode(0x84, 0x91)) == Some("ADD\tV9, V1");
  }

  lemma CanDisassemble0x85()
    ensures Matches(OpCode(0x85, 0x1), "SUB\tV0, V1")
  {
    assert Slot(0x85) == Some(15);
    assert Hex(0x0) == "0";
    assert Hex(0x1) == "1";
    assert "SUB" + "\tV" + "0" + ", V" + "1" == "SUB\tV0, V1";
    assert DisasmOne(OpCode(0x85, 0x1)) == Some("SUB\tV0, V1");
  }

  lemma CanDisassemble0x86()
    ensures Matches(OpCode(0x86, 0x11), "SHR\tV1")
  {
    assert Slot(0x86) == Some(16);
    assert Hex(0x1) == "1";
    assert "SHR" + "\tV" + "1" == "SHR\tV1";
    assert DisasmOne(OpCode(0x86, 0x11)) == Some("SHR\tV1");
  }

  lemma CanDisassemble0x87()
    ensures Matches(OpCode(0x87, 0x21), "SUBN\tV2, V1")
  {
    assert Slot(0x87) == Some(17);
    assert Hex(0x2) == "2";
    assert Hex(0x1) == "1";
    assert "SUBN" + "\tV" + "2" + ", V" + "1" == "SUBN\tV2, V1";
    assert DisasmOne(OpCode(0x87, 0x21)) == Some("SUBN\tV2, V1");
  }

  lemma CanDisassemble0x8E()
    ensures Matches(OpCode(0x8E, 0x31), "SHL\tV3")
  {
    assert Slot(0x8E) == Some(18);
    assert Hex(0x3) == "3";
    assert "SHL" + "\tV" + "3" == "SHL\tV3";
    assert DisasmOne(OpCode(0x8E, 0x31)) == Some("SHL\tV3");
  }

  lemma CanDisassemble0x90()
    ensures Matches(OpCode(0x90, 0x41), "SNE\tV4, V1")
  {
    assert Slot(0x90) == Some(19);
    assert Hex(0x4) == "4";
    assert Hex(0x1) == "1";
    assert "SNE" + "\tV" + "4" + ", V" + "1" == "SNE\tV4, V1";
    assert DisasmOne(OpCode(0x90, 0x41)) == Some("SNE\tV4, V1");
  }

  lemma CanDisassemble0xA()
    ensures Matches(OpCode(0xA, 0x12), "MVI\tI $12")
  {
    assert Slot(0xA) == Some(20);
    assert Hex(0x12) == "12";
    assert "MVI\tI $" + "12" + "" == "MVI\tI $12";
    assert DisasmOne(OpCode(0xA, 0x12)) == Some("MVI\tI $12");
  }

  lemma CanDisassemble0xB()
    ensures Matches(OpCode(0xB, 0x123), "JMP\tV0, $123")
  {
    assert Slot(0xB) == Some(21);
    assert Hex(0x123) == "123";
    assert "JMP\tV0, $" + "123" + "" == "JMP\tV0, $123";
    assert DisasmOne(OpCode(0xB, 0x123)) == Some("JMP\tV0, $123");
  }

  lemma CanDisassemble0xC()
    ensures Matches(OpCode(0xC, 0x233), "RND\tV2, $33")
  {
    assert Slot(0xC) == Some(22);
    assert Hex(0x2) == "2";
    assert Hex(0x33) == "33";
    assert "RND" + "\tV" + "2" + ", $" + "33" == "RND\tV2, $33";
    assert DisasmOne(OpCode(0xC, 0x233)) == Some("RND\tV2, $33");
  }

  lemma CanDisassemble0xD()
    ensures Matches(OpCode(0xD, 0x114), "DRW\tV1, V1, $4")
  {
    assert Slot(0xD) == Some(23);
    assert Hex(0x1) == "1";
    assert Hex(0x4) == "4";
    assert "DRW\tV" + "1" + ", V" + "1" + ", $" + "4" == "DRW\tV1, V1, $4";
    assert DisasmOne(OpCode(0xD, 0x114)) == Some("DRW\tV1, V1, $4");
  }

  lemma CanDisassemble0xE9E()
    ensures Matches(OpCode(0xE9E, 0x1), "SKP\tV1")
  {
    assert Slot(0xE9E) == Some(24);
    assert Hex(0x1) == "1";
    assert "SKP\tV" + "1" + "" == "SKP\tV1";
    assert DisasmOne(OpCode(0xE9E, 0x1)) == Some("SKP\tV1");
  }

  lemma CanDisassemble0xEA1()
    ensures Matches(OpCode(0xEA1, 0x1), "SKNP\tV1")
  {
    assert Slot(0xEA1) == Some(25);
    assert Hex(0x1) == "1";
    assert "SKNP\tV" + "1" + "" == "SKNP\tV1";
    assert DisasmOne(OpCode(0xEA1, 0x1)) == Some("SKNP\tV1");
  }

  lemma CanDisassemble0xF07()
    ensures Matches(OpCode(0xF07, 0x1), "LD\tV1, DT")
  {
    assert Slot(0xF07) == Some(26);
    assert Hex(0x1) == "1";
    assert "LD\tV" + "1" + ", DT" == "LD\tV1, DT";
    assert DisasmOne(OpCode(0xF07, 0x1)) == Some("LD\tV1, DT");
  }

  lemma CanDisassemble0xF0A()
    ensures Matches(OpCode(0xF0A, 0x1), "LD\tV1, K")
  {
    assert Slot(0xF0A) == Some(27);
    assert Hex(0x1) == "1";
    assert "LD\tV" + "1" + ", K" == "LD\tV1, K";
    assert DisasmOne(OpCode(0xF0A, 0x1)) == Some("LD\tV1, K");
  }

  lemma CanDisassemble0xF15()
    ensures Matches(OpCode(0xF15, 0x1), "LD\tDT, V1")
  {
    assert Slot(0xF15) == Some(28);
    assert Hex(0x1) == "1";
    assert "LD\tDT, V" + "1" + "" == "LD\tDT, V1";
    assert DisasmOne(OpCode(0xF15, 0x1)) == Some("LD\tDT, V1");
  }

  lemma CanDisassemble0xF18()
    ensures Matches(OpCode(0xF18, 0x1), "LD\tST, V1")
  {
    assert Slot(0xF18) == Some(29);
    assert Hex(0x1) == "1";
    assert "LD\tST, V" + "1" + "" == "LD\tST, V1";
    assert DisasmOne(OpCode(0xF18, 0x1)) == Some("LD\tST, V1");
  }

  lemma CanDisassemble0xF1E()
    ensures Matches(OpCode(0xF1E, 0x1), "ADD\tI, V1")
  {
    assert Slot(0xF1E) == Some(30);
    assert Hex(0x1) == "1";
    assert "ADD\tI, V" + "1" + "" == "ADD\tI, V1";
    assert DisasmOne(OpCode(0xF1E, 0x1)) == Some("ADD\tI, V1");
  }

  lemma CanDisassemble0xF29()
    ensures Matches(OpCode(0xF29, 0x1), "LD\tF, V1")
  {
    assert Slot(0xF29) == Some(31);
    assert Hex(0x1) == "1";
    assert "LD\tF, V" + "1" + "" == "LD\tF, V1";
    assert DisasmOne(OpCode(0xF29, 0x1)) == Some("LD\tF, V1");
  }

  lemma CanDisassemble0xF33()
    ensures Matches(OpCode(0xF33, 0x1), "LD\tB, V1")
  {
    assert Slot(0xF33) == Some(32);
    assert Hex(0x1) == "1";
    assert "LD\tB, V" + "1" + "" == "LD\tB, V1";
    assert DisasmOne(OpCode(0xF33, 0x1)) == Some("LD\tB, V1");
  }

  lemma CanDisassemble0xF55()
    ensures Matches(OpCode(0xF55, 0x1), "LD\t[I], V1")
  {
    assert Slot(0xF55) == Some(33);
    assert Hex(0x1) == "1";
    assert "LD\t[I], V" + "1" + "" == "LD\t[I], V1";
    assert DisasmOne(OpCode(0xF55, 0x1)) == Some("LD\t[I], V1");
  }

  lemma CanDisassemble0xF65()
    ensures Matches(OpCode(0xF65, 0x1), "LD\tV1, [I]")
  {
    assert Slot(0xF65) == Some(34);
    assert Hex(0x1) == "1";
    assert "LD\tV" + "1" + ", [I]" == "LD\tV1, [I]";
    assert DisasmOne(OpCode(0xF65, 0x1)) == Some("LD\tV1, [I]");
  }

  /** The 246-byte program of the test `CanDisassembleBinary`, in the rows the test writes it. */
  const Pong: seq<byte> :=
    [0x6a, 0x02, 0x6b, 0x0c, 0x6c, 0x3f, 0x6d, 0x0c, 0xa2, 0xea, 0xda, 0xb6, 0xdc, 0xd6, 0x6e, 0x00] +
    [0x22, 0xd4, 0x66, 0x03, 0x68, 0x02, 0x60, 0x60, 0xf0, 0x15, 0xf0, 0x07, 0x30, 0x00, 0x12, 0x1a] +
    [0xc7, 0x17, 0x77, 0x08, 0x69, 0xff, 0xa2, 0xf0, 0xd6, 0x71, 0xa2, 0xea, 0xda, 0xb6, 0xdc, 0xd6] +
    [0x60, 0x01, 0xe0, 0xa1, 0x7b, 0xfe, 0x60, 0x04, 0xe0, 0xa1, 0x7b, 0x02, 0x60, 0x1f, 0x8b, 0x02] +
    [0xda, 0xb6, 0x60, 0x0c, 0xe0, 0xa1, 0x7d, 0xfe, 0x60, 0x0d, 0xe0, 0xa1, 0x7d, 0x02, 0x60, 0x1f] +
    [0x8d, 0x02, 0xdc, 0xd6, 0xa2, 0xf0, 0xd6, 0x71, 0x86, 0x84, 0x87, 0x94, 0x60, 0x3f, 0x86, 0x02] +
    [0x61, 0x1f, 0x87, 0x12, 0x46, 0x02, 0x12, 0x78, 0x46, 0x3f, 0x12, 0x82, 0x47, 0x1f, 0x69, 0xff] +
    [0x47, 0x00, 0x69, 0x01, 0xd6, 0x71, 0x12, 0x2a, 0x68, 0x02, 0x63, 0x01, 0x80, 0x70, 0x80, 0xb5] +
    [0x12, 0x8a, 0x68, 0xfe, 0x63, 0x0a, 0x80, 0x70, 0x80, 0xd5, 0x3f, 0x01, 0x12, 0xa2, 0x61, 0x02] +
    [0x80, 0x15, 0x3f, 0x01, 0x12, 0xba, 0x80, 0x15, 0x3f, 0x01, 0x12, 0xc8, 0x80, 0x15, 0x3f, 0x01] +
    [0x12, 0xc2, 0x60, 0x20, 0xf0, 0x18, 0x22, 0xd4, 0x8e, 0x34, 0x22, 0xd4, 0x66, 0x3e, 0x33, 0x01] +
    [0x66, 0x03, 0x68, 0xfe, 0x33, 0x01, 0x68, 0x02, 0x12, 0x16, 0x79, 0xff, 0x49, 0xfe, 0x69, 0xff] +
    [0x12, 0xc8, 0x79, 0x01, 0x49, 0x02, 0x69, 0x01, 0x60, 0x04, 0xf0, 0x18, 0x76, 0x01, 0x46, 0x40] +
    [0x76, 0xfe, 0x12, 0x6c, 0xa2, 0xf2, 0xfe, 0x33, 0xf2, 0x65, 0xf1, 0x29, 0x64, 0x14, 0x65, 0x00] +
    [0xd4, 0x55, 0x74, 0x15, 0xf2, 0x29, 0xd4, 0x55, 0x00, 0xee, 0x80, 0x80, 0x80, 0x80, 0x80, 0x80] +
    [0x80, 0x00, 0x00, 0x00, 0x00, 0x00]

  lemma PongRow0()
    ensures forall k | 0 <= k < 8 :: IsRenderedWord(Pong[2 * k], Pong[2 * k + 1])
  {
    forall k | 0 <= k < 8 ensures IsRenderedWord(Pong[2 * k], Pong[2 * k + 1]) {
      assert k == 0 || k == 1 || k == 2 || k == 3 || k == 4 || k == 5 || k == 6 || k == 7;
    }
  }

  lemma PongRow1()
    ensures forall k | 8 <= k < 16 :: IsRenderedWord(Pong[2 * k], Pong[2 * k + 1])
  {
    forall k | 8 <= k < 16 ensures IsRenderedWord(Pong[2 * k], Pong[2 * k + 1]) {
      assert k == 8 || k == 9 || k == 10 || k == 11 || k == 12 || k == 13 || k == 14 || k == 15;
    }
  }

  lemma PongRow2()
    ensures forall k | 16 <= k < 24 :: IsRenderedWord(Pong[2 * k], Pong[2 * k + 1])
  {
    forall k | 16 <= k < 24 ensures IsRenderedWord(Pong[2 * k], Pong[2 * k + 1]) {
      assert k == 16 || k == 17 || k == 18 || k == 19 || k == 20 || k == 21 || k == 22 || k == 23;
    }
  }

  lemma PongRow3()
    ensures forall k | 24 <= k < 32 :: IsRenderedWord(Pong[2 * k], Pong[2 * k + 1])
  {
    forall k | 24 <= k < 32 ensures IsRenderedWord(Pong[2 * k], Pong[2 * k + 1]) {
      assert k == 24 || k == 25 || k == 26 || k == 27 || k == 28 || k == 29 || k == 30 || k == 31;
    }
  }

  lemma PongRow4()
    ensures forall k | 32 <= k < 40 :: IsRenderedWord(Pong[2 * k], Pong[2 * k + 1])
  {
    forall k | 32 <= k < 40 ensures IsRenderedWord(Pong[2 * k], Pong[2 * k + 1]) {
      assert k == 32 || k == 33 || k == 34 || k == 35 || k == 36 || k == 37 || k == 38 || k == 39;
    }
  }

  lemma PongRow5()
    ensures forall k | 40 <= k < 48 :: IsRenderedWord(Pong[2 * k], Pong[2 * k + 1])
  {
    forall k | 40 <= k < 48 ensures IsRenderedWord(Pong[2 * k], Pong[2 * k + 1]) {
      assert k == 40 || k == 41 || k == 42 || k == 43 || k == 44 || k == 45 || k == 46 || k == 47;
    }
  }

  lemma PongRow6()
    ensures forall k | 48 <= k < 56 :: IsRenderedWord(Pong[2 * k], Pong[2 * k + 1])
  {
    forall k | 48 <= k < 56 ensures IsRenderedWord(Pong[2 * k], Pong[2 * k + 1]) {
      assert k == 48 || k == 49 || k == 50 || k == 51 || k == 52 || k == 53 || k == 54 || k == 55;
    }
  }

  lemma PongRow7()
    ensures forall k | 56 <= k < 64 :: IsRenderedWord(Pong[2 * k], Pong[2 * k + 1])
  {
    forall k | 56 <= k < 64 ensures IsRenderedWord(Pong[2 * k], Pong[2 * k + 1]) {
      assert k == 56 || k == 57 || k == 58 || k == 59 || k == 60 || k == 61 || k == 62 || k == 63;
    }
  }

  lemma PongRow8()
    ensures forall k | 64 <= k < 72 :: IsRenderedWord(Pong[2 * k], Pong[2 * k + 1])
  {
    forall k | 64 <= k < 72 ensures IsRenderedWord(Pong[2 * k], Pong[2 * k + 1]) {
      assert k == 64 || k == 65 || k == 66 || k == 67 || k == 68 || k == 69 || k == 70 || k == 71;
    }
  }

  lemma PongRow9()
    ensures forall k | 72 <= k < 80 :: IsRenderedWord(Pong[2 * k], Pong[2 * k + 1])
  {
    forall k | 72 <= k < 80 ensures IsRenderedWord(Pong[2 * k], Pong[2 * k + 1]) {
      assert k == 72 || k == 73 || k == 74 || k == 75 || k == 76 || k == 77 || k == 78 || k == 79;
    }
  }

  lemma PongRow10()
    ensures forall k | 80 <= k < 88 :: IsRenderedWord(Pong[2 * k], Pong[2 * k + 1])
  {
    forall k | 80 <= k < 88 ensures IsRenderedWord(Pong[2 * k], Pong[2 * k + 1]) {
      assert k == 80 || k == 81 || k == 82 || k == 83 || k == 84 || k == 85 || k == 86 || k == 87;
    }
  }

  lemma PongRow11()
    ensures forall k | 88 <= k < 96 :: IsRenderedWord(Pong[2 * k], Pong[2 * k + 1])
  {
    forall k | 88 <= k < 96 ensures IsRenderedWord(Pong[2 * k], Pong[2 * k + 1]) {
      assert k == 88 || k == 89 || k == 90 || k == 91 || k == 92 || k == 93 || k == 94 || k == 95;
    }
  }

  lemma PongRow12()
    ensures forall k | 96 <= k < 104 :: IsRenderedWord(Pong[2 * k], Pong[2 * k + 1])
  {
    forall k | 96 <= k < 104 ensures IsRenderedWord(Pong[2 * k], Pong[2 * k + 1]) {
      assert k == 96 || k == 97 || k == 98 || k == 99 || k == 100 || k == 101 || k == 102 || k == 103;
    }
  }

  lemma PongRow13()
    ensures forall k | 104 <= k < 112 :: IsRenderedWord(Pong[2 * k], Pong[2 * k + 1])
  {
    forall k | 104 <= k < 112 ensures IsRenderedWord(Pong[2 * k], Pong[2 * k + 1]) {
      assert k == 104 || k == 105 || k == 106 || k == 107 || k == 108 || k == 109 || k == 110 || k == 111;
    }
  }

  lemma PongRow14()
    ensures forall k | 112 <= k < 120 :: IsRenderedWord(Pong[2 * k], Pong[2 * k + 1])
  {
    forall k | 112 <= k < 120 ensures IsRenderedWord(Pong[2 * k], Pong[2 * k + 1]) {
      assert k == 112 || k == 113 || k == 114 || k == 115 || k == 116 || k == 117 || k == 118 || k == 119;
    }
  }

  lemma PongRow15()
    ensures forall k | 120 <= k < 123 :: IsRenderedWord(Pong[2 * k], Pong[2 * k + 1])
  {
    forall k | 120 <= k < 123 ensures IsRenderedWord(Pong[2 * k], Pong[2 * k + 1]) {
      assert k == 120 || k == 121 || k == 122;
    }
  }

  /** Every word of the program is one the dispatch map renders. */
  lemma PongWordsRendered()
    ensures |Pong| == 246
    ensures forall k | 0 <= k < |Pong| / 2 :: IsRenderedWord(Pong[2 * k], Pong[2 * k + 1])
  {
    PongRow0(); PongRow1(); PongRow2(); PongRow3(); PongRow4(); PongRow5(); PongRow6(); PongRow7();
    PongRow8(); PongRow9(); PongRow10(); PongRow11(); PongRow12(); PongRow13(); PongRow14(); PongRow15();
  }

  /**
   * The test disassembles its program without the lookup throwing: every one
   * of its 123 words has a formatter, so the listing is the header and 123 lines.
   */
  lemma CanDisassembleBinary()
    ensures ListingOf(Pong).failure.None?
    ensures |ListingOf(Pong).lines| == 2 + 123
  {
    PongWordsRendered();
    RenderedProgramLists(Pong);
  }
}
