# CHIP-8 decoder and disassembler, modelled in Dafny

This project models two pieces of the rxwp5657/Chip-8 toolchain:

- `chip::decode` (include/cpu.h) takes the two bytes of one CHIP-8 instruction. It folds the nibbles that tell instructions apart into a dense key (`code`) and keeps the rest as an operand (`data`).
- `chip::disassemble` (include/disassembler.h) walks a program buffer two bytes at a time. For each pair it:
  - decodes the pair;
  - looks the key up in a 35-entry dispatch map of formatters;
  - writes a numbered mnemonic line after a two-line header.

Modules:

- `Wrappers`: `Option` and `Result`.
- `OpCodes`: the `byte` and `u16` types and the `OpCode` record of include/opcode.h.
- `Cpu`: the decoder. It also has an encoder that undoes it on every word it can produce, and lemmas per branch of the decoder's switch.
- `TextFormat`: the number formatting the formatters rely on.
  - `std::hex` insertion: lowercase, no prefix, no leading zeros.
  - `std::to_string`.
  - `std::setfill`/`std::setw` padding.
- `Disassembler`:
  - the 35 formatters, written as six layouts;
  - the dispatch map, and how it agrees with the decoder;
  - the listing, as a specification function `ListingOf` and as the imperative loop `Disassemble` proved against it.
- `CpuTest` and `DisassemblerTest`: the repository's decode test matrix and its formatter tests, stated as lemmas.

How the model reads the code:

- Masks and shifts are written as `/` and `%` by powers of two. Every `|` in the source joins disjoint bit ranges and is written `+`.
- The formatters print every number with `std::hex`, and register ids are printed in hex as well, so V10 prints as `Va`.
- `decode` reads `program[PC]` and `program[PC + 1]` unchecked. Its doc comment promises an out-of-bounds error when the buffer length is odd.
  - `Cpu.Decode` therefore requires `pc + 1 < |program|`.
  - The listing checks the bound first and stops with `OutOfBounds` where `decode` would read past the buffer.
- `disassemblers.at(code)` throws for a key that is not in the map. By then the earlier lines have already been written to the stream. The listing returns the lines written so far and stops with `UnknownOpcode(pc, code)`. It never writes a placeholder and never skips the word.
- The loop counts `PC` in 32 bits, but `decode` takes a `uint16_t`. Line `k` therefore decodes the word at offset `(2 * k) % 65536`. A buffer longer than 64 KiB is listed with wrapped offsets, as `LongProgramWraps` states.
- Lines are modelled without their trailing `"\n"`. The output is the sequence of lines written, not a file.

## Model

| member | source | states |
|---|---|---|
| Cpu.Decode | include/cpu.h:78-82 | `chip::decode`: the word at offset `pc`, defined only when `pc + 1` is inside the buffer; what it yields is stated by DecodeWordIsDecoded, the per-branch lemmas and DecodeReadsTwoBytes |
| Cpu.DecodeWord | include/cpu.h:84-108 | the decoded key and operand both fit in 12 bits |
| Cpu.DecodeReadsTwoBytes | include/cpu.h:78-82 | decoding at `pc` depends only on the bytes at `pc` and `pc + 1`; two buffers that agree there decode alike |
| Cpu.ClassesPartitionNibbles | include/cpu.h:87-106 | the four branches of the switch (5/8/9, E/F, 0, default) cover every top nibble, and no nibble belongs to two of them |
| Cpu.DecodeRegisterPair | include/cpu.h:89-94 | for 5XYn/8XYn/9XYn the key is the top nibble followed by the last nibble, and the operand is X followed by Y (at most 0xFF) |
| Cpu.DecodeRegister | include/cpu.h:95-99 | for EXnn/FXnn the key is the top nibble followed by the second byte, and the operand is the register id X alone (at most 0xF) |
| Cpu.DecodeZero | include/cpu.h:100-102 | for 0Xnn the key is the second byte and the operand is 0 |
| Cpu.DecodeOperand | include/cpu.h:103-105 | for the other top nibbles the key is the nibble itself, and the operand keeps the remaining twelve bits in place (X, NN, Y and N where the word holds them) |
| Cpu.DecodeWordIsDecoded | include/cpu.h:84-108 | every decoded word lies in the image `IsDecoded`, one disjunct per branch of the switch |
| Cpu.EncodeDecode | include/cpu.h:84-108 | decoding is lossless for every top nibble but 0: `EncodeWord` gives back the original two bytes |
| Cpu.DecodeEncode | include/cpu.h:84-108 | decoding undoes `EncodeWord` on every word in the decoder's image |
| Cpu.ZeroClassDropsNibble | include/cpu.h:100-102 | for top nibble 0 the low nibble of the first byte is discarded: two such words with the same second byte decode alike |
| Cpu.ZeroClassSharesKey | include/cpu.h:100-102 | a 0Xnn word whose nn is a key of another class decodes to the same word as an instruction of that class (00 01 and 10 00 both give (0x1, 0)) |
| Cpu.ZeroClassOwnKey | include/cpu.h:87-106 | any other 0Xnn word is decoded only from words with top nibble 0 and the same second byte |
| TextFormat.Numeral | include/disassembler.h:46 | a number written in a base has at least one digit, and every character is a digit whose value is below that base (so a base-10 numeral uses only '0' to '9') |
| TextFormat.Hex | include/disassembler.h:46 | `std::hex` insertion: the base-16 numeral, whose meaning is given by HexReadsBack |
| TextFormat.NumeralRoundTrip | include/disassembler.h:46 | reading the written digits back in the same base gives the number that was written |
| TextFormat.NumeralInjective | include/disassembler.h:46 | two numbers print the same only when they are equal |
| TextFormat.NumeralNoLeadingZero | include/disassembler.h:46 | the first digit is '0' exactly when the number is 0, and then it is the only digit |
| TextFormat.NumeralLength | include/disassembler.h:46 | a number has at most k digits in a base exactly when it is below base^k |
| TextFormat.PadLeft | include/disassembler.h:395 | `setfill`/`setw` padding: the result has the requested width (or the string's own length if that is longer), ends with the string, and is fill characters before it |
| TextFormat.LineNumber | include/disassembler.h:395 | `setfill('0') << setw(4) << to_string(line)`, whose meaning is given by LineNumberDigits |
| TextFormat.LineNumberDigits | include/disassembler.h:395 | every character of a line number is one of '0' to '9'; below 10000 it is exactly four such digits that read back as the line; from 10000 on it is the plain decimal numeral |
| Disassembler.Render | include/disassembler.h:27-330 | the text of the 35 formatters, one case per layout; what each layout shows is stated by FixedTexts, WholeFields, RegByteFields, RegPairFields, RegHighFields and SpriteFields |
| Disassembler.Entry | include/disassembler.h:345-382 | the 35 entries of the dispatch map in the map's order, each a key with its formatter's layout; SlotOfEntry and KeyCount state that the keys are distinct and number 35 |
| Disassembler.Slot | include/disassembler.h:345-382 | a position found for a key holds an entry with that key |
| Disassembler.SlotOfEntry | include/disassembler.h:345-382 | every entry is found at its own position, so no key is listed twice |
| Disassembler.KeyCount | include/disassembler.h:345-382 | the dispatch map has exactly 35 keys, and `Slot` finds exactly those |
| Disassembler.DisasmOne | include/disassembler.h:393 | `disassemblers.at(op.code)(op)`: the text of the entry holding the key, or None where `.at` throws; DisasmOneDefined states when it answers |
| Disassembler.DisasmOneDefined | include/disassembler.h:393 | the lookup `disassemblers.at(code)` succeeds exactly for the 35 keys of the map |
| Disassembler.HexReadsBack | include/disassembler.h:46 | a number printed with `std::hex` reads back as the number, has no leading zero, and has 1, 2 or 4 digits at most below 16, 256 and 65536 |
| Disassembler.FixedTexts | include/disassembler.h:27-40 | keys 0xE0, 0xEE and 0x0 render "CLS", "RET" and "NOP" whatever the operand |
| Disassembler.WholeFields | include/disassembler.h:233-330 | the whole-operand formatters (also JMP and CALL at lines 42-58, MVI and JMP V0 at 197-213) print their prefix, then all of `data` in hex (at most 4 digits), then their suffix |
| Disassembler.RegByteFields | include/disassembler.h:60-76 | SE, SNE (and MOV, ADD at lines 88-105, RND at 215-222) print `\tV`, one hex digit for bits 11-8, `, $`, then bits 7-0 in one or two hex digits |
| Disassembler.RegPairFields | include/disassembler.h:107-159 | MOV, OR, AND, XOR, ADD, SUB (and SE at lines 78-86, SUBN at 170-177, SNE at 188-195) print `\tV`, one hex digit for bits 7-4, `, V`, one hex digit for bits 3-0 |
| Disassembler.RegHighFields | include/disassembler.h:161-168 | SHR (and SHL at lines 179-186) print `\tV` and one hex digit for bits 7-4; the other bits of the operand do not change the text |
| Disassembler.SpriteFields | include/disassembler.h:224-231 | DRW prints one hex digit each for bits 11-8, 7-4 and 3-0, separated by `, V` and `, $`, 14 characters in all |
| Disassembler.DecodedWordKnown | include/disassembler.h:391-393 | the map has a formatter for a decoded word exactly when the raw word is a CHIP-8 instruction pattern, or a 0Xnn word whose nn is one of the keys the 0 class can reach |
| Disassembler.DecodedFieldsShown | include/cpu.h:89-105 | for 1NNN to DXYN (other than 5, 8, 9), 5XY0/8XYn/9XY0 and EXnn/FXnn, the operand fields the formatters mask out are the instruction's own X, Y, N and NN nibbles (a 0Xnn word whose nn is another class's key is printed with fields taken from nn instead) |
| Disassembler.Chip8InstructionsKnown | include/disassembler.h:345-382 | every CHIP-8 instruction pattern decodes to a key of the map |
| Disassembler.IsRenderedWord | include/disassembler.h:345-382 | the raw two-byte words the map renders after decoding, as DecodedWordKnown proves |
| Disassembler.FormatLine | include/disassembler.h:395 | one listing line: the padded line number, two spaces, the text; FormatLineFields states its layout |
| Disassembler.FormatLineFields | include/disassembler.h:395 | below line 10000 a listing line is four characters from '0' to '9' reading back as the line number, two spaces, then the instruction text |
| Disassembler.DecodeOffset | include/disassembler.h:391 | the offset `decode` receives for line `line` is even, and it is `2 * line` for every line below 32768 (the 32-bit PC narrowed to 16 bits) |
| Disassembler.WordText | include/disassembler.h:391-393 | the bounds check, decode and map lookup of one word: its text, `OutOfBounds` past the buffer, or `UnknownOpcode` with the key |
| Disassembler.LineAt | include/disassembler.h:391-395 | line `line` of the listing, formatted, or the error that stops the listing there; LineAtInBuffer and LongProgramWraps state what it shows |
| Disassembler.ListingOf | include/disassembler.h:384-398 | everything the listing writes (the header, then the collected lines) and how it ends; the lemmas below state its shape |
| Disassembler.Disassemble | include/disassembler.h:340-399 | the loop writes exactly the lines of `ListingOf(program)` and ends with its failure, if any |
| Disassembler.CollectSpec | include/disassembler.h:389-398 | the lines written are the leading successful lines in order; the listing ends without failure only after every line, and otherwise with the error of the first failing line |
| Disassembler.ListingStartsWithHeader | include/disassembler.h:386-387 | the output always starts with the two header lines `ADDR  Assembly` and `----  --------` (the constant `Header`) |
| Disassembler.WrittenLinesRendered | include/disassembler.h:389-398 | every instruction line written is the rendering of its own line index, inside the buffer |
| Disassembler.ListingComplete | include/disassembler.h:389-398 | the listing completes exactly when every started line renders; it then holds the header and one line per started word, line i being line i's rendering |
| Disassembler.ListingStopsAtFirstError | include/disassembler.h:389-398 | a failing listing stops at its first failing line, and every earlier line was written |
| Disassembler.LineAtInBuffer | include/disassembler.h:391-395 | inside the first 64 KiB, line i shows the word at offset 2i and renders exactly when that word's key is in the map |
| Disassembler.OddLengthFails | include/disassembler.h:389-391 | a buffer of odd length up to 64 KiB fails with `OutOfBounds` on its last, one-byte word |
| Disassembler.EvenLengthLines | include/disassembler.h:389-395 | in an even-length buffer up to 64 KiB, line i renders exactly when word i has a key in the map |
| Disassembler.ShortProgramSucceeds | include/disassembler.h:389-398 | a buffer up to 64 KiB lists without error exactly when its length is even and every word's key is in the map |
| Disassembler.RenderedProgramLists | include/disassembler.h:389-398 | an even-length buffer up to 64 KiB whose every word is one the map renders lists without error, in 2 + N/2 lines |
| Disassembler.ShortProgramListing | include/disassembler.h:384-398 | a complete listing of a buffer up to 64 KiB has 2 + N/2 lines, line i being the padded number i, two spaces, and the mnemonic of the word at offset 2i |
| Disassembler.LongProgramWraps | include/disassembler.h:389-397 | with the offset narrowed to 16 bits, line k + 32768 decodes the same word as line k: the two fail alike, and one renders exactly when the other does |
| CpuTest.CanDecodeChip8Instructions | test/cpu_test.cpp:8-96 | decoding the 68-byte test program at offsets 0, 2, ..., 66 gives the 34 expected (code, data) pairs in order |
| CpuTest.ExpectedCodesAreKeys | test/cpu_test.cpp:50-86 | the expected keys of the decode test are the keys of the dispatch map, in the map's order, without NOP |
| CpuTest.TestProgramListing | test/cpu_test.cpp:12-48 | the decode test program lists without error: the header and one line per word, 36 lines |
| DisassemblerTest.PongWordsRendered | test/disassembler_test.cpp:383-401 | each of the 123 words of the 246-byte test program is a word the dispatch map renders |
| DisassemblerTest.CanDisassembleBinary | test/disassembler_test.cpp:381-419 | disassembling the test program never reaches a key missing from the map (where `.at` would throw and fail the test): it lists without error, in the header and 123 lines |
| DisassemblerTest.CanDisassemble0xE0 | test/disassembler_test.cpp:7-16 | the formatter for key 0xE0 renders the word (0xE0, 0x0) as `CLS` up to letter case |
| DisassemblerTest.CanDisassemble0xEE | test/disassembler_test.cpp:18-27 | the formatter for key 0xEE renders the word (0xEE, 0x0) as `RET` up to letter case |
| DisassemblerTest.CanDisassemble0x1 | test/disassembler_test.cpp:29-38 | the formatter for key 0x1 renders the word (0x1, 0x223) as `JMP\t$223` up to letter case |
| DisassemblerTest.CanDisassemble0x2 | test/disassembler_test.cpp:40-49 | the formatter for key 0x2 renders the word (0x2, 0x322) as `CALL\t$322` up to letter case |
| DisassemblerTest.CanDisassemble0x3 | test/disassembler_test.cpp:51-60 | the formatter for key 0x3 renders the word (0x3, 0x11) as `SE\tV0, $11` up to letter case |
| DisassemblerTest.CanDisassemble0x4 | test/disassembler_test.cpp:62-71 | the formatter for key 0x4 renders the word (0x4, 0x132) as `SNE\tV1, $32` up to letter case |
| DisassemblerTest.CanDisassemble0x50 | test/disassembler_test.cpp:73-82 | the formatter for key 0x50 renders the word (0x50, 0x21) as `SE\tV2, V1` up to letter case |
| DisassemblerTest.CanDisassemble0x6 | test/disassembler_test.cpp:84-93 | the formatter for key 0x6 renders the word (0x6, 0x311) as `MOV\tV3, $11` up to letter case |
| DisassemblerTest.CanDisassemble0x7 | test/disassembler_test.cpp:95-104 | the formatter for key 0x7 renders the word (0x7, 0x40F) as `ADD\tV4, $F` up to letter case |
| DisassemblerTest.CanDisassemble0x80 | test/disassembler_test.cpp:106-115 | the formatter for key 0x80 renders the word (0x80, 0x51) as `MOV\tV5, V1` up to letter case |
| DisassemblerTest.CanDisassemble0x81 | test/disassembler_test.cpp:117-126 | the formatter for key 0x81 renders the word (0x81, 0x61) as `OR\tV6, V1` up to letter case |
| DisassemblerTest.CanDisassemble0x82 | test/disassembler_test.cpp:128-137 | the formatter for key 0x82 renders the word (0x82, 0x71) as `AND\tV7, V1` up to letter case |
| DisassemblerTest.CanDisassemble0x83 | test/disassembler_test.cpp:139-148 | the formatter for key 0x83 renders the word (0x83, 0x81) as `XOR\tV8, V1` up to letter case |
| DisassemblerTest.CanDisassemble0x84 | test/disassembler_test.cpp:150-159 | the formatter for key 0x84 renders the word (0x84, 0x91) as `ADD\tV9, V1` up to letter case |
| DisassemblerTest.CanDisassemble0x85 | test/disassembler_test.cpp:161-170 | the formatter for key 0x85 renders the word (0x85, 0x1) as `SUB\tV0, V1` up to letter case |
| DisassemblerTest.CanDisassemble0x86 | test/disassembler_test.cpp:172-181 | the formatter for key 0x86 renders the word (0x86, 0x11) as `SHR\tV1` up to letter case |
| DisassemblerTest.CanDisassemble0x87 | test/disassembler_test.cpp:183-192 | the formatter for key 0x87 renders the word (0x87, 0x21) as `SUBN\tV2, V1` up to letter case |
| DisassemblerTest.CanDisassemble0x8E | test/disassembler_test.cpp:194-203 | the formatter for key 0x8E renders the word (0x8E, 0x31) as `SHL\tV3` up to letter case |
| DisassemblerTest.CanDisassemble0x90 | test/disassembler_test.cpp:205-214 | the formatter for key 0x90 renders the word (0x90, 0x41) as `SNE\tV4, V1` up to letter case |
| DisassemblerTest.CanDisassemble0xA | test/disassembler_test.cpp:216-225 | the formatter for key 0xA renders the word (0xA, 0x12) as `MVI\tI $12` up to letter case |
| DisassemblerTest.CanDisassemble0xB | test/disassembler_test.cpp:227-236 | the formatter for key 0xB renders the word (0xB, 0x123) as `JMP\tV0, $123` up to letter case |
| DisassemblerTest.CanDisassemble0xC | test/disassembler_test.cpp:238-247 | the formatter for key 0xC renders the word (0xC, 0x233) as `RND\tV2, $33` up to letter case |
| DisassemblerTest.CanDisassemble0xD | test/disassembler_test.cpp:249-258 | the formatter for key 0xD renders the word (0xD, 0x114) as `DRW\tV1, V1, $4` up to letter case |
| DisassemblerTest.CanDisassemble0xE9E | test/disassembler_test.cpp:260-269 | the formatter for key 0xE9E renders the word (0xE9E, 0x1) as `SKP\tV1` up to letter case |
| DisassemblerTest.CanDisassemble0xEA1 | test/disassembler_test.cpp:271-280 | the formatter for key 0xEA1 renders the word (0xEA1, 0x1) as `SKNP\tV1` up to letter case |
| DisassemblerTest.CanDisassemble0xF07 | test/disassembler_test.cpp:282-291 | the formatter for key 0xF07 renders the word (0xF07, 0x1) as `LD\tV1, DT` up to letter case |
| DisassemblerTest.CanDisassemble0xF0A | test/disassembler_test.cpp:293-302 | the formatter for key 0xF0A renders the word (0xF0A, 0x1) as `LD\tV1, K` up to letter case |
| DisassemblerTest.CanDisassemble0xF15 | test/disassembler_test.cpp:304-313 | the formatter for key 0xF15 renders the word (0xF15, 0x1) as `LD\tDT, V1` up to letter case |
| DisassemblerTest.CanDisassemble0xF18 | test/disassembler_test.cpp:315-324 | the formatter for key 0xF18 renders the word (0xF18, 0x1) as `LD\tST, V1` up to letter case |
| DisassemblerTest.CanDisassemble0xF1E | test/disassembler_test.cpp:326-335 | the formatter for key 0xF1E renders the word (0xF1E, 0x1) as `ADD\tI, V1` up to letter case |
| DisassemblerTest.CanDisassemble0xF29 | test/disassembler_test.cpp:337-346 | the formatter for key 0xF29 renders the word (0xF29, 0x1) as `LD\tF, V1` up to letter case |
| DisassemblerTest.CanDisassemble0xF33 | test/disassembler_test.cpp:348-357 | the formatter for key 0xF33 renders the word (0xF33, 0x1) as `LD\tB, V1` up to letter case |
| DisassemblerTest.CanDisassemble0xF55 | test/disassembler_test.cpp:359-368 | the formatter for key 0xF55 renders the word (0xF55, 0x1) as `LD\t[I], V1` up to letter case |
| DisassemblerTest.CanDisassemble0xF65 | test/disassembler_test.cpp:370-379 | the formatter for key 0xF65 renders the word (0xF65, 0x1) as `LD\tV1, [I]` up to letter case |

## Left out

- CPU execution (`chip::CPU`, the `op_code_0x*` handlers, `cycle`, font and ROM loading): their source is not part of this model. Only `decode` of include/cpu.h is modelled.
- File I/O: `disassemble` writes to a `std::ofstream`. The model returns the lines instead, without their `"\n"`. Loading a ROM from disk is not modelled.
- src/main.cpp, include/gui.h and include/debbuger.h: browser bindings, global key pad and screen buffers, and `printf` register dumps. None of them is part of this model.
- test/cpu.cpp: a duplicate of the decode test, which `CpuTest` already states.
- The random source of the 0xC instruction: it belongs to execution, which is not modelled.
- The test `CanDisassembleBinary` (test/disassembler_test.cpp:381-419) also opens and closes a file `pong.txt`; only its call to `chip::disassemble` is modelled.
- `NOP` has no formatter test in the repository. `Disassembler.FixedTexts` states its text.
- Disassembler.Disassemble: `line` is a C++ `int` and `PC` a `uint32_t`. Overflow past 2^31 lines or 2^32 bytes is undefined behaviour or wrap-around in the source, and the model counts both without bound.
- Disassembler.OddLengthFails: the source's unchecked read of `program[N]` on an odd-length buffer is undefined behaviour. The model gives it the outcome the doc comment at include/cpu.h:76 promises: an out-of-bounds error.
- DisassemblerTest: `EXPECT_STRCASEEQ` is modelled as comparison after ASCII upper-casing. Locale-dependent case folding is not modelled.
