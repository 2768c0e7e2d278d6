/**
 * The instruction word shared by the decoder and the disassembler: a record
 * of two unsigned 16-bit fields, the dense opcode key `code` and the operand
 * bits `data` that remain once the key has been taken out.
 */
module OpCodes {

  /** An unsigned 8-bit value (`uint8_t`). */
  type byte = x: int | 0 <= x < 0x100

  /** An unsigned 16-bit value (`uint16_t`). */
  type u16 = x: int | 0 <= x < 0x1_0000

  /** `chip::OpCode`: the decoded key and its operand. */
  datatype OpCode = OpCode(code: u16, data: u16)
}
