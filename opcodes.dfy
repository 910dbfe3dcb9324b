/** The LS-8 instruction set: the closed table of fifteen opcodes that the
    emulator's branch table maps to handlers, with their byte values exactly
    as the emulator defines them. */
module Opcodes {
  import opened Wrappers

  datatype Op =
    | ADD | AND | CALL | CMP | HLT | JEQ | JNE | JMP
    | LDI | MUL | POP | PRN | PUSH | RET | ST

  /** The byte value each handler is registered under in the branch table. */
  function Encode(op: Op): int {
    match op
    case ADD  => 0xA0  // 10100000
    case AND  => 0xA8  // 10101000
    case CALL => 0x50  // 01010000
    case CMP  => 0xA7  // 10100111
    case HLT  => 0x01  // 00000001
    case JEQ  => 0x55  // 01010101
    case JNE  => 0x56  // 01010110
    case JMP  => 0x54  // 01010100
    case LDI  => 0x82  // 10000010
    case MUL  => 0xA2  // 10100010
    case POP  => 0x46  // 01000110
    case PRN  => 0x47  // 01000111
    case PUSH => 0x45  // 01000101
    case RET  => 0x11  // 00010001
    case ST   => 0x84  // 10000100
  }

  /** Branch-table lookup: the handler registered under a byte, or None for
      a byte with no entry (a key error in the emulator). */
  function Decode(byte: int): Option<Op> {
    if byte == 0xA0 then Some(ADD)
    else if byte == 0xA8 then Some(AND)
    else if byte == 0x50 then Some(CALL)
    else if byte == 0xA7 then Some(CMP)
    else if byte == 0x01 then Some(HLT)
    else if byte == 0x55 then Some(JEQ)
    else if byte == 0x56 then Some(JNE)
    else if byte == 0x54 then Some(JMP)
    else if byte == 0x82 then Some(LDI)
    else if byte == 0xA2 then Some(MUL)
    else if byte == 0x46 then Some(POP)
    else if byte == 0x47 then Some(PRN)
    else if byte == 0x45 then Some(PUSH)
    else if byte == 0x11 then Some(RET)
    else if byte == 0x84 then Some(ST)
    else None
  }

  /** How many staged operands each handler reads: `a` only, or `a` and `b`. */
  function Arity(op: Op): nat {
    match op
    case ADD | AND | CMP | LDI | MUL | ST => 2
    case CALL | JEQ | JNE | JMP | POP | PRN | PUSH => 1
    case HLT | RET => 0
  }

  /** Every opcode is a byte, and the table is looked up under exactly that
      byte: decoding an encoded opcode gives it back. */
  lemma EncodeDecode(op: Op)
    ensures 0 <= Encode(op) < 256
    ensures Decode(Encode(op)) == Some(op)
  {
  }

  /** A byte that decodes is the encoding of what it decodes to, so the
      table is injective and nothing else decodes. */
  lemma DecodeEncode(byte: int)
    ensures Decode(byte).Some? ==> Encode(Decode(byte).value) == byte
    ensures Decode(byte).None? <==> forall op: Op :: Encode(op) != byte
  {
    if Decode(byte).None? {
      forall op: Op ensures Encode(op) != byte {
        EncodeDecode(op);
      }
    }
  }

  /** The operand count the decoder derives from the two high bits of the
      opcode (`IR >> 6`) is exactly the number of operands the handler reads,
      so every handler finds its operands staged. */
  lemma OperandCountIsArity(op: Op)
    ensures Encode(op) / 64 == Arity(op)
  {
  }
}
