/** The instruction set of the machine in cpu.py: the nine opcodes of its
    dispatch table, the decoding of an instruction byte, and the faults a
    step can end in. */
module Isa {

  datatype Option<T> = None | Some(value: T)

  /** The ways an operation of the machine can fail. The source raises a
      KeyError, an IndexError or a plain Exception; here each is a value
      that ends the run. */
  datatype Fault =
    | UnknownInstruction(ir: int)       // the opcode is not a key of the dispatch table
    | RamOutOfBounds(address: int)      // a memory address outside 0..255
    | RegisterOutOfBounds(index: int)   // a register index outside 0..7
    | UnsupportedOperation(op: string)  // the ALU was given an operation it does not know

  /** A value read from memory, or the fault that stopped the read. */
  datatype Result<T> = Read(value: T) | Failed(fault: Fault)

  /** The nine instructions of the dispatch table. */
  datatype Instr = Ldi | Prn | Hlt | Mul | Call | Cmp | Jmp | Jeq | Jne

  const LDI: int := 0x82   // 0b10000010
  const PRN: int := 0x47   // 0b01000111
  const HLT: int := 0x01   // 0b00000001
  const MUL: int := 0xA2   // 0b10100010
  const CALL: int := 0x50  // 0b01010000
  const CMP: int := 0xA7   // 0b10100111
  const JMP: int := 0x54   // 0b01010100
  const JEQ: int := 0x55   // 0b01010101
  const JNE: int := 0x56   // 0b01010110

  /** The keys of the dispatch table. */
  const OpCodes: set<int> := {LDI, PRN, HLT, MUL, CALL, CMP, JMP, JEQ, JNE}

  /** The byte that selects an instruction. */
  function OpCode(i: Instr): (c: int)
    ensures c in OpCodes
    ensures 0 <= c < 256
  {
    match i
    case Ldi => LDI
    case Prn => PRN
    case Hlt => HLT
    case Mul => MUL
    case Call => CALL
    case Cmp => CMP
    case Jmp => JMP
    case Jeq => JEQ
    case Jne => JNE
  }

  /** The lookup `op_codes[IR]`: the instruction an opcode byte selects, or
      None where the lookup raises a KeyError. */
  function Decode(ir: int): (r: Option<Instr>)
    ensures r.Some? <==> ir in OpCodes
    ensures r.Some? ==> OpCode(r.value) == ir
  {
    if ir == LDI then Some(Ldi)
    else if ir == PRN then Some(Prn)
    else if ir == HLT then Some(Hlt)
    else if ir == MUL then Some(Mul)
    else if ir == CALL then Some(Call)
    else if ir == CMP then Some(Cmp)
    else if ir == JMP then Some(Jmp)
    else if ir == JEQ then Some(Jeq)
    else if ir == JNE then Some(Jne)
    else None
  }

  /** Decoding the opcode of an instruction gives that instruction back. */
  lemma DecodeOpCode(i: Instr)
    ensures Decode(OpCode(i)) == Some(i)
  {
  }

  /** No two instructions share an opcode, so the table has nine entries. */
  lemma OpCodeInjective(i: Instr, j: Instr)
    ensures OpCode(i) == OpCode(j) <==> i == j
  {
  }
}
