/** The instruction shapes the control unit and the data path dispatch on.
    src/control_unit.py and src/datapath.py import these names (Registers,
    ArgType, JumpInstruction, ...) from src/isa.py, which does not define them;
    they are reconstructed here from the fields the control unit reads:
    `opcode`, `dest`, `src`, `arg_type` and `addr`. */
module Instructions {

  /** The opcode names the control unit and the ALU refer to. The Opcode enum
      of src/isa.py:8-17 has only nine of them (no MUL, DIV, JE, CALL, RET or
      RST), so as written execute_alu fails on `Opcode.MUL` for any opcode
      other than ADD or SUB; this set is the one the code names. */
  datatype Opcode = ADD | SUB | MUL | DIV | JMP | JE | CALL | RET | LD | ST | OUT | RST | HLT

  datatype Register = R1 | R2

  /** Whether an arithmetic instruction takes its right operand from a register
      or from the instruction itself. */
  datatype ArgType = REG | IMM

  datatype Instruction =
      /** ArithmeticInstructionReg. `operand` is the instruction's `src`; the
          control unit reads it only in the IMM form, as the immediate. An
          ArithmeticInstructionImm is taken to be this shape with `IMM`: the
          control unit never tests for that class on its own. */
    | Arithmetic(opcode: Opcode, dest: Register, argType: ArgType, operand: int)
      /** IOMemoryInstruction: LD or ST between register `src` and memory[addr]. */
    | Memory(opcode: Opcode, src: Register, addr: int)
    | Jump(addr: int)
      /** JumpEqInstruction: jump when register `src` holds 0. */
    | JumpEq(src: Register, addr: int)
    | Call(addr: int)
    | Ret
      /** ManagementInstruction (HLT). */
    | Management
      /** IORstInstruction: return from the interrupt handler. */
    | Rst
      /** IOOutInstruction; no handler of the control unit dispatches it. */
    | Out(src: Register)

  /** A program as src/machine.py builds and runs it: the entry address and
      the instructions (src/isa.py:38 defines Program as a bare list, with no
      entry). */
  datatype Program = Program(entry: int, instructions: seq<Instruction>)
}
