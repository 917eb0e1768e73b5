/** The control unit (src/control_unit.py): gives each instruction its meaning
    as a sequence of data-path signals, and keeps the program counter and the
    tick counter.

    As in the data path, every handler is specified by a function on CuState
    and implemented by a method of the ControlUnit class whose postcondition
    ties the new state to that function of the old one. The stack protocols of
    CALL/RET and of RST are lemmas about those functions. */
module ControlUnit {
  import opened Python
  import opened MachineSignals
  import opened Instructions
  import opened Datapath
  import opened IoController

  /** The control unit's state as a value: program_counter, _tick and the data path. */
  datatype CuState = CuState(pc: int, tick: int, dp: DpState)

  /** Carries a data-path outcome over into the control unit's state. */
  function Lift(c: CuState, o: Outcome<DpState>): Outcome<CuState>
  {
    Outcome(c.(dp := o.state), o.raised)
  }

  /** The instruction kinds that carry a jump target (the assert in
      signal_latch_program_counter). */
  predicate HasTarget(instr: Instruction)
  {
    instr.Jump? || instr.JumpEq? || instr.Call?
  }

  /** signal_latch_program_counter. */
  function LatchProgramCounter(c: CuState, sel: Signal, instr: Option<Instruction>): (o: Outcome<CuState>)
    ensures o.state == c.(pc := o.state.pc)
    ensures sel == NextIp ==> o == Ok(c.(pc := c.pc + 1))
    ensures sel == PutData ==> o == Ok(c.(pc := c.dp.aluOut))
    ensures sel == JmpArg && instr.Some? && HasTarget(instr.value) ==> o == Ok(c.(pc := instr.value.addr))
    ensures sel == JmpArg && !(instr.Some? && HasTarget(instr.value)) ==> o == Raise(c, AssertionError)
    ensures sel != NextIp && sel != PutData && sel != JmpArg ==> o == Ok(c)
  {
    match sel
    case PutData => Ok(c.(pc := c.dp.aluOut))
    case JmpArg =>
      if instr.Some? && HasTarget(instr.value) then Ok(c.(pc := instr.value.addr))
      else Raise(c, AssertionError)
    case NextIp => Ok(c.(pc := c.pc + 1))
    case _ => Ok(c)
  }

  /** CALL: push the program counter (through the ALU as pc + 0), then jump. */
  function CallStep(c: CuState, instr: Instruction): Outcome<CuState>
    requires instr.Call?
  {
    var d1 := LatchAluL(c.dp, LoadPc, c.pc).state;
    var d2 := LatchAluR(d1, LoadArg, 0).state;
    var d3 := AluStep(d2, ADD).state;
    var pushed := Write(d3, SpDec, 0);
    if !pushed.Completed() then Lift(c, pushed)
    else
      var c4 := CuState(c.pc, c.tick + 1, pushed.state);
      var c5 := LatchProgramCounter(c4, JmpArg, Some(instr)).state;
      Ok(c5.(tick := c5.tick + 1))
  }

  /** RET: pop the return address into R1 and pass it through the ALU into the
      program counter. */
  function RetStep(c: CuState): (o: Outcome<CuState>)
    ensures c.tick <= o.state.tick && o.raised != Some(StopIteration)
  {
    var popped := Read(c.dp, SpInc, 0);
    if !popped.Completed() then Lift(c, popped)
    else
      var d2 := LatchR1(popped.state, MemDataOut).state;
      var d3 := LatchAluL(d2, DataR1, 0).state;
      var d4 := LatchAluR(d3, LoadArg, 0).state;
      var d5 := AluStep(d4, ADD).state;
      Ok(CuState(d5.aluOut, c.tick + 1, d5))
  }

  predicate HandlesControlFlow(instr: Instruction)
  {
    instr.Jump? || instr.Management? || instr.JumpEq? || instr.Call? || instr.Ret?
  }

  /** decode_and_execute_control_flow_instruction. HLT raises StopIteration;
      instruction kinds it does not handle change nothing. */
  function ExecuteControlFlow(c: CuState, instr: Instruction): (o: Outcome<CuState>)
    ensures !HandlesControlFlow(instr) ==> o == Ok(c)
    ensures instr.Management? ==> o == Raise(c, StopIteration)
    ensures instr.Jump? ==> o == Ok(c.(pc := instr.addr, tick := c.tick + 1))
    ensures instr.JumpEq? ==>
              o == Ok(c.(pc := if RegisterValue(c.dp, instr.src) == 0 then instr.addr else c.pc,
                         tick := c.tick + 1))
  {
    match instr
    case Jump(_) =>
      var c1 := LatchProgramCounter(c, JmpArg, Some(instr)).state;
      Ok(c1.(tick := c1.tick + 1))
    case Management => Raise(c, StopIteration)
    case JumpEq(src, _) =>
      var c1 := if IsZero(c.dp, src) then LatchProgramCounter(c, JmpArg, Some(instr)).state else c;
      Ok(c1.(tick := c1.tick + 1))
    case Call(_) => CallStep(c, instr)
    case Ret => RetStep(c)
    case _ => Ok(c)
  }

  /** Register and immediate arithmetic. The register form combines the
      destination with the other register; the immediate form always works on
      R1, whatever `dest` says (src/control_unit.py:135-141). */
  function ArithmeticStep(c: CuState, instr: Instruction): (o: Outcome<CuState>)
    requires instr.Arithmetic?
    ensures o.state.pc == c.pc && c.tick <= o.state.tick && o.raised != Some(StopIteration)
  {
    match instr.argType
    case REG =>
      var d1 := LatchAluL(c.dp, if instr.dest == R1 then DataR1 else DataR2, 0).state;
      var d2 := LatchAluR(d1, if instr.dest == R1 then DataR2 else DataR1, 0).state;
      var computed := AluStep(d2, instr.opcode);
      if !computed.Completed() then Lift(c, computed)
      else
        var d4 := if instr.dest == R1 then LatchR1(computed.state, AluOut).state
                  else LatchR2(computed.state, AluOut, 0).state;
        Ok(CuState(c.pc, c.tick + 1, d4))
    case IMM =>
      var d1 := LatchAluL(c.dp, DataR1, 0).state;
      var d2 := LatchAluR(d1, LoadArg, instr.operand).state;
      var computed := AluStep(d2, instr.opcode);
      if !computed.Completed() then Lift(c, computed)
      else Ok(CuState(c.pc, c.tick + 1, LatchR1(computed.state, AluOut).state))
  }

  /** LD and ST at an absolute address; ST passes the register through the ALU
      as reg + 0. A memory instruction with any other opcode does nothing. */
  function MemoryStep(c: CuState, instr: Instruction): (o: Outcome<CuState>)
    requires instr.Memory?
    ensures o.state.pc == c.pc && c.tick <= o.state.tick && o.raised != Some(StopIteration)
  {
    if instr.opcode == LD then
      var fetched := Read(c.dp, InputAddr, instr.addr);
      if !fetched.Completed() then Lift(c, fetched)
      else
        var d2 := if instr.src == R1 then LatchR1(fetched.state, MemDataOut).state
                  else LatchR2(fetched.state, MemDataOut, 0).state;
        Ok(CuState(c.pc, c.tick + 1, d2))
    else if instr.opcode == ST then
      var d1 := LatchAluL(c.dp, if instr.src == R1 then DataR1 else DataR2, 0).state;
      var d2 := LatchAluR(d1, LoadArg, 0).state;
      var d3 := AluStep(d2, ADD).state;
      var stored := Write(d3, InputAddr, instr.addr);
      if !stored.Completed() then Lift(c, stored)
      else Ok(CuState(c.pc, c.tick + 1, stored.state))
    else Ok(c)
  }

  /** Pop the top of the stack into a register, one tick. */
  function PopInto(c: CuState, reg: Register): (o: Outcome<CuState>)
    ensures o.state.pc == c.pc && c.tick <= o.state.tick && o.raised != Some(StopIteration)
  {
    var popped := Read(c.dp, SpInc, 0);
    if !popped.Completed() then Lift(c, popped)
    else
      var d := if reg == R1 then LatchR1(popped.state, MemDataOut).state
               else LatchR2(popped.state, MemDataOut, 0).state;
      Ok(CuState(c.pc, c.tick + 1, d))
  }

  /** RST: four pops, in order: discard the trampoline's return address,
      restore the program counter (src/control_unit.py:164-170 issue the same
      signals as RET: pop into R1, pass it through the ALU into the program
      counter), then R2, then R1. */
  function RstStep(c: CuState): (o: Outcome<CuState>)
    ensures c.tick <= o.state.tick && o.raised != Some(StopIteration)
  {
    var discarded := Read(c.dp, SpInc, 0);
    if !discarded.Completed() then Lift(c, discarded)
    else
      var restoredPc := RetStep(c.(dp := discarded.state));
      if !restoredPc.Completed() then restoredPc
      else
        var restoredR2 := PopInto(restoredPc.state, R2);
        if !restoredR2.Completed() then restoredR2
        else PopInto(restoredR2.state, R1)
  }

  predicate HandlesInstruction(instr: Instruction)
  {
    instr.Arithmetic? || instr.Memory? || instr.Rst?
  }

  /** decode_and_execute_instruction. No handler advances the program counter:
      only RST sets it. Kinds it does not handle (every control-flow
      instruction and OUT) change nothing, it never raises StopIteration, and
      the tick never goes back. */
  function ExecuteInstruction(c: CuState, instr: Instruction): (o: Outcome<CuState>)
    ensures !HandlesInstruction(instr) ==> o == Ok(c)
    ensures !instr.Rst? ==> o.state.pc == c.pc
    ensures o.raised != Some(StopIteration)
    ensures c.tick <= o.state.tick
  {
    match instr
    case Arithmetic(_, _, _, _) => ArithmeticStep(c, instr)
    case Memory(_, _, _) => MemoryStep(c, instr)
    case Rst => RstStep(c)
    case _ => Ok(c)
  }

  /** CALL at pc p stores p at the stack pointer, lowers the pointer by one,
      jumps to the target and takes two ticks. */
  lemma CallPushesReturnAddress(c: CuState, target: int)
    requires 0 <= c.dp.sp < |c.dp.memory|
    ensures var o := ExecuteControlFlow(c, Call(target));
            o.Completed()
            && o.state.pc == target && o.state.tick == c.tick + 2
            && o.state.dp.memory == c.dp.memory[c.dp.sp := c.pc]
            && o.state.dp.sp == c.dp.sp - 1
            && o.state.dp.r1 == c.dp.r1 && o.state.dp.r2 == c.dp.r2
  {
  }

  /** CALL at pc p followed by RET returns to p with the stack pointer back
      where it was; RET leaves p in R1. The pop guard refuses a pop at pointer
      0, so the push must not start at cell 1; a push at cell 0 leaves the
      pointer at -1, which the guard lets through. */
  lemma CallThenRet(c: CuState, target: int)
    requires 0 <= c.dp.sp < |c.dp.memory| && c.dp.sp != 1
    ensures var called := ExecuteControlFlow(c, Call(target));
            var returned := ExecuteControlFlow(called.state, Ret);
            called.Completed() && returned.Completed()
            && returned.state.pc == c.pc
            && returned.state.dp.sp == c.dp.sp
            && returned.state.dp.r1 == c.pc
            && returned.state.dp.r2 == c.dp.r2
            && returned.state.tick == c.tick + 3
  {
    CallPushesReturnAddress(c, target);
  }

  /** One push of the interrupt frame as tests/test_control_unit.py:124-139
      performs it by hand: latch the value left, 0 right, ADD, write with SP_DEC.
      (Interrupt entry, check_int_request, is an empty stub in the source.) */
  function PushVia(d: DpState, sel: Signal, value: int): DpState
  {
    var d1 := LatchAluL(d, sel, value).state;
    var d2 := LatchAluR(d1, LoadArg, 0).state;
    var d3 := AluStep(d2, ADD).state;
    Write(d3, SpDec, 0).state
  }

  /** The three pushes of an interrupt frame: R1, then R2, then the program counter. */
  function PushInterruptFrame(c: CuState): CuState
  {
    var d1 := PushVia(c.dp, DataR1, 0);
    var d2 := PushVia(d1, DataR2, 0);
    c.(dp := PushVia(d2, LoadPc, c.pc))
  }

  /** The frame after the three pushes: R1, R2 and the program counter sit at
      sp, sp-1 and sp-2, the pointer is three lower, and nothing else in memory
      changed. */
  lemma PushInterruptFrameLayout(c: CuState)
    requires 2 <= c.dp.sp < |c.dp.memory|
    ensures var f := PushInterruptFrame(c);
            var sp := c.dp.sp;
            && f.pc == c.pc && f.tick == c.tick
            && f.dp.sp == sp - 3
            && f.dp.r1 == c.dp.r1 && f.dp.r2 == c.dp.r2
            && |f.dp.memory| == |c.dp.memory|
            && f.dp.memory == c.dp.memory[sp := c.dp.r1][sp - 1 := c.dp.r2][sp - 2 := c.pc]
  {
  }

  /** RET pops the cell above the pointer into R1 and the program counter. */
  lemma RetPops(c: CuState)
    requires c.dp.sp != 0 && 0 <= c.dp.sp + 1 < |c.dp.memory|
    ensures var o := RetStep(c);
            o.Completed()
            && o.state.pc == c.dp.memory[c.dp.sp + 1] && o.state.dp.r1 == c.dp.memory[c.dp.sp + 1]
            && o.state.dp.r2 == c.dp.r2
            && o.state.dp.sp == c.dp.sp + 1 && o.state.dp.memory == c.dp.memory
            && o.state.tick == c.tick + 1
  {
  }

  /** PopInto pops the cell above the pointer into the register and leaves the
      other register and the program counter alone. */
  lemma PopIntoReads(c: CuState, reg: Register)
    requires c.dp.sp != 0 && 0 <= c.dp.sp + 1 < |c.dp.memory|
    ensures var o := PopInto(c, reg);
            o.Completed()
            && RegisterValue(o.state.dp, reg) == c.dp.memory[c.dp.sp + 1]
            && (reg == R1 ==> o.state.dp.r2 == c.dp.r2)
            && (reg == R2 ==> o.state.dp.r1 == c.dp.r1)
            && o.state.pc == c.pc
            && o.state.dp.sp == c.dp.sp + 1 && o.state.dp.memory == c.dp.memory
            && o.state.tick == c.tick + 1
  {
  }

  /** RST reads the four cells above the pointer: the first is discarded, then
      come the program counter, R2 and R1. */
  lemma RstPops(c: CuState)
    requires 0 < c.dp.sp && c.dp.sp + 4 < |c.dp.memory|
    ensures var o := ExecuteInstruction(c, Rst);
            var sp := c.dp.sp;
            o.Completed()
            && o.state.pc == c.dp.memory[sp + 2]
            && o.state.dp.r2 == c.dp.memory[sp + 3]
            && o.state.dp.r1 == c.dp.memory[sp + 4]
            && o.state.dp.sp == sp + 4
            && o.state.tick == c.tick + 3
  {
    var discarded := Read(c.dp, SpInc, 0);
    var c1 := c.(dp := discarded.state);
    RetPops(c1);
    var restoredPc := RetStep(c1);
    PopIntoReads(restoredPc.state, R2);
    var restoredR2 := PopInto(restoredPc.state, R2);
    PopIntoReads(restoredR2.state, R1);
  }

  /** Interrupt transparency: after the three pushes of an interrupt frame, any
      change to R1 and R2, and a CALL (the trampoline), RST restores R1, R2, the
      program counter and the stack pointer to their values before the pushes.
      The pop guard refuses a pop at pointer 0, so the frame must not reach
      cell 1; a frame pushed from pointer 0 wraps to the end of memory under
      Python indexing and comes back intact. */
  lemma RstUndoesInterruptFrame(c: CuState, x1: int, x2: int, handler: int)
    requires (c.dp.sp == 0 && 4 <= |c.dp.memory|) || 4 < c.dp.sp < |c.dp.memory|
    ensures var framed := PushInterruptFrame(c);
            var meddled := framed.(dp := framed.dp.(r1 := x1, r2 := x2));
            var called := ExecuteControlFlow(meddled, Call(handler));
            var resumed := ExecuteInstruction(called.state, Rst);
            called.Completed() && resumed.Completed()
            && resumed.state.pc == c.pc
            && resumed.state.dp.r1 == c.dp.r1
            && resumed.state.dp.r2 == c.dp.r2
            && resumed.state.dp.sp == c.dp.sp
  {
    if c.dp.sp == 0 {
      return;
    }
    PushInterruptFrameLayout(c);
    var framed := PushInterruptFrame(c);
    var meddled := framed.(dp := framed.dp.(r1 := x1, r2 := x2));
    CallPushesReturnAddress(meddled, handler);
    var called := ExecuteControlFlow(meddled, Call(handler));
    RstPops(called.state);
  }

  /** Register-form arithmetic computes op(dest, other) into the destination
      register; the other register, memory, the stack pointer and the program
      counter are unchanged. */
  lemma ArithmeticRegisterForm(c: CuState, op: Opcode, dest: Register, operand: int)
    requires IsAluOp(op)
    requires op == DIV ==> RegisterValue(c.dp, if dest == R1 then R2 else R1) != 0
    ensures var o := ExecuteInstruction(c, Arithmetic(op, dest, REG, operand));
            o.Completed()
            && o.state.pc == c.pc && o.state.tick == c.tick + 1
            && o.state.dp.memory == c.dp.memory && o.state.dp.sp == c.dp.sp
            && (dest == R1 ==> o.state.dp.r1 == Apply(op, c.dp.r1, c.dp.r2) && o.state.dp.r2 == c.dp.r2)
            && (dest == R2 ==> o.state.dp.r2 == Apply(op, c.dp.r2, c.dp.r1) && o.state.dp.r1 == c.dp.r1)
  {
  }

  /** Immediate-form arithmetic computes op(R1, imm) into R1 whatever `dest`
      names; R2, memory and the program counter are unchanged. */
  lemma ArithmeticImmediateForm(c: CuState, op: Opcode, dest: Register, imm: int)
    requires IsAluOp(op) && (op == DIV ==> imm != 0)
    ensures var o := ExecuteInstruction(c, Arithmetic(op, dest, IMM, imm));
            o.Completed()
            && o.state.pc == c.pc && o.state.tick == c.tick + 1
            && o.state.dp.r1 == Apply(op, c.dp.r1, imm)
            && o.state.dp.r2 == c.dp.r2
            && o.state.dp.memory == c.dp.memory && o.state.dp.sp == c.dp.sp
  {
  }

  /** An arithmetic instruction whose opcode is not ADD, SUB, MUL or DIV raises
      ValueError before any register is written. */
  lemma ArithmeticUnknownOpcode(c: CuState, op: Opcode, dest: Register, argType: ArgType, operand: int)
    requires !IsAluOp(op)
    ensures var o := ExecuteInstruction(c, Arithmetic(op, dest, argType, operand));
            o.raised == Some(UnknownOpcode)
            && o.state.dp.r1 == c.dp.r1 && o.state.dp.r2 == c.dp.r2
            && o.state.pc == c.pc && o.state.tick == c.tick
  {
  }

  /** DIV by zero raises ZeroDivisionError before any register is written: in
      the register form the divisor is the other register, in the immediate
      form the operand. */
  lemma DivByZero(c: CuState, dest: Register, argType: ArgType, operand: int)
    requires argType == REG ==> RegisterValue(c.dp, if dest == R1 then R2 else R1) == 0
    requires argType == IMM ==> operand == 0
    ensures var o := ExecuteInstruction(c, Arithmetic(DIV, dest, argType, operand));
            o.raised == Some(ZeroDivisionError)
            && o.state.dp.r1 == c.dp.r1 && o.state.dp.r2 == c.dp.r2
            && o.state.dp.memory == c.dp.memory && o.state.dp.sp == c.dp.sp
            && o.state.pc == c.pc && o.state.tick == c.tick
  {
  }

  /** RET at pointer 0 is refused by the pop guard: StackOverflow, nothing
      changed. */
  lemma RetAtZeroOverflows(c: CuState)
    requires c.dp.sp == 0
    ensures ExecuteControlFlow(c, Ret) == Raise(c, StackOverflow)
  {
  }

  /** RST at pointer 0 is refused by its first pop: StackOverflow, nothing
      changed. */
  lemma RstAtZeroOverflows(c: CuState)
    requires c.dp.sp == 0
    ensures ExecuteInstruction(c, Rst) == Raise(c, StackOverflow)
  {
  }

  /** A memory instruction whose opcode is neither LD nor ST counts as handled
      and changes nothing. */
  lemma OtherMemoryOpcodeDoesNothing(c: CuState, op: Opcode, reg: Register, addr: int)
    requires op != LD && op != ST
    ensures HandlesInstruction(Memory(op, reg, addr))
    ensures ExecuteInstruction(c, Memory(op, reg, addr)) == Ok(c)
  {
  }

  /** LD copies memory[addr] into the named register and leaves the other
      register and memory unchanged. */
  lemma LoadCopiesCell(c: CuState, reg: Register, addr: int)
    requires 0 <= addr < |c.dp.memory|
    ensures var o := ExecuteInstruction(c, Memory(LD, reg, addr));
            o.Completed()
            && RegisterValue(o.state.dp, reg) == c.dp.memory[addr]
            && RegisterValue(o.state.dp, if reg == R1 then R2 else R1)
               == RegisterValue(c.dp, if reg == R1 then R2 else R1)
            && o.state.dp.memory == c.dp.memory
            && o.state.pc == c.pc && o.state.tick == c.tick + 1
  {
  }

  /** ST stores the named register at memory[addr] and changes no other cell,
      neither register, nor the stack pointer. */
  lemma StoreWritesCell(c: CuState, reg: Register, addr: int)
    requires 0 <= addr < |c.dp.memory|
    ensures var o := ExecuteInstruction(c, Memory(ST, reg, addr));
            o.Completed()
            && o.state.dp.memory == c.dp.memory[addr := RegisterValue(c.dp, reg)]
            && o.state.dp.r1 == c.dp.r1 && o.state.dp.r2 == c.dp.r2
            && o.state.dp.sp == c.dp.sp
            && o.state.pc == c.pc && o.state.tick == c.tick + 1
  {
  }

  class ControlUnit {
    var program: Program
    var programCounter: int
    const dataPath: DataPath
    /** Held as machine.py:22 passes it; no handler uses it. */
    const io: IOController
    var tick: int

    /** The control unit's current state as a value. */
    ghost function State(): CuState
      reads this, dataPath, dataPath.dataMemory
    {
      CuState(programCounter, tick, dataPath.State())
    }

    constructor (program: Program, dataPath: DataPath, io: IOController)
      ensures this.program == program && this.dataPath == dataPath && this.io == io
      ensures programCounter == 0 && tick == 0
    {
      this.program := program;
      this.dataPath := dataPath;
      this.io := io;
      programCounter := 0;
      tick := 0;
    }

    method Tick()
      modifies this
      ensures tick == old(tick) + 1
      ensures programCounter == old(programCounter) && program == old(program)
    {
      tick := tick + 1;
    }

    method SignalLatchProgramCounter(sel: Signal, instr: Option<Instruction> := None)
      returns (err: Option<Exception>)
      modifies this
      ensures Outcome(State(), err) == LatchProgramCounter(old(State()), sel, instr)
      ensures program == old(program)
    {
      err := None;
      match sel
      case PutData =>
        programCounter := dataPath.aluOut;
      case JmpArg =>
        if !(instr.Some? && HasTarget(instr.value)) {
          return Some(AssertionError);
        }
        programCounter := instr.value.addr;
      case NextIp =>
        programCounter := programCounter + 1;
      case _ =>
    }

    method DecodeAndExecuteControlFlowInstruction(instr: Instruction)
      returns (handled: bool, err: Option<Exception>)
      modifies this, dataPath, dataPath.dataMemory
      ensures Outcome(State(), err) == ExecuteControlFlow(old(State()), instr)
      ensures err.None? ==> handled == HandlesControlFlow(instr)
      ensures program == old(program)
    {
      handled, err := true, None;
      match instr
      case Jump(_) =>
        var _ := SignalLatchProgramCounter(JmpArg, Some(instr));
        Tick();
      case Management =>
        err := Some(StopIteration);
      case JumpEq(src, _) =>
        var zero := dataPath.ZeroFlag(src);
        if zero {
          var _ := SignalLatchProgramCounter(JmpArg, Some(instr));
        }
        Tick();
      case Call(_) =>
        err := ExecuteCall(instr);
      case Ret =>
        err := ExecuteRet();
      case _ =>
        handled := false;
    }

    /** The CALL branch of decode_and_execute_control_flow_instruction. */
    method ExecuteCall(instr: Instruction) returns (err: Option<Exception>)
      requires instr.Call?
      modifies this, dataPath, dataPath.dataMemory
      ensures Outcome(State(), err) == CallStep(old(State()), instr)
      ensures program == old(program)
    {
      // LOAD_PC, LOAD_ARG and ADD are always accepted: no exception can arise
      var _ := dataPath.SignalLatchAluL(LoadPc, programCounter);
      var _ := dataPath.SignalLatchAluR(LoadArg, 0);
      var _ := dataPath.ExecuteAlu(ADD);
      err := dataPath.SignalWrite(SpDec);
      if err.Some? {
        return;
      }
      Tick();
      var _ := SignalLatchProgramCounter(JmpArg, Some(instr));
      Tick();
    }

    /** The RET branch of decode_and_execute_control_flow_instruction. */
    method ExecuteRet() returns (err: Option<Exception>)
      modifies this, dataPath, dataPath.dataMemory
      ensures Outcome(State(), err) == RetStep(old(State()))
      ensures program == old(program)
    {
      err := dataPath.SignalRead(SpInc);
      if err.Some? {
        return;
      }
      var _ := dataPath.SignalLatchR1(MemDataOut);
      var _ := dataPath.SignalLatchAluL(DataR1);
      var _ := dataPath.SignalLatchAluR(LoadArg, 0);
      var _ := dataPath.ExecuteAlu(ADD);
      programCounter := dataPath.aluOut;
      Tick();
    }

    method DecodeAndExecuteInstruction(instr: Instruction)
      returns (handled: bool, err: Option<Exception>)
      modifies this, dataPath, dataPath.dataMemory
      ensures Outcome(State(), err) == ExecuteInstruction(old(State()), instr)
      ensures err.None? ==> handled == HandlesInstruction(instr)
      ensures program == old(program)
    {
      handled, err := true, None;
      match instr
      case Arithmetic(_, _, _, _) =>
        err := ExecuteArithmetic(instr);
      case Memory(_, _, _) =>
        err := ExecuteMemory(instr);
      case Rst =>
        err := ExecuteRst();
      case _ =>
        handled := false;
    }

    /** The arithmetic branch of decode_and_execute_instruction. */
    method ExecuteArithmetic(instr: Instruction) returns (err: Option<Exception>)
      requires instr.Arithmetic?
      modifies this, dataPath, dataPath.dataMemory
      ensures Outcome(State(), err) == ArithmeticStep(old(State()), instr)
      ensures program == old(program)
    {
      err := None;
      match instr.argType
      case REG =>
        if instr.dest == R1 {
          var _ := dataPath.SignalLatchAluL(DataR1);
          var _ := dataPath.SignalLatchAluR(DataR2);
          err := dataPath.ExecuteAlu(instr.opcode);
          if err.Some? {
            return;
          }
          var _ := dataPath.SignalLatchR1(AluOut);
        } else {
          var _ := dataPath.SignalLatchAluL(DataR2);
          var _ := dataPath.SignalLatchAluR(DataR1);
          err := dataPath.ExecuteAlu(instr.opcode);
          if err.Some? {
            return;
          }
          var _ := dataPath.SignalLatchR2(AluOut);
        }
        Tick();
      case IMM =>
        var _ := dataPath.SignalLatchAluL(DataR1);
        var _ := dataPath.SignalLatchAluR(LoadArg, instr.operand);
        err := dataPath.ExecuteAlu(instr.opcode);
        if err.Some? {
          return;
        }
        var _ := dataPath.SignalLatchR1(AluOut);
        Tick();
    }

    /** The LD/ST branch of decode_and_execute_instruction. */
    method ExecuteMemory(instr: Instruction) returns (err: Option<Exception>)
      requires instr.Memory?
      modifies this, dataPath, dataPath.dataMemory
      ensures Outcome(State(), err) == MemoryStep(old(State()), instr)
      ensures program == old(program)
    {
      err := None;
      if instr.opcode == LD {
        err := ExecuteLoad(instr);
      } else if instr.opcode == ST {
        err := ExecuteStore(instr);
      }
    }

    /** LD: read memory[addr] into the named register. */
    method ExecuteLoad(instr: Instruction) returns (err: Option<Exception>)
      requires instr.Memory? && instr.opcode == LD
      modifies this, dataPath, dataPath.dataMemory
      ensures Outcome(State(), err) == MemoryStep(old(State()), instr)
      ensures program == old(program)
    {
      err := dataPath.SignalRead(InputAddr, instr.addr);
      if err.Some? {
        return;
      }
      if instr.src == R1 {
        var _ := dataPath.SignalLatchR1(MemDataOut);
      } else {
        var _ := dataPath.SignalLatchR2(MemDataOut);
      }
      Tick();
    }

    /** ST: pass the named register through the ALU and write it at addr. */
    method ExecuteStore(instr: Instruction) returns (err: Option<Exception>)
      requires instr.Memory? && instr.opcode == ST
      modifies this, dataPath, dataPath.dataMemory
      ensures Outcome(State(), err) == MemoryStep(old(State()), instr)
      ensures program == old(program)
    {
      if instr.src == R1 {
        var _ := dataPath.SignalLatchAluL(DataR1);
      } else {
        var _ := dataPath.SignalLatchAluL(DataR2);
      }
      var _ := dataPath.SignalLatchAluR(LoadArg, 0);
      var _ := dataPath.ExecuteAlu(ADD);
      err := dataPath.SignalWrite(InputAddr, instr.addr);
      if err.Some? {
        return;
      }
      Tick();
    }

    /** The RST branch of decode_and_execute_instruction. */
    method ExecuteRst() returns (err: Option<Exception>)
      modifies this, dataPath, dataPath.dataMemory
      ensures Outcome(State(), err) == RstStep(old(State()))
      ensures program == old(program)
    {
      // the interrupt frame holds R1, R2 and the program counter, and the
      // call into the handler pushed one more return address: drop it first
      err := dataPath.SignalRead(SpInc);
      if err.Some? {
        return;
      }
      err := ExecuteRet();
      if err.Some? {
        return;
      }
      err := PopIntoRegister(R2);
      if err.Some? {
        return;
      }
      err := PopIntoRegister(R1);
    }

    /** Pop into a register, then tick (src/control_unit.py:172-178). */
    method PopIntoRegister(reg: Register) returns (err: Option<Exception>)
      modifies this, dataPath, dataPath.dataMemory
      ensures Outcome(State(), err) == PopInto(old(State()), reg)
      ensures program == old(program)
    {
      err := dataPath.SignalRead(SpInc);
      if err.Some? {
        return;
      }
      if reg == R1 {
        var _ := dataPath.SignalLatchR1(MemDataOut);
      } else {
        var _ := dataPath.SignalLatchR2(MemDataOut);
      }
      Tick();
    }
  }
}
