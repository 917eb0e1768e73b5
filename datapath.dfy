/** The data path (src/datapath.py): a fixed-size integer memory, two registers,
    the ALU latches, the memory-read latch and a stack pointer, driven by
    micro-operations ("signals") that the control unit issues.

    Each signal is specified by a function on DpState, the data path's state as
    a value; the DataPath class implements the signals on its fields and its
    memory array, and each method's postcondition ties the new state to that
    function of the old one. */
module Datapath {
  import opened Python
  import opened MachineSignals
  import opened Instructions

  /** The data path's state as a value. */
  datatype DpState = DpState(
    memorySize: int,   // data_memory_size: the bound the SP_DEC read compares with
    memory: seq<int>,  // data_memory
    dataOut: int,      // data_out: the latch a memory read fills
    r1: int,
    r2: int,
    aluOut: int,
    aluL: int,
    aluR: int,
    sp: int)           // stack_pointer

  function RegisterValue(s: DpState, reg: Register): int
  {
    match reg
    case R1 => s.r1
    case R2 => s.r2
  }

  /** signal_latch_r1: load R1 from the read latch or the ALU result. */
  function LatchR1(s: DpState, sel: Signal): (o: Outcome<DpState>)
    ensures o.state == s.(r1 := o.state.r1)
    ensures o.Completed() <==> sel == MemDataOut || sel == AluOut
    ensures sel == MemDataOut ==> o.state.r1 == s.dataOut
    ensures sel == AluOut ==> o.state.r1 == s.aluOut
    ensures !o.Completed() ==> o == Raise(s, UnknownSignal)
  {
    if sel == MemDataOut then Ok(s.(r1 := s.dataOut))
    else if sel == AluOut then Ok(s.(r1 := s.aluOut))
    else Raise(s, UnknownSignal)
  }

  /** signal_latch_r2: load R2 from the read latch, the ALU result or an
      external input value. */
  function LatchR2(s: DpState, sel: Signal, value: int): (o: Outcome<DpState>)
    ensures o.state == s.(r2 := o.state.r2)
    ensures o.Completed() <==> sel == MemDataOut || sel == AluOut || sel == Input
    ensures sel == MemDataOut ==> o.state.r2 == s.dataOut
    ensures sel == AluOut ==> o.state.r2 == s.aluOut
    ensures sel == Input ==> o.state.r2 == value
    ensures !o.Completed() ==> o == Raise(s, UnknownSignal)
  {
    if sel == MemDataOut then Ok(s.(r2 := s.dataOut))
    else if sel == AluOut then Ok(s.(r2 := s.aluOut))
    else if sel == Input then Ok(s.(r2 := value))
    else Raise(s, UnknownSignal)
  }

  /** signal_read: a stack pop (SP_INC), a read that lowers the pointer
      (SP_DEC) or a read at an absolute address (INPUT_ADDR). A pop raises the
      pointer before it indexes memory, so a pop past the end of memory raises
      IndexError with the pointer already raised. */
  function Read(s: DpState, sel: Signal, value: int): (o: Outcome<DpState>)
    ensures o.state == s.(dataOut := o.state.dataOut, sp := o.state.sp)
    ensures sel == SpInc && s.sp == 0 ==> o == Raise(s, StackOverflow)
    ensures sel == SpInc && s.sp != 0 && 0 <= s.sp + 1 < |s.memory| ==>
              o == Ok(s.(sp := s.sp + 1, dataOut := s.memory[s.sp + 1]))
    ensures sel == SpDec && s.sp == s.memorySize ==> o == Raise(s, StackUnderflow)
    ensures sel == SpDec && s.sp != s.memorySize && 0 <= s.sp < |s.memory| ==>
              o == Ok(s.(dataOut := s.memory[s.sp], sp := s.sp - 1))
    ensures sel == InputAddr && 0 <= value < |s.memory| ==>
              o == Ok(s.(dataOut := s.memory[value]))
    ensures sel == InputAddr && !(0 <= value + |s.memory| && value < |s.memory|) ==> o == Raise(s, IndexError)
    ensures sel != SpInc && sel != SpDec && sel != InputAddr ==> o == Raise(s, UnknownSignal)
    // The same cases under Python indexing: a negative index in range counts
    // from the end, and the pointer moves before a pop raises IndexError.
    ensures sel == SpInc && s.sp != 0 && Index(s.sp + 1, |s.memory|).None? ==>
              o == Raise(s.(sp := s.sp + 1), IndexError)
    ensures sel == SpInc && s.sp != 0 && Index(s.sp + 1, |s.memory|).Some? ==>
              o == Ok(s.(sp := s.sp + 1, dataOut := s.memory[Index(s.sp + 1, |s.memory|).value]))
    ensures sel == SpDec && s.sp != s.memorySize && Index(s.sp, |s.memory|).None? ==> o == Raise(s, IndexError)
    ensures sel == SpDec && s.sp != s.memorySize && Index(s.sp, |s.memory|).Some? ==>
              o == Ok(s.(dataOut := s.memory[Index(s.sp, |s.memory|).value], sp := s.sp - 1))
    ensures sel == InputAddr && Index(value, |s.memory|).Some? ==>
              o == Ok(s.(dataOut := s.memory[Index(value, |s.memory|).value]))
  {
    if sel == SpInc then
      if s.sp == 0 then Raise(s, StackOverflow)
      else
        var raised := s.(sp := s.sp + 1);
        match Index(raised.sp, |s.memory|)
        case None => Raise(raised, IndexError)
        case Some(k) => Ok(raised.(dataOut := s.memory[k]))
    else if sel == SpDec then
      if s.sp == s.memorySize then Raise(s, StackUnderflow)
      else
        match Index(s.sp, |s.memory|)
        case None => Raise(s, IndexError)
        case Some(k) => Ok(s.(dataOut := s.memory[k], sp := s.sp - 1))
    else if sel == InputAddr then
      match Index(value, |s.memory|)
      case None => Raise(s, IndexError)
      case Some(k) => Ok(s.(dataOut := s.memory[k]))
    else Raise(s, UnknownSignal)
  }

  /** signal_latch_alu_l: load the left ALU operand from R1, R2 or the program
      counter passed as `value`.
      src/datapath.py:69-70 stores the LOAD_PC value into alu_r; the test at
      tests/test_datapath.py:59-60 and the CALL sequence expect alu_l, which
      this function follows. LatchAluLAsWritten keeps the code as written. */
  function LatchAluL(s: DpState, sel: Signal, value: int): (o: Outcome<DpState>)
    ensures o.state == s.(aluL := o.state.aluL)
    ensures o.Completed() <==> sel == DataR1 || sel == DataR2 || sel == LoadPc
    ensures sel == DataR1 ==> o.state.aluL == s.r1
    ensures sel == DataR2 ==> o.state.aluL == s.r2
    ensures sel == LoadPc ==> o.state.aluL == value
    ensures !o.Completed() ==> o == Raise(s, UnknownSignal)
  {
    if sel == DataR1 then Ok(s.(aluL := s.r1))
    else if sel == DataR2 then Ok(s.(aluL := s.r2))
    else if sel == LoadPc then Ok(s.(aluL := value))
    else Raise(s, UnknownSignal)
  }

  /** signal_latch_alu_l as src/datapath.py:64-72 writes it: LOAD_PC fills alu_r. */
  function LatchAluLAsWritten(s: DpState, sel: Signal, value: int): (o: Outcome<DpState>)
    ensures sel == LoadPc ==> o == Ok(s.(aluR := value))
    ensures sel != LoadPc ==> o == LatchAluL(s, sel, value)
  {
    if sel == DataR1 then Ok(s.(aluL := s.r1))
    else if sel == DataR2 then Ok(s.(aluL := s.r2))
    else if sel == LoadPc then Ok(s.(aluR := value))
    else Raise(s, UnknownSignal)
  }

  /** signal_latch_alu_r: load the right ALU operand from R1, R2 or a literal. */
  function LatchAluR(s: DpState, sel: Signal, value: int): (o: Outcome<DpState>)
    ensures o.state == s.(aluR := o.state.aluR)
    ensures o.Completed() <==> sel == DataR1 || sel == DataR2 || sel == LoadArg
    ensures sel == DataR1 ==> o.state.aluR == s.r1
    ensures sel == DataR2 ==> o.state.aluR == s.r2
    ensures sel == LoadArg ==> o.state.aluR == value
    ensures !o.Completed() ==> o == Raise(s, UnknownSignal)
  {
    if sel == DataR1 then Ok(s.(aluR := s.r1))
    else if sel == DataR2 then Ok(s.(aluR := s.r2))
    else if sel == LoadArg then Ok(s.(aluR := value))
    else Raise(s, UnknownSignal)
  }

  predicate IsAluOp(op: Opcode)
  {
    op == ADD || op == SUB || op == MUL || op == DIV
  }

  /** What the ALU computes from its operands. */
  function Apply(op: Opcode, l: int, r: int): int
    requires IsAluOp(op) && (op == DIV ==> r != 0)
  {
    if op == ADD then l + r
    else if op == SUB then l - r
    else if op == MUL then l * r
    else FloorDiv(l, r)
  }

  /** execute_alu: combine the operand latches into alu_out. */
  function AluStep(s: DpState, op: Opcode): (o: Outcome<DpState>)
    ensures o.Completed() <==> IsAluOp(op) && !(op == DIV && s.aluR == 0)
    ensures o.Completed() ==> o.state == s.(aluOut := Apply(op, s.aluL, s.aluR))
    ensures op == DIV && s.aluR == 0 ==> o == Raise(s, ZeroDivisionError)
    ensures !IsAluOp(op) ==> o == Raise(s, UnknownOpcode)
  {
    if op == ADD then Ok(s.(aluOut := s.aluL + s.aluR))
    else if op == SUB then Ok(s.(aluOut := s.aluL - s.aluR))
    else if op == MUL then Ok(s.(aluOut := s.aluL * s.aluR))
    else if op == DIV then
      if s.aluR == 0 then Raise(s, ZeroDivisionError)
      else Ok(s.(aluOut := FloorDiv(s.aluL, s.aluR)))
    else Raise(s, UnknownOpcode)
  }

  /** signal_write: store alu_out in memory.
      src/datapath.py:96-98 takes no selector and stores at memory[sp], while
      its callers pass SP_DEC (src/control_unit.py:102) or INPUT_ADDR and an
      address (src/control_unit.py:157), and the tests expect a push to lower
      the pointer (tests/test_datapath.py:102-103) and ST to store at the
      address (tests/test_control_unit.py:115-117). This function follows the
      callers and the tests; any other selector is rejected as the other
      signals reject theirs. */
  function Write(s: DpState, sel: Signal, value: int): (o: Outcome<DpState>)
    ensures o.state == s.(memory := o.state.memory, sp := o.state.sp)
    ensures |o.state.memory| == |s.memory|
    ensures sel == SpDec && 0 <= s.sp < |s.memory| ==>
              o == Ok(s.(memory := s.memory[s.sp := s.aluOut], sp := s.sp - 1))
    ensures sel == InputAddr && 0 <= value < |s.memory| ==>
              o == Ok(s.(memory := s.memory[value := s.aluOut]))
    ensures sel == InputAddr && !(0 <= value + |s.memory| && value < |s.memory|) ==> o == Raise(s, IndexError)
    ensures sel != SpDec && sel != InputAddr ==> o == Raise(s, UnknownSignal)
    // The same cases under Python indexing.
    ensures sel == SpDec && Index(s.sp, |s.memory|).None? ==> o == Raise(s, IndexError)
    ensures sel == SpDec && Index(s.sp, |s.memory|).Some? ==>
              o == Ok(s.(memory := s.memory[Index(s.sp, |s.memory|).value := s.aluOut], sp := s.sp - 1))
    ensures sel == InputAddr && Index(value, |s.memory|).Some? ==>
              o == Ok(s.(memory := s.memory[Index(value, |s.memory|).value := s.aluOut]))
  {
    if sel == SpDec then
      match Index(s.sp, |s.memory|)
      case None => Raise(s, IndexError)
      case Some(k) => Ok(s.(memory := s.memory[k := s.aluOut], sp := s.sp - 1))
    else if sel == InputAddr then
      match Index(value, |s.memory|)
      case None => Raise(s, IndexError)
      case Some(k) => Ok(s.(memory := s.memory[k := s.aluOut]))
    else Raise(s, UnknownSignal)
  }

  /** signal_write as src/datapath.py:96-98 writes it: no selector, alu_out
      stored at the pointer, and the pointer left where it is. */
  function WriteAsWritten(s: DpState): (o: Outcome<DpState>)
    ensures o.state == s.(memory := o.state.memory)
    ensures 0 <= s.sp < |s.memory| ==> o == Ok(s.(memory := s.memory[s.sp := s.aluOut]))
    ensures !(0 <= s.sp + |s.memory| && s.sp < |s.memory|) ==> o == Raise(s, IndexError)
    ensures Index(s.sp, |s.memory|).Some? ==>
              o == Ok(s.(memory := s.memory[Index(s.sp, |s.memory|).value := s.aluOut]))
  {
    match Index(s.sp, |s.memory|)
    case None => Raise(s, IndexError)
    case Some(k) => Ok(s.(memory := s.memory[k := s.aluOut]))
  }

  /** zero_flag: whether the register holds 0. */
  function IsZero(s: DpState, reg: Register): (z: bool)
    ensures z <==> RegisterValue(s, reg) == 0
  {
    match reg
    case R1 => s.r1 == 0
    case R2 => s.r2 == 0
  }

  /** A push (write with SP_DEC) followed by a pop (read with SP_INC) reads back
      the pushed value and restores the pointer. The pop guard refuses a pop
      when the pointer is 0, so the push must not start at cell 1. */
  lemma PushThenPop(s: DpState)
    requires 0 <= s.sp < |s.memory| && s.sp != 1
    ensures var pushed := Write(s, SpDec, 0);
            var popped := Read(pushed.state, SpInc, 0);
            pushed.Completed() && popped.Completed()
            && popped.state.sp == s.sp
            && popped.state.dataOut == s.aluOut
            && popped.state.memory == s.memory[s.sp := s.aluOut]
  {
  }

  /** With signal_write as written the pointer does not move, so a pop after
      the push reads the cell above the one written: the pushed value is not
      read back unless that cell happened to hold it. */
  lemma WriteAsWrittenLosesPushedValue(s: DpState)
    requires 0 < s.sp && s.sp + 1 < |s.memory| && s.memory[s.sp + 1] != s.aluOut
    ensures var pushed := WriteAsWritten(s);
            var popped := Read(pushed.state, SpInc, 0);
            pushed.Completed() && popped.Completed()
            && popped.state.sp == s.sp + 1
            && popped.state.dataOut != s.aluOut
  {
  }

  /** With LOAD_PC as src/datapath.py:69-70 writes it, the CALL sequence
      (latch the program counter left, 0 right, ADD) does not produce the
      program counter but the stale left operand. */
  lemma LoadPcAsWrittenLosesProgramCounter(s: DpState, pc: int)
    requires s.aluL != pc
    ensures var latched := LatchAluLAsWritten(s, LoadPc, pc).state;
            var summed := AluStep(LatchAluR(latched, LoadArg, 0).state, ADD);
            summed.Completed() && summed.state.aluOut == s.aluL && summed.state.aluOut != pc
  {
  }

  /** The same sequence with the corrected latch produces the program counter. */
  lemma LoadPcPassesProgramCounter(s: DpState, pc: int)
    ensures var latched := LatchAluL(s, LoadPc, pc).state;
            var summed := AluStep(LatchAluR(latched, LoadArg, 0).state, ADD);
            summed.Completed() && summed.state.aluOut == pc
  {
  }

  class DataPath {
    var dataMemorySize: int
    const dataMemory: array<int>
    var dataOut: int
    var r1: int
    var r2: int
    var aluOut: int
    var aluL: int
    var aluR: int
    var stackPointer: int

    /** The data path's current state as a value. */
    ghost function State(): DpState
      reads this, dataMemory
    {
      DpState(dataMemorySize, dataMemory[..], dataOut, r1, r2, aluOut, aluL, aluR, stackPointer)
    }

    /** A memory of `dataMemorySize` zero cells (none when the size is
        negative, as `[0] * n` gives), every register and latch 0, and the stack
        pointer at the last cell. */
    constructor (dataMemorySize: int)
      ensures fresh(dataMemory)
      ensures this.dataMemorySize == dataMemorySize
      ensures dataMemory.Length == (if dataMemorySize < 0 then 0 else dataMemorySize)
      ensures forall i :: 0 <= i < dataMemory.Length ==> dataMemory[i] == 0
      ensures stackPointer == dataMemorySize - 1
      ensures r1 == 0 && r2 == 0 && aluOut == 0 && dataOut == 0 && aluL == 0 && aluR == 0
    {
      this.dataMemorySize := dataMemorySize;
      dataMemory := new int[if dataMemorySize < 0 then 0 else dataMemorySize](_ => 0);
      r1 := 0;
      r2 := 0;
      aluOut := 0;
      stackPointer := dataMemorySize - 1;
      dataOut := 0;
      aluL := 0;
      aluR := 0;
    }

    method SignalLatchR1(sel: Signal) returns (err: Option<Exception>)
      modifies this
      ensures Outcome(State(), err) == LatchR1(old(State()), sel)
    {
      err := None;
      if sel == MemDataOut {
        r1 := dataOut;
      } else if sel == AluOut {
        r1 := aluOut;
      } else {
        err := Some(UnknownSignal);
      }
    }

    method SignalLatchR2(sel: Signal, value: int := 0) returns (err: Option<Exception>)
      modifies this
      ensures Outcome(State(), err) == LatchR2(old(State()), sel, value)
    {
      err := None;
      if sel == MemDataOut {
        r2 := dataOut;
      } else if sel == AluOut {
        r2 := aluOut;
      } else if sel == Input {
        r2 := value;
      } else {
        err := Some(UnknownSignal);
      }
    }

    method SignalRead(sel: Signal, value: int := 0) returns (err: Option<Exception>)
      modifies this
      ensures Outcome(State(), err) == Read(old(State()), sel, value)
    {
      err := None;
      if sel == SpInc {
        if stackPointer == 0 {
          return Some(StackOverflow);
        }
        stackPointer := stackPointer + 1;
        var k := Index(stackPointer, dataMemory.Length);
        if k.None? {
          return Some(IndexError);
        }
        dataOut := dataMemory[k.value];
      } else if sel == SpDec {
        if stackPointer == dataMemorySize {
          return Some(StackUnderflow);
        }
        var k := Index(stackPointer, dataMemory.Length);
        if k.None? {
          return Some(IndexError);
        }
        dataOut := dataMemory[k.value];
        stackPointer := stackPointer - 1;
      } else if sel == InputAddr {
        var k := Index(value, dataMemory.Length);
        if k.None? {
          return Some(IndexError);
        }
        dataOut := dataMemory[k.value];
      } else {
        err := Some(UnknownSignal);
      }
    }

    method SignalLatchAluL(sel: Signal, value: int := 0) returns (err: Option<Exception>)
      modifies this
      ensures Outcome(State(), err) == LatchAluL(old(State()), sel, value)
    {
      err := None;
      if sel == DataR1 {
        aluL := r1;
      } else if sel == DataR2 {
        aluL := r2;
      } else if sel == LoadPc {
        aluL := value;
      } else {
        err := Some(UnknownSignal);
      }
    }

    method SignalLatchAluR(sel: Signal, value: int := 0) returns (err: Option<Exception>)
      modifies this
      ensures Outcome(State(), err) == LatchAluR(old(State()), sel, value)
    {
      err := None;
      if sel == DataR1 {
        aluR := r1;
      } else if sel == DataR2 {
        aluR := r2;
      } else if sel == LoadArg {
        aluR := value;
      } else {
        err := Some(UnknownSignal);
      }
    }

    method ExecuteAlu(op: Opcode) returns (err: Option<Exception>)
      modifies this
      ensures Outcome(State(), err) == AluStep(old(State()), op)
    {
      err := None;
      if op == ADD {
        aluOut := aluL + aluR;
      } else if op == SUB {
        aluOut := aluL - aluR;
      } else if op == MUL {
        aluOut := aluL * aluR;
      } else if op == DIV {
        if aluR == 0 {
          return Some(ZeroDivisionError);
        }
        aluOut := FloorDiv(aluL, aluR);
      } else {
        err := Some(UnknownOpcode);
      }
    }

    method SignalWrite(sel: Signal, value: int := 0) returns (err: Option<Exception>)
      modifies this, dataMemory
      ensures Outcome(State(), err) == Write(old(State()), sel, value)
    {
      err := None;
      if sel == SpDec {
        var k := Index(stackPointer, dataMemory.Length);
        if k.None? {
          return Some(IndexError);
        }
        dataMemory[k.value] := aluOut;
        stackPointer := stackPointer - 1;
      } else if sel == InputAddr {
        var k := Index(value, dataMemory.Length);
        if k.None? {
          return Some(IndexError);
        }
        dataMemory[k.value] := aluOut;
      } else {
        err := Some(UnknownSignal);
      }
    }

    method ZeroFlag(reg: Register) returns (z: bool)
      ensures z == IsZero(State(), reg)
    {
      match reg
      case R1 => z := r1 == 0;
      case R2 => z := r2 == 0;
    }
  }
}
