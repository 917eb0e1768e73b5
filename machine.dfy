/** The machine (src/machine.py): wires a data path, an I/O controller and a
    control unit together and runs the fetch-execute loop.

    One pass of the loop is the function Iterate on LoopState; the whole run is
    the function Run, which counts passes up to the limit. Machine.Simulate is
    the loop itself, and its postcondition says it ends as Run does. */
module Machine {
  import opened Python
  import opened Instructions
  import opened Datapath
  import opened IoController
  import opened ControlUnit

  /** What one pass reads and writes: the control unit (with its data path) and
      the I/O controller's interrupt flag. The input buffer is only read. */
  datatype LoopState = LoopState(cu: CuState, flag: bool)

  /** An input is due when the buffer is not empty and the tick has reached the
      tick scheduled for its first event. */
  predicate InputDue(c: CuState, inputs: seq<(int, int)>)
  {
    |inputs| > 0 && inputs[0].0 <= c.tick
  }

  /** One pass of the loop in simulate: raise the interrupt flag when an input
      is due, fetch the instruction at the program counter (Python indexing: a
      negative counter counts from the end, one out of range raises IndexError)
      and hand it to decode_and_execute_instruction. */
  function Iterate(ls: LoopState, inputs: seq<(int, int)>, instrs: seq<Instruction>): (o: Outcome<LoopState>)
    ensures o.state.flag == (ls.flag || InputDue(ls.cu, inputs))
    ensures Index(ls.cu.pc, |instrs|).None? ==> o.raised == Some(IndexError) && o.state.cu == ls.cu
    ensures o.raised != Some(StopIteration)
    ensures ls.cu.tick <= o.state.cu.tick
  {
    var flag := ls.flag || InputDue(ls.cu, inputs);
    match Index(ls.cu.pc, |instrs|)
    case None => Raise(LoopState(ls.cu, flag), IndexError)
    case Some(k) =>
      var o := ExecuteInstruction(ls.cu, instrs[k]);
      Outcome(LoopState(o.state, flag), o.raised)
  }

  /** How a run ends: the state left behind, the exception that ended it and
      the number of passes begun. simulate always ends by raising. */
  datatype Stop = Stop(state: LoopState, error: Exception, iterations: int)

  /** The loop from pass number `count` on: StopIteration once `count` reaches
      `limit`, or the first exception a pass raises. */
  function Run(ls: LoopState, inputs: seq<(int, int)>, instrs: seq<Instruction>, count: int, limit: int): Stop
    decreases limit - count
  {
    if limit <= count then Stop(ls, StopIteration, count)
    else
      var o := Iterate(ls, inputs, instrs);
      if o.raised.Some? then Stop(o.state, o.raised.value, count + 1)
      else Run(o.state, inputs, instrs, count + 1, limit)
  }

  /** The larger of the first pass number and the limit: where a run that
      raises nothing stops. */
  function LastPass(count: int, limit: int): int
  {
    if count < limit then limit else count
  }

  /** A run begins no pass beyond the limit; StopIteration ends it exactly at
      the limit, and any other exception is raised by a pass it began. */
  lemma {:induction false} RunBounds(ls: LoopState, inputs: seq<(int, int)>, instrs: seq<Instruction>, count: int, limit: int)
    ensures var r := Run(ls, inputs, instrs, count, limit);
            count <= r.iterations <= LastPass(count, limit)
            && (r.error == StopIteration ==> r.iterations == LastPass(count, limit))
            && (r.error != StopIteration ==> count < r.iterations)
    decreases limit - count
  {
    if count < limit {
      var o := Iterate(ls, inputs, instrs);
      if o.raised.None? {
        RunBounds(o.state, inputs, instrs, count + 1, limit);
      }
    }
  }

  /** The tick never goes back over a run. */
  lemma {:induction false} RunTickMonotone(ls: LoopState, inputs: seq<(int, int)>, instrs: seq<Instruction>, count: int, limit: int)
    ensures ls.cu.tick <= Run(ls, inputs, instrs, count, limit).state.cu.tick
    decreases limit - count
  {
    if count < limit {
      var o := Iterate(ls, inputs, instrs);
      if o.raised.None? {
        RunTickMonotone(o.state, inputs, instrs, count + 1, limit);
      }
    }
  }

  /** Nothing clears the interrupt flag: once raised it stays raised
      (check_int_request does nothing). */
  lemma {:induction false} FlagNeverCleared(ls: LoopState, inputs: seq<(int, int)>, instrs: seq<Instruction>, count: int, limit: int)
    requires ls.flag
    ensures Run(ls, inputs, instrs, count, limit).state.flag
    decreases limit - count
  {
    if count < limit {
      var o := Iterate(ls, inputs, instrs);
      if o.raised.None? {
        FlagNeverCleared(o.state, inputs, instrs, count + 1, limit);
      }
    }
  }

  /** With an empty input buffer the flag is never touched. */
  lemma {:induction false} NoInputsNoInterrupt(ls: LoopState, instrs: seq<Instruction>, count: int, limit: int)
    ensures Run(ls, [], instrs, count, limit).state.flag == ls.flag
    decreases limit - count
  {
    if count < limit {
      var o := Iterate(ls, [], instrs);
      if o.raised.None? {
        NoInputsNoInterrupt(o.state, instrs, count + 1, limit);
      }
    }
  }

  /** A run that begins a pass while the first input is due ends with the flag
      raised. */
  lemma FlagRaisedWhenDue(ls: LoopState, inputs: seq<(int, int)>, instrs: seq<Instruction>, count: int, limit: int)
    requires count < limit && InputDue(ls.cu, inputs)
    ensures Run(ls, inputs, instrs, count, limit).state.flag
  {
    var o := Iterate(ls, inputs, instrs);
    if o.raised.None? {
      FlagNeverCleared(o.state, inputs, instrs, count + 1, limit);
    }
  }

  /** The flag is raised only for a reason: it was already up, or the first
      input is due at the tick the run ends on. */
  lemma {:induction false} FlagOnlyWhenDue(ls: LoopState, inputs: seq<(int, int)>, instrs: seq<Instruction>, count: int, limit: int)
    ensures var r := Run(ls, inputs, instrs, count, limit);
            r.state.flag ==> ls.flag || InputDue(r.state.cu, inputs)
    decreases limit - count
  {
    if count < limit {
      var o := Iterate(ls, inputs, instrs);
      if o.raised.None? {
        FlagOnlyWhenDue(o.state, inputs, instrs, count + 1, limit);
        if o.state.flag && !ls.flag {
          RunTickMonotone(o.state, inputs, instrs, count + 1, limit);
        }
      }
    }
  }

  /** No handler of decode_and_execute_instruction advances the program
      counter, and only RST sets it: in a program without RST the counter keeps
      its entry value for the whole run, so every pass executes the same
      instruction. */
  lemma {:induction false} ProgramCounterFixedWithoutRst(ls: LoopState, inputs: seq<(int, int)>, instrs: seq<Instruction>, count: int, limit: int)
    requires forall i :: 0 <= i < |instrs| ==> !instrs[i].Rst?
    ensures Run(ls, inputs, instrs, count, limit).state.cu.pc == ls.cu.pc
    decreases limit - count
  {
    if count < limit {
      var o := Iterate(ls, inputs, instrs);
      if o.raised.None? {
        ProgramCounterFixedWithoutRst(o.state, inputs, instrs, count + 1, limit);
      }
    }
  }

  /** An instruction decode_and_execute_instruction does not handle (HLT, a
      jump, CALL, RET, OUT) changes nothing, so once the counter points at one
      the loop spins on it until the limit: HLT does not stop the machine. */
  lemma {:induction false} SpinsOnUnhandled(ls: LoopState, inputs: seq<(int, int)>, instrs: seq<Instruction>, count: int, limit: int)
    requires Index(ls.cu.pc, |instrs|).Some?
    requires !HandlesInstruction(instrs[Index(ls.cu.pc, |instrs|).value])
    ensures var r := Run(ls, inputs, instrs, count, limit);
            r.error == StopIteration && r.iterations == LastPass(count, limit)
            && r.state.cu == ls.cu
    decreases limit - count
  {
    if count < limit {
      var o := Iterate(ls, inputs, instrs);
      SpinsOnUnhandled(o.state, inputs, instrs, count + 1, limit);
    }
  }

  class Machine {
    var dataMemorySize: int
    const datapath: DataPath
    const ioController: IOController
    var program: Program
    const cu: ControlUnit

    /** The control unit drives this machine's data path and I/O controller. */
    ghost predicate Valid()
      reads this, cu
    {
      cu.dataPath == datapath && cu.io == ioController
    }

    /** A 256-cell data path, an idle I/O controller, the empty program at
        entry 0, and a control unit over all three. */
    constructor ()
      ensures Valid() && fresh(datapath) && fresh(datapath.dataMemory) && fresh(ioController) && fresh(cu)
      ensures dataMemorySize == 256 && program == Program(0, []) && cu.program == program
      ensures cu.State() == CuState(0, 0, DpState(256, seq(256, _ => 0), 0, 0, 0, 0, 0, 0, 255))
      ensures ioController.inputBuffer == [] && ioController.outputBuffer == [] && !ioController.interruptionFlag
    {
      dataMemorySize := 256;
      var dp := new DataPath(256);
      var io := new IOController();
      datapath := dp;
      ioController := io;
      program := Program(0, []);
      cu := new ControlUnit(Program(0, []), dp, io);
      assert dp.dataMemory[..] == seq(256, _ => 0);
    }

    /** Installs the program in the machine and in its control unit. */
    method LoadProgram(program: Program)
      requires Valid()
      modifies this, cu
      ensures Valid()
      ensures this.program == program && cu.program == program
      ensures cu.State() == old(cu.State()) && dataMemorySize == old(dataMemorySize)
    {
      this.program := program;
      cu.program := program;
    }

    /** simulate: install the program and the input events, set the data path's
        size bound, start at the entry point, and loop for at most `limit`
        passes. It always ends with an exception, returned here: StopIteration
        at the limit, or the first one a pass raises. */
    method Simulate(inputBuffer: seq<(int, int)>, program: Program, dataMemorySize: int := 100, limit: int := 100000)
      returns (err: Exception)
      requires Valid()
      modifies this, cu, datapath, datapath.dataMemory, ioController
      ensures Valid()
      ensures var start := LoopState(CuState(program.entry, old(cu.tick), old(datapath.State()).(memorySize := dataMemorySize)),
                                     old(ioController.interruptionFlag));
              var r := Run(start, inputBuffer, program.instructions, 0, limit);
              err == r.error && cu.State() == r.state.cu && ioController.interruptionFlag == r.state.flag
      ensures this.program == program && cu.program == program && this.dataMemorySize == old(this.dataMemorySize)
      ensures ioController.inputBuffer == inputBuffer && ioController.outputBuffer == old(ioController.outputBuffer)
    {
      LoadProgram(program);
      ioController.inputBuffer := inputBuffer;
      datapath.dataMemorySize := dataMemorySize;
      cu.programCounter := program.entry;

      var count := 0;
      var inputs := ioController.inputBuffer;
      ghost var start := LoopState(cu.State(), ioController.interruptionFlag);
      while count < limit
        invariant Valid() && this.program == program && cu.program == program
        invariant this.dataMemorySize == old(this.dataMemorySize)
        invariant ioController.inputBuffer == inputBuffer && ioController.outputBuffer == old(ioController.outputBuffer)
        invariant 0 <= count
        invariant Run(LoopState(cu.State(), ioController.interruptionFlag), inputs, program.instructions, count, limit)
               == Run(start, inputs, program.instructions, 0, limit)
        decreases limit - count
      {
        ghost var before := LoopState(cu.State(), ioController.interruptionFlag);
        count := count + 1;
        if |inputs| > 0 && cu.tick >= inputs[0].0 {
          ioController.SetInterruptionFlag();
        }
        var k := Index(cu.programCounter, |program.instructions|);
        if k.None? {
          return IndexError;
        }
        var _, e := cu.DecodeAndExecuteInstruction(program.instructions[k.value]);
        assert LoopState(cu.State(), ioController.interruptionFlag) == Iterate(before, inputs, program.instructions).state;
        if e.Some? {
          return e.value;
        }
      }
      return StopIteration;
    }
  }
}
