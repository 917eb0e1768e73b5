# A verified model of the asstrok toy CPU simulator

asstrok simulates a small accumulator-style CPU in Python. It has four parts:

- **Data path** (`src/datapath.py`). A data memory of integers, two registers R1 and R2, the ALU operand latches, the ALU result, a memory-read latch and a stack pointer. They are driven by micro-operations called *signals*.
- **Control unit** (`src/control_unit.py`). It gives each instruction its meaning as a sequence of signals and keeps the program counter and a tick counter.
- **I/O controller** (`src/io_controller.py`). Scheduled input events, an output buffer and an interrupt-request flag.
- **Machine** (`src/machine.py`). It wires the three together and runs the fetch-execute loop until a step limit.

The project also models two pure helpers:

- The 3-byte binary instruction format of `src/isa.py`.
- The assembler's line cleaner, `get_meaningful_token` in `src/compiler.py`.

The modules follow the source files:

| module | file | source |
|---|---|---|
| `Python` | `python.dfy` | the Python semantics the code relies on: exceptions as values, list indexing with negative indices, floor division |
| `MachineSignals` | `machine_signals.dfy` | `src/machine_signals.py` |
| `Instructions` | `instructions.dfy` | the instruction shapes the control unit dispatches on |
| `Datapath` | `datapath.dfy` | `src/datapath.py` |
| `IoController` | `io_controller.dfy` | `src/io_controller.py` |
| `ControlUnit` | `control_unit.dfy` | `src/control_unit.py` |
| `Machine` | `machine.dfy` | `src/machine.py` |
| `Isa` | `isa.dfy` | `src/isa.py` |
| `Compiler` | `compiler.dfy` | `src/compiler.py` |

### How the imperative parts are modelled

The data path, control unit, I/O controller and machine change state in place, so each becomes a Dafny `class` with the source's fields.

- A Python list the source updates in place (`data_memory`) is an `array`.
- Each signal and instruction handler is also a function on a value of the state (`DpState`, `CuState`, `LoopState`).
- Each method's postcondition says that the new state, together with the exception raised, is that function of the old state.
- The protocols the code promises are proved as lemmas about those functions: push then pop, CALL then RET, interrupt frame then RST, and the loop's bounds and flag behaviour.

### How Python behaviour is represented

- **Exceptions.** A raised exception is a value. An `Outcome` carries the state left behind together with the exception.
  - The state keeps any update made before the raise. For example, a pop raises the pointer before it indexes memory.
  - `ValueError("Stack overflow")`, `ValueError("Unknown signal …")` and the other raises are distinct constructors of `Python.Exception`.
- **Negative indices.** `data_memory[i]` with a negative `i` counts from the end, as in Python (`Python.Index`).
- **Division.** `//` rounds toward negative infinity (`Python.FloorDiv`).

### Where the model departs from the code

The files disagree with each other in a few places. The model decides as follows:

- **LOAD_PC.** `signal_latch_alu_l(LOAD_PC, v)` stores `v` into `alu_r` (src/datapath.py:69-70). The CALL sequence and tests/test_datapath.py expect `alu_l`.
  - The model uses `alu_l`.
  - The code as written is kept as `Datapath.LatchAluLAsWritten`; see Findings.
- **`signal_write`.** It takes no selector and does not move the pointer (src/datapath.py:96-98). Its callers pass `SP_DEC` or `INPUT_ADDR` and an address, and the tests expect a push to lower the pointer.
  - The model's `Datapath.Write` follows the callers and the tests.
  - The code as written is kept as `Datapath.WriteAsWritten`; see Findings.
- **Instruction classes.** The classes the control unit imports (`Registers`, `ArgType`, `JumpInstruction`, …) do not exist in `src/isa.py`.
  - `Instructions.Instruction` reconstructs them from the fields the control unit reads.
  - It is separate from the 9-opcode binary format in `Isa`.
- **Opcode.** `src/datapath.py:3` and `src/control_unit.py:18` import `Opcode` from `src/isa.py`. That enum has nine members (src/isa.py:8-17) and no MUL, DIV, JE, CALL, RET or RST.
  - As written, `execute_alu` evaluates `Opcode.MUL` (src/datapath.py:89) for any opcode other than ADD or SUB, so it raises AttributeError before reaching its own `ValueError`.
  - The model uses the 13-name `Instructions.Opcode`, which has those names. "ValueError for any other opcode" in `Datapath.AluStep` and `ControlUnit.ArithmeticUnknownOpcode` holds for that set, not for the 9-member enum.
- **Program.** `src/isa.py:38` defines `Program` as `list[Instruction]`, with no entry point. `src/machine.py:21` and `:36` build `Program(entry=…, instructions=…)` and read `program.entry`.
  - `Instructions.Program(entry, instructions)` follows src/machine.py.
- **Immediate arithmetic.** `ArithmeticInstructionImm` is imported (src/control_unit.py:8) but never tested with `isinstance`. Only `ArithmeticInstructionReg` is (src/control_unit.py:121), and its `IMM` branch reads an immediate operand.
  - The model treats an immediate instruction as reaching that `IMM` branch: `Instructions.Arithmetic(…, IMM, …)`, as if the Imm class subclassed the Reg class.
  - Were it a separate class, such an instruction would fall to `return False` (src/control_unit.py:179-180) and change nothing.
- **ControlUnit constructor.** `ControlUnit.__init__` takes a program and a data path (src/control_unit.py:61). `Machine.__init__` also passes the I/O controller (src/machine.py:22).
  - The model's constructor takes all three, as the machine calls it.
  - No handler uses the I/O controller.
- **`unpack_program`.** `src/machine.py` imports an `unpack_program` that `src/isa.py` does not define. `Isa.UnpackProgram` is the inverse of `pack_program` that it stands for.
- **Pop guard.** The pop guard is kept as written: a pop is refused (`Stack overflow`) when the pointer is 0, whatever the stack holds. The stack-protocol lemmas therefore require the stack not to reach cell 1. A stack that starts at pointer 0 is allowed: its pushes go to cell 0 and then, under Python indexing, to the end of memory, and the pops come back the same way.

### What the machine loop does as written

- `decode_and_execute_instruction` never advances the program counter; only RST sets it. It does not handle HLT, jumps, CALL, RET or OUT.
- So, in a program without RST, `simulate` executes the instruction at the entry point again and again until an exception or the step limit. An RST pops a new program counter off the stack, and later passes run the instruction found there.
  - `Machine.ProgramCounterFixedWithoutRst` proves this.
  - `Machine.SpinsOnUnhandled` proves that HLT does not stop the loop.

## Model

| member | source | states |
|---|---|---|
| Python.Index | src/datapath.py:53 | `xs[i]` on a list of length n is defined exactly when -n <= i < n, and then denotes cell i, or i + n for negative i |
| Python.FloorDiv | src/datapath.py:92 | `a // b` lies within one divisor of `a`, on the side that makes it round toward negative infinity, for either sign of `b` |
| Python.FloorDivUnique | src/datapath.py:92 | those inequalities determine the quotient, so FloorDiv is floor(a/b) |
| Datapath.LatchR1 | src/datapath.py:30-36 | R1 takes data_out (MEM_DATA_OUT) or alu_out (ALU_OUT) and nothing else changes; any other selector raises and changes nothing |
| Datapath.LatchR2 | src/datapath.py:38-46 | R2 takes data_out, alu_out or the given value (INPUT) and nothing else changes; any other selector raises |
| Datapath.Read | src/datapath.py:48-62 | SP_INC: refused at pointer 0, else the pointer rises by one and data_out = memory[new pointer], or IndexError with the pointer already raised. SP_DEC: refused when the pointer equals data_memory_size, else data_out = memory[pointer] and the pointer drops, or IndexError with nothing changed. INPUT_ADDR: data_out = memory[value] with the pointer unchanged, IndexError out of range. Indices follow Python, negative ones counting from the end. Any other selector raises. Memory never changes |
| Datapath.LatchAluL | src/datapath.py:64-72 | alu_l takes R1, R2 or the program counter (LOAD_PC, corrected); only alu_l changes; other selectors raise |
| Datapath.LatchAluLAsWritten | src/datapath.py:64-72 | as written: LOAD_PC stores its value into alu_r; all other selectors behave as LatchAluL |
| Datapath.LatchAluR | src/datapath.py:74-82 | alu_r takes R1, R2 or the literal (LOAD_ARG); only alu_r changes; other selectors raise |
| Datapath.AluStep | src/datapath.py:84-94 | succeeds exactly for ADD/SUB/MUL/DIV with a non-zero divisor, and then alu_out = l+r, l-r, l*r or floor(l/r) with the operand latches unchanged; ZeroDivisionError on r = 0; ValueError for any other opcode of `Instructions.Opcode` |
| Datapath.Write | src/datapath.py:96-98 | a push (SP_DEC) stores alu_out at the pointer and lowers it by one; INPUT_ADDR stores alu_out at the address; either raises IndexError with nothing changed when the index is out of range, and negative indices count from the end; no other cell or field changes and the memory keeps its size |
| Datapath.WriteAsWritten | src/datapath.py:96-98 | as written: alu_out stored at the pointer (Python indexing), the pointer not moved, nothing else changed; IndexError out of range |
| Datapath.IsZero | src/datapath.py:100-106 | true iff the named register equals 0 |
| Datapath.PushThenPop | src/datapath.py:49-53 | a push followed by a pop reads the pushed value back and restores the pointer |
| Datapath.WriteAsWrittenLosesPushedValue | src/datapath.py:96-98 | with signal_write as written, a pop after a push reads the cell above and misses the pushed value |
| Datapath.LoadPcAsWrittenLosesProgramCounter | src/datapath.py:69-70 | with LOAD_PC as written, latch pc, latch 0, ADD yields the stale alu_l, not pc |
| Datapath.LoadPcPassesProgramCounter | src/datapath.py:64-72 | with the corrected latch the same sequence yields pc |
| Datapath.DataPath.constructor | src/datapath.py:19-28 | every cell 0 (no cells for a negative size), stack pointer size-1, registers and latches 0 |
| Datapath.DataPath.SignalLatchR1 | src/datapath.py:30-36 | the fields after the call, with the exception raised, are LatchR1 of the fields before |
| Datapath.DataPath.SignalLatchR2 | src/datapath.py:38-46 | likewise for LatchR2 |
| Datapath.DataPath.SignalRead | src/datapath.py:48-62 | likewise for Read |
| Datapath.DataPath.SignalLatchAluL | src/datapath.py:64-72 | likewise for LatchAluL |
| Datapath.DataPath.SignalLatchAluR | src/datapath.py:74-82 | likewise for LatchAluR |
| Datapath.DataPath.ExecuteAlu | src/datapath.py:84-94 | likewise for AluStep |
| Datapath.DataPath.SignalWrite | src/datapath.py:96-98 | the memory array and fields after the call are Write of those before |
| Datapath.DataPath.ZeroFlag | src/datapath.py:100-106 | returns IsZero of the current state |
| IoController.IOController.constructor | src/io_controller.py:7-10 | both buffers empty, flag false |
| IoController.IOController.SetInterruptionFlag | src/io_controller.py:12-13 | the flag ends true whatever it was (idempotent), both buffers unchanged |
| IoController.IOController.PushToOutputBuffer | src/io_controller.py:15-16 | the output buffer is the old one followed by the value; input buffer and flag unchanged |
| ControlUnit.LatchProgramCounter | src/control_unit.py:70-84 | NEXT_IP adds 1, PUT_DATA copies alu_out, JMP_ARG copies the instruction's target (AssertionError when it has none), any other selector leaves the state unchanged; nothing but the counter changes |
| ControlUnit.ExecuteControlFlow | src/control_unit.py:86-118 | JMP jumps and ticks once; HLT raises StopIteration; JE jumps iff the register is zero and ticks once; instructions it does not handle change nothing |
| ControlUnit.ExecuteInstruction | src/control_unit.py:120-182 | unhandled kinds change nothing; only RST can move the program counter; it never raises StopIteration; the tick never goes back |
| ControlUnit.CallPushesReturnAddress | src/control_unit.py:97-106 | CALL at p stores p at the stack pointer, lowers it by one, jumps to the target and takes two ticks, registers unchanged |
| ControlUnit.CallThenRet | src/control_unit.py:108-115 | CALL then RET returns to p with the pointer restored, p left in R1, R2 unchanged, three ticks, for every in-range pointer but 1 (a push at 1 leaves 0, where the pop guard refuses) |
| ControlUnit.RetAtZeroOverflows | src/control_unit.py:108-115 | RET at pointer 0 raises `Stack overflow` and changes nothing |
| ControlUnit.PushInterruptFrameLayout | tests/test_control_unit.py:124-139 | the hand-written pushes of R1, R2 and PC leave them at sp, sp-1, sp-2 with the pointer three lower and no other cell changed |
| ControlUnit.RetPops | src/control_unit.py:108-115 | RET loads the cell above the pointer into R1 and the program counter and raises the pointer by one |
| ControlUnit.PopIntoReads | src/control_unit.py:172-178 | a register pop loads the cell above the pointer into that register and leaves the other register and the counter alone |
| ControlUnit.RstPops | src/control_unit.py:159-178 | RST pops four cells in the order discard, PC, R2, R1, raising the pointer by four in three ticks |
| ControlUnit.RstAtZeroOverflows | src/control_unit.py:159-163 | RST at pointer 0 raises `Stack overflow` on its first pop and changes nothing |
| ControlUnit.RstUndoesInterruptFrame | src/control_unit.py:159-178 | pushes of R1, R2, PC, any change to R1/R2, CALL, then RST restore R1, R2, PC and the stack pointer, for every in-range pointer whose frame does not reach cell 1 (pointer 0 included, its frame wrapping to the end of memory) |
| ControlUnit.ArithmeticRegisterForm | src/control_unit.py:121-134 | dest R1 computes op(R1,R2) into R1, dest R2 computes op(R2,R1) into R2; the other register, memory, pointer and counter unchanged, one tick |
| ControlUnit.ArithmeticImmediateForm | src/control_unit.py:135-141 | computes op(R1, imm) into R1 whatever dest names; R2, memory and counter unchanged |
| ControlUnit.ArithmeticUnknownOpcode | src/control_unit.py:121-141 | an opcode of `Instructions.Opcode` the ALU rejects raises ValueError with registers, counter and tick unchanged |
| ControlUnit.DivByZero | src/control_unit.py:121-141 | DIV whose divisor (the other register, or the immediate) is 0 raises ZeroDivisionError with registers, memory, pointer, counter and tick unchanged |
| ControlUnit.LoadCopiesCell | src/control_unit.py:143-149 | LD copies memory[addr] into the named register; the other register and memory unchanged |
| ControlUnit.StoreWritesCell | src/control_unit.py:150-158 | ST stores the named register at memory[addr]; no other cell, register or the pointer changes |
| ControlUnit.OtherMemoryOpcodeDoesNothing | src/control_unit.py:142-158 | a memory instruction whose opcode is neither LD nor ST counts as handled and changes nothing |
| ControlUnit.ControlUnit.constructor | src/control_unit.py:61-65 | keeps the program, data path and I/O controller; counter and tick 0 |
| ControlUnit.ControlUnit.Tick | src/control_unit.py:67-68 | the tick rises by one; counter and program unchanged |
| ControlUnit.ControlUnit.SignalLatchProgramCounter | src/control_unit.py:70-84 | the new state and exception are LatchProgramCounter of the old |
| ControlUnit.ControlUnit.DecodeAndExecuteControlFlowInstruction | src/control_unit.py:86-118 | the new state and exception are ExecuteControlFlow of the old; returns whether the instruction was handled |
| ControlUnit.ControlUnit.ExecuteCall | src/control_unit.py:97-106 | the CALL signal sequence, as a function of the old state |
| ControlUnit.ControlUnit.ExecuteRet | src/control_unit.py:108-115 | the RET signal sequence, as a function of the old state |
| ControlUnit.ControlUnit.DecodeAndExecuteInstruction | src/control_unit.py:120-182 | the new state and exception are ExecuteInstruction of the old; returns whether the instruction was handled |
| ControlUnit.ControlUnit.ExecuteArithmetic | src/control_unit.py:121-141 | the arithmetic signal sequence, as a function of the old state |
| ControlUnit.ControlUnit.ExecuteMemory | src/control_unit.py:142-158 | the LD/ST signal sequence, as a function of the old state |
| ControlUnit.ControlUnit.ExecuteLoad | src/control_unit.py:143-149 | the LD signal sequence, as a function of the old state |
| ControlUnit.ControlUnit.ExecuteStore | src/control_unit.py:150-158 | the ST signal sequence, as a function of the old state |
| ControlUnit.ControlUnit.ExecuteRst | src/control_unit.py:159-178 | the RST signal sequence, as a function of the old state |
| ControlUnit.ControlUnit.PopIntoRegister | src/control_unit.py:172-178 | one pop into a register, as a function of the old state |
| Machine.Iterate | src/machine.py:47-52 | one pass: the flag becomes old flag or (input non-empty and tick >= head's tick); an out-of-range counter raises IndexError and changes nothing else; never StopIteration; the tick never goes back |
| Machine.RunBounds | src/machine.py:45-59 | at most `limit` passes; StopIteration exactly at the limit; any other exception comes from a pass |
| Machine.RunTickMonotone | src/machine.py:45-57 | the tick never goes back over a run |
| Machine.FlagNeverCleared | src/machine.py:43-57 | once raised the interrupt flag stays raised |
| Machine.NoInputsNoInterrupt | src/machine.py:47-49 | with no input events the flag keeps its value |
| Machine.FlagRaisedWhenDue | src/machine.py:47-49 | a pass begun while the first input is due raises the flag for good |
| Machine.FlagOnlyWhenDue | src/machine.py:47-49 | a flag raised by the run means the first input is due at the final tick |
| Machine.ProgramCounterFixedWithoutRst | src/machine.py:51-52 | without RST in the program the counter keeps its entry value for the whole run |
| Machine.SpinsOnUnhandled | src/machine.py:45-59 | at an instruction decode_and_execute_instruction does not handle (HLT included), the loop changes nothing and ends with StopIteration at the limit |
| Machine.Machine.constructor | src/machine.py:17-22 | 256-cell zeroed data path with pointer 255, idle I/O controller, empty program at entry 0, control unit wired to both |
| Machine.Machine.LoadProgram | src/machine.py:24-26 | the program is installed in the machine and in its control unit; the state is otherwise unchanged |
| Machine.Machine.Simulate | src/machine.py:28-59 | ends as Run does from the old state with the counter at the entry, data_memory_size overwritten and memory and pointer kept; the input buffer is installed and never shrinks; the output buffer and the machine's own data_memory_size are unchanged |
| Isa.Value | src/isa.py:8-17 | every opcode's value lies in 1..9 |
| Isa.OfValue | src/isa.py:35 | `Opcode(v)` succeeds exactly for v in 1..9 and returns the opcode with that value |
| Isa.OpcodeValuesDistinct | src/isa.py:8-17 | looking an opcode's value up gives it back, so the values are distinct |
| Isa.Pack | src/isa.py:29-30 | defined exactly when reg and value fit in a byte (else struct.error); three bytes: opcode value, reg, value |
| Isa.Unpack | src/isa.py:32-35 | accepts exactly three bytes whose first is an opcode value, struct.error for another length, ValueError for a bad opcode; what it accepts packs back to the same bytes |
| Isa.UnpackPack | src/isa.py:29-35 | unpack(pack(i)) == i for every instruction with byte-sized fields |
| Isa.PackProgram | src/isa.py:41-42 | succeeds iff every instruction packs; the output is 3·n bytes and chunk k is pack(p[k]) |
| Isa.UnpackProgram | src/machine.py:67 | whatever it accepts is three bytes per instruction |
| Isa.UnpackPackProgram | src/isa.py:41-42 | splitting pack_program's output into 3-byte chunks and unpacking each returns the program |
| Isa.PackUnpackProgram | src/isa.py:41-42 | whatever UnpackProgram accepts, PackProgram writes back byte for byte |
| Compiler.BeforeSemicolon | src/compiler.py:10 | `split(";", 1)[0]`: a prefix with no `;`, ending at the first `;` if there is one |
| Compiler.SkipSpace | src/compiler.py:10 | the leading whitespace of a suffix: everything skipped is whitespace and it stops at a non-whitespace character or the end |
| Compiler.SkipSpaceBack | src/compiler.py:10 | the trailing whitespace, walking back: everything skipped is whitespace and it stops after a non-whitespace character or at the lower bound |
| Compiler.Strip | src/compiler.py:10 | `strip()`: a slice with whitespace at neither end and only whitespace outside it |
| Compiler.GetMeaningfulToken | src/compiler.py:9-10 | the result has no `;` and no leading or trailing whitespace |
| Compiler.TokenIsSliceBeforeSemicolon | src/compiler.py:10 | the result is a contiguous slice of the line ending before its first `;` |
| Compiler.NoSemicolonKept | src/compiler.py:10 | the split keeps a string without `;` whole |
| Compiler.LineWithoutComment | src/compiler.py:10 | a line without `;` maps to its stripped self |
| Compiler.CommentLineIsEmpty | src/compiler.py:10 | a line whose first non-whitespace character is `;` maps to "" |
| Compiler.StripTrimmed | src/compiler.py:10 | strip leaves a string without edge whitespace as it is |
| Compiler.Idempotent | src/compiler.py:10 | applying get_meaningful_token twice equals applying it once |

## Left out

- The `main` functions and `__main__` blocks of src/control_unit.py, src/machine.py and src/compiler.py: file I/O, `eval` of the input file, `ord`/`chr`, printing.
- The logging calls inside `simulate`: they have no effect on state.
- The commented-out sketch at src/control_unit.py:26-48.
- `check_int_request` (src/control_unit.py:184-185): it has an empty body, so the loop's call to it is omitted, and no interrupt-entry behaviour is modelled.
- OUT: the control unit imports it but dispatches it nowhere, so it is modelled only as "not handled". `push_to_output_buffer` is modelled, but no instruction calls it.
- `compile` (src/compiler.py:12-15): a stub that returns `[]`. The two-pass assembler that tests/test_compiler.py asserts is not in the code.
- The 16-bit instruction encoding and its instruction classes asserted by tests/test_isa.py: src/isa.py does not implement them.
- `Opcode.__str__` (src/isa.py:19-20): text formatting only.
- `address_register` (src/datapath.py:17): declared but never assigned.
- `zero_flag` with a register other than R1 or R2: `Register` has only those two values, so that ValueError cannot arise.
- Python integers are unbounded, as Dafny's are, so no width is modelled. Bytes appear only in the `Isa` format.
- Whitespace for `strip()` is the fixed set of characters that Python's `str.isspace` accepts. It does not follow later changes to the Unicode database.
- The aliasing of `controller_in_buffer` with the I/O controller's list is not modelled, because nothing mutates the list during the loop.

## Findings

| source | as written | input that shows it | evidently intended | confidence | as-written member | corrected member |
|---|---|---|---|---|---|---|
| src/datapath.py:69-70 | `signal_latch_alu_l(LOAD_PC, v)` stores `v` into `alu_r` | CALL with alu_l = 7 and pc = 10: latch pc, latch 0 into alu_r, ADD gives 7, so CALL pushes 7, not 10 | LOAD_PC loads `alu_l`, so the sum is the program counter and CALL pushes its return address | high, not executed | Datapath.LoadPcAsWrittenLosesProgramCounter | ControlUnit.CallThenRet |
| src/datapath.py:96-98 | `signal_write(self)` stores alu_out at `memory[sp]` and does not move the pointer. Its callers pass a selector it does not accept (src/control_unit.py:102 and :157, tests/test_datapath.py:102), so as written those calls raise TypeError before anything is stored; the scenario here is a call without the selector | sp = 10, memory[11] = 0, alu_out = 99: the write sets memory[10], and the next pop reads memory[11] = 0 | a push (SP_DEC) stores at the pointer and lowers it; INPUT_ADDR stores at the given address | high, not executed | Datapath.WriteAsWrittenLosesPushedValue | Datapath.PushThenPop |
