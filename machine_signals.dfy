/** The selectors that the control unit passes to the data path's signals and to
    its own program-counter latch (src/machine_signals.py). */
module MachineSignals {

  datatype Signal =
    // program counter
    | PutData | JmpArg | NextIp
    // register inputs
    | MemDataOut | AluOut | MemDataIn
    // memory addressing
    | SpInc | SpDec | InputAddr
    // ALU operand inputs
    | DataR1 | DataR2 | LoadPc | LoadArg
    // external input
    | Input
}
