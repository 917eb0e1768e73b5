/** The I/O controller (src/io_controller.py): the scheduled input events, the
    output buffer and the single interrupt-request flag. */
module IoController {

  class IOController {
    /** (scheduled tick, value) pairs. */
    var inputBuffer: seq<(int, int)>
    /** Append-only. */
    var outputBuffer: seq<int>
    var interruptionFlag: bool

    constructor ()
      ensures inputBuffer == [] && outputBuffer == [] && !interruptionFlag
    {
      inputBuffer := [];
      outputBuffer := [];
      interruptionFlag := false;
    }

    /** Raising the flag is idempotent: it ends true whatever it was, and
        touches neither buffer. */
    method SetInterruptionFlag()
      modifies this
      ensures interruptionFlag
      ensures inputBuffer == old(inputBuffer) && outputBuffer == old(outputBuffer)
    {
      interruptionFlag := true;
    }

    /** Appends one value; the old contents stay a prefix of the buffer. */
    method PushToOutputBuffer(data: int)
      modifies this
      ensures outputBuffer == old(outputBuffer) + [data]
      ensures inputBuffer == old(inputBuffer) && interruptionFlag == old(interruptionFlag)
    {
      outputBuffer := outputBuffer + [data];
    }
  }
}
