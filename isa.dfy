/** The binary instruction format (src/isa.py): an instruction is three
    unsigned bytes (opcode value, register, value), as `struct.pack('BBB', ...)`
    writes them, and a program is the concatenation of its instructions. */
module Isa {
  import opened Python

  /** One unsigned byte, the range struct's 'B' format accepts. */
  type Byte = x: int | 0 <= x < 256

  /** The opcodes of the binary format. */
  datatype Opcode = LD | ST | ADD | SUB | JMP | JZ | IN | OUT | HLT

  /** The enum value of each opcode. */
  function Value(op: Opcode): (v: Byte)
    ensures 1 <= v <= 9
  {
    match op
    case LD => 1
    case ST => 2
    case ADD => 3
    case SUB => 4
    case JMP => 5
    case JZ => 6
    case IN => 7
    case OUT => 8
    case HLT => 9
  }

  /** `Opcode(v)`: the opcode with value `v`, or None where Python raises
      ValueError. */
  function OfValue(v: int): (r: Option<Opcode>)
    ensures r.Some? <==> 1 <= v <= 9
    ensures r.Some? ==> Value(r.value) == v
  {
    if v == 1 then Some(LD)
    else if v == 2 then Some(ST)
    else if v == 3 then Some(ADD)
    else if v == 4 then Some(SUB)
    else if v == 5 then Some(JMP)
    else if v == 6 then Some(JZ)
    else if v == 7 then Some(IN)
    else if v == 8 then Some(OUT)
    else if v == 9 then Some(HLT)
    else None
  }

  /** Looking an opcode up by its own value gives it back, so no two opcodes
      share a value. */
  lemma OpcodeValuesDistinct(a: Opcode, b: Opcode)
    ensures OfValue(Value(a)) == Some(a)
    ensures Value(a) == Value(b) ==> a == b
  {
    assert OfValue(Value(a)) == Some(a);
    assert OfValue(Value(b)) == Some(b);
  }

  /** The fields are Python integers; only packing checks their range. */
  datatype Instruction = Instruction(opcode: Opcode, reg: int, value: int)

  predicate Packable(i: Instruction)
  {
    0 <= i.reg < 256 && 0 <= i.value < 256
  }

  /** Instruction.pack: three bytes, opcode value first, or struct.error when
      `reg` or `value` does not fit in a byte. */
  function Pack(i: Instruction): (r: Result<seq<Byte>>)
    ensures r.Success? <==> Packable(i)
    ensures r.Failure? ==> r.error == StructError
    ensures r.Success? ==> |r.value| == 3
    ensures r.Success? ==> r.value[0] == Value(i.opcode) && r.value[1] == i.reg && r.value[2] == i.value
  {
    if Packable(i) then Success([Value(i.opcode), i.reg, i.value])
    else Failure(StructError)
  }

  /** Instruction.unpack: struct.error unless there are exactly three bytes,
      ValueError when the first is no opcode's value. Whatever it accepts,
      Pack writes back byte for byte. */
  function Unpack(data: seq<Byte>): (r: Result<Instruction>)
    ensures r.Success? <==> |data| == 3 && 1 <= data[0] <= 9
    ensures |data| != 3 ==> r == Failure(StructError)
    ensures |data| == 3 && !(1 <= data[0] <= 9) ==> r == Failure(InvalidEnumValue)
    ensures r.Success? ==> Pack(r.value) == Success(data)
  {
    if |data| != 3 then Failure(StructError)
    else match OfValue(data[0])
      case None => Failure(InvalidEnumValue)
      case Some(op) =>
        assert data == [Value(op), data[1], data[2]];
        Success(Instruction(op, data[1], data[2]))
  }

  /** unpack(pack(i)) == i for every instruction whose fields fit in a byte. */
  lemma UnpackPack(i: Instruction)
    requires Packable(i)
    ensures Pack(i).Success? && Unpack(Pack(i).value) == Success(i)
  {
    OpcodeValuesDistinct(i.opcode, i.opcode);
  }

  /** pack_program: the packed instructions joined in order; the first one
      that does not pack raises struct.error. */
  function PackProgram(p: seq<Instruction>): (r: Result<seq<Byte>>)
    ensures r.Success? <==> forall k :: 0 <= k < |p| ==> Packable(p[k])
    ensures r.Failure? ==> r.error == StructError
    ensures r.Success? ==> |r.value| == 3 * |p|
    ensures r.Success? ==> forall k :: 0 <= k < |p| ==> r.value[3 * k .. 3 * k + 3] == Pack(p[k]).value
  {
    if p == [] then Success([])
    else match Pack(p[0])
      case Failure(e) => Failure(e)
      case Success(head) =>
        match PackProgram(p[1..])
        case Failure(e) => Failure(e)
        case Success(tail) =>
          assert forall k :: 1 <= k < |p| ==> (head + tail)[3 * k .. 3 * k + 3] == tail[3 * (k - 1) .. 3 * (k - 1) + 3];
          Success(head + tail)
  }

  /** Reads a program back: consecutive three-byte chunks, each unpacked.
      src/machine.py imports an `unpack_program` that src/isa.py does not
      define; this is the inverse of PackProgram it stands for. */
  function UnpackProgram(data: seq<Byte>): (r: Result<seq<Instruction>>)
    ensures r.Success? ==> |data| == 3 * |r.value|
    decreases |data|
  {
    if |data| == 0 then Success([])
    else if |data| < 3 then Failure(StructError)
    else match Unpack(data[..3])
      case Failure(e) => Failure(e)
      case Success(i) =>
        match UnpackProgram(data[3..])
        case Failure(e) => Failure(e)
        case Success(rest) => Success([i] + rest)
  }

  /** Packing a program and reading it back gives the program. */
  lemma {:induction false} UnpackPackProgram(p: seq<Instruction>)
    requires forall k :: 0 <= k < |p| ==> Packable(p[k])
    ensures PackProgram(p).Success? && UnpackProgram(PackProgram(p).value) == Success(p)
  {
    if p != [] {
      UnpackPack(p[0]);
      UnpackPackProgram(p[1..]);
      var head := Pack(p[0]).value;
      var tail := PackProgram(p[1..]).value;
      assert PackProgram(p).value == head + tail;
      assert (head + tail)[..3] == head;
      assert (head + tail)[3..] == tail;
      assert [p[0]] + p[1..] == p;
    }
  }

  /** Whatever UnpackProgram accepts, PackProgram writes back byte for byte. */
  lemma {:induction false} PackUnpackProgram(data: seq<Byte>)
    requires UnpackProgram(data).Success?
    ensures PackProgram(UnpackProgram(data).value) == Success(data)
    decreases |data|
  {
    if |data| != 0 {
      var p := UnpackProgram(data).value;
      PackUnpackProgram(data[3..]);
      assert p[1..] == UnpackProgram(data[3..]).value;
      assert p[0] == Unpack(data[..3]).value;
      assert data[..3] + data[3..] == data;
    }
  }
}
