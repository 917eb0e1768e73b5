/** The pieces of Python semantics the simulator relies on: the exceptions it
    raises, list indexing (negative indices count from the end) and floor
    division (`//`). */
module Python {

  datatype Option<+T> = None | Some(value: T)

  /** The exceptions raised by the simulator's core. */
  datatype Exception =
    | UnknownSignal       // ValueError("Unknown signal ...")
    | UnknownOpcode       // ValueError("Unknown opcode ...")
    | StackOverflow       // ValueError("Stack overflow")
    | StackUnderflow      // ValueError("Stack underflow")
    | InvalidEnumValue    // ValueError raised by an Enum constructor
    | IndexError          // list index out of range
    | ZeroDivisionError   // `//` with a zero divisor
    | AssertionError      // a failed `assert`
    | StopIteration       // raised to end a run
    | StructError         // struct.pack / struct.unpack rejected its input

  /** A value, or the exception that was raised instead of computing it. */
  datatype Result<+T> = Success(value: T) | Failure(error: Exception)

  /** The state a mutating operation leaves behind and the exception it raised,
      if any. When an exception is raised part-way, `state` holds the updates
      made before the raise, as Python leaves them in the object. */
  datatype Outcome<+S> = Outcome(state: S, raised: Option<Exception>) {
    predicate Completed() { raised.None? }
  }

  function Ok<S>(s: S): Outcome<S> { Outcome(s, None) }

  function Raise<S>(s: S, e: Exception): Outcome<S> { Outcome(s, Some(e)) }

  /** The element that `xs[i]` denotes in a Python list of length `n`, or None
      when Python raises IndexError. */
  function Index(i: int, n: nat): (r: Option<nat>)
    ensures r.Some? <==> 0 <= i + n && i < n
    ensures r.Some? ==> r.value < n && r.value == (if i < 0 then i + n else i)
  {
    if 0 <= i < n then Some(i)
    else if 0 <= i + n && i < 0 then Some(n + i)
    else None
  }

  /** Python's `a // b`: the quotient rounded toward negative infinity.
      Dafny's own `/` is Euclidean and differs from it when `b` is negative. */
  function FloorDiv(a: int, b: int): (q: int)
    requires b != 0
    ensures b > 0 ==> q * b <= a < q * b + b
    ensures b < 0 ==> q * b + b < a <= q * b
  {
    if b > 0 then a / b else (-a) / (-b)
  }

  /** The two inequalities of FloorDiv determine the quotient: it is floor(a/b). */
  lemma FloorDivUnique(a: int, b: int, q: int)
    requires b != 0
    requires b > 0 ==> q * b <= a < q * b + b
    requires b < 0 ==> q * b + b < a <= q * b
    ensures q == FloorDiv(a, b)
  {
    var f := FloorDiv(a, b);
    if q < f {
      MulMonotone(q + 1, f, b);
    } else if f < q {
      MulMonotone(f + 1, q, b);
    }
  }

  /** Multiplying by a positive number keeps order; by a negative one reverses it. */
  lemma MulMonotone(x: int, y: int, b: int)
    requires x <= y
    ensures b > 0 ==> x * b <= y * b
    ensures b < 0 ==> y * b <= x * b
  {
    var d := y - x;
    assert y * b == x * b + d * b;
  }
}
