/**
 * Text produced by Go's fmt package, kept symbolic.
 *
 * The monitor builds every human-readable string with fmt.Sprintf or
 * fmt.Sprint. The model keeps the call itself (the format and the operands)
 * instead of the characters it renders, so that which label, which unit and
 * which number a text carries can be stated and proved, while the digit
 * rendering of floating-point numbers is left out.
 */
module Fmt {
  /** One operand of a formatting call. */
  datatype Arg =
    | Float(x: real)        // a float64 operand (%5.2f, %v)
    | Duration(nanos: int)  // a time.Duration operand, in nanoseconds
    | Str(s: string)        // a string operand
    | Nested(t: Text)       // a previously formatted string used as an operand (%s)

  /** A string, as the call that produced it. */
  datatype Text =
    | Literal(s: string)
    | Sprintf(format: string, args: seq<Arg>)
    | Sprint(operands: seq<Arg>)
}
