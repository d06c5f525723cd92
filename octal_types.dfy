/** Values shared by both versions of the octal module: the digit record,
    the accepted input shapes, and the kinds of `InvalidOctalError`. */
module OctalTypes {

  /** One entry of the digit table: what an octal digit 0..7 grants. */
  datatype OctalConfig = OctalConfig(description: string, read: bool, write: bool, execute: bool)

  /** The two argument types the entry points accept (`Union[str, int]`). */
  datatype Input = Str(s: string) | Int(i: int)

  /** The distinct reasons an `InvalidOctalError` is raised; the message text
      of each is not modelled. */
  datatype Error =
    | BadLength        // normalised text is not 1..3 characters long
    | BadDigits        // a character outside '0'..'7'
    | NotOctalLiteral  // "0o..." text that `int(s, 8)` rejects
    | NotDecimalRepr   // other text that `int(s, 10)` rejects
    | NotDigitText     // a digit given as text that `int(s)` rejects
    | DigitOutOfRange  // a single digit outside 0..7

  datatype Result<T> = Ok(value: T) | Err(error: Error) {
    predicate IsFailure() { Err? }

    function PropagateFailure<U>(): Result<U>
      requires Err?
    {
      Err(error)
    }

    function Extract(): T
      requires Ok?
    {
      value
    }
  }

  /** `c` grants read, write and execute exactly as bits 2, 1 and 0 of `d` say. */
  predicate HasBitsOf(c: OctalConfig, d: int) {
    0 <= d <= 7 && c.read == (d / 4 == 1) && c.write == (d / 2 % 2 == 1) && c.execute == (d % 2 == 1)
  }

  /** The descriptions the digit table uses, in digit order. */
  const Descriptions: seq<string> := [
    "No permissions",
    "Execute permission only",
    "Write permission only",
    "Write and execute permissions",
    "Read permission only",
    "Read and execute permissions",
    "Read and write permissions",
    "Read, write, and execute permissions"
  ]
}
