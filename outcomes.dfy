/** The two exceptions the revision type raises, and a result that either
    carries a value or the exception that was raised instead. */
module Outcomes {

  /** `Overflow` stands for System.OverflowException (checked unsigned
      arithmetic left the 64-bit range); `ArgumentOutOfRange` stands for
      System.ArgumentOutOfRangeException and keeps its ParamName. */
  datatype Error = Overflow | ArgumentOutOfRange(paramName: string)

  datatype Result<+T> = Ok(value: T) | Err(error: Error)
}
