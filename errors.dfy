/**
  The exceptions the pass writer raises, one constructor per distinct cause.
  Each is a hard failure: the call that raised it is abandoned.
 */
module Errors {

  datatype Error =
    /** DuplicateFieldKeyException: the key is already used by a field in one of the five sections. */
    | DuplicateFieldKey(key: string)
    /** ArgumentOutOfRangeException from RelevantDate.Validate: the interval spans more than 24 hours. */
    | IntervalTooLong
    /** FormatException from int.Parse(..., NumberStyles.HexNumber) inside ConvertColor. */
    | InvalidHexNumber
    /** ArgumentException from ConvertColor: a '#' colour whose length is neither 3 nor at least 6. */
    | InvalidColorLength
    /** ArgumentOutOfRangeException from string.Substring inside ConvertColor. */
    | SubstringOutOfRange
    /** NotImplementedException from PassbookImage.ToFilename: a value outside the declared enumeration. */
    | UnknownPassbookImage(code: int)
}
