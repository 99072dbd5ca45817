/** Character classes shared by the padding and the code generator. */
module Chars {

  /** A decimal digit, as in Python's `string.digits`. */
  predicate IsDigit(c: char)
  {
    '0' <= c <= '9'
  }
}
