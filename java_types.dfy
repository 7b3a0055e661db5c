/** Java's primitive integer width, where the server's settings use it. */
module JavaTypes {

  /** Java `int` (and the value inside a non-null `Integer`). */
  newtype int32 = x: int | -0x8000_0000 <= x < 0x8000_0000
}
