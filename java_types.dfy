/** Java's primitive `int`, held as its 32-bit two's-complement pattern. */
module JavaTypes {
  type JavaInt = bv32
}
