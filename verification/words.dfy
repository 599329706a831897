/** Machine words of the controller's register protocol. */
module Words {

  /** Rust `u8`: path ids, input numbers, device identities. */
  type U8 = bv8

  /** Rust `u16`: register addresses and register values, the only unit on the wire. */
  type U16 = bv16

  /** Rust `u32`: positions and soft limits, split over two registers. */
  type U32 = bv32

  /** Rust `f32`, kept as its IEEE-754 bit pattern; the model does no float arithmetic. */
  type F32 = bv32

  /** IEEE-754 single-precision bit pattern of 1.0. */
  const F32_ONE: F32 := 0x3F80_0000
}
