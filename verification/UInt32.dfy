// uint32_t arithmetic: results are taken modulo 2^32.
module UInt32 {

  const MODULUS: nat := 0x1_0000_0000
  const MAX_UINT32: nat := 0xFFFF_FFFF

  type uint32 = n: nat | n < MODULUS

  function Add32(a: uint32, b: uint32): uint32 {
    (a + b) % MODULUS
  }

  function Sub32(a: uint32, b: uint32): uint32 {
    (a - b) % MODULUS
  }

  function Mul32(a: uint32, b: uint32): uint32 {
    (a * b) % MODULUS
  }
}
