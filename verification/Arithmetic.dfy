/** Bounds, and the arithmetic of 64-bit words where it shows. */
module Arithmetic {

  const U64: nat := 0x1_0000_0000_0000_0000

  /** 64-bit unsigned subtraction. */
  function Sub64(a: nat, b: nat): nat {
    (a - b) % U64
  }

  function Min(a: nat, b: nat): nat {
    if a < b then a else b
  }

  function Max(a: nat, b: nat): nat {
    if a < b then b else a
  }
}
