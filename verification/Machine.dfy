/** Machine integers of the C program and the compile-time sizes of its tables. */
module Machine {
  const TWO_32: int := 0x1_0000_0000

  type uint32 = n: int | 0 <= n < TWO_32

  type int32 = n: int | -0x8000_0000 <= n < 0x8000_0000

  /** Unsigned addition and subtraction modulo 2^32. */
  function AddU32(a: uint32, b: uint32): uint32 {
    if a + b < TWO_32 then a + b else a + b - TWO_32
  }

  function SubU32(a: uint32, b: uint32): uint32 {
    if b <= a then a - b else a - b + TWO_32
  }

  /** Adding an unsigned amount to an int: the sum is read back as two's complement. */
  function AddInt32(a: int32, b: uint32): int32 {
    if a + b < 0x8000_0000 then a + b else a + b - TWO_32
  }

  const INITIAL_BALANCE: int := 100

  // The table sizes are left open: every result below holds for all of them. A client table is only
  // required to be small enough for the sum of its opening balances to be an int (the program uses 10).
  type ClientCapacity = n: int | 0 < n && INITIAL_BALANCE * n < 0x8000_0000 witness 10

  type Size = n: int | 0 < n witness 1

  const MAX_CLIENTS: ClientCapacity
  const MAX_SERVERS: Size
  const QUEUE_SIZE: Size
}
