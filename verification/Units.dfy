/** The widths of the source's unsigned integers, and time in nanoseconds. */
module Units {
  const U32: nat := 0x1_0000_0000
  const U64: nat := 0x1_0000_0000_0000_0000
  const U128: nat := 0x1_0000_0000_0000_0000_0000_0000_0000_0000

  const SECOND: nat := 1_000_000_000

  /** `duration_since`: zero when the clock has gone back. */
  function Elapsed(now: nat, start: nat): nat { if now >= start then now - start else 0 }
}
