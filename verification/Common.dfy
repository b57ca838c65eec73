/** Types that several components share. */
module Common {
  type UInt16 = x: int | 0 <= x < 0x1_0000
  type UInt32 = x: int | 0 <= x < 0x1_0000_0000

  /** A session's epoch cannot advance past this one without wrapping. */
  const LAST_EPOCH: UInt32 := 0xffff_ffff

  /** How many sessions a server admits at most. */
  const MAX_MEMBERS: nat := 64

  datatype Option<+T> = None | Some(value: T)
}
