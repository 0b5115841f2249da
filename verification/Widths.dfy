/** The integer widths of the source that matter here. */
module Widths {
  const MAX_INT64: int := 0x7fff_ffff_ffff_ffff

  const WORD: int := 0x1_0000_0000
}
