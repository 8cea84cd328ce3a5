/** Clock readings in whole seconds since the epoch, as unsigned 64-bit numbers. */
module Clocks {
  /** Nanoseconds in a second. */
  const SECOND: nat := 1_000_000_000
  const MAX_SECONDS: nat := 0xFFFF_FFFF_FFFF_FFFF

  function Seconds(instant: nat): nat { instant / SECOND }

  function SaturatingAdd(a: nat, b: nat): nat { if a + b > MAX_SECONDS then MAX_SECONDS else a + b }

  function SaturatingSub(a: nat, b: nat): nat { if a < b then 0 else a - b }
}
