/** Vocabulary shared by every other module. */
module Common {

  datatype Option<+T> = None | Some(value: T) {
    function GetOr(default: T): T {
      if Some? then value else default
    }
  }

  /** What became of one write, to the database or to the socket.
      `Unacknowledged` is the awkward case: the effect took place, but the caller
      was told that it failed (a timeout after the commit, a reset after the last byte). */
  datatype Write = Committed | Refused | Unacknowledged

  /** A UUID in its canonical text form, which is always 36 characters long. */
  type Uuid = s: string | |s| == 36 witness "00000000-0000-0000-0000-000000000000"

  /** Wall-clock instants are counted in nanoseconds. */
  const SECOND: nat := 1_000_000_000
  const ONE_MINUTE: nat := 60 * SECOND
  const ONE_HOUR: nat := 3600 * SECOND
  const ONE_DAY: nat := 24 * ONE_HOUR

  /** `u64::saturating_sub`, and `Instant::duration_since`, which saturates too. */
  function SaturatingSub(a: nat, b: nat): nat {
    if a >= b then a - b else 0
  }

  /** A Rust `as u32` cast from a signed integer: the value modulo 2^32. */
  function AsU32(x: int): nat {
    x % 0x1_0000_0000
  }
}
