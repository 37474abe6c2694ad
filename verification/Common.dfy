/** What several modules share. */
module Common {

  datatype Option<+T> = None | Some(value: T)

  /** Times and durations count nanoseconds. */
  const SECOND := 1_000_000_000

  const TWO_63 := 0x8000_0000_0000_0000
  const TWO_64 := 0x1_0000_0000_0000_0000

  /** Signed 64-bit arithmetic wraps around. */
  function Wrap64(x: int): int { (x + TWO_63) % TWO_64 - TWO_63 }

  lemma Associative<T>(a: seq<T>, b: seq<T>, c: seq<T>)
    ensures a + (b + c) == (a + b) + c
  {
  }
}
