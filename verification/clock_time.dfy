/** GStreamer clock times: a count of nanoseconds. The model uses unbounded
    naturals; the 64-bit range of the library type is not modelled. */
module ClockTime {
  import opened Wrappers

  /** Nanoseconds per second. */
  const NS: nat := 1_000_000_000

  /** `ClockTime::from_seconds`: whole seconds as a clock time. Reading the
      seconds back (truncating division) gives `s` again, with no remainder. */
  function FromSeconds(s: nat): (t: nat)
    ensures t / NS == s && t % NS == 0
  {
    s * NS
  }

  /** `unwrap_or_else(|| ClockTime::from_seconds(0))`: an absent timestamp reads as zero. */
  function OrZero(t: Option<nat>): (r: nat)
    ensures t.None? ==> r == 0
    ensures t.Some? ==> r == t.value
  {
    t.UnwrapOr(FromSeconds(0))
  }
}
