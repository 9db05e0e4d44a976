/** The standard library's `Duration`, and the checked and saturating u64 steps the crate uses. */
module Durations {
  import opened Base

  const NANOS_PER_SEC := 1_000_000_000
  const NANOS_PER_MILLI := 1_000_000

  datatype RawDuration = RawDuration(secs: nat, nanos: nat)

  type Duration = d: RawDuration | d.secs <= U64_MAX && d.nanos < NANOS_PER_SEC witness RawDuration(0, 0)

  function Nanos(d: RawDuration): nat {
    d.secs * NANOS_PER_SEC + d.nanos
  }

  predicate IsZero(d: Duration) {
    d.secs == 0 && d.nanos == 0
  }

  function FromNanos(n: nat): (d: Duration)
    requires n / NANOS_PER_SEC <= U64_MAX
    ensures Nanos(d) == n
  {
    RawDuration(n / NANOS_PER_SEC, n % NANOS_PER_SEC)
  }

  function CheckedMul(a: nat, b: nat): Option<nat> {
    if a * b <= U64_MAX then Some(a * b) else None
  }

  function CheckedAdd(a: nat, b: nat): Option<nat> {
    if a + b <= U64_MAX then Some(a + b) else None
  }

  function SaturatingMul(a: nat, b: nat): nat {
    if a * b <= U64_MAX then a * b else U64_MAX
  }

  function SaturatingAdd(a: nat, b: nat): nat {
    if a + b <= U64_MAX then a + b else U64_MAX
  }
}
