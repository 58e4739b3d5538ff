/** Rust's `std::time::Duration`: whole seconds plus a nanosecond part below one second. */
module Durations {

  const NanosPerSec: nat := 1_000_000_000
  const NanosPerMilli: nat := 1_000_000

  datatype DurationRec = DurationRec(secs: nat, nanos: nat)

  /** A duration is always kept canonical, as `Duration::new` normalises it. */
  type Duration = d: DurationRec | d.nanos < NanosPerSec witness DurationRec(0, 0)

  function TotalNanos(d: Duration): nat
  {
    d.secs * NanosPerSec + d.nanos
  }

  /** `Duration::from_nanos`. */
  function FromNanos(n: nat): (d: Duration)
    ensures TotalNanos(d) == n
  {
    DurationRec(n / NanosPerSec, n % NanosPerSec)
  }

  /** `Duration::from_millis`. */
  function FromMillis(ms: nat): (d: Duration)
    ensures TotalNanos(d) == ms * NanosPerMilli
  {
    FromNanos(ms * NanosPerMilli)
  }

  /** `Duration::from_secs`. */
  function FromSecs(s: nat): (d: Duration)
    ensures TotalNanos(d) == s * NanosPerSec
  {
    FromNanos(s * NanosPerSec)
  }

  lemma DivModUnique(n: nat, q: nat, r: nat)
    requires r < NanosPerSec && n == q * NanosPerSec + r
    ensures n / NanosPerSec == q && n % NanosPerSec == r
  {
  }
}
