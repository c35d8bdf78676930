/** `std::time::Duration` as the systems receive it: whole seconds plus nanoseconds. */
module Time {
  datatype Duration = Duration(secs: nat, nanos: nat)

  const NanosPerSec: nat := 1_000_000_000

  predicate Valid(d: Duration) {
    d.nanos < NanosPerSec
  }

  /** `as_secs`: the whole seconds only; the fractional part is dropped. */
  function AsSecs(d: Duration): (r: nat)
    ensures r as real <= Seconds(d)
    ensures Valid(d) ==> Seconds(d) < r as real + 1.0
  {
    d.secs
  }

  /** The exact length of the duration in seconds. */
  function Seconds(d: Duration): (r: real)
    ensures r >= 0.0
  {
    d.secs as real + d.nanos as real / NanosPerSec as real
  }

  /** `Duration + Duration`, carrying whole seconds out of the nanoseconds. */
  function Plus(d: Duration, e: Duration): (r: Duration)
    requires Valid(d) && Valid(e)
    ensures Valid(r)
    ensures Seconds(r) == Seconds(d) + Seconds(e)
  {
    var n := d.nanos + e.nanos;
    if n < NanosPerSec then Duration(d.secs + e.secs, n)
    else Duration(d.secs + e.secs + 1, n - NanosPerSec)
  }
}
