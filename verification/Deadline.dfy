/** Clock readings and the absolute deadline of a timed wait (`addMsToTimespec`). */
module Deadline {
  import opened Operations

  const NANOS := 1_000_000_000
  const NANOS_PER_MS := 1_000_000

  /** A `timespec` as a value. */
  datatype Instant = Instant(sec: int, nsec: int) {
    function Nanos(): int { sec * NANOS + nsec }

    /** A timed wait accepts it. */
    predicate Normal() { 0 <= nsec < NANOS }
  }

  /** What `clock_gettime` reports when `now` nanoseconds have passed since the epoch. */
  function Reading(now: nat): (r: Instant)
    ensures r.Normal() && r.Nanos() == now
  {
    Instant(now / NANOS, now % NANOS)
  }

  /** Both parts of the sum are cut toward zero, as C++ durations are. */
  function Plus(t: Instant, ms: nat): Instant {
    var total := t.Nanos() + ms * NANOS_PER_MS;
    Instant(TruncDiv(total, NANOS), total - NANOS * TruncDiv(total, NANOS))
  }

  /**
    The sum is exact. It is an instant that the timed wait accepts exactly when it does not lie a
    fraction of a second before the epoch.
   */
  lemma PlusIsExact(t: Instant, ms: nat)
    ensures Plus(t, ms).Nanos() == t.Nanos() + ms * NANOS_PER_MS
    ensures var total := t.Nanos() + ms * NANOS_PER_MS;
            Plus(t, ms).Normal() <==> (total >= 0 || total % NANOS == 0)
  {
    TruncDivSpec(t.Nanos() + ms * NANOS_PER_MS, NANOS);
  }

  predicate InInt64(x: int) { -0x8000_0000_0000_0000 <= x < 0x8000_0000_0000_0000 }

  class Timespec {
    var sec: int
    var nsec: int

    function Value(): Instant
      reads this
    {
      Instant(sec, nsec)
    }

    constructor (t: Instant)
      ensures Value() == t
    {
      sec, nsec := t.sec, t.nsec;
    }

    /** Adds milliseconds in place. */
    method AddMs(ms: nat)
      requires ms < 0x1_0000_0000
      requires InInt64(Value().Nanos()) && InInt64(Value().Nanos() + ms * NANOS_PER_MS)
      modifies this
      ensures Value() == Plus(old(Value()), ms)
      ensures Value().Nanos() == old(Value().Nanos()) + ms * NANOS_PER_MS
      ensures old(Value()).Normal() && old(Value().Nanos()) >= 0 ==> Value().Normal()
    {
      PlusIsExact(Value(), ms);
      var total := sec * NANOS + nsec + ms * NANOS_PER_MS;
      sec := TruncDiv(total, NANOS);
      nsec := total - NANOS * sec;
    }
  }
}
