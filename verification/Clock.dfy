/** The struct timespec of POSIX: comparison (libfdproto.h) and the accumulations of fifo.c. */
module Clock {

  datatype Timespec = Timespec(sec: int, nsec: int)

  const NANO := 1000000000

  function Ns(t: Timespec): int {
    t.sec * NANO + t.nsec
  }

  /** C division truncates towards zero. */
  function CDiv(a: int): int {
    if a >= 0 then a / NANO else -((-a) / NANO)
  }

  function CMod(a: int): int {
    a - CDiv(a) * NANO
  }

  /** The nanoseconds from one clock reading to another. */
  function Elapsed(from: Timespec, to: Timespec): (ns: int)
    ensures ns == Ns(to) - Ns(from)
  {
    (to.sec - from.sec) * NANO + (to.nsec - from.nsec)
  }

  /** How the queue adds a number of nanoseconds to one of its accumulators. */
  function AddNs(total: Timespec, ns: int): (r: Timespec)
    ensures Ns(r) == Ns(total) + ns
    ensures 0 <= total.nsec < NANO && ns >= 0 ==> 0 <= r.nsec < NANO
  {
    var carried := ns + total.nsec;
    Timespec(total.sec + CDiv(carried), CMod(carried))
  }

  /** How fd_fifo_move merges two accumulators. */
  function Merge(a: Timespec, b: Timespec): (r: Timespec)
    ensures Ns(r) == Ns(a) + Ns(b)
    ensures 0 <= a.nsec < NANO && 0 <= b.nsec < NANO ==> 0 <= r.nsec < NANO
  {
    var n := a.nsec + b.nsec;
    Timespec(a.sec + (b.sec + CDiv(n)), CMod(n))
  }

  /** TS_IS_INFERIOR. */
  predicate Inferior(a: Timespec, b: Timespec) {
    a.sec < b.sec || (a.sec == b.sec && a.nsec < b.nsec)
  }

  /** A clock reading, as POSIX has it. */
  predicate Proper(t: Timespec) {
    0 <= t.nsec < 1_000_000_000
  }

  /** Of two clock readings the inferior one is the earlier one, in nanoseconds. */
  lemma InferiorIsEarlier(a: Timespec, b: Timespec)
    requires Proper(a) && Proper(b)
    ensures Inferior(a, b) <==> Ns(a) < Ns(b)
    ensures Ns(a) == a.sec * 1_000_000_000 + a.nsec
  {
  }

  /** Truncation towards zero: quotient and remainder have the sign of the dividend. */
  lemma CDivMeaning(a: int)
    ensures a == CDiv(a) * 1_000_000_000 + CMod(a) && -1_000_000_000 < CMod(a) < 1_000_000_000
    ensures a >= 0 ==> CDiv(a) >= 0 && CMod(a) >= 0
    ensures a <= 0 ==> CDiv(a) <= 0 && CMod(a) <= 0
  {
  }
}
