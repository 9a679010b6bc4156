/** The device clock: millis() is an unsigned 32-bit counter that wraps. */
module Clock {

  const WRAP: int := 0x1_0000_0000

  type Millis = m: int | 0 <= m < 0x1_0000_0000

  /** What millis() reads at true time t (unbounded milliseconds). */
  function Wrap(t: int): Millis {
    t % WRAP
  }

  function Elapsed(now: Millis, since: Millis): Millis {
    (now - since) % WRAP
  }

  predicate IntervalPassed(now: Millis, since: Millis, interval: Millis) {
    Elapsed(now, since) >= interval
  }

  /** Unsigned subtraction recovers the true distance across the wrap. */
  lemma ElapsedIsExact(t: int, since: int)
    requires 0 <= t - since < WRAP
    ensures Elapsed(Wrap(t), Wrap(since)) == t - since
  {
    var q, r := t / WRAP, since / WRAP;
    assert t == q * WRAP + Wrap(t) && since == r * WRAP + Wrap(since);
    assert t - since == (q - r) * WRAP + (Wrap(t) - Wrap(since));
    assert q - r == 0 || q - r == 1;
  }
}
