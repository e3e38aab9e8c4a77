/** The millisecond counter of the firmware: 32 bits, wrapping, compared by unsigned subtraction. */
module Clock {
  const WRAP := 0x1_0000_0000

  type Millis = t: int | 0 <= t < 0x1_0000_0000

  /** The counter at an absolute time. */
  function At(time: nat): Millis {
    time % WRAP
  }

  /** now - since in 32-bit arithmetic. */
  function Elapsed(now: Millis, since: Millis): (d: Millis)
    ensures now >= since ==> d == now - since
    ensures now < since ==> d == now + WRAP - since
  {
    (now - since) % WRAP
  }

  /** The subtraction gives the true distance exactly while that distance fits the counter. */
  lemma ElapsedIsDistance(now: nat, since: nat)
    requires since <= now
    ensures now - since < WRAP <==> Elapsed(At(now), At(since)) == now - since
  {
    Shift(now - since, since);
  }

  lemma Shift(d: nat, since: nat)
    ensures Elapsed(At(since + d), At(since)) == d % WRAP
  {
    var q, r := since / WRAP, d / WRAP;
    assert since == q * WRAP + At(since) && d == r * WRAP + d % WRAP;
    var low := At(since) + d % WRAP;
    assert since + d == (q + r) * WRAP + low;
    if low < WRAP {
      Residue(q + r, low);
    } else {
      Residue(q + r + 1, low - WRAP);
    }
  }

  lemma Residue(q: nat, r: nat)
    requires r < WRAP
    ensures At(q * WRAP + r) == r
  {}
}
