/** The sleep schedule of the readiness poller, in clock ticks: the backoff
    starts at 1, doubles after every sleep, and each sleep lasts the backoff
    capped at 32. */
module Backoff {

  const InitialBackoff: nat := 1
  const MaxBackoff: nat := 32

  function Min(a: int, b: int): int {
    if a < b then a else b
  }

  function Pow2(k: nat): (r: nat)
    ensures r >= 1
  {
    if k == 0 then 1 else 2 * Pow2(k - 1)
  }

  /** The length of the sleep that follows read number k (counting from 0). */
  function SleepTicks(k: nat): (r: nat)
    ensures 1 <= r <= MaxBackoff
  {
    Min(Pow2(k), MaxBackoff)
  }

  /** The clock after k sleeps, that is, when read number k starts. */
  function ElapsedAfter(k: nat): (r: nat)
  {
    if k == 0 then 0 else ElapsedAfter(k - 1) + SleepTicks(k - 1)
  }

  lemma {:induction false} Pow2AtLeast32(k: nat)
    requires k >= 5
    ensures Pow2(k) >= 32
  {
    if k > 5 {
      Pow2AtLeast32(k - 1);
    }
  }

  /** The sleeps last 1, 2, 4, 8, 16 and then 32 ticks for ever. */
  lemma {:induction false} BackoffSchedule(k: nat)
    ensures SleepTicks(k) == if k < 5 then Pow2(k) else MaxBackoff
    ensures [SleepTicks(0), SleepTicks(1), SleepTicks(2), SleepTicks(3), SleepTicks(4), SleepTicks(5)] == [1, 2, 4, 8, 16, 32]
  {
    assert Pow2(4) == 16 by {
      assert Pow2(2) == 4;
    }
    if k >= 5 {
      Pow2AtLeast32(k);
    } else {
      assert Pow2(k) <= 16;
    }
    Pow2AtLeast32(5);
  }

  /** The clock after k sleeps: 2^k - 1 while the backoff doubles, then 32
      more per read. */
  lemma {:induction false} ElapsedClosedForm(k: nat)
    ensures k <= 5 ==> ElapsedAfter(k) == Pow2(k) - 1
    ensures k >= 5 ==> ElapsedAfter(k) == 31 + 32 * (k - 5)
  {
    if k > 0 {
      ElapsedClosedForm(k - 1);
      BackoffSchedule(k - 1);
      if k == 5 {
        BackoffSchedule(4);
      }
    }
  }

  lemma {:induction false} ElapsedIncreases(i: nat, j: nat)
    requires i < j
    ensures ElapsedAfter(i) + (j - i) <= ElapsedAfter(j)
  {
    if i < j - 1 {
      ElapsedIncreases(i, j - 1);
    }
  }
}
