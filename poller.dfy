/** wait_for_pod_ready: poll the pod's status with exponential backoff until it
    is running and ready, fails, or the timeout passes. The clock is an integer
    tick counter that only sleeping advances, and read number k returns
    `observe(k)`, the k-th answer of the API server. */
module Poller {
  import opened Wrappers
  import opened Api
  import opened Observation
  import opened Backoff

  /** What a poll returns (true, false or an error it re-raises), how many
      reads it made and the clock when it stopped. */
  datatype PollTrace = PollTrace(result: Result<bool, ApiError>, polls: nat, elapsed: nat)

  predicate IsReady(s: PodStatus) {
    s.phase == Running && s.ready
  }

  /** The phases on which the poller gives up at once. */
  predicate IsFailure(s: PodStatus) {
    s.phase == Failed || s.phase == Unknown
  }

  /** What the poller does after a read: None keeps it waiting, Some(v) makes
      it return v (or re-raise the error). */
  function Settle(status: Result<PodStatus, ApiError>): Option<Result<bool, ApiError>> {
    match status
    case Err(e) => Some(Err(e))
    case Ok(s) =>
      if IsReady(s) then Some(Ok(true))
      else if IsFailure(s) then Some(Ok(false))
      else None
  }

  ghost function SettleAt(observe: nat -> RawRead, j: nat): Option<Result<bool, ApiError>> {
    Settle(GetPodStatus(observe(j)))
  }

  /** Read number j leaves the poller waiting. */
  ghost predicate Continues(observe: nat -> RawRead, j: nat) {
    SettleAt(observe, j).None?
  }

  ghost predicate ContinuesThrough(observe: nat -> RawRead, k: nat, n: nat) {
    forall j :: k <= j < n ==> Continues(observe, j)
  }

  ghost predicate StartsInTime(timeout: int, k: nat, n: nat) {
    forall j :: k <= j < n ==> ElapsedAfter(j) < timeout
  }

  /** The poll ran out of time: every read left it waiting. */
  ghost predicate TimedOut(observe: nat -> RawRead, timeout: int, k: nat, tr: PollTrace) {
    && tr.result == Ok(false)
    && tr.elapsed == ElapsedAfter(tr.polls)
    && timeout <= tr.elapsed
    && ContinuesThrough(observe, k, tr.polls)
  }

  /** The poll stopped right after its last read, which settled it. */
  ghost predicate Decided(observe: nat -> RawRead, k: nat, tr: PollTrace) {
    && k < tr.polls
    && tr.elapsed == ElapsedAfter(tr.polls - 1)
    && SettleAt(observe, tr.polls - 1) == Some(tr.result)
    && ContinuesThrough(observe, k, tr.polls - 1)
  }

  /** The poll from read number k on, with the clock at ElapsedAfter(k). */
  function PollFrom(observe: nat -> RawRead, timeout: int, k: nat): PollTrace
    decreases timeout - ElapsedAfter(k)
  {
    if ElapsedAfter(k) >= timeout then PollTrace(Ok(false), k, ElapsedAfter(k))
    else
      var settled := Settle(GetPodStatus(observe(k)));
      if settled.Some? then PollTrace(settled.value, k + 1, ElapsedAfter(k))
      else PollFrom(observe, timeout, k + 1)
  }

  function Poll(observe: nat -> RawRead, timeout: int): PollTrace {
    PollFrom(observe, timeout, 0)
  }

  method WaitForPodReady(observe: nat -> RawRead, timeout: int) returns (ready: Result<bool, ApiError>, polls: nat, elapsed: nat)
    ensures PollTrace(ready, polls, elapsed) == Poll(observe, timeout)
  {
    elapsed := 0;
    var backoff := InitialBackoff;
    polls := 0;
    while elapsed < timeout
      invariant elapsed == ElapsedAfter(polls) && backoff == Pow2(polls)
      invariant Poll(observe, timeout) == PollFrom(observe, timeout, polls)
      decreases timeout - elapsed
    {
      var status := GetPodStatus(observe(polls));
      polls := polls + 1;
      // A 404 has already become the NotFound phase, so any error left is re-raised.
      if status.Err? {
        return Err(status.error), polls, elapsed;
      }
      if status.value.phase == Running && status.value.ready {
        return Ok(true), polls, elapsed;
      }
      if status.value.phase in {Failed, Unknown} {
        return Ok(false), polls, elapsed;
      }
      elapsed := elapsed + Min(backoff, MaxBackoff);
      backoff := backoff * 2;
    }
    ready := Ok(false);
  }

  /** No read starts once the clock has reached the timeout. */
  lemma {:induction false} PollFromStartsInTime(observe: nat -> RawRead, timeout: int, k: nat)
    ensures var tr := PollFrom(observe, timeout, k);
      && k <= tr.polls && StartsInTime(timeout, k, tr.polls)
      && (tr.elapsed == ElapsedAfter(tr.polls) || (k < tr.polls && tr.elapsed == ElapsedAfter(tr.polls - 1)))
    decreases timeout - ElapsedAfter(k)
  {
    if ElapsedAfter(k) < timeout && Continues(observe, k) {
      assert PollFrom(observe, timeout, k) == PollFrom(observe, timeout, k + 1);
      PollFromStartsInTime(observe, timeout, k + 1);
    }
  }

  /** Every poll either times out or is settled by its last read. */
  lemma {:induction false} PollFromShape(observe: nat -> RawRead, timeout: int, k: nat)
    ensures TimedOut(observe, timeout, k, PollFrom(observe, timeout, k)) || Decided(observe, k, PollFrom(observe, timeout, k))
    decreases timeout - ElapsedAfter(k)
  {
    var tr := PollFrom(observe, timeout, k);
    if ElapsedAfter(k) >= timeout {
      assert TimedOut(observe, timeout, k, tr);
    } else if !Continues(observe, k) {
      assert Decided(observe, k, tr);
    } else {
      assert tr == PollFrom(observe, timeout, k + 1);
      PollFromShape(observe, timeout, k + 1);
      if TimedOut(observe, timeout, k + 1, tr) {
        assert TimedOut(observe, timeout, k, tr);
      } else {
        assert Decided(observe, k, tr);
      }
    }
  }

  lemma {:induction false} PollFromStopsAt(observe: nat -> RawRead, timeout: int, k: nat, i: nat)
    requires k <= i && ElapsedAfter(i) < timeout
    requires ContinuesThrough(observe, k, i) && !Continues(observe, i)
    ensures PollFrom(observe, timeout, k) == PollTrace(SettleAt(observe, i).value, i + 1, ElapsedAfter(i))
    decreases i - k
  {
    if k < i {
      ElapsedIncreases(k, i);
      assert Continues(observe, k);
      PollFromStopsAt(observe, timeout, k + 1, i);
    }
  }

  /** The poll stops at the first read that does not leave it waiting, provided
      that read starts in time: it returns that read's verdict and sleeps no more. */
  lemma PollStopsAtFirstDecisiveRead(observe: nat -> RawRead, timeout: int, i: nat)
    requires ElapsedAfter(i) < timeout
    requires ContinuesThrough(observe, 0, i) && !Continues(observe, i)
    ensures Poll(observe, timeout) == PollTrace(SettleAt(observe, i).value, i + 1, ElapsedAfter(i))
  {
    PollFromStopsAt(observe, timeout, 0, i);
  }

  ghost predicate ReadyAt(observe: nat -> RawRead, timeout: int, i: nat) {
    && ElapsedAfter(i) < timeout
    && ContinuesThrough(observe, 0, i)
    && var status := GetPodStatus(observe(i));
       status.Ok? && IsReady(status.value)
  }

  /** The poll returns true exactly when some read, started in time after reads
      that all left it waiting, shows the pod Running and ready; it is then the
      last read. */
  lemma PollReadyIff(observe: nat -> RawRead, timeout: int)
    ensures Poll(observe, timeout).result == Ok(true) <==> exists i :: ReadyAt(observe, timeout, i)
    ensures Poll(observe, timeout).result == Ok(true) ==> 1 <= Poll(observe, timeout).polls && ReadyAt(observe, timeout, Poll(observe, timeout).polls - 1)
  {
    var tr := Poll(observe, timeout);
    PollFromStartsInTime(observe, timeout, 0);
    PollFromShape(observe, timeout, 0);
    if tr.result == Ok(true) {
      assert ReadyAt(observe, timeout, tr.polls - 1);
    }
    if i :| ReadyAt(observe, timeout, i) {
      PollStopsAtFirstDecisiveRead(observe, timeout, i);
    }
  }

  /** Fail fast: a Failed or Unknown pod ends the poll with false right after
      that read, with no further sleep or read; a read error is re-raised the
      same way, and a 404 only keeps the poll waiting. */
  lemma PollFailsFast(observe: nat -> RawRead, timeout: int, i: nat)
    requires ElapsedAfter(i) < timeout && ContinuesThrough(observe, 0, i)
    ensures var status := GetPodStatus(observe(i));
      status.Ok? && IsFailure(status.value) ==> Poll(observe, timeout) == PollTrace(Ok(false), i + 1, ElapsedAfter(i))
    ensures observe(i).Err? && observe(i).error.status != NotFoundStatus ==>
      Poll(observe, timeout) == PollTrace(Err(observe(i).error), i + 1, ElapsedAfter(i))
    ensures observe(i).Err? && observe(i).error.status == NotFoundStatus ==> Continues(observe, i)
  {
    if !Continues(observe, i) {
      PollStopsAtFirstDecisiveRead(observe, timeout, i);
    }
  }

  /** The timeout bound: no read starts at or after the timeout, a poll that
      reaches it returns false, and the clock never passes it by a whole
      maximal sleep. */
  lemma PollTimeBound(observe: nat -> RawRead, timeout: int)
    ensures var tr := Poll(observe, timeout);
      && StartsInTime(timeout, 0, tr.polls)
      && (timeout <= tr.elapsed ==> tr.result == Ok(false))
      && (timeout <= 0 ==> tr == PollTrace(Ok(false), 0, 0))
      && (0 < timeout ==> 1 <= tr.polls && tr.elapsed < timeout + MaxBackoff)
  {
    var tr := Poll(observe, timeout);
    PollFromStartsInTime(observe, timeout, 0);
    PollFromShape(observe, timeout, 0);
    if 0 < timeout && TimedOut(observe, timeout, 0, tr) {
      assert tr.polls != 0;
      assert ElapsedAfter(tr.polls - 1) < timeout;
    }
  }

  /** With the 300-tick timeout the create handler uses, a poll makes at most
      14 reads and ends by tick 319. */
  lemma DefaultTimeoutBudget(observe: nat -> RawRead)
    ensures Poll(observe, 300).polls <= 14 && Poll(observe, 300).elapsed <= 319
  {
    var tr := Poll(observe, 300);
    assert ElapsedAfter(14) == 319 by {
      ElapsedClosedForm(14);
    }
    PollFromStartsInTime(observe, 300, 0);
    if tr.polls < 14 {
      ElapsedIncreases(tr.polls, 14);
    }
  }
}
