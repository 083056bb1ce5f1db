/** Waiting for an endpoint to come up (internal/client/client.go), on an explicit clock.

    Time passes only inside a probe and while waiting; `limit` is when the context expires,
    counted from the start. */
module Retry {
  import opened Client

  const MAX_RETRIES: nat := 15
  const INITIAL_DELAY: nat := SECOND
  const MAX_DELAY: nat := 30 * SECOND
  const TOTAL_TIMEOUT: nat := 300 * SECOND

  /** How long a probe takes and whether it succeeds. */
  datatype Probe = Probe(took: nat, ok: bool)

  datatype Attempt = Attempt(start: nat, probe: Probe)

  datatype Exit = Connected | ExpiredInProbe | ExpiredWaiting | GaveUp

  function Pow2(k: nat): (p: nat)
    ensures p > 0
  {
    if k == 0 then 1 else 2 * Pow2(k - 1)
  }

  /** The wait after the attempt numbered `k` from zero. */
  function Delay(k: nat): nat {
    var d := INITIAL_DELAY * Pow2(k);
    if d > MAX_DELAY then MAX_DELAY else d
  }

  function EndOf(a: Attempt): nat {
    a.start + a.probe.took
  }

  /** Everything an observer with a clock could see of the loop.  When the context expires at the very
      instant something else happens, either may be noticed first. */
  predicate IsRun(limit: nat, log: seq<Attempt>, exit: Exit) {
    && 1 <= |log| <= MAX_RETRIES + 1
    && log[0].start == 0
    && (forall k :: 0 <= k < |log| - 1 ==> Retried(limit, log, k))
    && var last := log[|log| - 1];
    var ready := EndOf(last) + Delay(|log| - 1);
    match exit
    case Connected => last.probe.ok
    case ExpiredInProbe => !last.probe.ok && EndOf(last) >= limit
    case ExpiredWaiting => !last.probe.ok && EndOf(last) <= limit <= ready
    case GaveUp => !last.probe.ok && ready <= limit && |log| == MAX_RETRIES + 1
  }

  predicate Retried(limit: nat, log: seq<Attempt>, k: nat)
    requires k + 1 < |log|
  {
    && !log[k].probe.ok
    && log[k + 1].start == EndOf(log[k]) + Delay(k)
    && log[k + 1].start <= limit
  }

  /** The loop; `noticed` settles who is first when the context expires at the same instant. */
  method RetryUntilReady(probe: nat -> Probe, noticed: nat -> bool, limit: nat)
    returns (exit: Exit, log: seq<Attempt>)
    ensures IsRun(limit, log, exit)
    ensures forall k :: 0 <= k < |log| ==> log[k].probe == probe(k)
  {
    log := [];
    var now := 0;
    var attempt := 0;
    while attempt <= MAX_RETRIES
      invariant attempt == |log| <= MAX_RETRIES + 1
      invariant attempt == 0 ==> now == 0
      invariant log != [] ==> log[0].start == 0
      invariant forall k :: 0 <= k < |log| ==> log[k].probe == probe(k) && !log[k].probe.ok
      invariant forall k :: 0 <= k < |log| - 1 ==> Retried(limit, log, k)
      invariant log != [] ==> now == EndOf(log[|log| - 1]) + Delay(|log| - 1) <= limit
    {
      var p := probe(attempt);
      ghost var before := log;
      log := log + [Attempt(now, p)];
      assert forall k :: 0 <= k < |before| - 1 ==> Retried(limit, before, k) && Retried(limit, log, k);
      now := now + p.took;
      if p.ok {
        return Connected, log;
      }
      if now > limit || (now == limit && noticed(attempt)) {
        return ExpiredInProbe, log;
      }
      var delay := Delay(attempt);
      if now + delay > limit || (now + delay == limit && noticed(attempt)) {
        return ExpiredWaiting, log;
      }
      now := now + delay;
      attempt := attempt + 1;
    }
    return GaveUp, log;
  }

  /** The waits before the attempt numbered `k`, together. */
  function Waited(k: nat): nat {
    if k == 0 then 0 else Waited(k - 1) + Delay(k - 1)
  }

  lemma {:induction false} DelayIsCapped(k: nat)
    requires k >= 5
    ensures Delay(k) == 30 * SECOND
  {
    Pow2Grows(k);
  }

  lemma {:induction false} Pow2Grows(k: nat)
    requires k >= 5
    ensures Pow2(k) >= 32
  {
    if k == 5 {
      assert Pow2(2) == 4;
    } else {
      Pow2Grows(k - 1);
    }
  }

  lemma {:induction false} WaitedClosedForm(k: nat)
    ensures Waited(k) == (if k <= 5 then (Pow2(k) - 1) * SECOND else (31 + 30 * (k - 5)) * SECOND)
  {
    if k > 0 {
      WaitedClosedForm(k - 1);
      if k <= 5 {
        assert Pow2(4) == 16 by { assert Pow2(2) == 4; }
        Pow2Below(k - 1);
      } else {
        DelayIsCapped(k - 1);
        assert Pow2(5) == 32 by { assert Pow2(3) == 8; }
      }
    }
  }

  lemma Pow2Below(k: nat)
    requires k <= 4
    ensures Pow2(k) <= 16
  {
  }

  /** No attempt starts before the waits that precede it have passed. */
  lemma {:induction false} StartsNoEarlier(limit: nat, log: seq<Attempt>, exit: Exit, k: nat)
    requires IsRun(limit, log, exit) && k < |log|
    ensures log[k].start >= Waited(k)
    ensures log[k].start <= limit
  {
    if k > 0 {
      StartsNoEarlier(limit, log, exit, k - 1);
      assert Retried(limit, log, k - 1);
    }
  }

  /** Within the total timeout at most 14 probes are made, and giving up after 16 is impossible. */
  lemma RetryBound(limit: nat, log: seq<Attempt>, exit: Exit)
    requires limit <= 300 * SECOND && IsRun(limit, log, exit)
    ensures |log| <= 14
    ensures exit != GaveUp
  {
    WaitedClosedForm(14);
    if |log| > 14 {
      StartsNoEarlier(limit, log, exit, 14);
      assert false;
    }
  }

  /** It connects exactly if some probe succeeds, which is then the last one made; otherwise it goes on
      for as long as the next wait fits the limit. */
  lemma ConnectsIffProbeSucceeds(limit: nat, log: seq<Attempt>, exit: Exit)
    requires limit <= TOTAL_TIMEOUT && IsRun(limit, log, exit)
    ensures exit == Connected <==> exists k :: 0 <= k < |log| && log[k].probe.ok
    ensures forall k :: 0 <= k < |log| && log[k].probe.ok ==> k == |log| - 1
    ensures exit != Connected ==> EndOf(log[|log| - 1]) + Delay(|log| - 1) >= limit
  {
    RetryBound(limit, log, exit);
    forall k | 0 <= k < |log| - 1
      ensures !log[k].probe.ok
    {
      assert Retried(limit, log, k);
    }
  }

  /** Every probe refused at once. */
  function Refusals(n: nat): seq<Attempt> {
    seq(n, k requires 0 <= k => Attempt(Waited(k), Probe(0, false)))
  }

  lemma {:induction false} WaitedGrows(i: nat, k: nat)
    requires i <= k
    ensures Waited(i) <= Waited(k)
  {
    if i < k {
      WaitedGrows(i, k - 1);
    }
  }

  lemma RefusalsRetry(limit: nat, n: nat)
    requires n > 0 && Waited(n - 1) <= limit
    ensures forall k :: 0 <= k < n - 1 ==> Retried(limit, Refusals(n), k)
  {
    forall k | 0 <= k < n - 1
      ensures Retried(limit, Refusals(n), k)
    {
      WaitedGrows(k + 1, n - 1);
    }
  }

  /** How a series of refusals can end. */
  lemma RefusalsEnd(limit: nat, n: nat)
    requires 1 <= n <= MAX_RETRIES + 1 && Waited(n - 1) <= limit
    ensures limit <= Waited(n) ==> IsRun(limit, Refusals(n), ExpiredWaiting)
    ensures Waited(n) <= limit && n == MAX_RETRIES + 1 ==> IsRun(limit, Refusals(n), GaveUp)
  {
    RefusalsRetry(limit, n);
    var last := Refusals(n)[n - 1];
    assert EndOf(last) == Waited(n - 1);
    assert Waited(n) == EndOf(last) + Delay(n - 1);
  }

  /** The bound is met: probes that fail at once are made 14 times. */
  lemma BoundIsTight()
    ensures TOTAL_TIMEOUT == 300 * SECOND && IsRun(TOTAL_TIMEOUT, Refusals(14), ExpiredWaiting)
  {
    WaitedClosedForm(13);
    WaitedClosedForm(14);
    RefusalsEnd(TOTAL_TIMEOUT, 14);
  }

  lemma GivingUpTakesTime(limit: nat, log: seq<Attempt>)
    requires IsRun(limit, log, GaveUp)
    ensures limit >= 361 * SECOND
  {
    WaitedClosedForm(15);
    DelayIsCapped(15);
    StartsNoEarlier(limit, log, GaveUp, 15);
  }

  lemma PatienceGivesUp(limit: nat)
    requires limit >= 361 * SECOND
    ensures IsRun(limit, Refusals(16), GaveUp)
  {
    WaitedClosedForm(15);
    WaitedClosedForm(16);
    RefusalsEnd(limit, 16);
  }

  /** The last exit of the loop is live exactly for limits of 361 seconds and more. */
  lemma GivingUpNeedsTime(limit: nat)
    ensures (exists log :: IsRun(limit, log, GaveUp)) <==> limit >= 361 * SECOND
  {
    forall log | IsRun(limit, log, GaveUp)
      ensures limit >= 361 * SECOND
    {
      GivingUpTakesTime(limit, log);
    }
    if limit >= 361 * SECOND {
      PatienceGivesUp(limit);
    }
  }
}
