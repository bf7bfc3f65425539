/**
  The worker's clocks: how long a job may wait and run, how refused submissions
  are spaced, and why that spacing allows at most twenty-five of them.
  Times are in nanoseconds.
*/
module Budgets {
  import opened Prelude
  import opened GoArith
  import opened StoreTables

  const SECOND: int := 1000000000
  const MINUTE: int := 60 * SECOND
  const HOUR: int := 60 * MINUTE

  const POLL_FAST: int := 3 * SECOND
  const POLL_SLOW: int := 10 * SECOND
  const QUEUE_BUDGET: int := 45 * MINUTE
  const RUN_BUDGET_MINIMAX: int := 8 * MINUTE
  const RUN_BUDGET_YUE2: int := 20 * MINUTE
  const RUN_BUDGET_COVER: int := 45 * MINUTE
  const SUBMIT_BACKOFF: int := 15 * SECOND
  const MAX_SUBMIT_BACKOFF: int := 2 * MINUTE
  const CALL_TIMEOUT: int := 30 * SECOND   // one call to the remote
  const MAX_TRANSIENT := 3
  const MAX_STORE_RETRIES := 5
  const MAX_POSTS := 25

  // ---------- Budgets ----------

  function RunBudget(job: Job): (budget: int)
    ensures 0 < budget <= RUN_BUDGET_COVER
  {
    if job.engine != YUE2 then RUN_BUDGET_MINIMAX
    else if job.mode == COVER then RUN_BUDGET_COVER
    else RUN_BUDGET_YUE2
  }

  /** Waiting is measured from creation, running from the first time a GPU had the job. */
  predicate Expired(job: Job, now: int) {
    match job.startedAt
    case None => now - job.createdAt > QUEUE_BUDGET
    case Some(started) => now - started > RunBudget(job)
  }

  function PollDelay(job: Job, now: int): int {
    if now - job.createdAt < MINUTE then POLL_FAST else POLL_SLOW
  }

  // ---------- The spacing of refused submissions ----------

  function Pow2(n: nat): (p: nat)
    ensures p >= 1
  {
    if n == 0 then 1 else 2 * Pow2(n - 1)
  }

  /** Nothing before the first refusal, then doubling up to a cap. */
  function Delay(retries: int): int {
    if retries <= 0 then 0 else Min(SUBMIT_BACKOFF * Pow2(retries - 1), MAX_SUBMIT_BACKOFF)
  }

  lemma {:induction false} Pow2Grows(m: nat, n: nat)
    requires m <= n
    ensures Pow2(m) <= Pow2(n)
  {
    if m < n {
      Pow2Grows(m, n - 1);
    }
  }

  /** The delay as the program computes it: doubling, and stopping early at the cap. */
  method SubmitDelay(retries: int) returns (d: int)
    ensures d == Delay(retries)
  {
    if retries <= 0 {
      return 0;
    }
    d := SUBMIT_BACKOFF;
    var i := 0;
    while i < retries - 1
      invariant 0 <= i <= retries - 1 && d == SUBMIT_BACKOFF * Pow2(i)
    {
      if d >= MAX_SUBMIT_BACKOFF {
        Pow2Grows(i, retries - 1);
        break;
      }
      d := d * 2;
      i := i + 1;
    }
    return Min(d, MAX_SUBMIT_BACKOFF);
  }

  /** What a job has waited, at least, when it has been refused and sent again this many times. */
  function Waited(refusals: nat): int {
    if refusals == 0 then 0 else Waited(refusals - 1) + Delay(refusals)
  }

  lemma FirstDelays()
    ensures Delay(1) == 15 * SECOND && Delay(2) == 30 * SECOND && Delay(3) == 60 * SECOND
    ensures forall r :: r > 3 ==> Delay(r) == MAX_SUBMIT_BACKOFF
  {
    assert Pow2(1) == 2 && Pow2(2) == 4 && Pow2(3) == 8;
    forall r: int | r > 3
      ensures Delay(r) == MAX_SUBMIT_BACKOFF
    {
      Pow2Grows(3, r - 1);
    }
  }

  lemma FirstWaits()
    ensures Waited(0) == 0 && Waited(1) == 15 * SECOND && Waited(2) == 45 * SECOND && Waited(3) == 105 * SECOND
  {
    FirstDelays();
    assert Waited(1) == Waited(0) + Delay(1);
    assert Waited(2) == Waited(1) + Delay(2);
    assert Waited(3) == Waited(2) + Delay(3);
  }

  /** From the third refusal on, two minutes each: in nanoseconds. */
  lemma {:induction false} WaitedClosedForm(r: nat)
    requires r >= 3
    ensures Waited(r) == 105_000_000_000 + (r - 3) * 120_000_000_000
  {
    if r == 3 {
      FirstWaits();
    } else {
      FirstDelays();
      WaitedClosedForm(r - 1);
    }
  }

  /** The queue budget outlasts the waits of exactly twenty-four refusals. */
  lemma WaitsFitTheBudget(refusals: nat)
    ensures Waited(refusals) <= QUEUE_BUDGET <==> refusals < MAX_POSTS
  {
    if refusals < 3 {
      FirstWaits();
    } else {
      WaitedClosedForm(refusals);
    }
  }
}
