/** The job envelope shared by Redis and Postgres, and the retry delay. */
module Jobs {
  /** Times are nanoseconds since the epoch, as Go's time.Time holds them. */
  const SECOND: int := 1_000_000_000
  const MAX_RETRIES: nat := 5
  const MAX_BACKOFF_SEC: nat := 512

  datatype Option<T> = None | Some(value: T)

  type JobId = nat

  datatype JobType = Transcribe | Summarize

  datatype Status = Pending | Running | Completed | Failed

  /** One value of this type is both a Redis member and the columns of a job_queue row. */
  datatype Job = Job(id: JobId, jobType: JobType, payload: int, status: Status,
                     attempts: nat, maxRetries: nat, createdAt: int, nextRunAt: int)

  /** The columns no later update of the row or the token touches. */
  predicate SameJob(a: Job, b: Job) {
    a.id == b.id && a.jobType == b.jobType && a.payload == b.payload && a.maxRetries == b.maxRetries
    && a.createdAt == b.createdAt
  }

  /** time.Time.Unix: whole seconds, rounded down. */
  function Unix(t: int): (sec: int)
    ensures sec * SECOND <= t < (sec + 1) * SECOND
  {
    t / SECOND
  }

  function Pow2(n: nat): (p: nat)
    ensures p >= 1
  {
    if n == 0 then 1 else 2 * Pow2(n - 1)
  }

  /** The delay in seconds written by handleFailure once Attempts has become `attempts`. */
  function BackoffSec(attempts: nat): nat {
    if Pow2(attempts) * 2 <= MAX_BACKOFF_SEC then Pow2(attempts) * 2 else MAX_BACKOFF_SEC
  }

  lemma {:induction false} Pow2Grows(m: nat, n: nat)
    requires m <= n
    ensures Pow2(m) <= Pow2(n)
  {
    if m < n {
      Pow2Grows(m, n - 1);
    }
  }

  /** The delay after the k-th failure, for every k: doubling from four seconds up to the cap. */
  lemma BackoffShape(k: nat)
    requires k >= 1
    ensures BackoffSec(k) == if k < 8 then Pow2(k + 1) else 512
    ensures 4 <= BackoffSec(k) <= 512
    ensures BackoffSec(k) <= BackoffSec(k + 1)
  {
    assert Pow2(8) == 256 by {
      assert Pow2(4) == 16;
    }
    if k < 8 {
      Pow2Grows(k, 7);
      assert Pow2(8) == 2 * Pow2(7);
      Pow2Grows(1, k);
      assert Pow2(1) == 2 * Pow2(0);
    } else {
      Pow2Grows(8, k);
    }
  }

  /** What becomes of job j when a run has failed at time now and more are allowed: the same job, with
      one more attempt, pending, and due after min(2^attempts * 2, 512) seconds. */
  predicate Requeued(j: Job, m: Job, now: int) {
    && SameJob(m, j) && m.attempts == j.attempts + 1 && m.status == Pending
    && m.nextRunAt - now == (if m.attempts < 8 then Pow2(m.attempts + 1) else 512) * SECOND
  }

  /** What becomes of it when the last run has failed. */
  predicate DeadLetter(j: Job, m: Job) {
    SameJob(m, j) && m.attempts == j.attempts + 1 && m.status == Failed && m.nextRunAt == j.nextRunAt
  }

  /** Seconds a job spends waiting over its first n retries. */
  function TotalBackoff(n: nat): nat {
    if n == 0 then 0 else TotalBackoff(n - 1) + BackoffSec(n)
  }

  lemma {:induction false} TotalBackoffClosedForm(n: nat)
    ensures TotalBackoff(n) == if n <= 8 then Pow2(n + 2) - 4 else 1020 + 512 * (n - 8)
  {
    if n > 0 {
      TotalBackoffClosedForm(n - 1);
      BackoffShape(n);
      assert Pow2(n + 2) == 2 * Pow2(n + 1);
      assert Pow2(10) == 1024 by {
        assert Pow2(5) == 32;
      }
    }
  }

  /** With five allowed runs there are four retries, and they wait sixty seconds in all. */
  lemma ScheduleOfFiveRuns()
    ensures TotalBackoff(MAX_RETRIES - 1) == 60
  {
    TotalBackoffClosedForm(4);
    assert Pow2(6) == 64;
  }
}
