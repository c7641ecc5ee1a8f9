/** Two runs in which row and token part for good although every reply is in order and nobody
    crashes. Each has one step that is not punctual: a commit that meets a finished run, and an
    update that lands after a later one. */
module QueueRaces {
  import opened Jobs
  import opened QueueMachine
  import opened QueueInvariant
  import opened QueueTheorems
  import opened QueueAgreement

  lemma ReachStart(types: seq<JobType>, drainers: nat, txs: nat) returns (s: State)
    ensures Reachable(s) && s == Init(types, drainers, txs, {Transcribe, Summarize}, 0)
  {
    s := Init(types, drainers, txs, {Transcribe, Summarize}, 0);
    assert s == Exec(s, []);
  }

  /** One worker and one open transaction: the job is pushed, popped and run before the commit. */
  lemma RunsUncommitted(j: Job) returns (s: State)
    requires j == NewJob(j.id, Transcribe, j.payload, 0)
    ensures Reachable(s) && s.rows == map[] && s.txs == [Open(map[j.id := j], None)]
    ensures s.workers == [Worker(Transcribe, Handling(j))] && s.journal == map[j.id := [Queued(0), Started(0)]]
  {
    var s0 := ReachStart([Transcribe], 0, 1);
    hide Reachable;
    var e1, e2, e3, e4 := Insert(0, j.id, Transcribe, j.payload), Push(0, true), Pop(0), MarkRunning(0, true);
    ReachNext(s0, e1);
    var s1 := DoInsert(s0, 0, j.id, Transcribe, j.payload);
    ReachNext(s1, e2);
    var s2 := DoPush(s1, 0, true);
    assert Ready(s2, Transcribe) == [j];
    ReachNext(s2, e3);
    var s3 := DoPop(s2, 0);
    assert s3.workers == [Worker(Transcribe, Popped(j))] && s3.txs == [Open(map[j.id := j], None)] && s3.rows == map[];
    ReachNext(s3, e4);
    s := DoMarkRunning(s3, 0, true);
    assert s.journal[j.id] == [Queued(0), Started(0)];
  }

  /** The push precedes the commit, so a worker can finish a job while its row is still invisible.
      Both of its updates then match no row, and the row commits as pending for good. */
  lemma PoppedBeforeCommit(j: Job) returns (s: State)
    requires j == NewJob(j.id, Transcribe, j.payload, 0)
    ensures Reachable(s) && Holds(s, InDone, j) && s.workers == [Worker(Transcribe, Idle)] && s.txs == [NoTx]
    ensures j.id in s.rows && s.rows[j.id].job.status == Pending && !InStep(s, j.id)
  {
    var s4 := RunsUncommitted(j);
    hide Reachable;
    ReachNext(s4, Succeed(0));
    var s5 := DoSucceed(s4, 0);
    ReachNext(s5, Write(0, true));
    var s6 := DoWrite(s5, 0, true);
    assert s6.rows == map[] && s6.workers == [Worker(Transcribe, Idle)];
    ReachNext(s6, Commit(0));
    s := DoCommit(s6, 0);
    assert s.journal[j.id] == [Queued(0), Started(0), Finished(0)];
  }

  /** Two workers and a drainer, and a job that is committed before anyone pops it. */
  lemma CommittedAndReady(j: Job) returns (s: State)
    requires j == NewJob(j.id, Transcribe, j.payload, 0)
    ensures Reachable(s) && s.clock == 0 && s.handlers == {Transcribe, Summarize} && s.drainers == [Draining([])]
    ensures Ready(s, Transcribe) == [j] && s.delayed == map[] && s.txs == [NoTx]
    ensures s.workers == [Worker(Transcribe, Idle), Worker(Transcribe, Idle)]
    ensures s.journal == map[j.id := [Queued(0)]] && s.rows == map[j.id := Row(j, 0)]
  {
    var s0 := ReachStart([Transcribe, Transcribe], 1, 1);
    hide Reachable;
    ReachNext(s0, Insert(0, j.id, Transcribe, j.payload));
    var s1 := DoInsert(s0, 0, j.id, Transcribe, j.payload);
    ReachNext(s1, Push(0, true));
    var s2 := DoPush(s1, 0, true);
    ReachNext(s2, Commit(0));
    s := DoCommit(s2, 0);
  }

  lemma StartsRun(j: Job) returns (s: State)
    requires j == NewJob(j.id, Transcribe, j.payload, 0)
    ensures Reachable(s) && s.clock == 0 && s.handlers == {Transcribe, Summarize} && s.drainers == [Draining([])]
    ensures Ready(s, Transcribe) == [] && s.delayed == map[] && s.txs == [NoTx]
    ensures s.workers == [Worker(Transcribe, Handling(j)), Worker(Transcribe, Idle)]
    ensures s.journal == map[j.id := [Queued(0), Started(0)]] && s.rows.Keys == {j.id}
  {
    var s3 := CommittedAndReady(j);
    hide Reachable;
    ReachNext(s3, Pop(0));
    var s4 := DoPop(s3, 0);
    assert s4.workers[0] == Worker(Transcribe, Popped(j));
    ReachNext(s4, MarkRunning(0, true));
    s := DoMarkRunning(s4, 0, true);
    assert s.journal[j.id] == [Queued(0), Started(0)];
  }

  /** Worker 0 fails the job and puts it in the delayed set, and has yet to make the row update
      that belongs to the failure. */
  lemma FailsAndStalls(j: Job) returns (s: State)
    requires j == NewJob(j.id, Transcribe, j.payload, 0)
    ensures Reachable(s) && s.clock == 0 && s.handlers == {Transcribe, Summarize} && s.drainers == [Draining([])]
    ensures Retried(j, 0).nextRunAt == 4 * SECOND
    ensures Ready(s, Transcribe) == [] && s.delayed == map[Retried(j, 0) := 4] && s.txs == [NoTx]
    ensures s.workers == [Worker(Transcribe, Writing(j.id, 2, Update(Pending, 1, Some(4 * SECOND)))),
        Worker(Transcribe, Idle)]
    ensures s.journal == map[j.id := [Queued(0), Started(0), Queued(1)]] && s.rows.Keys == {j.id}
  {
    assert BackoffSec(1) == 4 by { assert Pow2(1) == 2 * Pow2(0); }
    assert Retried(j, 0).nextRunAt == 4 * SECOND;
    hide Pow2, BackoffSec;
    var s5 := StartsRun(j);
    hide Reachable;
    ReachNext(s5, Fail(0, true));
    s := DoRetry(s5, 0, true);
    assert s.journal[j.id] == [Queued(0), Started(0), Queued(1)];
  }

  /** Four seconds later the drainer re-queues the job, and worker 1 pops it. */
  lemma RequeuedUnderStall(j: Job, r: Job) returns (s: State)
    requires j == NewJob(j.id, Transcribe, j.payload, 0) && r == Retried(j, 0)
    ensures Reachable(s) && s.handlers == {Transcribe, Summarize} && s.txs == [NoTx]
    ensures s.workers == [Worker(Transcribe, Writing(j.id, 2, Update(Pending, 1, Some(4 * SECOND)))),
        Worker(Transcribe, Popped(r))]
    ensures s.journal == map[j.id := [Queued(0), Started(0), Queued(1)]] && s.rows.Keys == {j.id}
  {
    var s0 := FailsAndStalls(j);
    hide Reachable, Pow2, BackoffSec;
    ReachNext(s0, Tick(4 * SECOND));
    var s1 := s0.(clock := 4 * SECOND);
    assert Next(s0, Tick(4 * SECOND)) == s1;
    ReachNext(s1, Snapshot(0, [r]));
    assert DueMembers(s1, [r]);
    var s2 := SetDrainer(s1, 0, Draining([r]));
    assert Next(s1, Snapshot(0, [r])) == s2;
    s := ClaimedAndPopped(s2, r);
  }

  lemma ClaimedAndPopped(s2: State, r: Job) returns (s: State)
    requires Reachable(s2) && s2.drainers == [Draining([r])] && r in s2.delayed && Ready(s2, Transcribe) == []
    requires r.jobType == Transcribe && |s2.workers| == 2 && s2.workers[1] == Worker(Transcribe, Idle)
    ensures Reachable(s) && s.handlers == s2.handlers && s.txs == s2.txs && s.journal == s2.journal && s.rows == s2.rows
    ensures s.workers == s2.workers[1 := Worker(Transcribe, Popped(r))]
  {
    hide Reachable;
    ReachNext(s2, Claim(0, true));
    var s3 := DoClaim(s2, 0, true);
    assert s3.drainers[0] == Claimed(r, []);
    ReachNext(s3, Repush(0, true));
    var s4 := DoRepush(s3, 0, true);
    assert Ready(s4, Transcribe) == [r];
    ReachNext(s4, Pop(1));
    s := DoPop(s4, 1);
  }

  lemma CompletesUnderStall(s5: State, j: Job, r: Job) returns (s: State)
    requires Reachable(s5) && r == Retried(j, 0) && r.id == j.id && r.attempts == 1 && r.jobType in s5.handlers
    requires s5.txs == [NoTx]
    requires s5.workers == [Worker(Transcribe, Writing(j.id, 2, Update(Pending, 1, Some(4 * SECOND)))),
        Worker(Transcribe, Popped(r))]
    requires s5.rows.Keys == {j.id} && s5.journal == map[j.id := [Queued(0), Started(0), Queued(1)]]
    ensures Reachable(s) && Holds(s, InDone, r) && s.txs == [NoTx]
    ensures s.workers == [Worker(Transcribe, Writing(j.id, 2, Update(Pending, 1, Some(4 * SECOND)))),
        Worker(Transcribe, Idle)]
    ensures s.rows.Keys == {j.id} && s.rows[j.id].job.status == Completed && InStep(s, j.id)
    ensures s.journal == map[j.id := [Queued(0), Started(0), Queued(1), Started(1), Finished(1)]]
  {
    hide Reachable;
    ReachNext(s5, MarkRunning(1, true));
    var s6 := DoMarkRunning(s5, 1, true);
    assert s6.journal[j.id] == [Queued(0), Started(0), Queued(1), Started(1)];
    ReachNext(s6, Succeed(1));
    var s7 := DoSucceed(s6, 1);
    assert s7.journal[j.id] == [Queued(0), Started(0), Queued(1), Started(1), Finished(1)];
    ReachNext(s7, Write(1, true));
    s := DoWrite(s7, 1, true);
  }

  /** Worker 1 completes it: the row says so and is in step. */
  lemma OvertakenBySuccess(j: Job) returns (s: State)
    requires j == NewJob(j.id, Transcribe, j.payload, 0)
    ensures Reachable(s) && Holds(s, InDone, Retried(j, 0)) && s.txs == [NoTx]
    ensures s.workers == [Worker(Transcribe, Writing(j.id, 2, Update(Pending, 1, Some(4 * SECOND)))),
        Worker(Transcribe, Idle)]
    ensures s.rows.Keys == {j.id} && s.rows[j.id].job.status == Completed && InStep(s, j.id)
    ensures s.journal == map[j.id := [Queued(0), Started(0), Queued(1), Started(1), Finished(1)]]
  {
    var s5 := RequeuedUnderStall(j, Retried(j, 0));
    s := CompletesUnderStall(s5, j, Retried(j, 0));
  }

  /** Then the stalled update lands: a job that is done reads pending, although its row was
      committed before any pop, every reply was in order and nobody crashed. */
  lemma LateWrite(j: Job) returns (s: State)
    requires j == NewJob(j.id, Transcribe, j.payload, 0)
    ensures Reachable(s) && Holds(s, InDone, Retried(j, 0)) && s.txs == [NoTx]
    ensures s.workers == [Worker(Transcribe, Idle), Worker(Transcribe, Idle)]
    ensures j.id in s.rows && s.rows[j.id].job.status == Pending && !InStep(s, j.id)
  {
    var s9 := OvertakenBySuccess(j);
    ReachNext(s9, Write(0, true));
    hide Reachable, Pow2;
    s := DoWrite(s9, 0, true);
  }
}
