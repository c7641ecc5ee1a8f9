/**
 The queue code as the goroutines run it: methods that change the two stores in place. Each is
 proved to take exactly the steps of the queue machine that its doc comment names, so what the
 machine's theorems say of all interleavings holds of these methods' parts in any interleaving.
 */
module WorkerPool {
  import opened Jobs
  import opened QueueMachine

  /** The replies one run of `Process` gets: to the "running" update, to the ZADD or LPUSH after a
      failure, and to the update that records the outcome. */
  datatype Replies = Replies(running: bool, redis: bool, outcome: bool)

  lemma Exec2(s: State, a: Step, b: Step)
    ensures Exec(s, [a, b]) == Next(Next(s, a), b)
  {
    ExecSplit(s, [a], [b]);
    assert [a] + [b] == [a, b];
    assert forall x, e :: Exec(x, [e]) == Exec(Next(x, e), []);
  }

  lemma Exec3(s: State, a: Step, b: Step, c: Step)
    ensures Exec(s, [a, b, c]) == Next(Next(Next(s, a), b), c)
  {
    ExecSplit(s, [a, b], [c]);
    assert [a, b] + [c] == [a, b, c];
    Exec2(s, a, b);
    assert forall x, e :: Exec(x, [e]) == Exec(Next(x, e), []);
  }

  predicate SameRows(rows: map<JobId, Job>, committed: map<JobId, Row>) {
    rows.Keys == committed.Keys && forall id | id in rows :: rows[id] == committed[id].job
  }

  predicate SamePending(pending: seq<map<JobId, Job>>, txs: seq<Tx>) {
    |pending| == |txs| && forall t | 0 <= t < |pending| :: pending[t] == TxRows(txs[t])
  }

  /** A commit adds the transaction's rows to the table and empties the transaction. */
  lemma CommitFields(s: State, tx: nat, rows: map<JobId, Job>, pending: seq<map<JobId, Job>>)
    requires Enabled(s, Commit(tx)) && SameRows(rows, s.rows) && SamePending(pending, s.txs)
    ensures var s' := DoCommit(s, tx);
      && Next(s, Commit(tx)) == s' && s' == s.(rows := s'.rows, txs := s'.txs)
      && pending[tx] == s.txs[tx].rows
      && SameRows(rows + pending[tx], s'.rows) && SamePending(pending[tx := map[]], s'.txs)
  {
  }

  /** What one worker does with the job in its hand. */
  function ProcessSteps(w: nat, handled: bool, handlerOk: bool, io: Replies): seq<Step> {
    if !handled then [Discard(w)]
    else [MarkRunning(w, io.running), if handlerOk then Succeed(w) else Fail(w, io.redis), Write(w, io.outcome)]
  }

  /** What a drainer does with the first n members of its snapshot. */
  function DrainSteps(d: nat, replies: seq<(bool, bool)>, n: nat): seq<Step>
    requires n <= |replies|
  {
    if n == 0 then [] else DrainSteps(d, replies, n - 1) + [Claim(d, replies[n - 1].0), Repush(d, replies[n - 1].1)]
  }

  class WorkerPool {
    // Redis
    var ready: map<JobType, seq<Job>>
    var delayed: map<Job, int>
    var dlq: seq<Job>
    // Postgres: committed job_queue rows, and the rows open transactions have inserted
    var rows: map<JobId, Job>
    var pending: seq<map<JobId, Job>>
    var clock: int
    const handlers: set<JobType>
    const types: seq<JobType>          // the job type each worker serves
    // the machine state these fields are part of
    ghost var m: State

    ghost predicate Valid()
      reads this
    {
      && m.ready == ready && m.delayed == delayed && m.dlq == dlq && m.clock == clock && m.handlers == handlers
      && |types| == |m.workers| && (forall w | 0 <= w < |types| :: types[w] == m.workers[w].jobType)
      && SameRows(rows, m.rows) && SamePending(pending, m.txs)
    }

    constructor (types: seq<JobType>, drainers: nat, txs: nat, handlers: set<JobType>, now: int)
      ensures Valid() && m == Init(types, drainers, txs, handlers, now)
    {
      ready, delayed, dlq, rows := map[], map[], [], map[];
      pending := seq(txs, _ => map[]);
      clock := now;
      this.handlers := handlers;
      this.types := types;
      m := Init(types, drainers, txs, handlers, now);
    }

    // ---- single store operations ----

    method LPushReady(t: JobType, j: Job)
      modifies this`ready
      ensures ready == old(ready)[t := [j] + (if t in old(ready) then old(ready)[t] else [])]
    {
      var list := if t in ready then ready[t] else [];
      ready := ready[t := [j] + list];
    }

    method SetStatus(id: JobId, status: Status, attempts: nat, nextRunAt: Option<int>, dbOk: bool)
      modifies this`rows
      ensures rows == if dbOk && id in old(rows)
                      then old(rows)[id := Updated(old(rows)[id], Update(status, attempts, nextRunAt))]
                      else old(rows)
      ensures dbOk && id in old(rows) ==>
        var r, r' := old(rows)[id], rows[id];
        && r'.status == status && r'.attempts == attempts
        && r'.nextRunAt == (if nextRunAt.Some? then nextRunAt.value else r.nextRunAt)
        && SameJob(r', r)
    {
      if dbOk && id in rows {
        var row := rows[id].(status := status, attempts := attempts);
        if nextRunAt.Some? {
          row := row.(nextRunAt := nextRunAt.value);
        }
        rows := rows[id := row];
      }
    }

    // ---- client.go ----

    /** The INSERT of EnqueueTx, visible only inside the transaction until it commits. */
    method InsertRow(tx: nat, id: JobId, t: JobType, payload: int) returns (job: Job)
      requires Valid() && tx < |m.txs| && !Pushing(m.txs[tx]) && id !in m.used
      modifies this
      ensures Valid() && m == Next(old(m), Insert(tx, id, t, payload))
      ensures job == NewJob(id, t, payload, old(clock)) && |m.txs| == |old(m).txs|
      ensures m.txs[tx] == Open(TxRows(old(m).txs[tx])[id := job], Some(job))
    {
      job := Job(id, t, payload, Pending, 0, MAX_RETRIES, clock, clock);
      var mine: map<JobId, Job> := pending[tx];
      mine := mine[id := job];
      pending := pending[tx := mine];
      m := DoInsert(m, tx, id, t, payload);
    }

    /** Its LPUSH, before the caller's commit; a failure is ignored. */
    method PushToken(tx: nat, job: Job, redisOk: bool)
      requires Valid() && tx < |m.txs| && Pushing(m.txs[tx]) && m.txs[tx].toPush.value == job
      modifies this
      ensures Valid() && m == Next(old(m), Push(tx, redisOk))
      ensures |m.txs| == |old(m).txs| && m.txs[tx] == old(m).txs[tx].(toPush := None)
    {
      if redisOk {
        LPushReady(job.jobType, job);
      }
      m := DoPush(m, tx, redisOk);
    }

    method CommitTx(tx: nat)
      requires Valid() && tx < |m.txs| && m.txs[tx].Open? && !Pushing(m.txs[tx])
      modifies this
      ensures Valid() && m == Next(old(m), Commit(tx))
      ensures rows == old(rows) + old(m).txs[tx].rows
    {
      CommitFields(m, tx, rows, pending);
      hide DoCommit, Next, SameRows, SamePending;
      rows := rows + pending[tx];
      pending := pending[tx := map[]];
      m := DoCommit(m, tx);
    }

    /** Insert, then Push: the row goes into the open transaction before the token goes to Redis. */
    method EnqueueTx(tx: nat, id: JobId, t: JobType, payload: int, redisOk: bool)
      requires Valid() && tx < |m.txs| && !Pushing(m.txs[tx]) && id !in m.used
      modifies this
      ensures Valid() && m == Exec(old(m), [Insert(tx, id, t, payload), Push(tx, redisOk)])
      ensures |m.txs| == |old(m).txs|
      ensures m.txs[tx] == Open(TxRows(old(m).txs[tx])[id := NewJob(id, t, payload, old(m).clock)], None)
    {
      hide Next;
      Exec2(m, Insert(tx, id, t, payload), Push(tx, redisOk));
      var job := InsertRow(tx, id, t, payload);
      PushToken(tx, job, redisOk);
    }

    /** EnqueueTx in a transaction of its own. */
    method Enqueue(tx: nat, id: JobId, t: JobType, payload: int, redisOk: bool)
      requires Valid() && tx < |m.txs| && m.txs[tx] == NoTx && id !in m.used
      modifies this
      ensures Valid() && m == Exec(old(m), [Insert(tx, id, t, payload), Push(tx, redisOk), Commit(tx)])
      ensures id in rows && rows[id] == NewJob(id, t, payload, old(m).clock)
    {
      hide Next, Valid;
      Exec2(m, Insert(tx, id, t, payload), Push(tx, redisOk));
      Exec3(m, Insert(tx, id, t, payload), Push(tx, redisOk), Commit(tx));
      EnqueueTx(tx, id, t, payload, redisOk);
      CommitTx(tx);
    }

    // ---- worker.go ----

    /** setStatus(id, "running", 0): attempts are written as 0 whatever the job carries. */
    method SetRunning(w: nat, job: Job, dbOk: bool)
      requires Valid() && w < |m.workers| && m.workers[w].phase == Popped(job) && job.jobType in handlers
      modifies this
      ensures Valid() && m == Next(old(m), MarkRunning(w, dbOk))
      ensures |m.workers| == |old(m).workers| && m.workers[w].phase == Handling(job)
      ensures delayed == old(delayed) && dlq == old(dlq) && clock == old(clock)
    {
      SetStatus(job.id, Running, 0, None, dbOk);
      m := DoMarkRunning(m, w, dbOk);
    }

    /** The handler returned nil; the row update is still to come. */
    ghost method HandlerSucceeded(w: nat, job: Job)
      requires Valid() && w < |m.workers| && m.workers[w].phase == Handling(job)
      modifies this`m
      ensures Valid() && m == Next(old(m), Succeed(w))
      ensures |m.workers| == |old(m).workers| && m.workers[w].phase.Writing?
      ensures m.workers[w].phase.id == job.id && m.workers[w].phase.update == Update(Completed, job.attempts, None)
    {
      m := DoSucceed(m, w);
    }

    /** The setStatus that records an outcome. */
    method WriteOutcome(w: nat, id: JobId, status: Status, attempts: nat, nextRunAt: Option<int>, dbOk: bool)
      requires Valid() && w < |m.workers| && m.workers[w].phase.Writing?
      requires m.workers[w].phase.id == id && m.workers[w].phase.update == Update(status, attempts, nextRunAt)
      modifies this
      ensures Valid() && m == Next(old(m), Write(w, dbOk)) && delayed == old(delayed) && dlq == old(dlq)
      ensures rows.Keys == old(rows).Keys
      ensures dbOk && id in old(rows) ==>
        rows[id].status == status && rows[id].attempts == attempts
        && (nextRunAt.Some? ==> rows[id].nextRunAt == nextRunAt.value)
    {
      SetStatus(id, status, attempts, nextRunAt, dbOk);
      m := DoWrite(m, w, dbOk);
    }

    /** The LPUSH of moveToDLQ; the caller has already counted the failure in job.Attempts. */
    method BuryToken(w: nat, dead: Job, redisOk: bool)
      requires Valid() && w < |m.workers| && m.workers[w].phase.Handling? && LastRun(m.workers[w].phase.job)
      requires dead == Buried(m.workers[w].phase.job)
      modifies this
      ensures Valid() && m == Next(old(m), Fail(w, redisOk))
      ensures |m.workers| == |old(m).workers| && m.workers[w].phase.Writing?
      ensures m.workers[w].phase.id == dead.id && m.workers[w].phase.update == Update(Failed, dead.attempts, None)
      ensures dlq == (if redisOk then [dead] else []) + old(dlq) && delayed == old(delayed) && rows == old(rows)
    {
      if redisOk {
        dlq := [dead] + dlq;
      }
      m := DoBury(m, w, redisOk);
    }

    /** The ZADD of handleFailure, scored with the whole seconds of the next run. */
    method DelayToken(w: nat, retry: Job, redisOk: bool)
      requires Valid() && w < |m.workers| && m.workers[w].phase.Handling? && !LastRun(m.workers[w].phase.job)
      requires retry == Retried(m.workers[w].phase.job, clock)
      modifies this
      ensures Valid() && m == Next(old(m), Fail(w, redisOk))
      ensures |m.workers| == |old(m).workers| && m.workers[w].phase.Writing?
      ensures m.workers[w].phase.id == retry.id
      ensures m.workers[w].phase.update == Update(Pending, retry.attempts, Some(retry.nextRunAt))
      ensures delayed == if redisOk then old(delayed)[retry := Unix(retry.nextRunAt)] else old(delayed)
      ensures dlq == old(dlq) && rows == old(rows)
    {
      if redisOk {
        delayed := delayed[retry := Unix(retry.nextRunAt)];
      }
      m := DoRetry(m, w, redisOk);
    }

    /** Fail, then Write: a retry after min(2^attempts * 2, 512) seconds, or the dead-letter list. */
    method HandleFailure(w: nat, job: Job, redisOk: bool, dbOk: bool)
      requires Valid() && w < |m.workers| && m.workers[w].phase == Handling(job)
      modifies this
      ensures Valid() && m == Next(Next(old(m), Fail(w, redisOk)), Write(w, dbOk))
      ensures job.attempts + 1 < job.maxRetries ==> exists j: Job :: (
        && Requeued(job, j, old(clock)) && dlq == old(dlq)
        && delayed == (if redisOk then old(delayed)[j := Unix(j.nextRunAt)] else old(delayed))
        && (dbOk && job.id in rows ==>
              && rows[job.id].status == Pending && rows[job.id].attempts == j.attempts
              && rows[job.id].nextRunAt == j.nextRunAt))
      ensures job.attempts + 1 >= job.maxRetries ==> exists j: Job :: (
        && DeadLetter(job, j) && delayed == old(delayed) && dlq == (if redisOk then [j] else []) + old(dlq)
        && (dbOk && job.id in rows ==> rows[job.id].status == Failed && rows[job.id].attempts == j.attempts))
    {
      assert m.clock == clock;
      hide Next, Valid;
      var j := job.(attempts := job.attempts + 1);
      if j.attempts >= j.maxRetries {
        j := j.(status := Failed);
        assert DeadLetter(job, j);
        BuryToken(w, j, redisOk);
        WriteOutcome(w, j.id, Failed, j.attempts, None, dbOk);
        return;
      }
      var backoffSec := BackoffSec(j.attempts);
      j := j.(nextRunAt := clock + backoffSec * SECOND);
      j := j.(status := Pending);
      BackoffShape(j.attempts);
      assert Requeued(job, j, clock);
      hide BackoffSec, Pow2, Unix;
      DelayToken(w, j, redisOk);
      WriteOutcome(w, j.id, Pending, j.attempts, Some(j.nextRunAt), dbOk);
    }

    /** MarkRunning, the handler, then Succeed or Fail, then Write; or Discard. A handler that succeeds
        completes the row and schedules nothing; one that fails is handled as a failure. */
    method Process(w: nat, job: Job, handlerOk: bool, io: Replies)
      requires Valid() && w < |m.workers| && m.workers[w].phase == Popped(job)
      modifies this
      ensures Valid() && m == Exec(old(m), ProcessSteps(w, job.jobType in handlers, handlerOk, io))
      ensures job.jobType !in handlers || handlerOk ==> delayed == old(delayed) && dlq == old(dlq)
      ensures job.jobType !in handlers ==> rows == old(rows)
      ensures job.jobType in handlers && handlerOk && io.outcome && job.id in rows ==>
        rows[job.id].status == Completed && rows[job.id].attempts == job.attempts
      ensures job.jobType in handlers && !handlerOk && job.attempts + 1 < job.maxRetries ==> exists j: Job :: (
        && Requeued(job, j, old(clock)) && dlq == old(dlq)
        && delayed == (if io.redis then old(delayed)[j := Unix(j.nextRunAt)] else old(delayed)))
      ensures job.jobType in handlers && !handlerOk && job.attempts + 1 >= job.maxRetries ==> exists j: Job :: (
        && DeadLetter(job, j) && delayed == old(delayed) && dlq == (if io.redis then [j] else []) + old(dlq))
    {
      if job.jobType !in handlers {
        assert Exec(m, [Discard(w)]) == Exec(Next(m, Discard(w)), []);
        m := DoDropHeld(m, w);
        return;
      }
      hide Next, Valid;
      Exec3(m, MarkRunning(w, io.running), if handlerOk then Succeed(w) else Fail(w, io.redis), Write(w, io.outcome));
      SetRunning(w, job, io.running);
      if !handlerOk {
        HandleFailure(w, job, io.redis, io.outcome);
        return;
      }
      HandlerSucceeded(w, job);
      WriteOutcome(w, job.id, Completed, job.attempts, None, io.outcome);
    }

    method BRPop(w: nat) returns (job: Option<Job>)
      requires Valid() && w < |m.workers| && m.workers[w].phase.Idle?
      modifies this
      ensures Valid() && m == Next(old(m), Pop(w)) && |m.workers| == |old(m).workers|
      ensures var q := Ready(old(m), old(m).workers[w].jobType);
        if q == [] then job == None else job == Some(q[|q| - 1]) && m.workers[w].phase == Popped(q[|q| - 1])
    {
      var key := types[w];
      var list := if key in ready then ready[key] else [];
      if |list| == 0 {
        return None;
      }
      ready := ready[key := list[..|list| - 1]];
      m := DoPop(m, w);
      return Some(list[|list| - 1]);
    }

    /** One turn of workerLoop: BRPOP, and if it returned a job, Process. */
    method WorkerTurn(w: nat, handlerOk: bool, io: Replies)
      requires Valid() && w < |m.workers| && m.workers[w].phase.Idle?
      modifies this
      ensures Valid()
      ensures var q := Ready(old(m), old(m).workers[w].jobType);
        m == if q == [] then old(m)
             else Exec(old(m), [Pop(w)] + ProcessSteps(w, q[|q| - 1].jobType in handlers, handlerOk, io))
    {
      assert Ready(m, m.workers[w].jobType) == [] ==> Next(m, Pop(w)) == m;
      hide Next, Valid;
      ghost var before := m;
      var job := BRPop(w);
      if job.Some? {
        ghost var steps := ProcessSteps(w, job.value.jobType in handlers, handlerOk, io);
        assert Exec(before, [Pop(w)]) == Exec(Next(before, Pop(w)), []);
        ExecSplit(before, [Pop(w)], steps);
        Process(w, job.value, handlerOk, io);
      }
    }

    /** ZREM of the next member: claimed if it was still there. */
    method ClaimMember(d: nat, member: Job, redisOk: bool) returns (removed: bool)
      requires Valid() && d < |m.drainers| && m.drainers[d].Draining? && |m.drainers[d].rest| > 0
      requires m.drainers[d].rest[0] == member
      modifies this
      ensures Valid() && m == Next(old(m), Claim(d, redisOk)) && |m.drainers| == |old(m).drainers|
      ensures removed <==> redisOk && member in old(delayed)
      ensures m.drainers[d] == if removed then Claimed(member, old(m).drainers[d].rest[1..])
          else Draining(old(m).drainers[d].rest[1..])
    {
      removed := redisOk && member in delayed;
      if removed {
        delayed := delayed - {member};
      }
      m := DoClaim(m, d, redisOk);
    }

    method RepushMember(d: nat, member: Job, redisOk: bool)
      requires Valid() && d < |m.drainers| && m.drainers[d].Claimed? && m.drainers[d].job == member
      modifies this
      ensures Valid() && m == Next(old(m), Repush(d, redisOk)) && |m.drainers| == |old(m).drainers|
      ensures m.drainers[d] == Draining(old(m).drainers[d].rest)
    {
      if redisOk {
        LPushReady(member.jobType, member);
      }
      m := DoRepush(m, d, redisOk);
    }

    /** ZRANGEBYSCORE; `members` is its reply. */
    ghost method TakeSnapshot(d: nat, members: seq<Job>)
      requires Valid() && d < |m.drainers| && m.drainers[d] == Draining([]) && DueMembers(m, members)
      modifies this`m
      ensures Valid() && m == Next(old(m), Snapshot(d, members))
      ensures |m.drainers| == |old(m).drainers| && m.drainers[d] == Draining(members)
    {
      m := SetDrainer(m, d, Draining(members));
    }

    /** Snapshot, then Claim and Repush for each member in turn. */
    method DrainDelayed(d: nat, members: seq<Job>, replies: seq<(bool, bool)>)
      requires Valid() && d < |m.drainers| && m.drainers[d] == Draining([])
      requires DueMembers(m, members) && |replies| == |members|
      modifies this
      ensures Valid() && m == Exec(old(m), [Snapshot(d, members)] + DrainSteps(d, replies, |members|))
    {
      hide Valid, Next, DueMembers;
      ghost var before := m;
      TakeSnapshot(d, members);
      ghost var start := m;
      assert Exec(before, [Snapshot(d, members)]) == Exec(Next(before, Snapshot(d, members)), []);
      ExecSplit(before, [Snapshot(d, members)], DrainSteps(d, replies, |members|));
      for i := 0 to |members|
        invariant Valid() && m == Exec(start, DrainSteps(d, replies, i))
        invariant d < |m.drainers| && m.drainers[d] == Draining(members[i..])
      {
        var member := members[i];
        assert members[i..][0] == member && members[i..][1..] == members[i + 1..];
        ExecSplit(start, DrainSteps(d, replies, i), [Claim(d, replies[i].0), Repush(d, replies[i].1)]);
        Exec2(m, Claim(d, replies[i].0), Repush(d, replies[i].1));
        var removed := ClaimMember(d, member, replies[i].0);
        if removed {
          RepushMember(d, member, replies[i].1);
        } else {
          NothingToRepush(m, d, replies[i].1);
        }
      }
    }
  }

  lemma NothingToRepush(s: State, d: nat, ok: bool)
    requires d < |s.drainers| && s.drainers[d].Draining?
    ensures Next(s, Repush(d, ok)) == s
  {
  }

  // ---- one drain, with every reply in order ----

  lemma ExecDrainStep(s: State, d: nat, replies: seq<(bool, bool)>, n: nat)
    requires 0 < n <= |replies|
    ensures Exec(s, DrainSteps(d, replies, n)) ==
      Next(Next(Exec(s, DrainSteps(d, replies, n - 1)), Claim(d, replies[n - 1].0)), Repush(d, replies[n - 1].1))
  {
    ExecSplit(s, DrainSteps(d, replies, n - 1), [Claim(d, replies[n - 1].0), Repush(d, replies[n - 1].1)]);
    Exec2(Exec(s, DrainSteps(d, replies, n - 1)), Claim(d, replies[n - 1].0), Repush(d, replies[n - 1].1));
  }

  lemma ClaimAndRepush(s: State, d: nat, m: Job, rest: seq<Job>)
    requires d < |s.drainers| && s.drainers[d] == Draining([m] + rest) && m in s.delayed
    ensures var s' := Next(Next(s, Claim(d, true)), Repush(d, true));
      && |s'.drainers| == |s.drainers| && s'.drainers[d] == Draining(rest)
      && s'.delayed == s.delayed - {m}
      && (forall t :: Ready(s', t) == if t == m.jobType then [m] + Ready(s, t) else Ready(s, t))
  {
    var s1 := DoClaim(s, d, true);
    assert Next(s, Claim(d, true)) == s1;
    assert s1.drainers[d] == Claimed(m, rest);
    assert Next(s1, Repush(d, true)) == DoRepush(s1, d, true);
  }

  function Elements(jobs: seq<Job>): set<Job> {
    set j | j in jobs
  }

  function AllOk(n: nat): seq<(bool, bool)> {
    seq(n, _ => (true, true))
  }

  /** Where a drain that has had only good replies is after n members: they left the delayed set for
      the ready lists of their types, the other members stay, and no ready token is disturbed. */
  predicate Drained(s: State, s': State, d: nat, members: seq<Job>, n: nat) {
    && d < |s.drainers| && n <= |members|
    && |s'.drainers| == |s.drainers| && s'.drainers[d] == Draining(members[n..])
    && s'.delayed == s.delayed - Elements(members[..n])
    && (forall i | 0 <= i < n :: members[i] in Ready(s', members[i].jobType))
    && (forall t, j :: j in Ready(s, t) ==> j in Ready(s', t))
  }

  lemma OneMoreDrained(s: State, s1: State, s2: State, d: nat, members: seq<Job>, n: nat)
    requires n < |members| && Drained(s, s1, d, members, n)
    requires |s2.drainers| == |s1.drainers| && s2.drainers[d] == Draining(members[n + 1..])
    requires s2.delayed == s1.delayed - {members[n]}
    requires forall t :: Ready(s2, t) == if t == members[n].jobType then [members[n]] + Ready(s1, t) else Ready(s1, t)
    ensures Drained(s, s2, d, members, n + 1)
  {
    hide Ready;
    assert members[..n + 1] == members[..n] + [members[n]];
    assert Elements(members[..n + 1]) == Elements(members[..n]) + {members[n]};
    forall t, j | j in Ready(s1, t) ensures j in Ready(s2, t) {
    }
    assert members[n] in Ready(s2, members[n].jobType);
  }

  /** A drain whose writes all succeed empties the due part of the delayed set into the ready
      lists: every due member goes, each to the list of its own type, the others stay, and no
      ready token is disturbed. */
  lemma {:induction false} DrainMovesWhatIsDue(s: State, d: nat, members: seq<Job>, n: nat)
    requires d < |s.drainers| && s.drainers[d] == Draining(members) && n <= |members|
    requires Elements(members) <= s.delayed.Keys
    requires forall i, k :: 0 <= i < k < |members| ==> members[i] != members[k]
    ensures Drained(s, Exec(s, DrainSteps(d, AllOk(|members|), n)), d, members, n)
  {
    if n > 0 {
      DrainMovesWhatIsDue(s, d, members, n - 1);
      var s1 := Exec(s, DrainSteps(d, AllOk(|members|), n - 1));
      assert members[n - 1..] == [members[n - 1]] + members[n..];
      assert members[n - 1] in s1.delayed by {
        assert members[n - 1] in Elements(members) && members[n - 1] !in members[..n - 1];
      }
      ExecDrainStep(s, d, AllOk(|members|), n);
      ClaimAndRepush(s1, d, members[n - 1], members[n..]);
      hide Next, Exec, Drained;
      OneMoreDrained(s, s1, Exec(s, DrainSteps(d, AllOk(|members|), n)), d, members, n - 1);
    }
  }
}
