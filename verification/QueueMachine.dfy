/**
 The two-store job queue as a state machine. Postgres holds the job_queue rows, Redis holds the
 ready lists, the delayed sorted set and the dead-letter list. Enqueuers, workers and drainers
 take the steps; every Redis reply, every database reply and every crash is a choice made by the
 schedule, so a theorem about all schedules is a theorem about all interleavings and all faults.
 */
module QueueMachine {
  import opened Jobs

  /** What the queue decided about a job, in order: see `State.journal`. */
  datatype Mark = Queued(k: nat) | Started(k: nat) | Finished(k: nat) | Dead(k: nat)

  /** The arguments of one setStatus call; the zero time is None. */
  datatype Update = Update(status: Status, attempts: nat, nextRunAt: Option<int>)

  /** Where a worker goroutine stands: between two pops, between BRPOP and the "running" update,
      inside the handler, or about to write the outcome. */
  datatype Phase =
    | Idle
    | Popped(job: Job)
    | Handling(job: Job)
    | Writing(id: JobId, version: nat, update: Update)

  datatype Worker = Worker(jobType: JobType, phase: Phase)

  /** A scheduler walking the members of its snapshot; Draining([]) sleeps until the next tick. */
  datatype Drainer = Draining(rest: seq<Job>) | Claimed(job: Job, rest: seq<Job>)

  /** An enqueuer's open transaction: rows only it can see, and the job it has still to push. */
  datatype Tx = NoTx | Open(rows: map<JobId, Job>, toPush: Option<Job>)

  /** A committed row, and which entry of the job's journal it was last updated from. */
  datatype Row = Row(job: Job, version: nat)

  datatype State = State(
    ready: map<JobType, seq<Job>>,     // Redis lists; LPUSH at index 0, BRPOP at the end
    delayed: map<Job, int>,            // Redis sorted set: member to score
    dlq: seq<Job>,                     // Redis list
    rows: map<JobId, Row>,             // committed job_queue rows
    txs: seq<Tx>,
    workers: seq<Worker>,
    drainers: seq<Drainer>,
    clock: int,
    handlers: set<JobType>,            // job types with a registered handler
    used: set<JobId>,                  // ids handed out by uuid.NewString
    pushed: set<JobId>,                // ids whose first LPUSH succeeded
    journal: map<JobId, seq<Mark>>,    // history: the decisions taken on each job
    done: set<Job>,                    // history: tokens whose handler returned nil
    lost: set<Job>)                    // history: tokens dropped by a failed write or a crash

  function Init(types: seq<JobType>, drainers: nat, txs: nat, handlers: set<JobType>, clock: int): State {
    State(map[], map[], [], map[],
          seq(txs, _ => NoTx),
          seq(|types|, i requires 0 <= i < |types| => Worker(types[i], Idle)),
          seq(drainers, _ => Draining([])),
          clock, handlers, {}, {}, map[], {}, {})
  }

  datatype Step =
    | Tick(delta: nat)
    | Insert(tx: nat, id: JobId, jobType: JobType, payload: int)
    | Push(tx: nat, redisOk: bool)
    | Commit(tx: nat)
    | Rollback(tx: nat)
    | Pop(w: nat)
    | PopLost(w: nat)
    | Discard(w: nat)
    | MarkRunning(w: nat, dbOk: bool)
    | Succeed(w: nat)
    | Fail(w: nat, redisOk: bool)
    | Write(w: nat, dbOk: bool)
    | CrashWorker(w: nat)
    | Snapshot(d: nat, members: seq<Job>)
    | Claim(d: nat, redisOk: bool)
    | ClaimLost(d: nat)
    | Repush(d: nat, redisOk: bool)
    | CrashDrainer(d: nat)

  // ---- store operations ----

  /** A Redis list that was never pushed to reads as the empty list. */
  function Ready(s: State, t: JobType): seq<Job> {
    if t in s.ready then s.ready[t] else []
  }

  /** LPUSH on the ready list of the job's own type. */
  function PushReady(s: State, j: Job): State {
    s.(ready := s.ready[j.jobType := [j] + Ready(s, j.jobType)])
  }

  function Lose(s: State, j: Job): State {
    s.(lost := s.lost + {j})
  }

  /** The effect of an UPDATE on the columns of a row: a zero time leaves next_run_at alone. */
  function Updated(j: Job, u: Update): Job {
    j.(status := u.status, attempts := u.attempts,
       nextRunAt := if u.nextRunAt.Some? then u.nextRunAt.value else j.nextRunAt)
  }

  /** UPDATE job_queue ... WHERE id = $n: a failed statement, or an id with no committed row, changes nothing. */
  function SetStatus(s: State, id: JobId, version: nat, u: Update, dbOk: bool): State {
    if dbOk && id in s.rows then
      s.(rows := s.rows[id := Row(Updated(s.rows[id].job, u), version)])
    else s
  }

  function SetPhase(s: State, w: nat, p: Phase): State
    requires w < |s.workers|
  {
    s.(workers := s.workers[w := s.workers[w].(phase := p)])
  }

  function SetDrainer(s: State, d: nat, x: Drainer): State
    requires d < |s.drainers|
  {
    s.(drainers := s.drainers[d := x])
  }

  function Journal(s: State, id: JobId): seq<Mark> {
    if id in s.journal then s.journal[id] else []
  }

  function Decide(s: State, id: JobId, m: Mark): State {
    s.(journal := s.journal[id := Journal(s, id) + [m]])
  }

  // ---- enqueuer steps (client.go) ----

  function NewJob(id: JobId, t: JobType, payload: int, now: int): Job {
    Job(id, t, payload, Pending, 0, MAX_RETRIES, now, now)
  }

  function TxRows(x: Tx): map<JobId, Job> {
    if x.Open? then x.rows else map[]
  }

  predicate Pushing(x: Tx) {
    x.Open? && x.toPush.Some?
  }

  function DoInsert(s: State, tx: nat, id: JobId, t: JobType, payload: int): State
    requires tx < |s.txs|
  {
    var j := NewJob(id, t, payload, s.clock);
    s.(used := s.used + {id},
       journal := s.journal[id := [Queued(0)]],
       txs := s.txs[tx := Open(TxRows(s.txs[tx])[id := j], Some(j))])
  }

  function DoPush(s: State, tx: nat, redisOk: bool): State
    requires tx < |s.txs| && Pushing(s.txs[tx])
  {
    var j := s.txs[tx].toPush.value;
    var s1 := s.(txs := s.txs[tx := s.txs[tx].(toPush := None)]);
    if redisOk then PushReady(s1, j).(pushed := s.pushed + {j.id}) else s1
  }

  function DoCommit(s: State, tx: nat): State
    requires tx < |s.txs| && s.txs[tx].Open?
  {
    var mine := s.txs[tx].rows;
    s.(rows := s.rows + (map id | id in mine :: Row(mine[id], 0)), txs := s.txs[tx := NoTx])
  }

  // ---- worker steps (worker.go) ----

  function DoPop(s: State, w: nat): State
    requires w < |s.workers| && |Ready(s, s.workers[w].jobType)| > 0
  {
    var t := s.workers[w].jobType;
    var q := Ready(s, t);
    SetPhase(s.(ready := s.ready[t := q[..|q| - 1]]), w, Popped(q[|q| - 1]))
  }

  /** BRPOP takes the token and its reply does not arrive: the worker sees an error and pops again. */
  function DoPopLost(s: State, w: nat): State
    requires w < |s.workers| && |Ready(s, s.workers[w].jobType)| > 0
  {
    var t := s.workers[w].jobType;
    var q := Ready(s, t);
    Lose(s.(ready := s.ready[t := q[..|q| - 1]]), q[|q| - 1])
  }

  function DoMarkRunning(s: State, w: nat, dbOk: bool): State
    requires w < |s.workers| && s.workers[w].phase.Popped?
  {
    var j := s.workers[w].phase.job;
    SetStatus(SetPhase(Decide(s, j.id, Started(j.attempts)), w, Handling(j)),
              j.id, |Journal(s, j.id)|, Update(Running, 0, None), dbOk)
  }

  function DoSucceed(s: State, w: nat): State
    requires w < |s.workers| && s.workers[w].phase.Handling?
  {
    var j := s.workers[w].phase.job;
    SetPhase(Decide(s, j.id, Finished(j.attempts)).(done := s.done + {j}), w,
             Writing(j.id, |Journal(s, j.id)|, Update(Completed, j.attempts, None)))
  }

  /** The job as handleFailure re-queues it. */
  function Retried(j: Job, now: int): Job {
    j.(attempts := j.attempts + 1, status := Pending,
       nextRunAt := now + BackoffSec(j.attempts + 1) * SECOND)
  }

  /** The job as moveToDLQ writes it. */
  function Buried(j: Job): Job {
    j.(attempts := j.attempts + 1, status := Failed)
  }

  function ZAdd(s: State, j: Job): State {
    s.(delayed := s.delayed[j := Unix(j.nextRunAt)])
  }

  /** The last allowed run failed: LPUSH on the dead-letter list, then the row update. */
  function DoBury(s: State, w: nat, redisOk: bool): State
    requires w < |s.workers| && s.workers[w].phase.Handling?
  {
    var j := s.workers[w].phase.job;
    var x := Buried(j);
    var s1 := SetPhase(Decide(s, j.id, Dead(x.attempts)), w,
                       Writing(j.id, |Journal(s, j.id)|, Update(Failed, x.attempts, None)));
    if redisOk then s1.(dlq := [x] + s.dlq) else Lose(s1, x)
  }

  /** A run failed and more are allowed: ZADD, then the row update. */
  function DoRetry(s: State, w: nat, redisOk: bool): State
    requires w < |s.workers| && s.workers[w].phase.Handling?
  {
    var j := s.workers[w].phase.job;
    var x := Retried(j, s.clock);
    var s1 := SetPhase(Decide(s, j.id, Queued(x.attempts)), w,
                       Writing(j.id, |Journal(s, j.id)|, Update(Pending, x.attempts, Some(x.nextRunAt))));
    if redisOk then ZAdd(s1, x) else Lose(s1, x)
  }

  predicate LastRun(j: Job) {
    j.attempts + 1 >= j.maxRetries
  }

  function DoFail(s: State, w: nat, redisOk: bool): State
    requires w < |s.workers| && s.workers[w].phase.Handling?
  {
    if LastRun(s.workers[w].phase.job) then DoBury(s, w, redisOk) else DoRetry(s, w, redisOk)
  }

  function DoWrite(s: State, w: nat, dbOk: bool): State
    requires w < |s.workers| && s.workers[w].phase.Writing?
  {
    var p := s.workers[w].phase;
    SetStatus(SetPhase(s, w, Idle), p.id, p.version, p.update, dbOk)
  }

  function DoDropHeld(s: State, w: nat): State
    requires w < |s.workers|
  {
    var p := s.workers[w].phase;
    var s1 := SetPhase(s, w, Idle);
    if p.Popped? || p.Handling? then Lose(s1, p.job) else s1
  }

  // ---- drainer steps (worker.go, drainDelayed) ----

  /** A reply to ZRANGEBYSCORE -inf now: the due members, each once, by ascending score. */
  predicate DueMembers(s: State, members: seq<Job>) {
    && (forall m | m in members :: m in s.delayed && s.delayed[m] <= Unix(s.clock))
    && (forall m | m in s.delayed :: s.delayed[m] <= Unix(s.clock) ==> m in members)
    && (forall i, k :: 0 <= i < k < |members| ==> members[i] != members[k])
    && (forall i, k :: 0 <= i < k < |members| ==> s.delayed[members[i]] <= s.delayed[members[k]])
  }

  /** ZREM of the next snapshot member; the code moves on when the reply is an error or 0. */
  function DoClaim(s: State, d: nat, redisOk: bool): State
    requires d < |s.drainers| && s.drainers[d].Draining? && |s.drainers[d].rest| > 0
  {
    var m, rest := s.drainers[d].rest[0], s.drainers[d].rest[1..];
    if redisOk && m in s.delayed then
      SetDrainer(s.(delayed := s.delayed - {m}), d, Claimed(m, rest))
    else SetDrainer(s, d, Draining(rest))
  }

  /** ZREM removes the member and its reply does not arrive: the scheduler walks on. */
  function DoClaimLost(s: State, d: nat): State
    requires d < |s.drainers| && s.drainers[d].Draining? && |s.drainers[d].rest| > 0
  {
    var m := s.drainers[d].rest[0];
    var s1 := SetDrainer(s, d, Draining(s.drainers[d].rest[1..]));
    if m in s.delayed then Lose(s1.(delayed := s.delayed - {m}), m) else s1
  }

  function DoRepush(s: State, d: nat, redisOk: bool): State
    requires d < |s.drainers| && s.drainers[d].Claimed?
  {
    var x := s.drainers[d];
    var s1 := SetDrainer(s, d, Draining(x.rest));
    if redisOk then PushReady(s1, x.job) else Lose(s1, x.job)
  }

  function DoCrashDrainer(s: State, d: nat): State
    requires d < |s.drainers|
  {
    var x := s.drainers[d];
    var s1 := SetDrainer(s, d, Draining([]));
    if x.Claimed? then Lose(s1, x.job) else s1
  }

  // ---- the machine ----

  predicate Enabled(s: State, e: Step) {
    match e
    case Tick(_) => true
    case Insert(tx, id, _, _) => tx < |s.txs| && !Pushing(s.txs[tx]) && id !in s.used
    case Push(tx, _) => tx < |s.txs| && Pushing(s.txs[tx])
    case Commit(tx) => tx < |s.txs| && s.txs[tx].Open? && !Pushing(s.txs[tx])
    case Rollback(tx) => tx < |s.txs|
    case Pop(w) => w < |s.workers| && s.workers[w].phase.Idle? && |Ready(s, s.workers[w].jobType)| > 0
    case PopLost(w) => w < |s.workers| && s.workers[w].phase.Idle? && |Ready(s, s.workers[w].jobType)| > 0
    case Discard(w) => w < |s.workers| && s.workers[w].phase.Popped? && s.workers[w].phase.job.jobType !in s.handlers
    case MarkRunning(w, _) => w < |s.workers| && s.workers[w].phase.Popped?
        && s.workers[w].phase.job.jobType in s.handlers
    case Succeed(w) => w < |s.workers| && s.workers[w].phase.Handling?
    case Fail(w, _) => w < |s.workers| && s.workers[w].phase.Handling?
    case Write(w, _) => w < |s.workers| && s.workers[w].phase.Writing?
    case CrashWorker(w) => w < |s.workers|
    case Snapshot(d, members) => d < |s.drainers| && s.drainers[d] == Draining([]) && DueMembers(s, members)
    case Claim(d, _) => d < |s.drainers| && s.drainers[d].Draining? && |s.drainers[d].rest| > 0
    case ClaimLost(d) => d < |s.drainers| && s.drainers[d].Draining? && |s.drainers[d].rest| > 0
    case Repush(d, _) => d < |s.drainers| && s.drainers[d].Claimed?
    case CrashDrainer(d) => d < |s.drainers|
  }

  function Apply(s: State, e: Step): State
    requires Enabled(s, e)
  {
    match e
    case Tick(delta) => s.(clock := s.clock + delta)
    case Insert(tx, id, t, payload) => DoInsert(s, tx, id, t, payload)
    case Push(tx, ok) => DoPush(s, tx, ok)
    case Commit(tx) => DoCommit(s, tx)
    case Rollback(tx) => s.(txs := s.txs[tx := NoTx])
    case Pop(w) => DoPop(s, w)
    case PopLost(w) => DoPopLost(s, w)
    case Discard(w) => DoDropHeld(s, w)
    case MarkRunning(w, ok) => DoMarkRunning(s, w, ok)
    case Succeed(w) => DoSucceed(s, w)
    case Fail(w, ok) => DoFail(s, w, ok)
    case Write(w, ok) => DoWrite(s, w, ok)
    case CrashWorker(w) => DoDropHeld(s, w)
    case Snapshot(d, members) => SetDrainer(s, d, Draining(members))
    case Claim(d, ok) => DoClaim(s, d, ok)
    case ClaimLost(d) => DoClaimLost(s, d)
    case Repush(d, ok) => DoRepush(s, d, ok)
    case CrashDrainer(d) => DoCrashDrainer(s, d)
  }

  /** A schedule may ask for a step that cannot be taken; nothing happens then. */
  function Next(s: State, e: Step): State {
    if Enabled(s, e) then Apply(s, e) else s
  }

  /** The state after a schedule. */
  function Exec(s: State, schedule: seq<Step>): State
    decreases |schedule|
  {
    if schedule == [] then s else Exec(Next(s, schedule[0]), schedule[1..])
  }

  lemma {:induction false} ExecSplit(s: State, a: seq<Step>, b: seq<Step>)
    ensures Exec(s, a + b) == Exec(Exec(s, a), b)
    decreases |a|
  {
    if a == [] {
      assert a + b == b;
    } else {
      assert (a + b)[0] == a[0] && (a + b)[1..] == a[1..] + b;
      ExecSplit(Next(s, a[0]), a[1..], b);
    }
  }

  // ---- what the steps leave alone ----

  predicate DrainerStep(e: Step) {
    e.Snapshot? || e.Claim? || e.ClaimLost? || e.Repush? || e.CrashDrainer?
  }

  predicate EnqueuerStep(e: Step) {
    e.Tick? || e.Insert? || e.Push? || e.Commit? || e.Rollback?
  }

  /** Steps of workers that run no handler to its end. */
  predicate TokenStep(e: Step) {
    e.Pop? || e.PopLost? || e.Discard? || e.CrashWorker?
  }

  predicate WorkerStep(e: Step) {
    !DrainerStep(e) && !EnqueuerStep(e)
  }

  /** Nothing but the worker's own phase, and what is not shown here. */
  predicate OnlyPhase(s: State, s': State, w: nat) {
    && s'.drainers == s.drainers && s'.handlers == s.handlers && s'.txs == s.txs
    && w < |s.workers| && |s'.workers| == |s.workers|
    && s'.workers == s.workers[w := Worker(s.workers[w].jobType, s'.workers[w].phase)]
  }

  lemma TokenFields(s: State, e: Step)
    requires Enabled(s, e) && TokenStep(e)
    ensures var s' := Apply(s, e);
      OnlyPhase(s, s', e.w) && s'.journal == s.journal && s'.delayed == s.delayed && s'.rows == s.rows
  {
    hide Ready;
    match e
    case Pop(_) =>
    case PopLost(_) =>
    case Discard(_) =>
    case CrashWorker(_) =>
  }

  lemma RunFields(s: State, e: Step)
    requires Enabled(s, e) && (e.MarkRunning? || e.Succeed? || e.Write?)
    ensures var s' := Apply(s, e);
      OnlyPhase(s, s', e.w) && s'.delayed == s.delayed && s'.lost == s.lost && (e.Write? ==> s'.journal == s.journal)
  {
    hide Updated, Journal;
    match e
    case MarkRunning(_, _) =>
    case Succeed(_) =>
    case Write(_, _) =>
  }

  lemma FailFields(s: State, w: nat, ok: bool)
    requires Enabled(s, Fail(w, ok))
    ensures var s' := DoFail(s, w, ok);
      OnlyPhase(s, s', w) && s.delayed.Keys <= s'.delayed.Keys && s'.rows == s.rows && (ok ==> s'.lost == s.lost)
  {
    hide Unix, Journal, Retried, Buried;
  }

  /** What an enqueuer or the clock leaves alone. */
  lemma EnqueuerFields(s: State, e: Step)
    requires Enabled(s, e) && EnqueuerStep(e)
    ensures var s' := Apply(s, e);
      && s'.drainers == s.drainers && s'.workers == s.workers && s'.handlers == s.handlers
      && s'.delayed == s.delayed && s'.lost == s.lost && (!e.Insert? ==> s'.journal == s.journal)
  {
    hide TxRows, NewJob, Ready;
    match e
    case Tick(_) =>
    case Insert(_, _, _, _) =>
    case Push(_, _) =>
    case Commit(_) =>
    case Rollback(_) =>
  }

  /** Scheduler e.d after its step. */
  function DrainerAfter(s: State, e: Step): Drainer
    requires Enabled(s, e) && DrainerStep(e)
  {
    var x := s.drainers[e.d];
    match e
    case Snapshot(_, members) => Draining(members)
    case Claim(_, ok) => if ok && x.rest[0] in s.delayed then Claimed(x.rest[0], x.rest[1..]) else Draining(x.rest[1..])
    case ClaimLost(_) => Draining(x.rest[1..])
    case Repush(_, _) => Draining(x.rest)
    case CrashDrainer(_) => Draining([])
  }

  predicate DrainerFrame(s: State, s': State) {
    s'.workers == s.workers && s'.handlers == s.handlers && s'.journal == s.journal && s'.rows == s.rows
        && s'.txs == s.txs
  }

  lemma ClaimFields(s: State, d: nat, ok: bool)
    requires Enabled(s, Claim(d, ok))
    ensures DoClaim(s, d, ok).drainers == s.drainers[d := DrainerAfter(s, Claim(d, ok))]
    ensures DrainerFrame(s, DoClaim(s, d, ok))
  {
  }

  lemma ClaimLostFields(s: State, d: nat)
    requires Enabled(s, ClaimLost(d))
    ensures DoClaimLost(s, d).drainers == s.drainers[d := Draining(s.drainers[d].rest[1..])]
    ensures DrainerFrame(s, DoClaimLost(s, d))
  {
  }

  lemma RepushFields(s: State, d: nat, ok: bool)
    requires Enabled(s, Repush(d, ok))
    ensures DoRepush(s, d, ok).drainers == s.drainers[d := Draining(s.drainers[d].rest)]
    ensures DrainerFrame(s, DoRepush(s, d, ok))
  {
    hide Ready;
  }

  /** What a scheduler's step does to the schedulers, and what it leaves alone. */
  lemma DrainerFields(s: State, e: Step)
    requires Enabled(s, e) && DrainerStep(e)
    ensures Apply(s, e).drainers == s.drainers[e.d := DrainerAfter(s, e)] && DrainerFrame(s, Apply(s, e))
  {
    hide DueMembers, DoClaim, DoClaimLost, DoRepush;
    match e
    case Snapshot(_, _) =>
    case Claim(d, ok) => ClaimFields(s, d, ok); hide DrainerAfter;
    case ClaimLost(d) => ClaimLostFields(s, d);
    case Repush(d, ok) => RepushFields(s, d, ok);
    case CrashDrainer(_) =>
  }

  lemma DrainerDelayed(s: State, e: Step)
    requires Enabled(s, e) && DrainerStep(e)
    ensures Apply(s, e).delayed ==
      if (e.Claim? && e.redisOk) || e.ClaimLost? then s.delayed - {s.drainers[e.d].rest[0]} else s.delayed
  {
    hide DueMembers, Ready;
    match e
    case Snapshot(_, _) =>
    case Claim(d, ok) =>
      var m := s.drainers[d].rest[0];
      assert m !in s.delayed ==> s.delayed - {m} == s.delayed;
    case ClaimLost(d) =>
      var m := s.drainers[d].rest[0];
      assert m !in s.delayed ==> s.delayed - {m} == s.delayed;
    case Repush(_, _) =>
    case CrashDrainer(_) =>
  }

  /** Only inserting a job and deciding on a run write to a journal. */
  lemma QuietSteps(s: State, e: Step)
    requires Enabled(s, e) && !e.Insert? && !e.MarkRunning? && !e.Succeed? && !e.Fail?
    ensures Apply(s, e).journal == s.journal
  {
    hide Apply, Enabled, OnlyPhase, DrainerAfter;
    if DrainerStep(e) {
      DrainerFields(s, e);
    } else if EnqueuerStep(e) {
      EnqueuerFields(s, e);
    } else if TokenStep(e) {
      TokenFields(s, e);
    } else {
      RunFields(s, e);
    }
  }

  /** The steps that drop a token: a failed ZADD, DLQ push or re-push, a BRPOP or ZREM whose reply
      is lost, a type nobody handles, and a crash of whoever holds it. */
  predicate Drops(s: State, e: Step) {
    match e
    case Fail(_, ok) => !ok
    case Repush(_, ok) => !ok
    case Discard(_) => true
    case PopLost(_) => true
    case ClaimLost(d) => d < |s.drainers| && s.drainers[d].rest != [] && s.drainers[d].rest[0] in s.delayed
    case CrashWorker(w) => w < |s.workers| && (s.workers[w].phase.Popped? || s.workers[w].phase.Handling?)
    case CrashDrainer(d) => d < |s.drainers| && s.drainers[d].Claimed?
    case _ => false
  }

  lemma KeptBySchedulers(s: State, e: Step)
    requires Enabled(s, e) && DrainerStep(e) && !Drops(s, e)
    ensures Apply(s, e).lost == s.lost
  {
    hide DueMembers, Ready;
    match e
    case Snapshot(_, _) =>
    case Claim(_, _) =>
    case ClaimLost(_) =>
    case Repush(_, _) =>
    case CrashDrainer(_) =>
  }

  lemma KeptByWorkers(s: State, e: Step)
    requires Enabled(s, e) && (e.Pop? || e.CrashWorker?) && !Drops(s, e)
    ensures Apply(s, e).lost == s.lost
  {
    hide Ready;
  }

  lemma OnlyDropsLose(s: State, e: Step)
    requires Enabled(s, e) && !Drops(s, e)
    ensures Apply(s, e).lost == s.lost
  {
    if DrainerStep(e) {
      KeptBySchedulers(s, e);
    } else if EnqueuerStep(e) {
      EnqueuerFields(s, e);
    } else if e.Pop? || e.CrashWorker? {
      KeptByWorkers(s, e);
    } else if e.Fail? {
      FailFields(s, e.w, e.redisOk);
    } else {
      RunFields(s, e);
    }
    hide DoFail, OnlyPhase, DrainerAfter, DoPush, DoInsert, DoCommit, DoPop, DoMarkRunning, DoSucceed, DoWrite,
        DoDropHeld, DoClaim, DoClaimLost, DoRepush, DoCrashDrainer, SetDrainer;
  }
}
