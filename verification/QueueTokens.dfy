/** What a token carries and how long it waits: the job that was enqueued stays that job in every run,
    and every failure delays it as it should. */
module QueueTokens {
  import opened Jobs
  import opened QueueMachine
  import opened QueueInvariant
  import opened QueueTheorems

  // ---- where tokens come from ----

  ghost predicate Token(s: State, j: Job) {
    exists p :: Holds(s, p, j)
  }

  /** Token j of the next state was there before, or was pushed, or a failure made it. */
  ghost predicate Descends(s: State, e: Step, j: Job)
    requires Enabled(s, e)
  {
    || Token(s, j)
    || (e.Push? && j == s.txs[e.tx].toPush.value)
    || (e.Fail? && j == (if LastRun(s.workers[e.w].phase.job) then Buried(s.workers[e.w].phase.job)
                         else Retried(s.workers[e.w].phase.job, s.clock)))
  }

  lemma FromEnqueuer(s: State, e: Step, p: Place, j: Job)
    requires Enabled(s, e) && EnqueuerStep(e) && Holds(Apply(s, e), p, j)
    ensures Descends(s, e, j)
  {
    assert Holds(s, p, j) || (e.Push? && j == s.txs[e.tx].toPush.value);
  }

  lemma FromHands(s: State, e: Step, p: Place, j: Job)
    requires Enabled(s, e) && TokenStep(e) && Holds(Apply(s, e), p, j)
    ensures Token(s, j)
  {
    if !Holds(s, p, j) {
      var w := e.w;
      var q := Ready(s, s.workers[w].jobType);
      match e
      case Pop(_) => assert Holds(s, InReady(s.workers[w].jobType), q[|q| - 1]) && j == q[|q| - 1];
      case PopLost(_) => assert Holds(s, InReady(s.workers[w].jobType), q[|q| - 1]) && j == q[|q| - 1];
      case Discard(_) => assert Holds(s, InHand(w), s.workers[w].phase.job);
      case CrashWorker(_) =>
        assert Holds(s, if s.workers[w].phase.Popped? then InHand(w) else InHandler(w), s.workers[w].phase.job);
    }
  }

  lemma FromRun(s: State, e: Step, p: Place, j: Job)
    requires Enabled(s, e) && (e.MarkRunning? || e.Succeed? || e.Write?) && Holds(Apply(s, e), p, j)
    ensures Token(s, j)
  {
    hide Updated, Journal;
    if !Holds(s, p, j) {
      var w := e.w;
      match e
      case MarkRunning(_, _) => assert Holds(s, InHand(w), s.workers[w].phase.job);
      case Succeed(_) => assert Holds(s, InHandler(w), s.workers[w].phase.job);
      case Write(_, _) =>
    }
  }

  lemma FromBurying(s: State, w: nat, ok: bool, p: Place, j: Job)
    requires w < |s.workers| && s.workers[w].phase.Handling? && Holds(DoBury(s, w, ok), p, j)
    ensures Holds(s, p, j) || j == Buried(s.workers[w].phase.job)
  {
    hide Journal, Buried;
  }

  lemma FromRetrying(s: State, w: nat, ok: bool, p: Place, j: Job)
    requires w < |s.workers| && s.workers[w].phase.Handling? && Holds(DoRetry(s, w, ok), p, j)
    ensures Holds(s, p, j) || j == Retried(s.workers[w].phase.job, s.clock)
  {
    hide Journal, Retried, Unix;
  }

  lemma FromClaim(s: State, d: nat, ok: bool, p: Place, j: Job)
    requires Enabled(s, Claim(d, ok)) && Holds(DoClaim(s, d, ok), p, j)
    ensures Token(s, j)
  {
    assert Holds(s, p, j) || (Holds(s, InDelayed, j) && j == s.drainers[d].rest[0]);
  }

  lemma FromLostClaim(s: State, d: nat, p: Place, j: Job)
    requires Enabled(s, ClaimLost(d)) && Holds(DoClaimLost(s, d), p, j)
    ensures Token(s, j)
  {
    assert Holds(s, p, j) || (Holds(s, InDelayed, j) && j == s.drainers[d].rest[0]);
  }

  lemma FromRepush(s: State, d: nat, ok: bool, p: Place, j: Job)
    requires Enabled(s, Repush(d, ok)) && Holds(DoRepush(s, d, ok), p, j)
    ensures Token(s, j)
  {
    assert Holds(s, p, j) || (Holds(s, InDrainer(d), j) && j == s.drainers[d].job);
  }

  lemma FromSnapshotOrCrash(s: State, e: Step, p: Place, j: Job)
    requires Enabled(s, e) && (e.Snapshot? || e.CrashDrainer?) && Holds(Apply(s, e), p, j)
    ensures Token(s, j)
  {
    hide DueMembers;
    assert Apply(s, e).ready == s.ready;
    assert Holds(s, p, j) || (Holds(s, InDrainer(e.d), j) && j == s.drainers[e.d].job);
  }

  lemma FromScheduler(s: State, e: Step, p: Place, j: Job)
    requires Enabled(s, e) && DrainerStep(e) && Holds(Apply(s, e), p, j)
    ensures Token(s, j)
  {
    hide DueMembers, DoClaim, DoClaimLost, DoRepush, DoCrashDrainer, SetDrainer, Holds, Token, Enabled;
    match e
    case Snapshot(_, _) => FromSnapshotOrCrash(s, e, p, j);
    case Claim(d, ok) => FromClaim(s, d, ok, p, j);
    case ClaimLost(d) => FromLostClaim(s, d, p, j);
    case Repush(d, ok) => FromRepush(s, d, ok, p, j);
    case CrashDrainer(_) => FromSnapshotOrCrash(s, e, p, j);
  }

  lemma FromFailure(s: State, w: nat, ok: bool, p: Place, j: Job)
    requires Enabled(s, Fail(w, ok)) && Holds(Apply(s, Fail(w, ok)), p, j)
    ensures Descends(s, Fail(w, ok), j)
  {
    hide DoBury, DoRetry, Buried, Retried, Holds;
    if LastRun(s.workers[w].phase.job) {
      FromBurying(s, w, ok, p, j);
    } else {
      FromRetrying(s, w, ok, p, j);
    }
    assert Holds(s, p, j) ==> Token(s, j);
  }

  lemma EveryTokenDescends(s: State, e: Step, p: Place, j: Job)
    requires Enabled(s, e) && Holds(Apply(s, e), p, j)
    ensures Descends(s, e, j)
  {
    hide Token, Holds, Apply, Enabled, Buried, Retried;
    if DrainerStep(e) {
      FromScheduler(s, e, p, j);
    } else if EnqueuerStep(e) {
      FromEnqueuer(s, e, p, j);
    } else if TokenStep(e) {
      FromHands(s, e, p, j);
    } else if e.Fail? {
      FromFailure(s, e.w, e.redisOk, p, j);
    } else {
      FromRun(s, e, p, j);
    }
  }

  // ---- the job stays the job ----

  /** If this is the job called id, its type, payload, time of creation and limit are these. */
  predicate Bears(j: Job, id: JobId, t: JobType, payload: int, at: int) {
    j.id == id ==> j.jobType == t && j.payload == payload && j.createdAt == at && j.maxRetries == MAX_RETRIES
  }

  predicate TxBears(x: Tx, id: JobId, t: JobType, payload: int, at: int) {
    && (forall k | k in TxRows(x) :: Bears(TxRows(x)[k], id, t, payload, at))
    && (Pushing(x) ==> Bears(x.toPush.value, id, t, payload, at))
  }

  ghost predicate TokensBear(s: State, id: JobId, t: JobType, payload: int, at: int) {
    forall p, j :: Holds(s, p, j) ==> Bears(j, id, t, payload, at)
  }

  predicate RowsBear(s: State, id: JobId, t: JobType, payload: int, at: int) {
    && (forall k | k in s.rows :: Bears(s.rows[k].job, id, t, payload, at))
    && (forall x | x in s.txs :: TxBears(x, id, t, payload, at))
  }

  lemma TokensBearNext(s: State, e: Step, id: JobId, t: JobType, payload: int, at: int)
    requires TokensBear(s, id, t, payload, at) && RowsBear(s, id, t, payload, at)
    ensures TokensBear(Next(s, e), id, t, payload, at)
  {
    hide Apply;
    if Enabled(s, e) {
      forall p, j | Holds(Apply(s, e), p, j) ensures Bears(j, id, t, payload, at) {
        EveryTokenDescends(s, e, p, j);
        if e.Fail? {
          assert Holds(s, InHandler(e.w), s.workers[e.w].phase.job);
        } else if e.Push? {
          assert s.txs[e.tx] in s.txs;
        }
      }
    }
  }

  lemma UpdatedBears(s: State, s': State, id: JobId, t: JobType, payload: int, at: int)
    requires RowsBear(s, id, t, payload, at) && s'.txs == s.txs && s'.rows.Keys == s.rows.Keys
    requires forall k | k in s.rows :: SameJob(s'.rows[k].job, s.rows[k].job)
    ensures RowsBear(s', id, t, payload, at)
  {
    hide TxBears;
  }

  lemma RowsKeepJobs(s: State, e: Step)
    requires Enabled(s, e) && WorkerStep(e)
    ensures var s' := Apply(s, e);
      && s'.txs == s.txs && s'.rows.Keys == s.rows.Keys
      && forall k | k in s.rows :: SameJob(s'.rows[k].job, s.rows[k].job)
  {
    WorkerFields(s, e);
    if TokenStep(e) {
      TokenFields(s, e);
      hide Apply;
    } else if e.Fail? {
      FailFields(s, e.w, e.redisOk);
      assert Apply(s, e) == DoFail(s, e.w, e.redisOk);
      hide DoFail, Apply;
    } else {
      hide OnlyPhase, Journal;
    }
  }

  lemma PushedTxBears(x: Tx, id: JobId, t: JobType, payload: int, at: int)
    requires TxBears(x, id, t, payload, at) && x.Open?
    ensures TxBears(x.(toPush := None), id, t, payload, at)
  {
    assert TxRows(x.(toPush := None)) == TxRows(x);
  }

  lemma InsertedTxBears(x: Tx, j: Job, id: JobId, t: JobType, payload: int, at: int)
    requires TxBears(x, id, t, payload, at) && Bears(j, id, t, payload, at)
    ensures TxBears(Open(TxRows(x)[j.id := j], Some(j)), id, t, payload, at)
  {
    var x' := Open(TxRows(x)[j.id := j], Some(j));
    assert TxRows(x') == TxRows(x)[j.id := j];
  }

  lemma CommitBears(s: State, tx: nat, id: JobId, t: JobType, payload: int, at: int)
    requires RowsBear(s, id, t, payload, at) && Enabled(s, Commit(tx))
    ensures RowsBear(DoCommit(s, tx), id, t, payload, at)
  {
    var s', mine := DoCommit(s, tx), s.txs[tx].rows;
    assert TxBears(s.txs[tx], id, t, payload, at) && TxRows(s.txs[tx]) == mine;
    forall k | k in s'.rows ensures Bears(s'.rows[k].job, id, t, payload, at) {
      assert k in mine ==> s'.rows[k].job == mine[k];
    }
    assert TxBears(NoTx, id, t, payload, at);
    hide TxBears, Bears;
    assert forall x | x in s'.txs :: x in s.txs || x == NoTx;
  }

  lemma EnqueuedBears(s: State, e: Step, id: JobId, t: JobType, payload: int, at: int)
    requires RowsBear(s, id, t, payload, at) && Enabled(s, e) && EnqueuerStep(e)
    requires e.Insert? ==> Bears(NewJob(e.id, e.jobType, e.payload, s.clock), id, t, payload, at)
    ensures RowsBear(Apply(s, e), id, t, payload, at)
  {
    hide Ready, TxBears, Bears, TxRows, DoCommit;
    var s' := Apply(s, e);
    match e
    case Tick(_) =>
    case Insert(tx, k, _, _) =>
      assert s.txs[tx] in s.txs;
      InsertedTxBears(s.txs[tx], NewJob(k, e.jobType, e.payload, s.clock), id, t, payload, at);
      assert forall x | x in s'.txs :: x in s.txs || x == s'.txs[tx];
    case Push(tx, _) =>
      assert s.txs[tx] in s.txs;
      PushedTxBears(s.txs[tx], id, t, payload, at);
      assert forall x | x in s'.txs :: x in s.txs || x == s'.txs[tx];
    case Commit(tx) => CommitBears(s, tx, id, t, payload, at); hide RowsBear;
    case Rollback(tx) =>
      assert TxBears(NoTx, id, t, payload, at) by { EmptyTxBears(id, t, payload, at); }
      assert forall x | x in s'.txs :: x in s.txs || x == NoTx;
  }

  lemma EmptyTxBears(id: JobId, t: JobType, payload: int, at: int)
    ensures TxBears(NoTx, id, t, payload, at)
  {
  }

  lemma RowsBearNext(s: State, e: Step, id: JobId, t: JobType, payload: int, at: int)
    requires RowsBear(s, id, t, payload, at) && id in s.used
    ensures RowsBear(Next(s, e), id, t, payload, at)
  {
    hide Apply, RowsBear;
    if Enabled(s, e) {
      assert e.Insert? ==> Bears(NewJob(e.id, e.jobType, e.payload, s.clock), id, t, payload, at);
      if DrainerStep(e) {
        DrainerFields(s, e);
        UpdatedBears(s, Apply(s, e), id, t, payload, at);
      } else if EnqueuerStep(e) {
        EnqueuedBears(s, e, id, t, payload, at);
      } else {
        RowsKeepJobs(s, e);
        UpdatedBears(s, Apply(s, e), id, t, payload, at);
      }
    }
  }

  lemma UsedStays(s: State, e: Step)
    ensures s.used <= Next(s, e).used
  {
    if Enabled(s, e) {
      hide Enabled, Ready, Updated, Journal, Unix, Retried, Buried, DueMembers, TxRows, NewJob;
      match e
      case Tick(_) =>
      case Insert(_, _, _, _) =>
      case Push(_, _) =>
      case Commit(_) =>
      case Rollback(_) =>
      case Pop(_) =>
      case PopLost(_) =>
      case Discard(_) =>
      case MarkRunning(_, _) =>
      case Succeed(_) =>
      case Fail(_, _) =>
      case Write(_, _) =>
      case CrashWorker(_) =>
      case Snapshot(_, _) =>
      case Claim(_, _) =>
      case ClaimLost(_) =>
      case Repush(_, _) =>
      case CrashDrainer(_) =>
    }
  }

  lemma {:induction false} BearsExec(s: State, schedule: seq<Step>, id: JobId, t: JobType, payload: int, at: int)
    requires TokensBear(s, id, t, payload, at) && RowsBear(s, id, t, payload, at) && id in s.used
    ensures TokensBear(Exec(s, schedule), id, t, payload, at) && RowsBear(Exec(s, schedule), id, t, payload, at)
    decreases |schedule|
  {
    if schedule != [] {
      TokensBearNext(s, schedule[0], id, t, payload, at);
      RowsBearNext(s, schedule[0], id, t, payload, at);
      UsedStays(s, schedule[0]);
      hide Next, TokensBear, RowsBear;
      BearsExec(Next(s, schedule[0]), schedule[1..], id, t, payload, at);
    }
  }

  /** Nothing at all is known of an id that is not used. */
  lemma UnusedBears(s: State, id: JobId, t: JobType, payload: int, at: int)
    requires Reachable(s) && id !in s.used
    ensures TokensBear(s, id, t, payload, at) && RowsBear(s, id, t, payload, at)
  {
    var loc := Locate(s);
    assert id !in loc && id !in s.journal;
    hide Reachable;
    forall x | x in s.txs ensures TxBears(x, id, t, payload, at) {
      var i :| 0 <= i < |s.txs| && s.txs[i] == x;
      assert TxOk(s.journal, Tokens(loc), s.clock, s.txs[i]);
    }
    forall k | k in s.rows ensures Bears(s.rows[k].job, id, t, payload, at) {
      assert RowOk(s.journal, Tokens(loc), k, s.rows[k]);
    }
    forall p, j | Holds(s, p, j) ensures Bears(j, id, t, payload, at) {
      assert j.id in loc;
    }
    hide Inv, Holds, TxBears, Bears;
  }

  lemma FreshBears(s: State, tx: nat, id: JobId, t: JobType, payload: int)
    requires Reachable(s) && Enabled(s, Insert(tx, id, t, payload))
    ensures var s' := Next(s, Insert(tx, id, t, payload));
      TokensBear(s', id, t, payload, s.clock) && RowsBear(s', id, t, payload, s.clock) && id in s'.used
  {
    UnusedBears(s, id, t, payload, s.clock);
    assert Bears(NewJob(id, t, payload, s.clock), id, t, payload, s.clock);
    hide Reachable, Bears, RowsBear, TxBears;
    EnqueuedBears(s, Insert(tx, id, t, payload), id, t, payload, s.clock);
    TokensBearNext(s, Insert(tx, id, t, payload), id, t, payload, s.clock);
    hide TokensBear, NewJob;
  }

  /** Whatever happens to a job after it was inserted, its token, wherever it is, and its row are those
      of the job that was enqueued: its type, payload and time of creation, with five runs. */
  lemma EnqueuedJobIsKept(s: State, tx: nat, id: JobId, t: JobType, payload: int, schedule: seq<Step>)
    requires Reachable(s) && Enabled(s, Insert(tx, id, t, payload))
    ensures var s' := Exec(Next(s, Insert(tx, id, t, payload)), schedule);
      && (forall p, j :: Holds(s', p, j) && j.id == id ==>
            j.jobType == t && j.payload == payload && j.createdAt == s.clock && j.maxRetries == 5)
      && (id in s'.rows ==>
            var j := s'.rows[id].job;
            j.id == id && j.jobType == t && j.payload == payload && j.createdAt == s.clock && j.maxRetries == 5)
  {
    FreshBears(s, tx, id, t, payload);
    var s1 := Next(s, Insert(tx, id, t, payload));
    BearsExec(s1, schedule, id, t, payload, s.clock);
    ReachNext(s, Insert(tx, id, t, payload));
    var loc := Locate(s1);
    var loc' := KeepExec(s1, loc, schedule);
    var s' := Exec(s1, schedule);
    if id in s'.rows {
      assert RowOk(s'.journal, Tokens(loc'), id, s'.rows[id]);
    }
    hide Inv, Next, Exec, Reachable, Holds;
  }

  lemma CommittedAlone(s: State, tx: nat, id: JobId, j: Job)
    requires tx < |s.txs| && s.txs[tx] == Open(map[id := j], None)
    ensures var s' := Next(s, Commit(tx)); s'.ready == s.ready && s'.rows == s.rows[id := Row(j, 0)]
  {
    assert Next(s, Commit(tx)) == DoCommit(s, tx);
  }

  /** An enqueued job as it first lies on its list and in its row: pending, never run, due at once. */
  lemma EnqueuedJobIsNew(s: State, tx: nat, id: JobId, t: JobType, payload: int)
    requires Enabled(s, Insert(tx, id, t, payload)) && s.txs[tx] == NoTx
    ensures var j := Job(id, t, payload, Pending, 0, 5, s.clock, s.clock);
      var s2 := Next(Next(s, Insert(tx, id, t, payload)), Push(tx, true)); var s3 := Next(s2, Commit(tx));
      && Ready(s2, t) == [j] + Ready(s, t) && Ready(s3, t) == Ready(s2, t)
      && s2.rows == s.rows && s3.rows == s.rows[id := Row(j, 0)]
  {
    var j := Job(id, t, payload, Pending, 0, 5, s.clock, s.clock);
    var s1 := DoInsert(s, tx, id, t, payload);
    assert Next(s, Insert(tx, id, t, payload)) == s1 && s1.txs[tx] == Open(map[id := j], Some(j));
    var s2 := DoPush(s1, tx, true);
    assert Next(s1, Push(tx, true)) == s2 && s2.txs[tx] == Open(map[id := j], None);
    assert Ready(s2, t) == [j] + Ready(s, t) && s2.rows == s.rows;
    hide Next, DoPush, DoInsert;
    CommittedAlone(s2, tx, id, j);
  }

  // ---- what a failure does ----

  lemma BuryingIsDead(s: State, w: nat)
    requires w < |s.workers| && s.workers[w].phase.Handling?
    ensures var j, s' := s.workers[w].phase.job, DoBury(s, w, true); var m := Buried(j);
      && DeadLetter(j, m) && s'.dlq == [m] + s.dlq && s'.delayed == s.delayed
      && |s'.workers| == |s.workers| && s'.workers[w].phase.Writing? && s'.workers[w].phase.id == j.id
      && s'.workers[w].phase.update == Update(Failed, m.attempts, None)
  {
    hide Journal;
  }

  lemma RetryingIsRequeued(s: State, w: nat)
    requires w < |s.workers| && s.workers[w].phase.Handling?
    ensures var j, s' := s.workers[w].phase.job, DoRetry(s, w, true); var m := Retried(j, s.clock);
      && Requeued(j, m, s.clock) && s'.delayed == s.delayed[m := Unix(m.nextRunAt)] && s'.dlq == s.dlq
      && |s'.workers| == |s.workers| && s'.workers[w].phase.Writing? && s'.workers[w].phase.id == j.id
      && s'.workers[w].phase.update == Update(Pending, m.attempts, Some(m.nextRunAt))
  {
    BackoffShape(s.workers[w].phase.job.attempts + 1);
    hide Journal, BackoffSec, Pow2, Unix;
  }

  /** A failed run that is not the last puts exactly one token into the delayed set: the same job,
      pending, with one more attempt, and due after the delay for that attempt, which the update of
      the row is to write as well. After the last run the job goes to the head of the dead-letter list
      instead, failed, with its times untouched. */
  lemma FailureDelays(s: State, w: nat)
    requires Reachable(s) && Enabled(s, Fail(w, true))
    ensures var j, s' := s.workers[w].phase.job, Next(s, Fail(w, true));
      && |s'.workers| == |s.workers| && s'.workers[w].phase.Writing? && s'.workers[w].phase.id == j.id
      && (j.attempts + 1 < j.maxRetries ==>
            exists m: Job :: (
              && Requeued(j, m, s.clock) && m !in s.delayed && s'.delayed == s.delayed[m := Unix(m.nextRunAt)]
              && s'.workers[w].phase.update == Update(Pending, m.attempts, Some(m.nextRunAt)) && s'.dlq == s.dlq))
      && (j.attempts + 1 >= j.maxRetries ==>
            exists m: Job :: (
              && DeadLetter(j, m) && s'.dlq == [m] + s.dlq && s'.delayed == s.delayed
              && s'.workers[w].phase.update == Update(Failed, m.attempts, None)))
  {
    var j, s' := s.workers[w].phase.job, Next(s, Fail(w, true));
    var loc := Locate(s);
    assert Holds(s, InHandler(w), j);
    var m := Retried(j, s.clock);
    assert m in s.delayed ==> Holds(s, InDelayed, m);
    hide Inv, Reachable, Holds;
    assert s' == DoFail(s, w, true);
    if LastRun(j) {
      BuryingIsDead(s, w);
    } else {
      RetryingIsRequeued(s, w);
    }
    hide DoBury, DoRetry, Requeued, DeadLetter, Next, Retried;
  }

  // ---- how long a job has waited ----

  /** The delays a token has been given: all failures count, but a last one delays nothing. */
  function Delays(j: Job): nat {
    if j.attempts < MAX_RETRIES then j.attempts else MAX_RETRIES - 1
  }

  predicate Timely(j: Job, clock: int) {
    var k := Delays(j);
    && j.createdAt <= clock
    && (k == 0 ==> j.nextRunAt == j.createdAt)
    && (k >= 1 ==> j.nextRunAt >= j.createdAt + (TotalBackoff(k) - (k - 1)) * SECOND)
  }

  ghost predicate TokensTimely(s: State) {
    forall p, j :: Holds(s, p, j) ==> Timely(j, s.clock)
  }

  predicate PushesTimely(s: State) {
    forall x | x in s.txs && Pushing(x) :: x.toPush.value.attempts == 0 && Timely(x.toPush.value, s.clock)
  }

  /** The scores are whole seconds, so a run can start up to a second early; each delay counts from
      there. */
  lemma RetriedTimely(j: Job, clock: int)
    requires Timely(j, clock) && j.attempts + 1 < MAX_RETRIES && j.nextRunAt < clock + SECOND
    ensures Timely(Retried(j, clock), clock)
  {
    var k := j.attempts;
    assert TotalBackoff(k + 1) == TotalBackoff(k) + BackoffSec(k + 1);
    hide BackoffSec;
  }

  lemma SameClock(s: State, e: Step)
    requires Enabled(s, e) && !EnqueuerStep(e)
    ensures Apply(s, e).clock == s.clock
  {
    hide Enabled, Ready, Updated, Journal, Unix, Retried, Buried, DueMembers;
    match e
    case Pop(_) =>
    case PopLost(_) =>
    case Discard(_) =>
    case MarkRunning(_, _) =>
    case Succeed(_) =>
    case Fail(_, _) =>
    case Write(_, _) =>
    case CrashWorker(_) =>
    case Snapshot(_, _) =>
    case Claim(_, _) =>
    case ClaimLost(_) =>
    case Repush(_, _) =>
    case CrashDrainer(_) =>
  }

  lemma EnqueueTimely(s: State, e: Step)
    requires PushesTimely(s) && Enabled(s, e) && EnqueuerStep(e)
    ensures PushesTimely(Apply(s, e)) && s.clock <= Apply(s, e).clock
  {
    hide Ready, TxRows;
    match e
    case Tick(_) =>
    case Insert(tx, _, _, _) =>
      var s' := Apply(s, e);
      assert forall x | x in s'.txs :: x in s.txs || x == s'.txs[tx];
    case Push(tx, _) =>
      var s' := Apply(s, e);
      assert forall x | x in s'.txs :: x in s.txs || x == s'.txs[tx];
    case Commit(tx) =>
      var s' := Apply(s, e);
      assert forall x | x in s'.txs :: x in s.txs || x == NoTx;
    case Rollback(tx) =>
      var s' := Apply(s, e);
      assert forall x | x in s'.txs :: x in s.txs || x == NoTx;
  }

  lemma PushesTimelyNext(s: State, e: Step)
    requires PushesTimely(s)
    ensures PushesTimely(Next(s, e)) && s.clock <= Next(s, e).clock
  {
    hide Apply, Timely;
    if Enabled(s, e) {
      if EnqueuerStep(e) {
        EnqueueTimely(s, e);
      } else {
        SameClock(s, e);
        if DrainerStep(e) {
          DrainerFields(s, e);
        } else {
          RowsKeepJobs(s, e);
        }
      }
    }
  }

  lemma TokensTimelyNext(s: State, loc: Locations, e: Step)
    requires Inv(s, loc) && TokensTimely(s) && PushesTimely(s)
    ensures TokensTimely(Next(s, e))
  {
    PushesTimelyNext(s, e);
    if Enabled(s, e) {
      if e.Fail? {
        FailureTimely(s, loc, e.w, e.redisOk);
      }
      hide Apply, Inv;
      forall p, j | Holds(Apply(s, e), p, j) ensures Timely(j, Apply(s, e).clock) {
        EveryTokenDescends(s, e, p, j);
        if e.Push? {
          assert s.txs[e.tx] in s.txs;
        }
        hide Holds, Buried, Retried, TotalBackoff;
      }
    }
  }

  lemma FailureTimely(s: State, loc: Locations, w: nat, ok: bool)
    requires Inv(s, loc) && TokensTimely(s) && Enabled(s, Fail(w, ok))
    ensures var j := s.workers[w].phase.job;
      Timely(if LastRun(j) then Buried(j) else Retried(j, s.clock), s.clock)
  {
    var j := s.workers[w].phase.job;
    assert Holds(s, InHandler(w), j);
    SpotFacts(s, loc, j.id);
    assert j.maxRetries == MAX_RETRIES && j.attempts < MAX_RETRIES && j.nextRunAt < s.clock + SECOND;
    hide Inv, TotalBackoff, BackoffSec;
    if !LastRun(j) {
      RetriedTimely(j, s.clock);
    }
  }

  lemma {:induction false} TimelyExec(s: State, loc: Locations, schedule: seq<Step>)
    requires Inv(s, loc) && TokensTimely(s) && PushesTimely(s)
    ensures TokensTimely(Exec(s, schedule))
    decreases |schedule|
  {
    if schedule != [] {
      TokensTimelyNext(s, loc, schedule[0]);
      PushesTimelyNext(s, schedule[0]);
      var loc1 := KeepNext(s, loc, schedule[0]);
      hide Inv, Next, TokensTimely, PushesTimely;
      TimelyExec(Next(s, schedule[0]), loc1, schedule[1..]);
    }
  }

  lemma EveryTokenIsTimely(s: State, p: Place, j: Job)
    requires Reachable(s) && Holds(s, p, j)
    ensures Timely(j, s.clock)
  {
    var start, schedule :| Starts(start) && s == Exec(start, schedule);
    var types, drainers, txs, handlers, clock :| start == Init(types, drainers, txs, handlers, clock);
    InitInv(types, drainers, txs, handlers, clock);
    assert forall q, k :: !Holds(start, q, k);
    hide Inv, Reachable, Timely, Exec;
    TimelyExec(start, map[], schedule);
  }

  /** In every run a token whose job has failed k times is due no earlier than all its delays together,
      less a second for each but the last; and a handler that runs it again runs it no earlier than
      that, less one second more. A dead-lettered job has been given all of 57 seconds. */
  lemma RetriesWait(s: State, p: Place, j: Job)
    requires Reachable(s) && Holds(s, p, j)
    ensures 1 <= j.attempts < 5 ==>
      j.nextRunAt >= j.createdAt + (TotalBackoff(j.attempts) - (j.attempts - 1)) * SECOND
    ensures p.InHandler? && j.attempts >= 1 ==>
      s.clock > j.createdAt + (TotalBackoff(j.attempts) - j.attempts) * SECOND
    ensures p.InDLQ? ==> j.nextRunAt >= j.createdAt + 57 * SECOND
  {
    EveryTokenIsTimely(s, p, j);
    ScheduleOfFiveRuns();
    var loc := Locate(s);
    SpotFacts(s, loc, j.id);
    assert loc[j.id] == Spot(p, j);
    hide Inv, Reachable, TotalBackoff;
  }
}
