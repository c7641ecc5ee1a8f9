/** When the Postgres row and the Redis token of a job tell the same story. */
module QueueAgreement {
  import opened Jobs
  import opened QueueMachine
  import opened QueueInvariant
  import opened QueueTheorems

  /** The last update applied to the row is the last one decided for the job. */
  predicate InStep(s: State, id: JobId) {
    id in s.rows && id in s.journal && s.rows[id].version + 1 == |s.journal[id]|
  }

  lemma Entries(log: seq<Mark>, i: nat)
    requires WellFormed(log) && i < |log|
    ensures log[i] == Expected(i) || (i == |log| - 1 && Final(log[i], i))
  {
  }

  /** Two entries of one journal write the same status and attempts only if both start a run. */
  lemma ContentTellsEntries(log: seq<Mark>, i: nat, k: nat)
    requires WellFormed(log) && i < |log| && k < |log|
    requires Content(log[i]) == Content(log[k]) && !log[k].Started?
    ensures i == k
  {
    Entries(log, i);
    Entries(log, k);
  }

  lemma RowFacts(s: State, loc: Locations, id: JobId)
    requires Inv(s, loc) && id in s.rows
    ensures RowOk(s.journal, Tokens(loc), id, s.rows[id])
    ensures WellFormed(s.journal[id])
  {
  }

  /** A job on its way to a run: its row is the token itself, or the row is out of step. */
  lemma PendingAgreement(s: State, p: Place, j: Job)
    requires Reachable(s) && Holds(s, p, j) && j.id in s.rows
    requires p.InReady? || p.InDelayed? || p.InDrainer? || p.InHand?
    ensures s.rows[j.id].job == j <==> InStep(s, j.id)
  {
    var loc := Locate(s);
    SpotFacts(s, loc, j.id);
    RowFacts(s, loc, j.id);
    var r, log := s.rows[j.id], s.journal[j.id];
    assert Tokens(loc)[j.id] == j;
    if r.job == j {
      ContentTellsEntries(log, r.version, |log| - 1);
    }
  }

  /** A settled job: the row shows the outcome and the attempts exactly when it is in step. */
  lemma SettledAgreement(s: State, p: Place, j: Job)
    requires Reachable(s) && Holds(s, p, j) && j.id in s.rows && (p.InDone? || p.InDLQ?)
    ensures (s.rows[j.id].job.status == (if p.InDone? then Completed else Failed)
        && s.rows[j.id].job.attempts == j.attempts)
      <==> InStep(s, j.id)
  {
    var loc := Locate(s);
    SpotFacts(s, loc, j.id);
    RowFacts(s, loc, j.id);
    var r, log := s.rows[j.id], s.journal[j.id];
    if r.job.status == (if p.InDone? then Completed else Failed) && r.job.attempts == j.attempts {
      ContentTellsEntries(log, r.version, |log| - 1);
    }
  }

  /** For a row in step, the status column tells where the token is, and a running row has
      attempts 0 whatever the token carries. */
  lemma StatusTellsPlace(s: State, p: Place, j: Job)
    requires Reachable(s) && Holds(s, p, j) && InStep(s, j.id) && !p.InLost?
    ensures var r := s.rows[j.id].job;
      && (r.status == Pending <==> p.InReady? || p.InDelayed? || p.InDrainer? || p.InHand?)
      && (r.status == Running <==> p.InHandler?)
      && (r.status == Completed <==> p.InDone?)
      && (r.status == Failed <==> p.InDLQ?)
      && r.attempts == if p.InHandler? then 0 else j.attempts
  {
    var loc := Locate(s);
    SpotFacts(s, loc, j.id);
    RowFacts(s, loc, j.id);
  }

  // ---- schedules that keep every row in step ----

  predicate Writer(x: Worker, id: JobId) {
    x.phase.Writing? && x.phase.id == id
  }

  predicate Holder(x: Worker) {
    x.phase.Popped? || x.phase.Handling?
  }

  predicate NoWriter(workers: seq<Worker>, id: JobId) {
    forall w | 0 <= w < |workers| :: !Writer(workers[w], id)
  }

  /** A discipline that suffices and looks at no history: a run is marked only when its row is
      committed and no earlier outcome of the job is still to be written, row updates succeed, and
      nobody crashes with an update in hand. */
  predicate Orderly(s: State, e: Step) {
    match e
    case MarkRunning(w, dbOk) => Enabled(s, e) ==>
      dbOk && s.workers[w].phase.job.id in s.rows && NoWriter(s.workers, s.workers[w].phase.job.id)
    case Write(_, dbOk) => dbOk
    case CrashWorker(w) => w < |s.workers| ==> !s.workers[w].phase.Writing?
    case _ => true
  }

  predicate OrderlySchedule(s: State, schedule: seq<Step>)
    decreases |schedule|
  {
    schedule == [] || (Orderly(s, schedule[0]) && OrderlySchedule(Next(s, schedule[0]), schedule[1..]))
  }

  predicate TidyTxs(txs: seq<Tx>, journal: map<JobId, seq<Mark>>) {
    forall t | 0 <= t < |txs| :: forall id | id in TxRows(txs[t]) :: id in journal && |journal[id]| == 1
  }

  predicate TidyWorkers(workers: seq<Worker>, rows: map<JobId, Row>, journal: map<JobId, seq<Mark>>) {
    && (forall w | 0 <= w < |workers| && workers[w].phase.Handling? ::
          workers[w].phase.job.id in rows && NoWriter(workers, workers[w].phase.job.id))
    && (forall w | 0 <= w < |workers| && workers[w].phase.Writing? ::
          var id := workers[w].phase.id; id in rows && id in journal && workers[w].phase.version + 1 == |journal[id]|)
    && (forall v, w | 0 <= v < w < |workers| && workers[v].phase.Writing? :: !Writer(workers[w], workers[v].phase.id))
  }

  predicate TidyRows(workers: seq<Worker>, rows: map<JobId, Row>, journal: map<JobId, seq<Mark>>) {
    forall id | id in rows && NoWriter(workers, id) :: id in journal && rows[id].version + 1 == |journal[id]|
  }

  predicate Tidy(s: State) {
    TidyTxs(s.txs, s.journal) && TidyWorkers(s.workers, s.rows, s.journal) && TidyRows(s.workers, s.rows, s.journal)
  }

  lemma TidyPop(s: State, w: nat)
    requires Tidy(s) && Enabled(s, Pop(w))
    ensures Tidy(DoPop(s, w))
  {
    var s' := DoPop(s, w);
    assert forall id :: NoWriter(s'.workers, id) <==> NoWriter(s.workers, id) by {
      assert forall v, id | 0 <= v < |s.workers| :: Writer(s'.workers[v], id) <==> Writer(s.workers[v], id);
    }
  }

  /** An id with a committed row is in no open transaction. */
  lemma ApartFacts(s: State, loc: Locations, id: JobId)
    requires Inv(s, loc)
    ensures id in s.rows ==> id in s.journal && forall t | 0 <= t < |s.txs| :: id !in TxRows(s.txs[t])
  {
    if id in s.rows {
      RowFacts(s, loc, id);
    }
  }

  lemma SpotOfHeld(s: State, loc: Locations, w: nat)
    requires Inv(s, loc) && w < |s.workers| && Holder(s.workers[w])
    ensures s.workers[w].phase.job.id in s.journal
    ensures forall v | 0 <= v < |s.workers| && v != w && Holder(s.workers[v]) ::
      s.workers[v].phase.job.id != s.workers[w].phase.job.id
  {
    var j := s.workers[w].phase.job;
    var here := if s.workers[w].phase.Popped? then InHand(w) else InHandler(w);
    assert Holds(s, here, j);
    SpotFacts(s, loc, j.id);
    forall v | 0 <= v < |s.workers| && v != w && Holder(s.workers[v]) ensures s.workers[v].phase.job.id != j.id {
      assert Holds(s, if s.workers[v].phase.Popped? then InHand(v) else InHandler(v), s.workers[v].phase.job);
    }
  }

  /** Worker w, which holds the job alone, becomes x. Either the row is updated from the journal's
      new entry at once, or the worker becomes the row's only writer. */
  ghost predicate Decided(workers: seq<Worker>, rows: map<JobId, Row>, journal: map<JobId, seq<Mark>>, w: nat,
          x: Worker, rows': map<JobId, Row>) {
    && w < |workers| && Holder(workers[w]) && workers[w].phase.job.id in journal
    && workers[w].phase.job.id in rows && NoWriter(workers, workers[w].phase.job.id)
    && (forall v | 0 <= v < |workers| && v != w && Holder(workers[v]) ::
        workers[v].phase.job.id != workers[w].phase.job.id)
    && var id := workers[w].phase.job.id;
       || (x.phase.Handling? && x.phase.job.id == id && exists r :: rows' == rows[id := Row(r, |journal[id]|)])
       || (Writer(x, id) && x.phase.version == |journal[id]| && rows' == rows)
  }

  lemma WritersAfter(workers: seq<Worker>, w: nat, x: Worker, id: JobId)
    requires w < |workers| && Holder(workers[w]) && NoWriter(workers, id)
    requires (Holder(x) && x.phase.job.id == id) || Writer(x, id)
    ensures forall k | k != id :: NoWriter(workers[w := x], k) <==> NoWriter(workers, k)
    ensures NoWriter(workers[w := x], id) <==> Holder(x)
  {
    assert forall v, k | 0 <= v < |workers| && k != id :: Writer(workers[w := x][v], k) <==> Writer(workers[v], k);
    if !Holder(x) {
      assert Writer(workers[w := x][w], id);
    }
  }

  lemma TidyRowsGrow(workers: seq<Worker>, rows: map<JobId, Row>, journal: map<JobId, seq<Mark>>, w: nat, x: Worker,
          rows': map<JobId, Row>, m: Mark)
    requires TidyWorkers(workers, rows, journal) && TidyRows(workers, rows, journal)
    requires Decided(workers, rows, journal, w, x, rows')
    ensures var id := workers[w].phase.job.id; TidyRows(workers[w := x], rows', journal[id := journal[id] + [m]])
  {
    WritersAfter(workers, w, x, workers[w].phase.job.id);
    hide NoWriter;
  }

  lemma TidyWorkersGrow(workers: seq<Worker>, rows: map<JobId, Row>, journal: map<JobId, seq<Mark>>, w: nat,
          x: Worker, rows': map<JobId, Row>, m: Mark)
    requires TidyWorkers(workers, rows, journal) && Decided(workers, rows, journal, w, x, rows')
    ensures var id := workers[w].phase.job.id; TidyWorkers(workers[w := x], rows', journal[id := journal[id] + [m]])
  {
    var id := workers[w].phase.job.id;
    WritersAfter(workers, w, x, id);
    assert forall v | 0 <= v < |workers| :: !Writer(workers[v], id);
    hide NoWriter;
  }

  /** One journal grows. */
  lemma TidyGrowth(txs: seq<Tx>, workers: seq<Worker>, rows: map<JobId, Row>, journal: map<JobId, seq<Mark>>,
                   w: nat, x: Worker, rows': map<JobId, Row>, m: Mark)
    requires TidyTxs(txs, journal) && TidyWorkers(workers, rows, journal) && TidyRows(workers, rows, journal)
    requires Decided(workers, rows, journal, w, x, rows')
    requires forall t | 0 <= t < |txs| :: workers[w].phase.job.id !in TxRows(txs[t])
    ensures var id := workers[w].phase.job.id; var journal' := journal[id := journal[id] + [m]];
      TidyTxs(txs, journal') && TidyWorkers(workers[w := x], rows', journal')
          && TidyRows(workers[w := x], rows', journal')
  {
    TidyWorkersGrow(workers, rows, journal, w, x, rows', m);
    TidyRowsGrow(workers, rows, journal, w, x, rows', m);
    hide TidyWorkers, TidyRows;
  }

  lemma TidyMarkRunning(s: State, loc: Locations, w: nat)
    requires Inv(s, loc) && Tidy(s) && w < |s.workers| && s.workers[w].phase.Popped?
    requires s.workers[w].phase.job.id in s.rows && NoWriter(s.workers, s.workers[w].phase.job.id)
    ensures Tidy(DoMarkRunning(s, w, true))
  {
    var j := s.workers[w].phase.job;
    var s' := DoMarkRunning(s, w, true);
    ApartFacts(s, loc, j.id);
    SpotOfHeld(s, loc, w);
    assert j.id in s.rows;
    hide Inv, TidyTxs, TidyWorkers, TidyRows;
    assert s'.rows == s.rows[j.id := Row(Updated(s.rows[j.id].job, Update(Running, 0, None)), |s.journal[j.id]|)];
    TidyGrowth(s.txs, s.workers, s.rows, s.journal, w, s'.workers[w], s'.rows, Started(j.attempts));
  }

  lemma TidyOutcome(s: State, s': State, loc: Locations, w: nat, m: Mark)
    requires Inv(s, loc) && Tidy(s) && w < |s.workers| && s.workers[w].phase.Handling?
    requires var id := s.workers[w].phase.job.id;
      s'.journal == s.journal[id := Journal(s, id) + [m]] &&
      |s'.workers| == |s.workers| && s'.workers == s.workers[w := s'.workers[w]] &&
      Writer(s'.workers[w], id) && s'.workers[w].phase.version == |Journal(s, id)|
    requires s'.rows == s.rows && s'.txs == s.txs
    ensures Tidy(s')
  {
    var id := s.workers[w].phase.job.id;
    assert id in s.rows;
    ApartFacts(s, loc, id);
    SpotOfHeld(s, loc, w);
    hide Inv, TidyTxs, TidyWorkers, TidyRows;
    TidyGrowth(s.txs, s.workers, s.rows, s.journal, w, s'.workers[w], s.rows, m);
  }

  lemma TidyWrite(s: State, w: nat)
    requires Tidy(s) && Enabled(s, Write(w, true))
    ensures Tidy(DoWrite(s, w, true))
  {
    var s' := DoWrite(s, w, true);
    var id := s.workers[w].phase.id;
    assert forall k | k != id :: NoWriter(s'.workers, k) <==> NoWriter(s.workers, k) by {
      assert forall v, k | 0 <= v < |s.workers| && k != id :: Writer(s'.workers[v], k) <==> Writer(s.workers[v], k);
    }
    assert NoWriter(s'.workers, id);
  }

  lemma TidyDrop(s: State, w: nat)
    requires Tidy(s) && w < |s.workers| && !s.workers[w].phase.Writing?
    ensures Tidy(DoDropHeld(s, w))
  {
    var s' := DoDropHeld(s, w);
    assert forall id :: NoWriter(s'.workers, id) <==> NoWriter(s.workers, id) by {
      assert forall v, id | 0 <= v < |s.workers| :: Writer(s'.workers[v], id) <==> Writer(s.workers[v], id);
    }
  }

  lemma TidyInsert(s: State, loc: Locations, e: Step)
    requires Inv(s, loc) && Tidy(s) && e.Insert? && Enabled(s, e)
    ensures Tidy(Apply(s, e))
  {
    ApartFacts(s, loc, e.id);
    hide Inv;
  }

  lemma CommitKeepsTidyTxs(txs: seq<Tx>, tx: nat, journal: map<JobId, seq<Mark>>)
    requires tx < |txs| && TidyTxs(txs, journal)
    ensures TidyTxs(txs[tx := NoTx], journal)
  {
  }

  lemma CommitKeepsTidyRows(txs: seq<Tx>, tx: nat, workers: seq<Worker>, rows: map<JobId, Row>,
          journal: map<JobId, seq<Mark>>)
    requires tx < |txs| && TidyTxs(txs, journal) && TidyRows(workers, rows, journal)
    requires TidyWorkers(workers, rows, journal)
    ensures var mine := TxRows(txs[tx]);
      var rows' := rows + (map id | id in mine :: Row(mine[id], 0));
      TidyRows(workers, rows', journal) && TidyWorkers(workers, rows', journal)
  {
    hide NoWriter;
  }

  lemma TidyCommit(s: State, tx: nat)
    requires Tidy(s) && Enabled(s, Commit(tx))
    ensures Tidy(DoCommit(s, tx))
  {
    CommitKeepsTidyTxs(s.txs, tx, s.journal);
    CommitKeepsTidyRows(s.txs, tx, s.workers, s.rows, s.journal);
    hide TidyTxs, TidyWorkers, TidyRows;
  }

  lemma TidySame(s: State, s': State)
    requires Tidy(s) && s'.journal == s.journal && s'.rows == s.rows && s'.workers == s.workers && |s'.txs| == |s.txs|
    requires forall t | 0 <= t < |s.txs| :: TxRows(s'.txs[t]) == TxRows(s.txs[t]) || s'.txs[t] == NoTx
    ensures Tidy(s')
  {
  }

  lemma TidySucceed(s: State, loc: Locations, w: nat)
    requires Inv(s, loc) && Tidy(s) && w < |s.workers| && s.workers[w].phase.Handling?
    ensures Tidy(DoSucceed(s, w))
  {
    hide Inv, Tidy;
    TidyOutcome(s, DoSucceed(s, w), loc, w, Finished(s.workers[w].phase.job.attempts));
  }

  lemma TidyFail(s: State, loc: Locations, w: nat, ok: bool)
    requires Inv(s, loc) && Tidy(s) && w < |s.workers| && s.workers[w].phase.Handling?
    ensures Tidy(DoFail(s, w, ok))
  {
    var j := s.workers[w].phase.job;
    hide Inv, Tidy, Unix;
    if LastRun(j) {
      TidyOutcome(s, DoBury(s, w, ok), loc, w, Dead(j.attempts + 1));
    } else {
      TidyOutcome(s, DoRetry(s, w, ok), loc, w, Queued(j.attempts + 1));
    }
  }

  lemma TidyPopLost(s: State, w: nat)
    requires Tidy(s) && Enabled(s, PopLost(w))
    ensures Tidy(DoPopLost(s, w))
  {
    hide Tidy, Ready;
    TidySame(s, DoPopLost(s, w));
  }

  lemma TidyWorkerStep(s: State, loc: Locations, e: Step)
    requires Inv(s, loc) && Tidy(s) && Orderly(s, e) && Enabled(s, e)
    requires WorkerStep(e)
    ensures Tidy(Apply(s, e))
  {
    hide Inv, Tidy, DoPop, DoPopLost, DoDropHeld, DoMarkRunning, DoSucceed, DoFail, DoWrite;
    match e
    case Pop(w) => TidyPop(s, w);
    case PopLost(w) => TidyPopLost(s, w);
    case Discard(w) => TidyDrop(s, w);
    case MarkRunning(w, _) => TidyMarkRunning(s, loc, w);
    case Succeed(w) => TidySucceed(s, loc, w);
    case Fail(w, ok) => TidyFail(s, loc, w, ok);
    case Write(w, _) => TidyWrite(s, w);
    case CrashWorker(w) => TidyDrop(s, w);
  }

  lemma TidyEnqueuerStep(s: State, loc: Locations, e: Step)
    requires Inv(s, loc) && Tidy(s) && Enabled(s, e) && EnqueuerStep(e)
    ensures Tidy(Apply(s, e))
  {
    hide Inv, Tidy;
    match e
    case Tick(_) => TidySame(s, Apply(s, e));
    case Insert(_, _, _, _) => TidyInsert(s, loc, e);
    case Push(tx, _) => TidySame(s, Apply(s, e));
    case Commit(tx) => TidyCommit(s, tx);
    case Rollback(_) => TidySame(s, Apply(s, e));
  }

  lemma TidyDrainerStep(s: State, e: Step)
    requires Tidy(s) && Enabled(s, e) && DrainerStep(e)
    ensures Tidy(Apply(s, e))
  {
    DrainerFields(s, e);
    hide Tidy, Apply, Enabled, DrainerAfter;
    TidySame(s, Apply(s, e));
  }

  lemma TidyNext(s: State, loc: Locations, e: Step)
    requires Inv(s, loc) && Tidy(s) && Orderly(s, e)
    ensures Tidy(Next(s, e))
  {
    hide Inv, Tidy, Orderly, Apply;
    if Enabled(s, e) {
      if EnqueuerStep(e) {
        TidyEnqueuerStep(s, loc, e);
      } else if DrainerStep(e) {
        TidyDrainerStep(s, e);
      } else {
        TidyWorkerStep(s, loc, e);
      }
    }
  }

  lemma {:induction false} TidyExec(s: State, loc: Locations, schedule: seq<Step>)
    requires Inv(s, loc) && Tidy(s) && OrderlySchedule(s, schedule)
    ensures Tidy(Exec(s, schedule))
    decreases |schedule|
  {
    if schedule != [] {
      TidyNext(s, loc, schedule[0]);
      var loc1 := KeepNext(s, loc, schedule[0]);
      hide Inv, Tidy, Next, Orderly;
      TidyExec(Next(s, schedule[0]), loc1, schedule[1..]);
    }
  }

  /** After an orderly schedule every committed row is in step, except while its worker is about
      to write the outcome. */
  lemma OrderlyMeansInStep(start: State, schedule: seq<Step>, id: JobId)
    requires Starts(start) && OrderlySchedule(start, schedule)
    ensures var s := Exec(start, schedule);
      id in s.rows && NoWriter(s.workers, id) ==> InStep(s, id)
  {
    var types, drainers, txs, handlers, clock :| start == Init(types, drainers, txs, handlers, clock);
    InitInv(types, drainers, txs, handlers, clock);
    TidyExec(start, map[], schedule);
  }
}
