/** Exactly which steps let a settled row part from its token, and so exactly which runs keep the
    two stores in agreement throughout. */
module QueuePunctual {
  import opened Jobs
  import opened QueueMachine
  import opened QueueInvariant
  import opened QueueTheorems
  import opened QueueAgreement

  /** Every committed row whose outcome nobody is about to write is in step. */
  predicate RowsInStep(s: State) {
    forall id | id in s.rows && NoWriter(s.workers, id) :: InStep(s, id)
  }

  /** Is worker w the only one about to write this row? */
  predicate OnlyWriter(workers: seq<Worker>, w: nat, id: JobId) {
    forall v | 0 <= v < |workers| && v != w :: !Writer(workers[v], id)
  }

  /** The journal entry the row of id would stand at, if the update in worker w's hand arrives or not. */
  function Standing(s: State, w: nat, arrives: bool): nat
    requires w < |s.workers| && s.workers[w].phase.Writing? && s.workers[w].phase.id in s.rows
  {
    var p := s.workers[w].phase;
    if arrives then p.version else s.rows[p.id].version
  }

  predicate LeavesLatest(s: State, w: nat, arrives: bool)
    requires w < |s.workers| && s.workers[w].phase.Writing?
  {
    var id := s.workers[w].phase.id;
    id in s.rows && OnlyWriter(s.workers, w, id) ==> Standing(s, w, arrives) + 1 == |Journal(s, id)|
  }

  /** The demand on each step. The "running" update of a settled row arrives. The last update in hand
      carries the latest decision if it arrives, and if it does not, or its worker crashes, the row
      has the latest decision already. A commit comes before its job's first run, or while an update
      is still to come. Nothing is asked of pops, pushes, drains or handlers. */
  predicate Punctual(s: State, e: Step)
    requires Enabled(s, e)
  {
    match e
    case MarkRunning(w, dbOk) =>
      var id := s.workers[w].phase.job.id;
      id in s.rows && NoWriter(s.workers, id) ==> dbOk
    case Write(w, dbOk) => LeavesLatest(s, w, dbOk)
    case CrashWorker(w) => s.workers[w].phase.Writing? ==> LeavesLatest(s, w, false)
    case Commit(tx) => forall id | id in s.txs[tx].rows :: |Journal(s, id)| == 1 || !NoWriter(s.workers, id)
    case _ => true
  }

  lemma SameWriters(workers: seq<Worker>, w: nat, x: Worker)
    requires w < |workers| && !workers[w].phase.Writing? && !x.phase.Writing?
    ensures forall id :: NoWriter(workers[w := x], id) <==> NoWriter(workers, id)
  {
    assert forall v, id | 0 <= v < |workers| :: Writer(workers[w := x][v], id) <==> Writer(workers[v], id);
  }

  lemma OneWriterLess(workers: seq<Worker>, w: nat, x: Worker)
    requires w < |workers| && workers[w].phase.Writing? && !x.phase.Writing?
    ensures var id := workers[w].phase.id;
      && (forall k | k != id :: NoWriter(workers[w := x], k) <==> NoWriter(workers, k))
      && (NoWriter(workers[w := x], id) <==> OnlyWriter(workers, w, id))
      && !NoWriter(workers, id)
  {
    var id := workers[w].phase.id;
    assert Writer(workers[w], id);
    assert forall v, k | 0 <= v < |workers| && k != id :: Writer(workers[w := x][v], k) <==> Writer(workers[v], k);
    assert forall v | 0 <= v < |workers| && v != w :: workers[w := x][v] == workers[v];
    assert !Writer(workers[w := x][w], id);
  }

  lemma OneWriterMore(workers: seq<Worker>, w: nat, x: Worker)
    requires w < |workers| && !workers[w].phase.Writing? && x.phase.Writing?
    ensures forall k | k != x.phase.id :: NoWriter(workers[w := x], k) <==> NoWriter(workers, k)
    ensures !NoWriter(workers[w := x], x.phase.id)
  {
    assert Writer(workers[w := x][w], x.phase.id);
    assert forall v, k | 0 <= v < |workers| && k != x.phase.id ::
        Writer(workers[w := x][v], k) <==> Writer(workers[v], k);
  }

  /** Rows and journals stay, and so do the writers. */
  lemma QuietInStep(s: State, s': State)
    requires s'.rows == s.rows && s'.journal == s.journal
    requires forall id :: NoWriter(s'.workers, id) <==> NoWriter(s.workers, id)
    ensures RowsInStep(s') <==> RowsInStep(s)
  {
    hide NoWriter;
    assert forall id :: InStep(s', id) <==> InStep(s, id);
  }

  lemma InsertInStep(s: State, loc: Locations, tx: nat, id: JobId, t: JobType, payload: int)
    requires Inv(s, loc) && RowsInStep(s) && Enabled(s, Insert(tx, id, t, payload))
    ensures RowsInStep(DoInsert(s, tx, id, t, payload))
  {
    ApartFacts(s, loc, id);
    hide Inv, NoWriter;
  }

  lemma CommitInStep(s: State, loc: Locations, tx: nat)
    requires Inv(s, loc) && RowsInStep(s) && Enabled(s, Commit(tx))
    ensures RowsInStep(DoCommit(s, tx)) <==> Punctual(s, Commit(tx))
  {
    var mine := s.txs[tx].rows;
    assert TxRows(s.txs[tx]) == mine;
    forall id | id in mine ensures id !in s.rows && id in s.journal && |s.journal[id]| > 0 {
      assert RowOk(s.journal, Tokens(loc), id, Row(mine[id], 0))
          by { assert TxOk(s.journal, Tokens(loc), s.clock, s.txs[tx]); }
      assert TxsApart(s.txs, s.rows.Keys);
    }
    hide Inv, NoWriter;
    var s' := DoCommit(s, tx);
    assert forall id | id in mine :: InStep(s', id) <==> |Journal(s, id)| == 1;
    assert forall id | id in s.rows :: s'.rows[id] == s.rows[id];
  }

  lemma MarkFields(s: State, w: nat, dbOk: bool)
    requires w < |s.workers| && s.workers[w].phase.Popped?
    ensures var s' := DoMarkRunning(s, w, dbOk); var j := s.workers[w].phase.job;
      && s'.workers == s.workers[w := Worker(s.workers[w].jobType, Handling(j))]
      && s'.journal == s.journal[j.id := Journal(s, j.id) + [Started(j.attempts)]]
      && (forall k | k != j.id :: (k in s'.rows <==> k in s.rows) && (k in s.rows ==> s'.rows[k] == s.rows[k]))
      && (j.id in s'.rows <==> j.id in s.rows)
      && (j.id in s.rows ==> s'.rows[j.id].version == if dbOk then |Journal(s, j.id)| else s.rows[j.id].version)
  {
    hide Updated, Journal;
  }

  lemma MarkInStep(s: State, loc: Locations, w: nat, dbOk: bool)
    requires Inv(s, loc) && RowsInStep(s) && Enabled(s, MarkRunning(w, dbOk))
    ensures RowsInStep(DoMarkRunning(s, w, dbOk)) <==> Punctual(s, MarkRunning(w, dbOk))
  {
    var s' := DoMarkRunning(s, w, dbOk);
    var j := s.workers[w].phase.job;
    SpotOfHeld(s, loc, w);
    SameWriters(s.workers, w, Worker(s.workers[w].jobType, Handling(j)));
    MarkFields(s, w, dbOk);
    hide Inv, NoWriter, DoMarkRunning;
    assert forall k | k != j.id :: InStep(s', k) <==> InStep(s, k);
    assert j.id in s.rows && NoWriter(s.workers, j.id) ==> InStep(s, j.id);
  }

  lemma OutcomeInStep(s: State, s': State, w: nat, m: Mark)
    requires RowsInStep(s) && w < |s.workers| && s.workers[w].phase.Handling?
    requires var id := s.workers[w].phase.job.id;
      && s'.journal == s.journal[id := Journal(s, id) + [m]] && s'.rows == s.rows
      && |s'.workers| == |s.workers| && s'.workers == s.workers[w := s'.workers[w]] && Writer(s'.workers[w], id)
    ensures RowsInStep(s')
  {
    var id := s.workers[w].phase.job.id;
    OneWriterMore(s.workers, w, s'.workers[w]);
    hide NoWriter;
    assert forall k | k != id :: InStep(s', k) <==> InStep(s, k);
  }

  lemma WriteFields(s: State, w: nat, arrives: bool)
    requires w < |s.workers| && s.workers[w].phase.Writing?
    ensures var s' := DoWrite(s, w, arrives); var p := s.workers[w].phase;
      && s'.workers == s.workers[w := Worker(s.workers[w].jobType, Idle)] && s'.journal == s.journal
      && (forall k | k != p.id :: (k in s'.rows <==> k in s.rows) && (k in s.rows ==> s'.rows[k] == s.rows[k]))
      && (p.id in s'.rows <==> p.id in s.rows)
      && (p.id in s.rows ==> s'.rows[p.id].version == Standing(s, w, arrives))
  {
    hide Updated;
  }

  lemma WriteInStep(s: State, loc: Locations, w: nat, arrives: bool)
    requires Inv(s, loc) && RowsInStep(s) && w < |s.workers| && s.workers[w].phase.Writing?
    ensures RowsInStep(DoWrite(s, w, arrives)) <==> LeavesLatest(s, w, arrives)
  {
    var s' := DoWrite(s, w, arrives);
    var p := s.workers[w].phase;
    assert PhaseOk(s.journal, Tokens(loc), p);
    OneWriterLess(s.workers, w, Worker(s.workers[w].jobType, Idle));
    WriteFields(s, w, arrives);
    hide Inv, NoWriter, OnlyWriter, DoWrite;
    assert forall k | k != p.id :: InStep(s', k) <==> InStep(s, k);
    assert p.id in s.rows ==> (InStep(s', p.id) <==> Standing(s, w, arrives) + 1 == |Journal(s, p.id)|);
  }

  lemma DropInStep(s: State, loc: Locations, w: nat)
    requires Inv(s, loc) && RowsInStep(s) && w < |s.workers|
    ensures RowsInStep(DoDropHeld(s, w)) <==> (s.workers[w].phase.Writing? ==> LeavesLatest(s, w, false))
  {
    if s.workers[w].phase.Writing? {
      WriteInStep(s, loc, w, false);
      assert DoDropHeld(s, w) == DoWrite(s, w, false);
    } else {
      SameWriters(s.workers, w, s.workers[w].(phase := Idle));
      hide Inv, NoWriter;
      QuietInStep(s, DoDropHeld(s, w));
    }
  }

  lemma PopInStep(s: State, w: nat)
    requires RowsInStep(s) && Enabled(s, Pop(w))
    ensures RowsInStep(DoPop(s, w))
  {
    SameWriters(s.workers, w, DoPop(s, w).workers[w]);
    hide NoWriter;
    QuietInStep(s, DoPop(s, w));
  }

  lemma PopLostInStep(s: State, w: nat)
    requires RowsInStep(s) && Enabled(s, PopLost(w))
    ensures RowsInStep(DoPopLost(s, w))
  {
    hide RowsInStep, Ready;
    QuietInStep(s, DoPopLost(s, w));
  }

  lemma SucceedInStep(s: State, w: nat)
    requires RowsInStep(s) && Enabled(s, Succeed(w))
    ensures RowsInStep(DoSucceed(s, w))
  {
    hide RowsInStep, Journal;
    OutcomeInStep(s, DoSucceed(s, w), w, Finished(s.workers[w].phase.job.attempts));
  }

  lemma FailInStep(s: State, w: nat, ok: bool)
    requires RowsInStep(s) && Enabled(s, Fail(w, ok))
    ensures RowsInStep(DoFail(s, w, ok))
  {
    hide RowsInStep, Journal, Unix;
    var j := s.workers[w].phase.job;
    if LastRun(j) {
      OutcomeInStep(s, DoBury(s, w, ok), w, Dead(j.attempts + 1));
    } else {
      OutcomeInStep(s, DoRetry(s, w, ok), w, Queued(j.attempts + 1));
    }
  }

  lemma WorkerInStep(s: State, loc: Locations, e: Step)
    requires Inv(s, loc) && RowsInStep(s) && Enabled(s, e) && WorkerStep(e)
    ensures RowsInStep(Apply(s, e)) <==> Punctual(s, e)
  {
    hide Inv, RowsInStep, LeavesLatest, DoPop, DoPopLost, DoDropHeld, DoMarkRunning, DoSucceed, DoFail, DoWrite;
    match e
    case Pop(w) => PopInStep(s, w);
    case PopLost(w) => PopLostInStep(s, w);
    case Discard(w) => DropInStep(s, loc, w);
    case MarkRunning(w, ok) => MarkInStep(s, loc, w, ok); hide Punctual;
    case Succeed(w) => SucceedInStep(s, w);
    case Fail(w, ok) => FailInStep(s, w, ok);
    case Write(w, ok) => WriteInStep(s, loc, w, ok);
    case CrashWorker(w) => DropInStep(s, loc, w);
  }

  lemma EnqueuerInStep(s: State, loc: Locations, e: Step)
    requires Inv(s, loc) && RowsInStep(s) && Enabled(s, e) && EnqueuerStep(e)
    ensures RowsInStep(Apply(s, e)) <==> Punctual(s, e)
  {
    hide Inv, RowsInStep, Ready, DoInsert, DoCommit;
    match e
    case Tick(_) => QuietInStep(s, Apply(s, e));
    case Insert(tx, id, t, payload) => InsertInStep(s, loc, tx, id, t, payload);
    case Push(_, _) => QuietInStep(s, Apply(s, e));
    case Commit(tx) => CommitInStep(s, loc, tx); hide Punctual;
    case Rollback(_) => QuietInStep(s, Apply(s, e));
  }

  lemma DrainerInStep(s: State, e: Step)
    requires RowsInStep(s) && Enabled(s, e) && DrainerStep(e)
    ensures RowsInStep(Apply(s, e)) && Punctual(s, e)
  {
    DrainerFields(s, e);
    hide RowsInStep, Apply, DrainerAfter;
    QuietInStep(s, Apply(s, e));
  }

  /** A step from a reachable state with every settled row in step keeps them so exactly if it is
      punctual. */
  lemma InStepExactlyWhenPunctual(s: State, e: Step)
    requires Reachable(s) && RowsInStep(s) && Enabled(s, e)
    ensures RowsInStep(Next(s, e)) <==> Punctual(s, e)
  {
    var loc := Locate(s);
    hide Reachable, RowsInStep, Apply, Punctual, Inv, Enabled;
    if WorkerStep(e) {
      WorkerInStep(s, loc, e);
    } else if EnqueuerStep(e) {
      EnqueuerInStep(s, loc, e);
    } else {
      DrainerInStep(s, e);
    }
  }

  predicate InStepThroughout(s: State, schedule: seq<Step>)
    decreases |schedule|
  {
    RowsInStep(s) && (schedule == [] || InStepThroughout(Next(s, schedule[0]), schedule[1..]))
  }

  predicate PunctualThroughout(s: State, schedule: seq<Step>)
    decreases |schedule|
  {
    schedule == [] ||
    ((Enabled(s, schedule[0]) ==> Punctual(s, schedule[0])) && PunctualThroughout(Next(s, schedule[0]), schedule[1..]))
  }

  lemma {:induction false} PunctualFromHere(s: State, schedule: seq<Step>)
    requires Reachable(s) && RowsInStep(s)
    ensures InStepThroughout(s, schedule) <==> PunctualThroughout(s, schedule)
    decreases |schedule|
  {
    if schedule != [] {
      var e := schedule[0];
      if Enabled(s, e) {
        InStepExactlyWhenPunctual(s, e);
      }
      ReachNext(s, e);
      var s1 := Next(s, e);
      assert RowsInStep(s1) <==> (Enabled(s, e) ==> Punctual(s, e));
      hide Reachable, RowsInStep, Next, Punctual, Enabled;
      if RowsInStep(s1) {
        PunctualFromHere(s1, schedule[1..]);
      }
    }
  }

  /** Over a whole run, the settled rows are in step at every moment exactly if every step is punctual. */
  lemma AgreementExactlyWhenPunctual(start: State, schedule: seq<Step>)
    requires Starts(start)
    ensures InStepThroughout(start, schedule) <==> PunctualThroughout(start, schedule)
  {
    assert start == Exec(start, []);
    assert Reachable(start);
    hide Reachable, Exec;
    PunctualFromHere(start, schedule);
  }

  // ---- what a worker could look at ----

  /** Outcomes are pending, completed and failed; "running" is written before the handler starts. */
  predicate OutcomesInHand(workers: seq<Worker>) {
    forall w | 0 <= w < |workers| && workers[w].phase.Writing? :: workers[w].phase.update.status != Running
  }

  lemma OutcomeNext(s: State, e: Step)
    requires Enabled(s, e) && WorkerStep(e)
    ensures var s' := Apply(s, e);
      e.w < |s'.workers| && (s'.workers[e.w].phase.Writing? ==> s'.workers[e.w].phase.update.status != Running)
  {
    hide Journal, Updated, Retried, Buried, Ready, Unix;
    match e
    case Pop(_) =>
    case PopLost(_) =>
    case Discard(_) =>
    case MarkRunning(_, _) =>
    case Succeed(_) =>
    case Fail(_, _) =>
    case Write(_, _) =>
    case CrashWorker(_) =>
  }

  lemma OutcomesNext(s: State, e: Step)
    requires OutcomesInHand(s.workers)
    ensures OutcomesInHand(Next(s, e).workers)
  {
    hide Apply, Enabled;
    if Enabled(s, e) {
      if WorkerStep(e) {
        WorkerFields(s, e);
        OutcomeNext(s, e);
      } else if EnqueuerStep(e) {
        EnqueuerFields(s, e);
      } else {
        DrainerFields(s, e);
      }
    }
  }

  lemma {:induction false} OutcomesExec(s: State, schedule: seq<Step>)
    requires OutcomesInHand(s.workers)
    ensures OutcomesInHand(Exec(s, schedule).workers)
    decreases |schedule|
  {
    if schedule != [] {
      OutcomesNext(s, schedule[0]);
      hide Next, OutcomesInHand;
      OutcomesExec(Next(s, schedule[0]), schedule[1..]);
    }
  }

  /** The status and attempts a row should have for a token at that place. */
  function Shown(p: Place, j: Job): (Status, nat) {
    match p
    case InHandler(_) => (Running, 0)
    case InDone => (Completed, j.attempts)
    case InDLQ => (Failed, j.attempts)
    case _ => (Pending, j.attempts)
  }

  lemma FitsTheLatest(log: seq<Mark>, version: nat, u: Update, shown: (Status, nat))
    requires WellFormed(log) && version < |log| && (u.status, u.attempts) == Content(log[version])
    requires shown == Content(Last(log)) && u.status != Running
    ensures version + 1 == |log| <==> (u.status, u.attempts) == shown
  {
    if (u.status, u.attempts) == shown {
      ContentTellsEntries(log, version, |log| - 1);
    }
  }

  /** Without looking at any history: the update in a worker's hand is the latest, and arrives
      punctually, exactly if it writes what fits the token where it now lies. */
  lemma LatestUpdateFitsToken(s: State, w: nat, p: Place, j: Job)
    requires Reachable(s) && w < |s.workers| && Writer(s.workers[w], j.id) && Holds(s, p, j) && !p.InLost?
    ensures var u := s.workers[w].phase.update; var fits := (u.status, u.attempts) == Shown(p, j);
      && (s.workers[w].phase.version + 1 == |Journal(s, j.id)| <==> fits)
      && (Punctual(s, Write(w, true)) <==> (j.id in s.rows && OnlyWriter(s.workers, w, j.id) ==> fits))
  {
    var start, schedule :| Starts(start) && s == Exec(start, schedule);
    OutcomesExec(start, schedule);
    var loc := Locate(s);
    var x, log := s.workers[w].phase, s.journal[j.id];
    SpotFacts(s, loc, j.id);
    assert PhaseOk(s.journal, Tokens(loc), x) && WellFormed(log) && x.update.status != Running;
    hide Inv, OnlyWriter, Reachable, Exec, Starts, OutcomesInHand, Holds, WellFormed;
    assert Content(Last(log)) == Shown(p, j);
    FitsTheLatest(log, x.version, x.update, Shown(p, j));
  }
}
