/** What holds of the job queue after every schedule: the theorems the invariant was built for. */
module QueueTheorems {
  import opened Jobs
  import opened QueueMachine
  import opened QueueInvariant

  ghost predicate Starts(s: State) {
    exists types, drainers, txs, handlers, clock :: s == Init(types, drainers, txs, handlers, clock)
  }

  ghost predicate Reachable(s: State) {
    exists start, schedule :: Starts(start) && s == Exec(start, schedule)
  }

  lemma ReachNext(s: State, e: Step)
    requires Reachable(s)
    ensures Reachable(Next(s, e))
  {
    var start, past :| Starts(start) && s == Exec(start, past);
    ExecSplit(start, past, [e]);
    hide Next, Starts;
    assert [e][0] == e && [e][1..] == [];
    assert Exec(s, [e]) == Exec(Next(s, e), []);
    assert Next(s, e) == Exec(start, past + [e]);
  }

  lemma Locate(s: State) returns (loc: Locations)
    requires Reachable(s)
    ensures Inv(s, loc)
  {
    var start, schedule :| Starts(start) && s == Exec(start, schedule);
    var types, drainers, txs, handlers, clock :| start == Init(types, drainers, txs, handlers, clock);
    InitInv(types, drainers, txs, handlers, clock);
    loc := KeepExec(start, map[], schedule);
  }

  // ---- conservation ----

  ghost predicate Somewhere(s: State, id: JobId) {
    exists p, j :: Holds(s, p, j) && j.id == id
  }

  /** Each pushed id has exactly one token, in exactly one place, and no list repeats it. In
      particular no two workers hold the same job, whatever the drainers do. */
  lemma Conservation(s: State)
    requires Reachable(s)
    ensures forall id :: id in s.pushed <==> Somewhere(s, id)
    ensures forall p, q, j, k :: Holds(s, p, j) && Holds(s, q, k) && j.id == k.id ==> p == q && j == k
    ensures (forall t :: NoRepeats(Ready(s, t))) && NoRepeats(s.dlq)
  {
    var loc := Locate(s);
    forall id ensures id in s.pushed <==> Somewhere(s, id) {
      if id in s.pushed {
        SpotFacts(s, loc, id);
        assert Holds(s, loc[id].place, loc[id].job);
      }
    }
  }

  lemma NotAlsoLost(s: State, p: Place, j: Job)
    requires Reachable(s) && Holds(s, p, j) && p != InLost
    ensures forall k: Job :: k.id == j.id ==> k !in s.lost
  {
    var loc := Locate(s);
    forall k: Job | k.id == j.id ensures k !in s.lost {
      assert !Holds(s, InLost, k);
    }
  }

  /** A token is lost by exactly those steps. */
  lemma LostExactlyBy(s: State, e: Step)
    requires Reachable(s) && Enabled(s, e)
    ensures Apply(s, e).lost != s.lost <==> Drops(s, e)
  {
    if Drops(s, e) {
      match e
      case Fail(w, _) => NotAlsoLost(s, InHandler(w), s.workers[w].phase.job);
      case Repush(d, _) => NotAlsoLost(s, InDrainer(d), s.drainers[d].job);
      case CrashDrainer(d) => NotAlsoLost(s, InDrainer(d), s.drainers[d].job);
      case Discard(w) => NotAlsoLost(s, InHand(w), s.workers[w].phase.job);
      case PopLost(w) =>
        var q := Ready(s, s.workers[w].jobType);
        NotAlsoLost(s, InReady(s.workers[w].jobType), q[|q| - 1]);
      case ClaimLost(d) => NotAlsoLost(s, InDelayed, s.drainers[d].rest[0]);
      case CrashWorker(w) =>
        var p := s.workers[w].phase;
        NotAlsoLost(s, if p.Popped? then InHand(w) else InHandler(w), p.job);
    } else {
      OnlyDropsLose(s, e);
    }
  }

  // ---- retries ----

  /** Handler runs recorded in a journal. */
  function Runs(log: seq<Mark>): nat {
    if log == [] then 0 else Runs(log[..|log| - 1]) + (if Last(log).Started? then 1 else 0)
  }

  lemma {:induction false} RunsOf(log: seq<Mark>, n: nat)
    requires WellFormed(log) && n <= |log|
    ensures Runs(log[..n]) == n / 2
  {
    if n > 0 {
      RunsOf(log, n - 1);
      assert log[..n][..n - 1] == log[..n - 1];
      assert log[n - 1] == Expected(n - 1) || Final(log[n - 1], n - 1);
    }
  }

  /** Attempts counts failed runs; fewer than five while the job can still run, five in the
      dead-letter list; and no job is ever run more than five times. */
  lemma BoundedRetries(s: State, p: Place, j: Job)
    requires Reachable(s) && Holds(s, p, j)
    ensures Runs(Journal(s, j.id)) <= MAX_RETRIES
    ensures p.InReady? || p.InDelayed? || p.InDrainer? || p.InHand? ==>
      j.attempts < MAX_RETRIES && j.attempts == Runs(Journal(s, j.id))
    ensures p.InHandler? || p.InDone? ==> j.attempts < MAX_RETRIES && j.attempts + 1 == Runs(Journal(s, j.id))
    ensures p.InDLQ? ==> j.attempts == MAX_RETRIES == Runs(Journal(s, j.id))
  {
    var loc := Locate(s);
    SpotFacts(s, loc, j.id);
    var log := s.journal[j.id];
    assert WellFormed(log);
    RunsOf(log, |log|);
    assert log[..|log|] == log;
    var i := |log| - 1;
    assert (log[i] == Expected(i) && i / 2 < MAX_RETRIES) || Final(log[i], i);
    if Final(log[i], i) {
      assert log[i - 1] == Expected(i - 1);
    }
  }

  predicate Enters(s: State, e: Step, id: JobId) {
    Enabled(s, e) && e.MarkRunning? && s.workers[e.w].phase.job.id == id
  }

  /** MarkRunning steps that a schedule takes on job id: the times its handler is entered. */
  function Entered(s: State, schedule: seq<Step>, id: JobId): nat
    decreases |schedule|
  {
    if schedule == [] then 0 else
      var e := schedule[0];
      (if Enters(s, e, id) then 1 else 0)
      + Entered(Next(s, e), schedule[1..], id)
  }

  ghost predicate Grows(s: State, s': State, id: JobId, started: bool) {
    exists m: Mark :: s'.journal == s.journal[id := Journal(s, id) + [m]] && (m.Started? <==> started)
  }

  lemma GrowMark(s: State, w: nat, ok: bool)
    requires w < |s.workers| && s.workers[w].phase.Popped?
    ensures Grows(s, DoMarkRunning(s, w, ok), s.workers[w].phase.job.id, true)
  {
    var j := s.workers[w].phase.job;
    assert DoMarkRunning(s, w, ok).journal == s.journal[j.id := Journal(s, j.id) + [Started(j.attempts)]];
  }

  lemma GrowOutcome(s: State, w: nat, ok: bool)
    requires w < |s.workers| && s.workers[w].phase.Handling?
    ensures Grows(s, DoSucceed(s, w), s.workers[w].phase.job.id, false)
    ensures Grows(s, DoFail(s, w, ok), s.workers[w].phase.job.id, false)
  {
    var j := s.workers[w].phase.job;
    assert DoSucceed(s, w).journal == s.journal[j.id := Journal(s, j.id) + [Finished(j.attempts)]];
    assert LastRun(j) ==> DoFail(s, w, ok).journal == s.journal[j.id := Journal(s, j.id) + [Dead(j.attempts + 1)]];
    assert !LastRun(j) ==> DoFail(s, w, ok).journal == s.journal[j.id := Journal(s, j.id) + [Queued(j.attempts + 1)]];
  }

  lemma AppendRuns(log: seq<Mark>, m: Mark)
    ensures Runs(log + [m]) == Runs(log) + (if m.Started? then 1 else 0)
  {
    assert (log + [m])[..|log|] == log;
  }

  lemma GrowRuns(s: State, s': State, id: JobId, started: bool, k: JobId)
    requires Grows(s, s', id, started)
    ensures Runs(Journal(s', k)) == Runs(Journal(s, k)) + (if started && k == id then 1 else 0)
  {
    var m: Mark :| s'.journal == s.journal[id := Journal(s, id) + [m]] && (m.Started? <==> started);
    AppendRuns(Journal(s, id), m);
  }

  lemma StepRuns(s: State, e: Step, id: JobId)
    requires s.journal.Keys == s.used && Enabled(s, e)
    ensures Runs(Journal(Apply(s, e), id)) == Runs(Journal(s, id)) + (if Enters(s, e, id) then 1 else 0)
  {
    if e.Insert? {
      AppendRuns([], Queued(0));
      assert [] + [Queued(0)] == [Queued(0)];
      assert Apply(s, e).journal == s.journal[e.id := [Queued(0)]];
    } else if e.MarkRunning? {
      GrowMark(s, e.w, e.dbOk);
      GrowRuns(s, Apply(s, e), s.workers[e.w].phase.job.id, true, id);
    } else if e.Succeed? {
      GrowOutcome(s, e.w, true);
      GrowRuns(s, Apply(s, e), s.workers[e.w].phase.job.id, false, id);
    } else if e.Fail? {
      GrowOutcome(s, e.w, e.redisOk);
      GrowRuns(s, Apply(s, e), s.workers[e.w].phase.job.id, false, id);
    } else {
      QuietSteps(s, e);
    }
  }

  lemma {:induction false} EnteredIsRuns(s: State, loc: Locations, schedule: seq<Step>, id: JobId)
    requires Inv(s, loc)
    ensures Runs(Journal(s, id)) + Entered(s, schedule, id) == Runs(Journal(Exec(s, schedule), id))
    decreases |schedule|
  {
    if schedule != [] {
      if Enabled(s, schedule[0]) {
        StepRuns(s, schedule[0], id);
      }
      var loc1 := KeepNext(s, loc, schedule[0]);
      hide Inv, Next;
      EnteredIsRuns(Next(s, schedule[0]), loc1, schedule[1..], id);
    }
  }

  /** No schedule enters a job's handler more than MaxRetries times. */
  lemma HandledAtMostMaxRetries(start: State, schedule: seq<Step>, id: JobId)
    requires Starts(start)
    ensures Entered(start, schedule, id) <= MAX_RETRIES
  {
    var types, drainers, txs, handlers, clock :| start == Init(types, drainers, txs, handlers, clock);
    InitInv(types, drainers, txs, handlers, clock);
    EnteredIsRuns(start, map[], schedule, id);
    var s := Exec(start, schedule);
    var loc := KeepExec(start, map[], schedule);
    var log := Journal(s, id);
    if id in s.journal {
      RunsOf(log, |log|);
      assert log[..|log|] == log;
      var i := |log| - 1;
      assert (log[i] == Expected(i) && i / 2 < MAX_RETRIES) || Final(log[i], i);
      if Final(log[i], i) {
        assert log[i - 1] == Expected(i - 1);
      }
    }
  }

  // ---- every token settles ----

  ghost predicate Moved(s: State, s': State, id: JobId) {
    exists p: Place, j: Job :: j.id == id && Holds(s, p, j) != Holds(s', p, j)
  }

  /** How often the token called id changes place along a schedule. */
  ghost function Moves(s: State, schedule: seq<Step>, id: JobId): nat
    decreases |schedule|
  {
    if schedule == [] then 0
    else (if Moved(s, Next(s, schedule[0]), id) then 1 else 0) + Moves(Next(s, schedule[0]), schedule[1..], id)
  }

  function Energy(loc: Locations, id: JobId): nat {
    if id in loc then Rank(loc[id]) else FRESH_RANK + 1
  }

  lemma MoveCosts(s: State, s': State, loc: Locations, loc': Locations, id: JobId)
    requires Located(s, loc) && Located(s', loc') && Advances(loc, loc')
    ensures Energy(loc', id) + (if Moved(s, s', id) then 1 else 0) <= Energy(loc, id)
  {
    if Moved(s, s', id) {
      var p: Place, j: Job :| j.id == id && Holds(s, p, j) != Holds(s', p, j);
      assert id in loc ==> loc'[id] != loc[id];
    }
  }

  lemma {:induction false} MovesCost(s: State, loc: Locations, schedule: seq<Step>, id: JobId) returns (loc': Locations)
    requires Inv(s, loc)
    ensures Moves(s, schedule, id) + Energy(loc', id) <= Energy(loc, id)
    decreases |schedule|
  {
    loc' := loc;
    if schedule != [] {
      var loc1 := KeepNext(s, loc, schedule[0]);
      MoveCosts(s, Next(s, schedule[0]), loc, loc1, id);
      hide Inv, Next, Moved;
      loc' := MovesCost(Next(s, schedule[0]), loc1, schedule[1..], id);
    }
  }

  /** A token moves at most 24 times in any schedule, however long. */
  lemma BoundedMoves(start: State, schedule: seq<Step>, id: JobId)
    requires Starts(start)
    ensures Moves(start, schedule, id) <= 24
  {
    var types, drainers, txs, handlers, clock :| start == Init(types, drainers, txs, handlers, clock);
    InitInv(types, drainers, txs, handlers, clock);
    var loc := MovesCost(start, map[], schedule, id);
  }

  ghost predicate Settled(s: State, id: JobId) {
    exists p, j :: Holds(s, p, j) && j.id == id && (p == InDone || p == InDLQ || p == InLost)
  }

  /** Worker w has nothing to pop, start, finish or write. */
  predicate Stuck(s: State, w: nat) {
    && !Enabled(s, Pop(w)) && !Enabled(s, Discard(w)) && !Enabled(s, MarkRunning(w, true))
    && !Enabled(s, Succeed(w)) && !Enabled(s, Write(w, true))
  }

  ghost predicate Served(s: State, t: JobType) {
    exists w :: 0 <= w < |s.workers| && s.workers[w].jobType == t
  }

  lemma StuckIsIdle(s: State, w: nat)
    requires w < |s.workers| && Stuck(s, w)
    ensures s.workers[w].phase.Idle? && Ready(s, s.workers[w].jobType) == []
  {
  }

  /** When workers and drainers have no step left to take and nothing waits in the delayed set,
      every pushed job has completed, is in the dead-letter list, or was lost. */
  lemma QuiescentMeansSettled(s: State, id: JobId)
    requires Reachable(s) && id in s.pushed
    requires forall w | 0 <= w < |s.workers| :: Stuck(s, w)
    requires forall d | 0 <= d < |s.drainers| :: !s.drainers[d].Claimed?
    requires s.delayed == map[]
    requires forall t :: Served(s, t)
    ensures Settled(s, id)
  {
    Conservation(s);
    assert Somewhere(s, id);
    var p, j :| Holds(s, p, j) && j.id == id;
    hide Stuck;
    match p
    case InReady(t) =>
      assert Served(s, t);
      var w :| 0 <= w < |s.workers| && s.workers[w].jobType == t;
      StuckIsIdle(s, w);
      assert false;
    case InDelayed => assert false;
    case InHand(w) =>
      StuckIsIdle(s, w);
      assert false;
    case InHandler(w) =>
      StuckIsIdle(s, w);
      assert false;
    case InDrainer(d) => assert false;
    case _ =>
  }

  /** No step of the schedule drops a token. */
  predicate Faultless(s: State, schedule: seq<Step>)
    decreases |schedule|
  {
    schedule == [] || (!(Enabled(s, schedule[0]) && Drops(s, schedule[0]))
        && Faultless(Next(s, schedule[0]), schedule[1..]))
  }

  lemma {:induction false} FaultlessLosesNothing(s: State, schedule: seq<Step>)
    requires Faultless(s, schedule)
    ensures Exec(s, schedule).lost == s.lost
    decreases |schedule|
  {
    if schedule != [] {
      if Enabled(s, schedule[0]) {
        OnlyDropsLose(s, schedule[0]);
      }
      hide Apply, Drops;
      FaultlessLosesNothing(Next(s, schedule[0]), schedule[1..]);
    }
  }

  /** Without faults every pushed job ends well or is reported: when nothing is left to do, it has
      completed, or it is in the dead-letter list after exactly MaxRetries runs. */
  lemma FaultlessRunsFinish(start: State, schedule: seq<Step>, id: JobId)
    requires Starts(start) && Faultless(start, schedule) && id in Exec(start, schedule).pushed
    requires var s := Exec(start, schedule);
      && (forall w | 0 <= w < |s.workers| :: Stuck(s, w))
      && (forall d | 0 <= d < |s.drainers| :: !s.drainers[d].Claimed?)
      && s.delayed == map[] && (forall t :: Served(s, t))
    ensures var s := Exec(start, schedule);
      exists j: Job :: j.id == id && (j in s.done || (j in s.dlq && j.attempts == MAX_RETRIES == Runs(Journal(s, id))))
  {
    var s := Exec(start, schedule);
    assert Reachable(s);
    FaultlessLosesNothing(start, schedule);
    assert s.lost == {};
    QuiescentMeansSettled(s, id);
    var p, j :| Holds(s, p, j) && j.id == id && (p == InDone || p == InDLQ || p == InLost);
    BoundedRetries(s, p, j);
    hide Reachable, Exec, Faultless, Stuck, Served, Runs, Journal;
    assert j.id == id;
  }

  // ---- the delayed set ----

  /** A waiting job is in every snapshot taken once its second has come, and in none before. */
  lemma SnapshotsAreExact(s: State, j: Job, members: seq<Job>)
    requires Reachable(s) && j in s.delayed && DueMembers(s, members)
    ensures j in members <==> Unix(j.nextRunAt) <= Unix(s.clock)
  {
    var loc := Locate(s);
    assert Holds(s, InDelayed, j);
    SpotFacts(s, loc, j.id);
  }

  /** A token on a ready list, in a hand or in a handler is less than one second early; it lies
      on the list of its own type. */
  lemma NeverASecondEarly(s: State, p: Place, j: Job)
    requires Reachable(s) && Holds(s, p, j)
    requires p.InReady? || p.InHand? || p.InHandler? || p.InDrainer?
    ensures j.nextRunAt - s.clock < SECOND
    ensures p.InReady? ==> p.t == j.jobType
  {
    var loc := Locate(s);
    SpotFacts(s, loc, j.id);
  }

  /** What can befall a member on its way from the delayed set to a ready list: a ZREM removes it,
      an LPUSH puts it on its list, or the reply to that ZREM is lost, that LPUSH fails, or the
      scheduler that holds it crashes. */
  datatype Event = Removed | Pushed | Mislaid

  predicate Happens(s: State, e: Step, m: Job, k: Event) {
    && Enabled(s, e)
    && match k
       case Removed => ((e.Claim? && e.redisOk) || e.ClaimLost?) && s.drainers[e.d].rest[0] == m && m in s.delayed
       case Pushed => e.Repush? && e.redisOk && s.drainers[e.d].job == m
       case Mislaid =>
         || (e.ClaimLost? && s.drainers[e.d].rest[0] == m && m in s.delayed)
         || (((e.Repush? && !e.redisOk) || (e.CrashDrainer? && s.drainers[e.d].Claimed?)) && s.drainers[e.d].job == m)
  }

  /** How often that happens to member m along a schedule, through any scheduler. */
  function Count(s: State, schedule: seq<Step>, m: Job, k: Event): nat
    decreases |schedule|
  {
    if schedule == [] then 0
    else (if Happens(s, schedule[0], m, k) then 1 else 0) + Count(Next(s, schedule[0]), schedule[1..], m, k)
  }

  /** The token of m's id has moved on from m in the delayed set; it never moves back. */
  predicate Gone(loc: Locations, m: Job) {
    m.id in loc && Rank(loc[m.id]) < Rank(Spot(InDelayed, m))
  }

  lemma GoneStays(s: State, loc: Locations, loc': Locations, m: Job)
    requires Gone(loc, m) && Advances(loc, loc') && Located(s, loc')
    ensures Gone(loc', m) && m !in s.delayed
  {
    assert m in s.delayed ==> Holds(s, InDelayed, m);
  }

  lemma OnlyRemovedByClaim(s: State, e: Step, m: Job)
    requires m in s.delayed
    ensures Happens(s, e, m, Removed) <==> m !in Next(s, e).delayed
  {
    if Enabled(s, e) {
      if DrainerStep(e) {
        DrainerDelayed(s, e);
      } else if EnqueuerStep(e) {
        EnqueuerFields(s, e);
      } else if TokenStep(e) {
        TokenFields(s, e);
      } else if e.Fail? {
        FailFields(s, e.w, e.redisOk);
        assert Apply(s, e) == DoFail(s, e.w, e.redisOk);
      } else {
        RunFields(s, e);
      }
      hide Apply, OnlyPhase, DoFail;
    }
  }

  lemma LeavingIsGone(s: State, s': State, loc: Locations, loc': Locations, m: Job)
    requires Located(s, loc) && Located(s', loc') && Advances(loc, loc') && m in s.delayed
    ensures m in s'.delayed || Gone(loc', m)
  {
    assert Holds(s, InDelayed, m);
    assert Holds(s', InDelayed, m) <==> m in s'.delayed;
  }

  lemma {:induction false} RemovalsFromHere(s: State, loc: Locations, schedule: seq<Step>, m: Job)
    requires Inv(s, loc) && (m in s.delayed || Gone(loc, m))
    ensures Count(s, schedule, m, Removed) == if m in s.delayed && m !in Exec(s, schedule).delayed then 1 else 0
    ensures Gone(loc, m) ==> m !in Exec(s, schedule).delayed
    decreases |schedule|
  {
    if Gone(loc, m) {
      GoneStays(s, loc, loc, m);
    }
    if schedule != [] {
      var e := schedule[0];
      var loc1 := KeepNext(s, loc, e);
      if m in s.delayed {
        OnlyRemovedByClaim(s, e, m);
        LeavingIsGone(s, Next(s, e), loc, loc1, m);
      } else {
        GoneStays(Next(s, e), loc, loc1, m);
      }
      if Gone(loc1, m) {
        GoneStays(Next(s, e), loc1, loc1, m);
      }
      hide Inv, Located, Next, Gone;
      RemovalsFromHere(Next(s, e), loc1, schedule[1..], m);
    }
  }

  /** However many schedulers hold overlapping snapshots, in every interleaving: a waiting member is
      removed by exactly one ZREM if it has left the delayed set, and by none if it is still there. */
  lemma OneDrainerWins(s: State, schedule: seq<Step>, m: Job)
    requires Reachable(s) && m in s.delayed
    ensures Count(s, schedule, m, Removed) == if m in Exec(s, schedule).delayed then 0 else 1
  {
    var loc := Locate(s);
    RemovalsFromHere(s, loc, schedule, m);
  }

  /** The machine never gains or loses a worker or a scheduler, and types and handlers stay. */
  predicate Crew(s: State, s': State) {
    && |s'.drainers| == |s.drainers| && |s'.workers| == |s.workers| && s'.handlers == s.handlers
    && (forall w | 0 <= w < |s.workers| :: s'.workers[w].jobType == s.workers[w].jobType)
  }

  lemma WorkerFields(s: State, e: Step)
    requires Enabled(s, e) && WorkerStep(e)
    ensures OnlyPhase(s, Apply(s, e), e.w)
  {
    if TokenStep(e) {
      TokenFields(s, e);
    } else if e.Fail? {
      FailFields(s, e.w, e.redisOk);
      assert Apply(s, e) == DoFail(s, e.w, e.redisOk);
    } else {
      RunFields(s, e);
    }
    hide Apply, OnlyPhase, DoFail;
  }

  lemma SameCrew(s: State, e: Step)
    ensures Crew(s, Next(s, e))
  {
    if Enabled(s, e) {
      hide Apply, Enabled, DrainerAfter;
      if DrainerStep(e) {
        DrainerFields(s, e);
      } else if EnqueuerStep(e) {
        EnqueuerFields(s, e);
      } else {
        WorkerFields(s, e);
      }
    }
  }

  lemma {:induction false} CrewStays(s: State, schedule: seq<Step>)
    ensures Crew(s, Exec(s, schedule))
    decreases |schedule|
  {
    if schedule != [] {
      SameCrew(s, schedule[0]);
      hide Next;
      CrewStays(Next(s, schedule[0]), schedule[1..]);
    }
  }

  ghost predicate Carried(s: State, m: Job) {
    exists d: nat :: Holds(s, InDrainer(d), m)
  }

  function One(b: bool): nat {
    if b then 1 else 0
  }

  lemma SameDrainers(s: State, s': State, m: Job)
    requires s'.drainers == s.drainers
    ensures Carried(s', m) <==> Carried(s, m)
  {
    assert forall d: nat :: Holds(s', InDrainer(d), m) <==> Holds(s, InDrainer(d), m);
  }

  lemma OneDrainerChanges(s: State, s': State, loc: Locations, d: nat, m: Job)
    requires Located(s, loc) && d < |s.drainers| && |s'.drainers| == |s.drainers|
    requires s'.drainers == s.drainers[d := s'.drainers[d]]
    requires Holds(s', InDrainer(d), m) ==> Holds(s, InDrainer(d), m) || Holds(s, InDelayed, m)
    ensures One(Carried(s', m)) + One(Holds(s, InDrainer(d), m)) == One(Carried(s, m)) + One(Holds(s', InDrainer(d), m))
  {
    forall c: nat | c != d ensures Holds(s', InDrainer(c), m) <==> Holds(s, InDrainer(c), m) {
    }
    if Holds(s, InDrainer(d), m) || Holds(s, InDelayed, m) {
      assert forall c: nat :: Holds(s, InDrainer(c), m) ==> c == d;
    }
  }

  lemma AccountStep(s: State, loc: Locations, e: Step, m: Job)
    requires Inv(s, loc)
    ensures One(Carried(s, m)) + One(Happens(s, e, m, Removed))
      == One(Carried(Next(s, e), m)) + One(Happens(s, e, m, Pushed)) + One(Happens(s, e, m, Mislaid))
  {
    if Enabled(s, e) && DrainerStep(e) {
      DrainerFields(s, e);
      hide Apply, Books;
      OneDrainerChanges(s, Next(s, e), loc, e.d, m);
      hide Located, Carried;
    } else {
      if Enabled(s, e) && EnqueuerStep(e) {
        EnqueuerFields(s, e);
      } else if Enabled(s, e) {
        WorkerFields(s, e);
      }
      SameDrainers(s, Next(s, e), m);
      hide Inv, Carried, Apply;
    }
  }

  lemma {:induction false} AccountExec(s: State, loc: Locations, schedule: seq<Step>, m: Job)
    requires Inv(s, loc)
    ensures One(Carried(s, m)) + Count(s, schedule, m, Removed)
      == One(Carried(Exec(s, schedule), m)) + Count(s, schedule, m, Pushed) + Count(s, schedule, m, Mislaid)
    decreases |schedule|
  {
    if schedule != [] {
      AccountStep(s, loc, schedule[0], m);
      var loc1 := KeepNext(s, loc, schedule[0]);
      hide Inv, Next, Carried, Happens;
      AccountExec(Next(s, schedule[0]), loc1, schedule[1..], m);
    }
  }

  /** Every removal is followed by exactly one push to the ready list, unless the member is still in
      a scheduler's hand or was mislaid there. */
  lemma RemovedIsPushedOnce(s: State, schedule: seq<Step>, m: Job)
    requires Reachable(s)
    ensures One(Carried(s, m)) + Count(s, schedule, m, Removed)
      == One(Carried(Exec(s, schedule), m)) + Count(s, schedule, m, Pushed) + Count(s, schedule, m, Mislaid)
  {
    var loc := Locate(s);
    AccountExec(s, loc, schedule, m);
  }

  lemma {:induction false} FaultlessMislaysNothing(s: State, schedule: seq<Step>, m: Job)
    requires Faultless(s, schedule)
    ensures Count(s, schedule, m, Mislaid) == 0
    decreases |schedule|
  {
    if schedule != [] {
      assert Happens(s, schedule[0], m, Mislaid) ==> Drops(s, schedule[0]);
      hide Next, Happens, Drops;
      FaultlessMislaysNothing(Next(s, schedule[0]), schedule[1..], m);
    }
  }

  /** Scheduler d neither crashes nor gets an error for a ZREM; the others may do anything. */
  predicate WalksWell(schedule: seq<Step>, d: nat) {
    forall e | e in schedule :: e != Claim(d, false) && e != CrashDrainer(d)
  }

  lemma RestShrinks(s: State, e: Step, d: nat, m: Job)
    requires d < |s.drainers| && m in s.drainers[d].rest && m in s.delayed && m in Next(s, e).delayed
    requires e != Claim(d, false) && e != CrashDrainer(d)
    ensures d < |Next(s, e).drainers| && m in Next(s, e).drainers[d].rest
  {
    if Enabled(s, e) && DrainerStep(e) {
      DrainerFields(s, e);
      OnlyRemovedByClaim(s, e, m);
      hide Apply;
      var x := s.drainers[d];
      assert x.rest == [x.rest[0]] + x.rest[1..];
    } else if Enabled(s, e) && EnqueuerStep(e) {
      EnqueuerFields(s, e);
      hide Apply;
    } else if Enabled(s, e) {
      WorkerFields(s, e);
      hide Apply;
    }
  }

  lemma WaitingIsNotCarried(s: State, loc: Locations, m: Job)
    requires Located(s, loc) && m in s.delayed
    ensures !Carried(s, m)
  {
    assert Holds(s, InDelayed, m);
  }

  lemma {:induction false} WalkFromHere(s: State, loc: Locations, schedule: seq<Step>, d: nat, m: Job)
    requires Inv(s, loc) && d < |s.drainers| && WalksWell(schedule, d)
    requires (m in s.delayed && m in s.drainers[d].rest) || Gone(loc, m)
    ensures var s' := Exec(s, schedule); d < |s'.drainers| && (m in s'.delayed ==> m in s'.drainers[d].rest)
    decreases |schedule|
  {
    if Gone(loc, m) {
      GoneStays(s, loc, loc, m);
    }
    if schedule != [] {
      var e := schedule[0];
      var s1 := Next(s, e);
      assert e in schedule && forall x | x in schedule[1..] :: x in schedule;
      var loc1 := KeepNext(s, loc, e);
      SameCrew(s, e);
      hide Next, Books, Inv;
      if m in s.delayed {
        LeavingIsGone(s, s1, loc, loc1, m);
        if m in s1.delayed {
          RestShrinks(s, e, d, m);
        }
      } else {
        GoneStays(s1, loc, loc1, m);
      }
      hide Located, Gone;
      WalkFromHere(s1, loc1, schedule[1..], d, m);
    }
  }

  /** A scheduler that takes a snapshot and comes to its end with good replies has seen to every
      member that was due: whoever won it, it is gone from the delayed set, removed exactly once,
      and, if nothing was dropped and no scheduler still carries it, pushed exactly once. */
  lemma WalkedMembersAreGone(s: State, d: nat, members: seq<Job>, schedule: seq<Step>, m: Job)
    requires Reachable(s) && Enabled(s, Snapshot(d, members)) && m in s.delayed && Unix(m.nextRunAt) <= Unix(s.clock)
    requires WalksWell(schedule, d)
    ensures var s1 := Next(s, Snapshot(d, members)); var s' := Exec(s1, schedule);
      && |s'.drainers| == |s.drainers|
      && (m !in s'.drainers[d].rest ==>
            && m !in s'.delayed && Count(s1, schedule, m, Removed) == 1
            && (Faultless(s1, schedule) && !Carried(s', m) ==> Count(s1, schedule, m, Pushed) == 1))
  {
    var s1 := Next(s, Snapshot(d, members));
    SnapshotsAreExact(s, m, members);
    var loc := Locate(s);
    var loc1 := KeepNext(s, loc, Snapshot(d, members));
    DrainerFields(s, Snapshot(d, members));
    OnlyRemovedByClaim(s, Snapshot(d, members), m);
    assert s1 == Apply(s, Snapshot(d, members));
    hide Apply;
    WaitingIsNotCarried(s1, loc1, m);
    hide Next, Reachable, Located, Carried;
    WalkFromHere(s1, loc1, schedule, d, m);
    CrewStays(s1, schedule);
    RemovalsFromHere(s1, loc1, schedule, m);
    AccountExec(s1, loc1, schedule, m);
    hide Inv;
    if Faultless(s1, schedule) {
      FaultlessMislaysNothing(s1, schedule, m);
    }
    hide Exec, Count, Faultless;
  }
}
