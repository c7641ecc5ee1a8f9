/** Liveness of the queue: in every infinite run that drops no token and in which workers, schedulers
    and the clock keep going, every job that is ever pushed ends completed or dead-lettered. */
module QueueFairness {
  import opened Jobs
  import opened QueueMachine
  import opened QueueInvariant
  import opened QueueTheorems

  /** At least one scheduler, and for both job types a handler and a worker. */
  ghost predicate Staffed(s: State) {
    |s.drainers| > 0 && forall t: JobType :: t in s.handlers && Served(s, t)
  }

  // ---- infinite runs ----

  type Run = nat -> Step

  /** The state after the first n steps. */
  function At(s: State, run: Run, n: nat): State {
    if n == 0 then s else Next(At(s, run, n - 1), run(n - 1))
  }

  /** Worker w takes a step of its loop. */
  predicate Works(s: State, e: Step, w: nat) {
    Enabled(s, e) && (e.Pop? || e.MarkRunning? || e.Succeed? || e.Fail? || e.Write?) && e.w == w
  }

  /** Worker w waits in BRPOP on an empty list. */
  predicate Blocked(s: State, w: nat) {
    w < |s.workers| && s.workers[w].phase.Idle? && Ready(s, s.workers[w].jobType) == []
  }

  /** Scheduler d takes a step of its loop. */
  predicate Walks(s: State, e: Step, d: nat) {
    Enabled(s, e) && DrainerStep(e) && !e.CrashDrainer? && e.d == d
  }

  /** From the n-th step on worker w takes another step, or is blocked at some time. */
  ghost predicate WorksLater(s: State, run: Run, w: nat, n: nat) {
    exists m: nat :: n <= m && (Works(At(s, run, m), run(m), w) || Blocked(At(s, run, m), w))
  }

  ghost predicate WalksLater(s: State, run: Run, d: nat, n: nat) {
    exists m: nat :: n <= m && Walks(At(s, run, m), run(m), d)
  }

  ghost predicate Passes(s: State, run: Run, n: nat, time: int) {
    exists m: nat :: n <= m && time <= At(s, run, m).clock
  }

  /** The step drops no token. */
  predicate Safe(s: State, e: Step) {
    Enabled(s, e) ==> !Drops(s, e)
  }

  predicate Steady(e: Step, d: nat) {
    e != Claim(d, false) && e != CrashDrainer(d)
  }

  predicate SafeAt(s: State, run: Run, n: nat) {
    Safe(At(s, run, n), run(n))
  }

  ghost predicate Unharmed(s: State, run: Run) {
    forall n: nat :: SafeAt(s, run, n)
  }

  ghost predicate Steadily(run: Run, d: nat) {
    forall n: nat :: Steady(run(n), d)
  }

  /** No token is dropped; no worker and no scheduler rests for ever when it could go on; time goes on;
      and one scheduler neither crashes nor gets an error for a ZREM. Enqueuers, failed updates of
      rows, crashes of workers that hold no token and the other schedulers' errors are free. */
  ghost predicate Fair(s: State, run: Run) {
    && Unharmed(s, run)
    && (forall w: nat, n: nat :: w < |s.workers| ==> WorksLater(s, run, w, n))
    && (forall d: nat, n: nat :: d < |s.drainers| ==> WalksLater(s, run, d, n))
    && (forall n: nat, time: int :: Passes(s, run, n, time))
    && (exists d: nat :: d < |s.drainers| && Steadily(run, d))
  }

  // ---- what a step does to the clock and to the ready lists ----

  predicate SameClockAndLists(s: State, s': State) {
    s'.clock == s.clock && s'.ready == s.ready
  }

  lemma EnqueuersKeep(s: State, e: Step)
    requires Enabled(s, e) && EnqueuerStep(e)
    ensures !e.Tick? ==> Apply(s, e).clock == s.clock
    ensures !e.Push? ==> Apply(s, e).ready == s.ready
  {
    hide Ready, TxRows, NewJob;
    match e
    case Tick(_) =>
    case Insert(_, _, _, _) =>
    case Push(_, _) =>
    case Commit(_) =>
    case Rollback(_) =>
  }

  lemma SchedulersKeep(s: State, e: Step)
    requires Enabled(s, e) && DrainerStep(e)
    ensures Apply(s, e).clock == s.clock
    ensures !e.Repush? ==> Apply(s, e).ready == s.ready
  {
    hide Ready, DueMembers;
    match e
    case Snapshot(_, _) =>
    case Claim(_, _) =>
    case ClaimLost(_) =>
    case Repush(_, _) =>
    case CrashDrainer(_) =>
  }

  lemma FailuresKeep(s: State, w: nat, ok: bool)
    requires w < |s.workers| && s.workers[w].phase.Handling?
    ensures SameClockAndLists(s, DoFail(s, w, ok))
  {
    hide Journal, Unix, Retried, Buried;
  }

  lemma RunsKeep(s: State, e: Step)
    requires Enabled(s, e) && (e.MarkRunning? || e.Succeed? || e.Write?)
    ensures SameClockAndLists(s, Apply(s, e))
  {
    hide Updated, Journal;
    match e
    case MarkRunning(_, _) =>
    case Succeed(_) =>
    case Write(_, _) =>
  }

  lemma HandsKeep(s: State, e: Step)
    requires Enabled(s, e) && TokenStep(e)
    ensures Apply(s, e).clock == s.clock
    ensures e.Discard? || e.CrashWorker? ==> Apply(s, e).ready == s.ready
  {
    hide Ready;
    match e
    case Pop(_) =>
    case PopLost(_) =>
    case Discard(_) =>
    case CrashWorker(_) =>
  }

  /** The clock never goes back, and only pushes and pops touch the ready lists. */
  lemma ClockAndLists(s: State, e: Step)
    requires Enabled(s, e)
    ensures s.clock <= Apply(s, e).clock
    ensures !e.Push? && !e.Repush? && !e.Pop? && !e.PopLost? ==> Apply(s, e).ready == s.ready
  {
    if DrainerStep(e) {
      SchedulersKeep(s, e);
    } else if EnqueuerStep(e) {
      EnqueuersKeep(s, e);
    } else if TokenStep(e) {
      HandsKeep(s, e);
    } else if e.Fail? {
      FailuresKeep(s, e.w, e.redisOk);
      assert Apply(s, e) == DoFail(s, e.w, e.redisOk);
    } else {
      RunsKeep(s, e);
    }
    hide DoFail, DoPush, DoInsert, DoCommit, DoPop, DoPopLost, DoMarkRunning, DoSucceed, DoWrite, DoDropHeld, DoClaim,
        DoClaimLost, DoRepush, DoCrashDrainer, SetDrainer, Enabled;
  }

  /** What a step can do to a ready list: nothing, one LPUSH, or one BRPOP. */
  predicate Listed(q: seq<Job>, q': seq<Job>) {
    q' == q || (q' != [] && q' == [q'[0]] + q) || (q != [] && q' == q[..|q| - 1])
  }

  lemma PushedTo(s: State, j: Job, t: JobType)
    ensures Listed(Ready(s, t), Ready(PushReady(s, j), t))
  {
    hide Listed;
    OnePushed(Ready(s, t), j);
  }

  lemma PushListed(s: State, e: Step, t: JobType)
    requires Enabled(s, e) && (e.Push? || e.Repush?)
    ensures Listed(Ready(s, t), Ready(Apply(s, e), t))
  {
    hide Listed;
    OnePushed(Ready(s, t), if e.Push? then s.txs[e.tx].toPush.value else s.drainers[e.d].job);
    if e.Push? {
      PushedTo(s.(txs := s.txs[e.tx := s.txs[e.tx].(toPush := None)]), s.txs[e.tx].toPush.value, t);
    } else {
      PushedTo(SetDrainer(s, e.d, Draining(s.drainers[e.d].rest)), s.drainers[e.d].job, t);
    }
    hide PushReady;
  }

  lemma OnePushed(q: seq<Job>, j: Job)
    ensures Listed(q, q) && Listed(q, [j] + q)
  {
  }

  lemma PopListed(s: State, e: Step, t: JobType)
    requires Enabled(s, e) && (e.Pop? || e.PopLost?)
    ensures var q, q' := Ready(s, t), Ready(Apply(s, e), t);
      && q' == (if t == s.workers[e.w].jobType then q[..|q| - 1] else q)
      && Listed(q, q')
  {
  }

  lemma ReadyNext(s: State, e: Step, t: JobType)
    requires Enabled(s, e)
    ensures Listed(Ready(s, t), Ready(Apply(s, e), t))
  {
    if e.Push? || e.Repush? {
      PushListed(s, e, t);
    } else if e.Pop? || e.PopLost? {
      PopListed(s, e, t);
    } else {
      ClockAndLists(s, e);
    }
    hide Apply, Enabled;
  }

  /** How many tokens of the list are popped before j. */
  function Ahead(q: seq<Job>, j: Job): nat {
    if q == [] || q[|q| - 1] == j then 0 else 1 + Ahead(q[..|q| - 1], j)
  }

  lemma {:induction false} AheadOfAPush(q: seq<Job>, x: Job, j: Job)
    requires j in q
    ensures Ahead([x] + q, j) == Ahead(q, j)
    decreases |q|
  {
    var p := [x] + q;
    assert p[|p| - 1] == q[|q| - 1] && p[..|p| - 1] == [x] + q[..|q| - 1];
    if q[|q| - 1] != j {
      assert q == q[..|q| - 1] + [q[|q| - 1]];
      AheadOfAPush(q[..|q| - 1], x, j);
    }
  }

  /** A ready token never falls back: pushes go to the other end. */
  lemma AheadNext(q: seq<Job>, q': seq<Job>, j: Job)
    requires Listed(q, q') && NoRepeats(q) && j in q && j in q'
    ensures Ahead(q', j) <= Ahead(q, j)
    ensures |q'| < |q| ==> Ahead(q', j) < Ahead(q, j)
  {
    if |q'| > |q| {
      AheadOfAPush(q, q'[0], j);
    } else if |q'| < |q| {
      assert q[|q| - 1] !in q';
    }
  }

  // ---- what is left for the worker or the scheduler in charge ----

  /** Steps of its loop until a worker is idle. */
  function Busy(p: Phase): nat {
    match p
    case Idle => 0
    case Writing(_, _, _) => 1
    case Handling(_) => 2
    case Popped(_) => 3
  }

  lemma BusyRuns(s: State, e: Step)
    requires Enabled(s, e) && Safe(s, e) && WorkerStep(e) && !e.Pop?
    ensures var s' := Apply(s, e);
      && e.w < |s'.workers|
      && Busy(s'.workers[e.w].phase) <= Busy(s.workers[e.w].phase)
      && (Works(s, e, e.w) ==> Busy(s'.workers[e.w].phase) < Busy(s.workers[e.w].phase))
  {
    hide Updated, Journal, Unix, Retried, Buried, Ready;
    match e
    case PopLost(_) =>
    case Discard(_) =>
    case MarkRunning(_, _) =>
    case Succeed(_) =>
    case Fail(_, _) =>
    case Write(_, _) =>
    case CrashWorker(_) =>
  }

  /** A worker only becomes busier by popping. */
  lemma BusyNext(s: State, e: Step, w: nat)
    requires Enabled(s, e) && Safe(s, e) && w < |s.workers| && !(e.Pop? && e.w == w)
    ensures var s' := Apply(s, e);
      && w < |s'.workers|
      && Busy(s'.workers[w].phase) <= Busy(s.workers[w].phase)
      && (Works(s, e, w) ==> Busy(s'.workers[w].phase) < Busy(s.workers[w].phase))
  {
    if DrainerStep(e) {
      DrainerFields(s, e);
    } else if EnqueuerStep(e) {
      EnqueuerFields(s, e);
    } else if e.w == w {
      BusyRuns(s, e);
    } else {
      WorkerFields(s, e);
    }
    hide Apply, Busy, Enabled, Safe;
  }

  /** Steps of its loop until a scheduler has walked its snapshot. */
  function Errands(x: Drainer): nat {
    2 * |x.rest| + (if x.Claimed? then 1 else 0)
  }

  /** A scheduler that does not crash only gets more errands by a snapshot, when it has none. */
  lemma ErrandsNext(s: State, e: Step, d: nat)
    requires Enabled(s, e) && Steady(e, d) && d < |s.drainers|
    ensures var s' := Apply(s, e);
      && d < |s'.drainers|
      && (!(e.Snapshot? && e.d == d) ==> Errands(s'.drainers[d]) <= Errands(s.drainers[d]))
      && (!(e.Snapshot? && e.d == d) && Walks(s, e, d) ==> Errands(s'.drainers[d]) < Errands(s.drainers[d]))
  {
    if DrainerStep(e) {
      DrainerFields(s, e);
      if e.d != d {
        assert Apply(s, e).drainers[d] == s.drainers[d];
      }
    } else if EnqueuerStep(e) {
      EnqueuerFields(s, e);
    } else {
      WorkerFields(s, e);
    }
    hide Apply;
  }

  // ---- how long a token waits at its place ----

  /** A worker for each type. */
  type Posts = JobType -> nat

  ghost predicate Posted(s: State, posts: Posts) {
    forall t: JobType :: posts(t) < |s.workers| && s.workers[posts(t)].jobType == t
  }

  predicate Early(s: State, j: Job) {
    Unix(s.clock) < Unix(j.nextRunAt)
  }

  /** The tokens ahead on a ready list; before the token's second, before the next snapshot, or in it. */
  function Far(s: State, x: Spot, d: nat): nat {
    match x.place
    case InReady(t) => Ahead(Ready(s, t), x.job)
    case InDelayed => if Early(s, x.job) then 2 else if d < |s.drainers| && x.job in s.drainers[d].rest then 0 else 1
    case _ => 0
  }

  /** What the one in charge has to do before it comes to the token, or to the next before it. */
  function Near(s: State, x: Spot, posts: Posts, d: nat): nat {
    match x.place
    case InReady(t) => if posts(t) < |s.workers| then Busy(s.workers[posts(t)].phase) else 0
    case InDelayed => if Early(s, x.job) || d >= |s.drainers| then 0 else Errands(s.drainers[d])
    case _ => 0
  }

  predicate Before(a: nat, b: nat, a': nat, b': nat) {
    a < a' || (a == a' && b < b')
  }

  /** The step of the one in charge. */
  predicate Helps(s: State, e: Step, x: Spot, posts: Posts, d: nat) {
    match x.place
    case InReady(t) => Works(s, e, posts(t))
    case InDelayed => !Early(s, x.job) && Walks(s, e, d)
    case InHand(w) => Works(s, e, w)
    case InHandler(w) => Works(s, e, w)
    case InDrainer(c) => Walks(s, e, c)
    case _ => false
  }

  /** From s to s' the token stays at x and waits no longer than before; less, if it was helped. */
  predicate Shortens(s: State, s': State, x: Spot, posts: Posts, d: nat, helped: bool) {
    && !Before(Far(s, x, d), Near(s, x, posts, d), Far(s', x, d), Near(s', x, posts, d))
    && (helped ==> Before(Far(s', x, d), Near(s', x, posts, d), Far(s, x, d), Near(s, x, posts, d)))
  }

  lemma {:induction false} AheadStep(s: State, loc: Locations, e: Step, t: JobType, j: Job)
    requires Located(s, loc) && Enabled(s, e)
    requires Holds(s, InReady(t), j) && Holds(Apply(s, e), InReady(t), j)
    ensures Ahead(Ready(Apply(s, e), t), j) <= Ahead(Ready(s, t), j)
    ensures e.Pop? && s.workers[e.w].jobType == t ==> Ahead(Ready(Apply(s, e), t), j) < Ahead(Ready(s, t), j)
  {
    ReadyNext(s, e, t);
    if e.Pop? {
      PopListed(s, e, t);
    }
    hide Apply, Enabled, Ready;
    AheadNext(Ready(s, t), Ready(Apply(s, e), t), j);
  }

  lemma ReadyShortens(s: State, s': State, t: JobType, j: Job, posts: Posts, d: nat, helped: bool)
    requires posts(t) < |s.workers| == |s'.workers|
    requires var a, a' := Ahead(Ready(s, t), j), Ahead(Ready(s', t), j);
      var b, b' := Busy(s.workers[posts(t)].phase), Busy(s'.workers[posts(t)].phase);
      a' < a || (a' == a && b' <= b && (helped ==> b' < b))
    ensures Shortens(s, s', Spot(InReady(t), j), posts, d, helped)
  {
    hide Ahead, Busy, Ready;
  }

  lemma {:induction false} ReadyWaits(s: State, loc: Locations, e: Step, t: JobType, j: Job, posts: Posts, d: nat)
    requires Located(s, loc) && Posted(s, posts) && Enabled(s, e) && Safe(s, e)
    requires Holds(s, InReady(t), j) && Holds(Apply(s, e), InReady(t), j)
    ensures Shortens(s, Apply(s, e), Spot(InReady(t), j), posts, d, Works(s, e, posts(t)))
  {
    hide Holds, Apply, Ready, Ahead, Busy, Safe, Located, Enabled, Works, Shortens;
    var w := posts(t);
    assert w < |s.workers| && s.workers[w].jobType == t;
    SameCrew(s, e);
    assert Next(s, e) == Apply(s, e);
    hide Posted, Next, Crew;
    AheadStep(s, loc, e, t, j);
    if !(e.Pop? && e.w == w) {
      BusyNext(s, e, w);
    }
    ReadyShortens(s, Apply(s, e), t, j, posts, d, Works(s, e, w));
  }

  lemma HandIsLeft(s: State, e: Step)
    requires Enabled(s, e) && (e.MarkRunning? || e.Succeed? || e.Fail?)
    ensures var s' := Apply(s, e);
      && e.w < |s'.workers|
      && (e.MarkRunning? ==> s'.workers[e.w].phase.Handling?) && (!e.MarkRunning? ==> s'.workers[e.w].phase.Writing?)
  {
    hide Updated, Journal, Unix, Retried, Buried;
    match e
    case MarkRunning(_, _) =>
    case Succeed(_) =>
    case Fail(_, _) =>
  }

  lemma HeldWaits(s: State, e: Step, x: Spot, posts: Posts, d: nat)
    requires x.place.InHand? || x.place.InHandler? || x.place.InDrainer?
    requires Enabled(s, e) && Holds(s, x.place, x.job) && Holds(Apply(s, e), x.place, x.job)
    ensures Shortens(s, Apply(s, e), x, posts, d, Helps(s, e, x, posts, d))
  {
    if Helps(s, e, x, posts, d) {
      match x.place
      case InHand(w) => HandIsLeft(s, e);
      case InHandler(w) => HandIsLeft(s, e);
      case InDrainer(c) => DrainerFields(s, e);
      hide Apply;
    }
  }

  lemma StillToWalk(s: State, e: Step, d: nat, m: Job)
    requires Enabled(s, e) && Steady(e, d) && d < |s.drainers| && m !in s.drainers[d].rest
    requires !(e.Snapshot? && e.d == d)
    ensures d < |Apply(s, e).drainers| && m !in Apply(s, e).drainers[d].rest
  {
    if DrainerStep(e) {
      DrainerFields(s, e);
    } else if EnqueuerStep(e) {
      EnqueuerFields(s, e);
    } else {
      WorkerFields(s, e);
    }
    hide Apply;
  }

  /** A due member that is not yet removed: the scheduler takes a snapshot, or walks on. */
  lemma DueShortens(s: State, s': State, m: Job, posts: Posts, d: nat, helped: bool)
    requires !Early(s, m) && !Early(s', m) && d < |s.drainers| && d < |s'.drainers|
    requires var x, x' := s.drainers[d], s'.drainers[d];
      || (x == Draining([]) && m in x'.rest)
      || ((m in x.rest <==> m in x'.rest) && Errands(x') <= Errands(x) && (helped ==> Errands(x') < Errands(x)))
    ensures Shortens(s, s', Spot(InDelayed, m), posts, d, helped)
  {
    hide Early, Errands;
  }

  lemma DueWaits(s: State, e: Step, m: Job, posts: Posts, d: nat)
    requires Enabled(s, e) && Steady(e, d) && d < |s.drainers| && !Early(s, m) && !Early(Apply(s, e), m)
    requires m in s.delayed && s.delayed[m] == Unix(m.nextRunAt) && m in Apply(s, e).delayed
    ensures Shortens(s, Apply(s, e), Spot(InDelayed, m), posts, d, Walks(s, e, d))
  {
    var s' := Apply(s, e);
    hide Apply, Shortens, Walks;
    if e.Snapshot? && e.d == d {
      DrainerFields(s, e);
      assert m in e.members;
      assert s.drainers[d] == Draining([]);
    } else {
      hide Enabled, Early, DueMembers;
      ErrandsNext(s, e, d);
      if m in s.drainers[d].rest {
        assert Next(s, e) == s';
        RestShrinks(s, e, d, m);
      } else {
        StillToWalk(s, e, d, m);
      }
    }
    hide Steady, Early, Errands, DueMembers, Enabled, Next;
    DueShortens(s, s', m, posts, d, Walks(s, e, d));
  }

  /** Before its second, the token waits for the clock. */
  lemma EarlyShortens(s: State, s': State, m: Job, posts: Posts, d: nat)
    requires Early(s, m)
    ensures Shortens(s, s', Spot(InDelayed, m), posts, d, false)
  {
    hide Errands, Early;
  }

  lemma DelayedWaits(s: State, loc: Locations, e: Step, m: Job, posts: Posts, d: nat)
    requires Inv(s, loc) && Enabled(s, e) && Steady(e, d) && d < |s.drainers|
    requires m in s.delayed && m in Apply(s, e).delayed
    ensures Shortens(s, Apply(s, e), Spot(InDelayed, m), posts, d, !Early(s, m) && Walks(s, e, d))
  {
    hide Inv, Apply, Enabled, Shortens;
    assert Holds(s, InDelayed, m);
    assert m.id in loc && loc[m.id] == Spot(InDelayed, m) by { Whereabouts(s, loc, InDelayed, m); }
    SpotFacts(s, loc, m.id);
    if Early(s, m) {
      EarlyShortens(s, Apply(s, e), m, posts, d);
    } else {
      ClockAndLists(s, e);
      assert !Early(Apply(s, e), m);
      DueWaits(s, e, m, posts, d);
    }
  }

  lemma Whereabouts(s: State, loc: Locations, p: Place, j: Job)
    requires Inv(s, loc) && Holds(s, p, j)
    ensures j.id in loc && loc[j.id] == Spot(p, j)
  {
  }

  lemma SpotWaits(s: State, loc: Locations, e: Step, x: Spot, posts: Posts, d: nat)
    requires Inv(s, loc) && Posted(s, posts) && Enabled(s, e) && Safe(s, e) && Steady(e, d) && d < |s.drainers|
    requires Holds(s, x.place, x.job) && Holds(Apply(s, e), x.place, x.job) && Rank(x) > 0
    ensures Shortens(s, Apply(s, e), x, posts, d, Helps(s, e, x, posts, d))
  {
    hide Apply, Books, Shortens, Safe, Enabled;
    match x.place
    case InReady(t) => ReadyWaits(s, loc, e, t, x.job, posts, d);
    case InDelayed => DelayedWaits(s, loc, e, x.job, posts, d);
    case InHand(_) => HeldWaits(s, e, x, posts, d);
    case InHandler(_) => HeldWaits(s, e, x, posts, d);
    case InDrainer(_) => HeldWaits(s, e, x, posts, d);
  }

  /** Nothing happens, and nobody helps. */
  lemma NothingShortens(s: State, e: Step, x: Spot, posts: Posts, d: nat)
    requires !Enabled(s, e)
    ensures Shortens(s, s, x, posts, d, Helps(s, e, x, posts, d))
  {
    hide Far, Near, Enabled;
  }

  /** A step that drops nothing, and is not one of the reliable scheduler's failures: the token moves
      on, or it waits no longer than before, and less if the one in charge took the step. */
  lemma {:induction false} StepWaits(s: State, loc: Locations, e: Step, id: JobId, posts: Posts, d: nat)
      returns (loc': Locations)
    requires Inv(s, loc) && Posted(s, posts) && Safe(s, e) && Steady(e, d) && d < |s.drainers| && id in loc
    ensures Inv(Next(s, e), loc') && Advances(loc, loc')
    ensures loc'[id] == loc[id] && Rank(loc[id]) > 0 ==>
      Shortens(s, Next(s, e), loc[id], posts, d, Helps(s, e, loc[id], posts, d))
  {
    loc' := KeepNext(s, loc, e);
    var x := loc[id];
    SpotFacts(s, loc, id);
    hide Books, Shortens, Safe, Enabled, Apply, Rank, Helps;
    if loc'[id] == x && Rank(x) > 0 {
      assert Holds(s, x.place, x.job) && Holds(Next(s, e), x.place, x.job);
      hide Holds;
      if Enabled(s, e) {
        SpotWaits(s, loc, e, x, posts, d);
      } else {
        NothingShortens(s, e, x, posts, d);
      }
    }
  }

  // ---- every fair run ----

  lemma {:induction false} AtCrew(s: State, run: Run, n: nat)
    ensures Crew(s, At(s, run, n))
  {
    if n > 0 {
      AtCrew(s, run, n - 1);
      SameCrew(At(s, run, n - 1), run(n - 1));
    }
  }

  /** The run is fair, d is the scheduler to rely on, and posts the workers. */
  ghost predicate Guided(s: State, run: Run, posts: Posts, d: nat) {
    Fair(s, run) && Posted(s, posts) && d < |s.drainers| && Steadily(run, d)
  }

  lemma {:induction false} GuidedNow(s: State, run: Run, posts: Posts, d: nat, n: nat)
    requires Guided(s, run, posts, d)
    ensures var s1 := At(s, run, n);
      Posted(s1, posts) && d < |s1.drainers| && Safe(s1, run(n)) && Steady(run(n), d)
  {
    AtCrew(s, run, n);
    assert SafeAt(s, run, n);
    hide At, Safe, Steady;
  }

  /** At step k the token is no longer at x, or waits for something else than at step n, or is helped. */
  ghost predicate HelpedAt(s: State, run: Run, posts: Posts, d: nat, x: Spot, far: nat, near: nat, k: nat) {
    var s1 := At(s, run, k);
    Holds(s1, x.place, x.job) && Far(s1, x, d) == far && Near(s1, x, posts, d) == near ==>
      Helps(s1, run(k), x, posts, d)
  }

  /** Fairness, for a token that is short of its end. */
  lemma {:induction false} HelpComes(s: State, run: Run, posts: Posts, d: nat, n: nat, loc: Locations, x: Spot)
      returns (k: nat)
    requires Guided(s, run, posts, d) && Located(At(s, run, n), loc) && Holds(At(s, run, n), x.place, x.job)
    requires Rank(x) > 0
    ensures n <= k && var s1 := At(s, run, n); HelpedAt(s, run, posts, d, x, Far(s1, x, d), Near(s1, x, posts, d), k)
  {
    AtCrew(s, run, n);
    hide At;
    match x.place
    case InReady(t) =>
      assert WorksLater(s, run, posts(t), n);
      k :| n <= k && (Works(At(s, run, k), run(k), posts(t)) || Blocked(At(s, run, k), posts(t)));
      AtCrew(s, run, k);
    case InDelayed =>
      if Early(At(s, run, n), x.job) {
        assert Passes(s, run, n, x.job.nextRunAt);
        k :| n <= k && x.job.nextRunAt <= At(s, run, k).clock;
      } else {
        assert WalksLater(s, run, d, n);
        k :| n <= k && Walks(At(s, run, k), run(k), d);
      }
    case InHand(w) =>
      assert WorksLater(s, run, w, n);
      k :| n <= k && (Works(At(s, run, k), run(k), w) || Blocked(At(s, run, k), w));
    case InHandler(w) =>
      assert WorksLater(s, run, w, n);
      k :| n <= k && (Works(At(s, run, k), run(k), w) || Blocked(At(s, run, k), w));
    case InDrainer(c) =>
      assert WalksLater(s, run, c, n);
      k :| n <= k && Walks(At(s, run, k), run(k), c);
  }

  lemma {:induction false} ComesToRest(s: State, run: Run, posts: Posts, d: nat, n: nat, loc: Locations, id: JobId)
      returns (m: nat, loc': Locations)
    requires Guided(s, run, posts, d) && Inv(At(s, run, n), loc) && id in loc
    ensures n <= m && Inv(At(s, run, m), loc') && id in loc' && Rank(loc'[id]) == 0
    decreases Rank(loc[id]), Far(At(s, run, n), loc[id], d), Near(At(s, run, n), loc[id], posts, d), 1, 0
  {
    if Rank(loc[id]) == 0 {
      m, loc' := n, loc;
    } else {
      SpotFacts(At(s, run, n), loc, id);
      assert Holds(At(s, run, n), loc[id].place, loc[id].job);
      hide Guided, At, Books, HelpedAt;
      var k := HelpComes(s, run, posts, d, n, loc, loc[id]);
      m, loc' := Towards(s, run, posts, d, n, loc, id, k);
    }
  }

  /** From step n to the helpful step k, unless the token gets on before. */
  lemma {:induction false} Towards(s: State, run: Run, posts: Posts, d: nat, n: nat, loc: Locations, id: JobId, k: nat)
      returns (m: nat, loc': Locations)
    requires Guided(s, run, posts, d) && Inv(At(s, run, n), loc) && id in loc && Rank(loc[id]) > 0 && n <= k
    requires var s1 := At(s, run, n); var x := loc[id];
      HelpedAt(s, run, posts, d, x, Far(s1, x, d), Near(s1, x, posts, d), k)
    ensures n <= m && Inv(At(s, run, m), loc') && id in loc' && Rank(loc'[id]) == 0
    decreases Rank(loc[id]), Far(At(s, run, n), loc[id], d), Near(At(s, run, n), loc[id], posts, d), 0, k - n
  {
    var s1, x := At(s, run, n), loc[id];
    GuidedNow(s, run, posts, d, n);
    var loc1 := StepWaits(s1, loc, run(n), id, posts, d);
    SpotFacts(s1, loc, id);
    assert Holds(s1, x.place, x.job);
    var s2 := At(s, run, n + 1);
    assert s2 == Next(s1, run(n));
    hide Guided, At, Inv, Next, Holds, Far, Near, Helps, Rank;
    if loc1[id] == x && Far(s2, x, d) == Far(s1, x, d) && Near(s2, x, posts, d) == Near(s1, x, posts, d) {
      assert n != k;
      m, loc' := Towards(s, run, posts, d, n + 1, loc1, id, k);
    } else {
      m, loc' := ComesToRest(s, run, posts, d, n + 1, loc1, id);
    }
  }

  lemma SafeKeepsLost(s: State, e: Step)
    requires Safe(s, e)
    ensures Next(s, e).lost == s.lost
  {
    hide Apply, Drops, Enabled;
    if Enabled(s, e) {
      OnlyDropsLose(s, e);
    }
  }

  lemma {:induction false} AtLosesNothing(s: State, run: Run, n: nat)
    requires Unharmed(s, run)
    ensures At(s, run, n).lost == s.lost
  {
    hide Safe, Next;
    if n > 0 {
      AtLosesNothing(s, run, n - 1);
      assert SafeAt(s, run, n - 1);
      SafeKeepsLost(At(s, run, n - 1), run(n - 1));
    }
  }

  lemma AtNext(s: State, run: Run, n: nat)
    ensures At(s, run, n + 1) == Next(At(s, run, n), run(n))
  {
    hide Next;
  }

  lemma {:induction false} RestsForGood(s: State, run: Run, n: nat, loc: Locations, id: JobId, m: nat)
      returns (loc': Locations)
    requires Inv(At(s, run, n), loc) && id in loc && Rank(loc[id]) == 0 && n <= m
    ensures Inv(At(s, run, m), loc') && id in loc' && loc'[id] == loc[id]
    decreases m - n
  {
    hide Inv, At, Next, Rank;
    loc' := loc;
    if n < m {
      var loc1 := KeepNext(At(s, run, n), loc, run(n));
      AtNext(s, run, n);
      loc' := RestsForGood(s, run, n + 1, loc1, id, m);
    }
  }

  /** The job has completed, or it is in the dead-letter list after MaxRetries runs. */
  ghost predicate Ended(s: State, id: JobId) {
    exists j: Job :: j.id == id && (j in s.done || (j in s.dlq && j.attempts == MAX_RETRIES))
  }

  ghost predicate EndedAt(s: State, run: Run, id: JobId, m: nat) {
    Ended(At(s, run, m), id)
  }

  ghost predicate EndsBy(s: State, run: Run, id: JobId, n: nat) {
    forall m: nat :: n <= m ==> EndedAt(s, run, id, m)
  }

  lemma {:induction false} AtInv(s: State, loc: Locations, run: Run, n: nat) returns (loc': Locations)
    requires Inv(s, loc)
    ensures Inv(At(s, run, n), loc') && loc.Keys <= loc'.Keys
  {
    loc' := loc;
    if n > 0 {
      var loc1 := AtInv(s, loc, run, n - 1);
      loc' := KeepNext(At(s, run, n - 1), loc1, run(n - 1));
    }
  }

  lemma RestIsEnd(s: State, loc: Locations, id: JobId)
    requires Inv(s, loc) && id in loc && Rank(loc[id]) == 0 && !WasLost(s, id)
    ensures Ended(s, id)
  {
    SpotFacts(s, loc, id);
    assert Holds(s, loc[id].place, loc[id].job);
  }

  lemma WorkerFor(s: State, t: JobType) returns (w: nat)
    requires Staffed(s)
    ensures w < |s.workers| && s.workers[w].jobType == t
  {
    assert Served(s, t);
    var v :| 0 <= v < |s.workers| && s.workers[v].jobType == t;
    w := v;
  }

  lemma Guide(s: State, run: Run) returns (posts: Posts, d: nat)
    requires Staffed(s) && Fair(s, run)
    ensures Guided(s, run, posts, d)
  {
    var a := WorkerFor(s, Transcribe);
    var b := WorkerFor(s, Summarize);
    posts := t => if t == Transcribe then a else b;
    d :| d < |s.drainers| && Steadily(run, d);
  }

  lemma PushedHasAPlace(s: State, loc: Locations, id: JobId)
    requires Inv(s, loc) && id in s.pushed
    ensures id in loc
  {
  }

  lemma {:induction false} StillEnded(s: State, run: Run, n: nat, loc: Locations, id: JobId, m: nat)
    requires Fair(s, run) && Inv(At(s, run, n), loc) && id in loc && Rank(loc[id]) == 0 && n <= m && !WasLost(s, id)
    ensures Ended(At(s, run, m), id)
  {
    hide Inv, At;
    var loc1 := RestsForGood(s, run, n, loc, id, m);
    AtLosesNothing(s, run, m);
    hide Ended;
    RestIsEnd(At(s, run, m), loc1, id);
  }

  ghost predicate WasLost(s: State, id: JobId) {
    exists j: Job :: j in s.lost && j.id == id
  }

  /** In every fair run, from every reachable state, every job that is pushed at any time comes to its
      end, and has ended for good, unless it was lost before the run. */
  lemma {:induction false} FairRunsEndEveryJob(s: State, run: Run, k: nat, id: JobId)
    requires Reachable(s) && Staffed(s) && Fair(s, run) && id in At(s, run, k).pushed
    ensures WasLost(s, id) || exists n: nat :: EndsBy(s, run, id, n)
  {
    var posts, d := Guide(s, run);
    var loc := Locate(s);
    hide Inv, Fair, At, Reachable, Staffed, Guided, Rank, Ended;
    var locK := AtInv(s, loc, run, k);
    PushedHasAPlace(At(s, run, k), locK, id);
    if !WasLost(s, id) {
      var n, loc1 := ComesToRest(s, run, posts, d, k, locK, id);
      forall m: nat | n <= m ensures EndedAt(s, run, id, m) {
        StillEnded(s, run, n, loc1, id, m);
      }
      assert EndsBy(s, run, id, n);
    }
  }
}
