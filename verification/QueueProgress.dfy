/** Fair runs exist: from every state with the staff for it, and whatever the handlers return, the
    workers, the schedulers and the clock can take turns for ever without a fault. */
module QueueProgress {
  import opened Jobs
  import opened QueueMachine
  import opened QueueInvariant
  import opened QueueTheorems
  import opened QueueFairness

  /** Every reply arrives and is good, nobody crashes and every transaction commits. */
  predicate NoFault(e: Step) {
    match e
    case Push(_, ok) => ok
    case Rollback(_) => false
    case PopLost(_) => false
    case Discard(_) => false
    case MarkRunning(_, ok) => ok
    case Fail(_, ok) => ok
    case Write(_, ok) => ok
    case CrashWorker(_) => false
    case Claim(_, ok) => ok
    case ClaimLost(_) => false
    case Repush(_, ok) => ok
    case CrashDrainer(_) => false
    case _ => true
  }

  /** The handlers' behaviour: which runs of which tokens succeed. */
  type Outcomes = Job -> bool

  predicate Follows(s: State, e: Step, good: Outcomes) {
    && Enabled(s, e) && NoFault(e)
    && (e.Succeed? ==> good(s.workers[e.w].phase.job))
    && (e.Fail? ==> !good(s.workers[e.w].phase.job))
  }

  /** Every step can be taken, goes well, and a handler returns what it is said to return. */
  predicate Smooth(s: State, schedule: seq<Step>, good: Outcomes)
    decreases |schedule|
  {
    schedule == [] || (Follows(s, schedule[0], good) && Smooth(Next(s, schedule[0]), schedule[1..], good))
  }

  lemma {:induction false} SmoothThen(s: State, a: seq<Step>, b: seq<Step>, good: Outcomes)
    requires Smooth(s, a, good) && Smooth(Exec(s, a), b, good)
    ensures Smooth(s, a + b, good)
    decreases |a|
  {
    if a == [] {
      assert a + b == b;
    } else {
      assert (a + b)[0] == a[0] && (a + b)[1..] == a[1..] + b;
      hide Next, Follows;
      SmoothThen(Next(s, a[0]), a[1..], b, good);
    }
  }

  // ---- there is a fair run ----

  /** The worker's next step. */
  function WorkerNext(s: State, w: nat, good: Outcomes): Step
    requires w < |s.workers|
  {
    match s.workers[w].phase
    case Idle => if Ready(s, s.workers[w].jobType) == [] then Tick(0) else Pop(w)
    case Popped(_) => MarkRunning(w, true)
    case Handling(j) => if good(j) then Succeed(w) else Fail(w, true)
    case Writing(_, _, _) => Write(w, true)
  }

  lemma {:induction false} Least(delayed: map<Job, int>, xs: set<Job>) returns (m: Job)
    requires xs != {} && xs <= delayed.Keys
    ensures m in xs && forall x | x in xs :: delayed[m] <= delayed[x]
    decreases |xs|
  {
    m :| m in xs;
    var rest := xs - {m};
    assert xs == rest + {m};
    if rest != {} {
      var n := Least(delayed, rest);
      m := if delayed[n] < delayed[m] then n else m;
    }
  }

  lemma {:induction false} Ascending(delayed: map<Job, int>, xs: set<Job>) returns (q: seq<Job>)
    requires xs <= delayed.Keys
    ensures forall x :: x in q <==> x in xs
    ensures forall i, k :: 0 <= i < k < |q| ==> q[i] != q[k] && delayed[q[i]] <= delayed[q[k]]
    decreases |xs|
  {
    if xs == {} {
      q := [];
    } else {
      var m := Least(delayed, xs);
      var rest := Ascending(delayed, xs - {m});
      q := [m] + rest;
      assert forall x | x in rest :: x in xs && x != m;
    }
  }

  /** Some reply to ZRANGEBYSCORE. */
  ghost function Members(s: State): (members: seq<Job>)
    ensures DueMembers(s, members)
  {
    assert exists q :: DueMembers(s, q) by {
      var q := Ascending(s.delayed, set m | m in s.delayed && s.delayed[m] <= Unix(s.clock));
      assert DueMembers(s, q);
    }
    var q :| DueMembers(s, q);
    q
  }

  /** The scheduler's next step. */
  ghost function SchedulerNext(s: State, d: nat): Step
    requires d < |s.drainers|
  {
    match s.drainers[d]
    case Claimed(_, _) => Repush(d, true)
    case Draining(rest) => if rest == [] then Snapshot(d, Members(s)) else Claim(d, true)
  }

  /** The workers, then the schedulers, then a second of the clock. */
  function Parties(s: State): nat {
    |s.workers| + |s.drainers| + 1
  }

  ghost function Turn(s: State, i: nat, good: Outcomes): Step {
    if i < |s.workers| then WorkerNext(s, i, good)
    else if i < |s.workers| + |s.drainers| then SchedulerNext(s, i - |s.workers|)
    else Tick(SECOND)
  }

  lemma TurnFollows(s: State, i: nat, good: Outcomes)
    requires Staffed(s)
    ensures var e := Turn(s, i, good);
      && Follows(s, e, good) && Safe(s, e) && forall d: nat :: Steady(e, d)
  {
    hide DueMembers, Served;
  }

  lemma TurnTakes(s: State, i: nat, good: Outcomes)
    requires Staffed(s)
    ensures i < |s.workers| ==> Works(s, Turn(s, i, good), i) || Blocked(s, i)
    ensures |s.workers| <= i < |s.workers| + |s.drainers| ==> Walks(s, Turn(s, i, good), i - |s.workers|)
  {
    hide DueMembers, Served;
  }

  /** Whose turn it is at step n. */
  function Slot(n: nat, parties: nat): (i: nat)
    requires parties > 0
    ensures i < parties
  {
    if n == 0 then 0 else
      var i := Slot(n - 1, parties);
      if i + 1 == parties then 0 else i + 1
  }

  lemma {:induction false} SlotComes(n: nat, parties: nat, i: nat) returns (m: nat)
    requires i < parties
    ensures n <= m && Slot(m, parties) == i
    decreases if Slot(n, parties) <= i then i - Slot(n, parties) else parties + i - Slot(n, parties)
  {
    m := n;
    if Slot(n, parties) != i {
      m := SlotComes(n + 1, parties, i);
    }
  }

  /** The state after n turns in order. */
  ghost function Robin(s: State, good: Outcomes, n: nat): State {
    if n == 0 then s
    else var s1 := Robin(s, good, n - 1); Next(s1, Turn(s1, Slot(n - 1, Parties(s)), good))
  }

  ghost function RoundRobin(s: State, good: Outcomes): Run {
    (n: nat) => Turn(Robin(s, good, n), Slot(n, Parties(s)), good)
  }

  lemma {:induction false} RobinAt(s: State, good: Outcomes, n: nat)
    ensures At(s, RoundRobin(s, good), n) == Robin(s, good, n)
  {
    hide Turn, Next, Slot, Parties;
    if n > 0 {
      RobinAt(s, good, n - 1);
      assert RoundRobin(s, good)(n - 1) == Turn(Robin(s, good, n - 1), Slot(n - 1, Parties(s)), good);
    }
  }

  lemma StaffStays(s: State, s': State)
    requires Staffed(s) && Crew(s, s')
    ensures Staffed(s')
  {
    forall t: JobType ensures Served(s', t) {
      assert Served(s, t);
      var w :| 0 <= w < |s.workers| && s.workers[w].jobType == t;
      assert s'.workers[w].jobType == t;
    }
  }

  /** At step n of the round robin it is the turn of party Slot(n). */
  lemma {:induction false} RobinTurn(s: State, good: Outcomes, n: nat)
    requires Staffed(s)
    ensures var run := RoundRobin(s, good); var s1 := At(s, run, n); var i := Slot(n, Parties(s));
      && Staffed(s1) && Crew(s, s1)
      && run(n) == Turn(s1, i, good) && Follows(s1, run(n), good) && Safe(s1, run(n))
      && (forall d: nat :: Steady(run(n), d))
      && (i < |s.workers| ==> Works(s1, run(n), i) || Blocked(s1, i))
      && (|s.workers| <= i < |s.workers| + |s.drainers| ==> Walks(s1, run(n), i - |s.workers|))
  {
    hide At, Robin, Turn, Slot, Staffed, Follows, Safe, Works, Walks, Blocked, Steady;
    var run := RoundRobin(s, good);
    var s1, i := At(s, run, n), Slot(n, Parties(s));
    RobinAt(s, good, n);
    AtCrew(s, run, n);
    StaffStays(s, s1);
    TurnFollows(s1, i, good);
    TurnTakes(s1, i, good);
  }

  lemma ClockNext(s: State, e: Step)
    ensures s.clock <= Next(s, e).clock
  {
    hide Apply, Enabled;
    if Enabled(s, e) {
      ClockAndLists(s, e);
    }
  }

  lemma {:induction false} ClockGoesOn(s: State, run: Run, n: nat, m: nat)
    requires n <= m
    ensures At(s, run, n).clock <= At(s, run, m).clock
    decreases m
  {
    hide At, Next;
    if n < m {
      ClockGoesOn(s, run, n, m - 1);
      AtNext(s, run, m - 1);
      ClockNext(At(s, run, m - 1), run(m - 1));
    }
  }

  lemma {:induction false} LastTurn(s: State, good: Outcomes, n: nat)
    requires Slot(n, Parties(s)) == Parties(s) - 1
    ensures RoundRobin(s, good)(n) == Tick(SECOND)
  {
    RobinAt(s, good, n);
    AtCrew(s, RoundRobin(s, good), n);
    hide At, Robin, Slot, WorkerNext, SchedulerNext;
  }

  lemma ClockTicks(s: State)
    ensures Next(s, Tick(SECOND)).clock == s.clock + SECOND
  {
  }

  /** The clock's turn comes. */
  lemma {:induction false} SecondComes(s: State, good: Outcomes, n: nat) returns (m: nat)
    ensures n < m && At(s, RoundRobin(s, good), n).clock + SECOND <= At(s, RoundRobin(s, good), m).clock
  {
    hide At, Next, RoundRobin, Slot;
    var run := RoundRobin(s, good);
    var k := SlotComes(n, Parties(s), Parties(s) - 1);
    LastTurn(s, good, k);
    ClockGoesOn(s, run, n, k);
    AtNext(s, run, k);
    ClockTicks(At(s, run, k));
    m := k + 1;
  }

  lemma {:induction false} RobinPasses(s: State, good: Outcomes, n: nat, time: int)
    requires Staffed(s)
    ensures Passes(s, RoundRobin(s, good), n, time)
    decreases if time <= At(s, RoundRobin(s, good), n).clock then 0 else time - At(s, RoundRobin(s, good), n).clock
  {
    var run := RoundRobin(s, good);
    if time > At(s, run, n).clock {
      var m := SecondComes(s, good, n);
      hide At, RoundRobin;
      RobinPasses(s, good, m, time);
    }
  }

  /** From every state with the staff for it, whatever the handlers are to return, some run is fair,
      and everything goes well in it. */
  lemma {:induction false} SomeRunIsFair(s: State, good: Outcomes) returns (run: Run)
    requires Staffed(s)
    ensures Fair(s, run)
    ensures forall n: nat :: Follows(At(s, run, n), run(n), good)
  {
    hide At, RoundRobin, Slot, Turn, Works, Walks, Blocked, Safe, Follows, Crew;
    run := RoundRobin(s, good);
    forall n: nat ensures SafeAt(s, run, n) && Follows(At(s, run, n), run(n), good) && Steady(run(n), 0) {
      RobinTurn(s, good, n);
    }
    forall w: nat, n: nat | w < |s.workers| ensures WorksLater(s, run, w, n) {
      var m := SlotComes(n, Parties(s), w);
      RobinTurn(s, good, m);
    }
    forall d: nat, n: nat | d < |s.drainers| ensures WalksLater(s, run, d, n) {
      var m := SlotComes(n, Parties(s), |s.workers| + d);
      RobinTurn(s, good, m);
    }
    forall n: nat, time: int ensures Passes(s, run, n, time) {
      RobinPasses(s, good, n, time);
    }
    assert Steadily(run, 0);
  }

  /** The first n steps. */
  function Prefix(run: Run, n: nat): seq<Step> {
    if n == 0 then [] else Prefix(run, n - 1) + [run(n - 1)]
  }

  lemma AtStart(s: State, run: Run)
    ensures At(s, run, 0) == s
  {
  }

  lemma OneMore(s: State, a: seq<Step>, e: Step, good: Outcomes)
    requires Smooth(s, a, good) && Follows(Exec(s, a), e, good)
    ensures Smooth(s, a + [e], good) && Exec(s, a + [e]) == Next(Exec(s, a), e)
  {
    hide Next, Follows;
    var s1 := Exec(s, a);
    assert [e][0] == e && [e][1..] == [];
    assert Exec(s1, [e]) == Exec(Next(s1, e), []) == Next(s1, e);
    assert Smooth(Next(s1, e), [], good) && Smooth(s1, [e], good);
    SmoothThen(s, a, [e], good);
    ExecSplit(s, a, [e]);
  }

  lemma {:induction false} PrefixRuns(s: State, run: Run, n: nat, good: Outcomes)
    requires forall m: nat :: Follows(At(s, run, m), run(m), good)
    ensures Smooth(s, Prefix(run, n), good) && Exec(s, Prefix(run, n)) == At(s, run, n)
  {
    hide Next, Follows, At;
    if n > 0 {
      PrefixRuns(s, run, n - 1, good);
      AtNext(s, run, n - 1);
      OneMore(s, Prefix(run, n - 1), run(n - 1), good);
    } else {
      AtStart(s, run);
    }
  }

  lemma {:induction false} SmoothLosesNothing(s: State, schedule: seq<Step>, good: Outcomes)
    requires Smooth(s, schedule, good)
    ensures Faultless(s, schedule)
    decreases |schedule|
  {
    if schedule != [] {
      assert !Drops(s, schedule[0]);
      hide Next, Drops, Follows;
      SmoothLosesNothing(Next(s, schedule[0]), schedule[1..], good);
    }
  }

  /** From every reachable state, with a scheduler, with a worker and a handler for both types, and
      whatever the handlers return: some continuation in which everything goes well ends the job,
      unless an earlier fault had lost it. */
  lemma EveryJobCanFinish(s: State, id: JobId, good: Outcomes) returns (a: seq<Step>)
    requires Reachable(s) && Staffed(s) && id in s.pushed
    ensures Smooth(s, a, good) && Faultless(s, a)
    ensures WasLost(s, id) || Ended(Exec(s, a), id)
  {
    var run := SomeRunIsFair(s, good);
    hide Reachable, Staffed, Fair, Follows, Ended, WasLost;
    assert At(s, run, 0) == s;
    FairRunsEndEveryJob(s, run, 0, id);
    var n: nat := 0;
    if !WasLost(s, id) {
      n :| EndsBy(s, run, id, n);
      assert EndedAt(s, run, id, n);
    }
    PrefixRuns(s, run, n, good);
    a := Prefix(run, n);
    SmoothLosesNothing(s, a, good);
  }
}
