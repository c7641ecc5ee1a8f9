/**
 What every step of the queue machine keeps. The proof carries a map `loc` from each pushed job
 id to the one place where its token lies and the token's value there; the stores are shown to
 hold a token exactly where `loc` says and nowhere else.
 */
module QueueInvariant {
  import opened Jobs
  import opened QueueMachine

  datatype Place =
    | InReady(t: JobType) | InDelayed | InHand(w: nat) | InHandler(w: nat) | InDrainer(d: nat)
    | InDLQ | InDone | InLost

  datatype Spot = Spot(place: Place, job: Job)

  type Locations = map<JobId, Spot>

  /** Token j is at place p, read off the stores and the goroutines. */
  predicate Holds(s: State, p: Place, j: Job) {
    match p
    case InReady(t) => j in Ready(s, t)
    case InDelayed => j in s.delayed
    case InHand(w) => w < |s.workers| && s.workers[w].phase == Popped(j)
    case InHandler(w) => w < |s.workers| && s.workers[w].phase == Handling(j)
    case InDrainer(d) => d < |s.drainers| && s.drainers[d].Claimed? && s.drainers[d].job == j
    case InDLQ => j in s.dlq
    case InDone => j in s.done
    case InLost => j in s.lost
  }

  predicate NoRepeats(q: seq<Job>) {
    forall i, k :: 0 <= i < k < |q| ==> q[i] != q[k]
  }

  ghost predicate Located(s: State, loc: Locations) {
    && (forall p, j :: Holds(s, p, j) <==> j.id in loc && loc[j.id] == Spot(p, j))
    && (forall t :: NoRepeats(Ready(s, t)))
    && NoRepeats(s.dlq)
  }

  // ---- journals ----

  function Expected(i: nat): Mark {
    if i % 2 == 0 then Queued(i / 2) else Started(i / 2)
  }

  predicate Final(m: Mark, i: nat) {
    i > 0 && i % 2 == 0 && (m == Finished(i / 2 - 1) || (m == Dead(i / 2) && i / 2 == MAX_RETRIES))
  }

  /** Queued(0), Started(0), Queued(1), Started(1), ... and at most one final entry, the last. */
  predicate WellFormed(log: seq<Mark>) {
    && |log| > 0
    && (forall i :: 0 <= i < |log| ==>
          || (log[i] == Expected(i) && i / 2 < MAX_RETRIES)
          || (i == |log| - 1 && Final(log[i], i)))
  }

  function Last(log: seq<Mark>): Mark
    requires |log| > 0
  {
    log[|log| - 1]
  }

  /** The status and attempts columns that the update belonging to a journal entry writes. */
  function Content(m: Mark): (Status, nat) {
    match m
    case Queued(k) => (Pending, k)
    case Started(_) => (Running, 0)
    case Finished(k) => (Completed, k)
    case Dead(k) => (Failed, k)
  }

  function MarkAt(p: Place, j: Job): Mark {
    match p
    case InHandler(_) => Started(j.attempts)
    case InDone => Finished(j.attempts)
    case InDLQ => Dead(j.attempts)
    case _ => Queued(j.attempts)
  }

  // ---- the invariant, part by part ----

  predicate SpotOk(journal: map<JobId, seq<Mark>>, delayed: map<Job, int>, clock: int, id: JobId, spot: Spot) {
    var j := spot.job;
    && j.id == id
    && id in journal && |journal[id]| > 0
    && j.maxRetries == MAX_RETRIES
    && (spot.place != InLost ==> Last(journal[id]) == MarkAt(spot.place, j))
    && (spot.place == InDLQ ==> j.attempts == MAX_RETRIES && j.status == Failed)
    && (spot.place != InDLQ && spot.place != InLost ==> j.attempts < MAX_RETRIES && j.status == Pending)
    && (spot.place.InReady? ==> j.jobType == spot.place.t)
    && (spot.place == InDelayed ==> j in delayed && delayed[j] == Unix(j.nextRunAt))
    && (spot.place.InReady? || spot.place.InHand? || spot.place.InHandler? || spot.place.InDrainer? ==>
          j.nextRunAt < clock + SECOND)
  }

  predicate SpotsOk(loc: Locations, journal: map<JobId, seq<Mark>>, delayed: map<Job, int>, clock: int) {
    forall id | id in loc :: SpotOk(journal, delayed, clock, id, loc[id])
  }

  /** The value of each token. */
  function Tokens(loc: Locations): map<JobId, Job> {
    map id | id in loc :: loc[id].job
  }

  predicate NextRunOk(log: seq<Mark>, tok: map<JobId, Job>, id: JobId, version: nat, next: int) {
    id in tok && version + 1 == |log| && log[version].Queued? ==> next == tok[id].nextRunAt
  }

  predicate RowOk(journal: map<JobId, seq<Mark>>, tok: map<JobId, Job>, id: JobId, r: Row) {
    && r.job.id == id
    && id in journal && r.version < |journal[id]|
    && (r.job.status, r.job.attempts) == Content(journal[id][r.version])
    && (id in tok ==> SameJob(r.job, tok[id]))
    && NextRunOk(journal[id], tok, id, r.version, r.job.nextRunAt)
  }

  predicate RowsOk(rows: map<JobId, Row>, journal: map<JobId, seq<Mark>>, tok: map<JobId, Job>) {
    forall id | id in rows :: RowOk(journal, tok, id, rows[id])
  }

  predicate TxOk(journal: map<JobId, seq<Mark>>, tok: map<JobId, Job>, clock: int, x: Tx) {
    && (forall id | id in TxRows(x) :: RowOk(journal, tok, id, Row(TxRows(x)[id], 0)))
    && (Pushing(x) ==>
          var j := x.toPush.value;
          && j.id in x.rows && x.rows[j.id] == j && j.id !in tok
          && j.id in journal && journal[j.id] == [Queued(0)]
          && j.maxRetries == MAX_RETRIES && j.nextRunAt <= clock)
  }

  /** No other transaction and no committed row has an id that an open transaction inserted. */
  predicate TxsApart(txs: seq<Tx>, committed: set<JobId>) {
    && (forall t | 0 <= t < |txs| :: TxRows(txs[t]).Keys !! committed)
    && (forall t, u | 0 <= t < u < |txs| :: TxRows(txs[t]).Keys !! TxRows(txs[u]).Keys)
  }

  predicate TxsOk(txs: seq<Tx>, journal: map<JobId, seq<Mark>>, tok: map<JobId, Job>, clock: int) {
    forall t | 0 <= t < |txs| :: TxOk(journal, tok, clock, txs[t])
  }

  predicate PhaseOk(journal: map<JobId, seq<Mark>>, tok: map<JobId, Job>, p: Phase) {
    p.Writing? ==>
      && p.id in tok && p.id in journal
      && 0 < p.version < |journal[p.id]|
      && (p.update.status, p.update.attempts) == Content(journal[p.id][p.version])
      && (p.update.nextRunAt.Some? <==> journal[p.id][p.version].Queued?)
      && (p.update.nextRunAt.Some? ==> NextRunOk(journal[p.id], tok, p.id, p.version, p.update.nextRunAt.value))
  }

  predicate PhasesOk(workers: seq<Worker>, journal: map<JobId, seq<Mark>>, tok: map<JobId, Job>) {
    forall w | 0 <= w < |workers| :: PhaseOk(journal, tok, workers[w].phase)
  }

  predicate Due(rest: seq<Job>, clock: int) {
    forall m | m in rest :: Unix(m.nextRunAt) <= Unix(clock)
  }

  predicate DrainersOk(drainers: seq<Drainer>, clock: int) {
    forall d | 0 <= d < |drainers| :: Due(drainers[d].rest, clock)
  }

  predicate JournalsOk(journal: map<JobId, seq<Mark>>) {
    forall id | id in journal :: WellFormed(journal[id])
  }

  predicate IdsOk(s: State, loc: Locations) {
    loc.Keys == s.pushed && s.pushed <= s.used && s.journal.Keys == s.used
  }

  predicate Books(s: State, loc: Locations) {
    && IdsOk(s, loc)
    && JournalsOk(s.journal)
    && SpotsOk(loc, s.journal, s.delayed, s.clock)
    && RowsOk(s.rows, s.journal, Tokens(loc))
    && TxsOk(s.txs, s.journal, Tokens(loc), s.clock)
    && TxsApart(s.txs, s.rows.Keys)
    && PhasesOk(s.workers, s.journal, Tokens(loc))
    && DrainersOk(s.drainers, s.clock)
  }

  ghost predicate Inv(s: State, loc: Locations) {
    Located(s, loc) && Books(s, loc)
  }

  lemma InitInv(types: seq<JobType>, drainers: nat, txs: nat, handlers: set<JobType>, clock: int)
    ensures Inv(Init(types, drainers, txs, handlers, clock), map[])
  {
  }

  // ---- what a new decision on one job leaves in order ----

  /** Appending to one journal, and possibly giving that token a new value, upsets no row, no
      transaction and no pending write: they all refer to entries that stay where they are. */
  lemma AppendKeeps(s: State, tok: map<JobId, Job>, id: JobId, m: Mark, j: Job)
    requires id in s.journal && id in tok && SameJob(j, tok[id])
    requires RowsOk(s.rows, s.journal, tok) && TxsOk(s.txs, s.journal, tok, s.clock)
    requires PhasesOk(s.workers, s.journal, tok)
    ensures var journal' := s.journal[id := s.journal[id] + [m]]; var tok' := tok[id := j];
      RowsOk(s.rows, journal', tok') && TxsOk(s.txs, journal', tok', s.clock) && PhasesOk(s.workers, journal', tok')
  {
    var journal' := s.journal[id := s.journal[id] + [m]];
    var tok' := tok[id := j];
    forall k, r | RowOk(s.journal, tok, k, r) ensures RowOk(journal', tok', k, r) {
    }
    forall p | PhaseOk(s.journal, tok, p) ensures PhaseOk(journal', tok', p) {
    }
    forall x | TxOk(s.journal, tok, s.clock, x) ensures TxOk(journal', tok', s.clock, x) {
    }
  }

  lemma AppendWellFormed(journal: map<JobId, seq<Mark>>, id: JobId, m: Mark)
    requires JournalsOk(journal) && id in journal
    requires Last(journal[id]).Queued? ==> m == Started(Last(journal[id]).k)
    requires Last(journal[id]).Started? ==>
      var k := Last(journal[id]).k;
      m == Finished(k) || (m == Queued(k + 1) && k + 1 < MAX_RETRIES) || (m == Dead(k + 1) && k + 1 == MAX_RETRIES)
    requires Last(journal[id]).Queued? || Last(journal[id]).Started?
    ensures JournalsOk(journal[id := journal[id] + [m]])
  {
    var log := journal[id];
    var i := |log| - 1;
    assert log[i] == Expected(i);
    assert WellFormed(log + [m]);
  }

  // ---- where the tokens are, step by step ----

  /** From s to s' the token called id leaves its place; nothing else changes hands. */
  ghost predicate Takes(s: State, s': State, id: JobId) {
    && (forall p, j :: Holds(s', p, j) <==> Holds(s, p, j) && j.id != id)
    && (forall t :: NoRepeats(Ready(s', t)))
    && NoRepeats(s'.dlq)
  }

  /** From s to s' the token spot.job, which was nowhere, appears at spot.place. */
  ghost predicate Puts(s: State, s': State, spot: Spot) {
    && (forall p, j :: Holds(s', p, j) <==> Holds(s, p, j) || Spot(p, j) == spot)
    && (forall t :: NoRepeats(Ready(s', t)))
    && NoRepeats(s'.dlq)
  }

  predicate SameStores(s: State, s': State) {
    && (forall t :: Ready(s', t) == Ready(s, t))
    && s'.delayed == s.delayed && s'.dlq == s.dlq && s'.done == s.done && s'.lost == s.lost
  }

  lemma TakeFromWorker(s: State, s': State, loc: Locations, w: nat, p: Phase)
    requires Located(s, loc) && SameStores(s, s') && s'.drainers == s.drainers
    requires w < |s.workers| && (s.workers[w].phase.Popped? || s.workers[w].phase.Handling?)
    requires s'.workers == s.workers[w := s.workers[w].(phase := p)] && !p.Popped? && !p.Handling?
    ensures var q := s.workers[w].phase;
      Holds(s, if q.Popped? then InHand(w) else InHandler(w), q.job) && Takes(s, s', q.job.id)
  {
    var q := s.workers[w].phase;
    assert forall t :: Ready(s', t) == Ready(s, t);
    var here := if q.Popped? then InHand(w) else InHandler(w);
    assert Holds(s, here, q.job);
    forall r, j ensures Holds(s', r, j) <==> Holds(s, r, j) && j.id != q.job.id {
      assert Holds(s, r, j) && j.id == q.job.id ==> r == here;
      assert r != InHand(w) && r != InHandler(w) ==> (Holds(s', r, j) <==> Holds(s, r, j));
    }
  }

  lemma TakeFromDrainer(s: State, s': State, loc: Locations, d: nat, rest: seq<Job>)
    requires Located(s, loc) && SameStores(s, s') && s'.workers == s.workers
    requires d < |s.drainers| && s.drainers[d].Claimed? && s'.drainers == s.drainers[d := Draining(rest)]
    ensures Holds(s, InDrainer(d), s.drainers[d].job) && Takes(s, s', s.drainers[d].job.id)
  {
    var m := s.drainers[d].job;
    assert Holds(s, InDrainer(d), m);
    assert forall t :: Ready(s', t) == Ready(s, t);
    forall p, k ensures Holds(s', p, k) <==> Holds(s, p, k) && k.id != m.id {
      assert Holds(s, p, k) && k.id == m.id ==> p == InDrainer(d);
      assert p != InDrainer(d) ==> (Holds(s', p, k) <==> Holds(s, p, k));
    }
  }

  lemma TakeFromReady(s: State, loc: Locations, t: JobType)
    requires Located(s, loc) && |Ready(s, t)| > 0
    ensures var q := Ready(s, t); var j := q[|q| - 1];
      Holds(s, InReady(t), j) && Takes(s, s.(ready := s.ready[t := q[..|q| - 1]]), j.id)
  {
    var q := Ready(s, t);
    var j := q[|q| - 1];
    var s' := s.(ready := s.ready[t := q[..|q| - 1]]);
    assert Holds(s, InReady(t), j);
    assert forall u :: Ready(s', u) == if u == t then q[..|q| - 1] else Ready(s, u);
    assert forall k :: k in q <==> k == j || k in q[..|q| - 1];
    assert j !in q[..|q| - 1];
    forall p, k ensures Holds(s', p, k) <==> Holds(s, p, k) && k.id != j.id {
      assert Holds(s, p, k) && k.id == j.id ==> p == InReady(t) && k == j;
    }
  }

  lemma TakeFromDelayed(s: State, loc: Locations, m: Job)
    requires Located(s, loc) && m in s.delayed
    ensures Holds(s, InDelayed, m) && Takes(s, s.(delayed := s.delayed - {m}), m.id)
  {
    var s' := s.(delayed := s.delayed - {m});
    assert Holds(s, InDelayed, m);
    assert forall t :: Ready(s', t) == Ready(s, t);
    forall p, k ensures Holds(s', p, k) <==> Holds(s, p, k) && k.id != m.id {
      assert Holds(s, p, k) && k.id == m.id ==> p == InDelayed && k == m;
      assert p != InDelayed ==> (Holds(s', p, k) <==> Holds(s, p, k));
    }
  }

  lemma PutInWorker(s: State, s': State, w: nat, j: Job, p: Phase)
    requires (forall t :: NoRepeats(Ready(s, t))) && NoRepeats(s.dlq)
    requires SameStores(s, s') && s'.drainers == s.drainers
    requires w < |s.workers| && !s.workers[w].phase.Popped? && !s.workers[w].phase.Handling?
    requires s'.workers == s.workers[w := s.workers[w].(phase := p)] && (p == Popped(j) || p == Handling(j))
    ensures Puts(s, s', Spot(if p.Popped? then InHand(w) else InHandler(w), j))
  {
    assert forall t :: Ready(s', t) == Ready(s, t);
  }

  lemma PutInDrainer(s: State, s': State, d: nat, j: Job, rest: seq<Job>)
    requires (forall t :: NoRepeats(Ready(s, t))) && NoRepeats(s.dlq)
    requires SameStores(s, s') && s'.workers == s.workers
    requires d < |s.drainers| && s.drainers[d].Draining? && s'.drainers == s.drainers[d := Claimed(j, rest)]
    ensures Puts(s, s', Spot(InDrainer(d), j))
  {
    assert forall t :: Ready(s', t) == Ready(s, t);
  }

  lemma PutReady(s: State, j: Job)
    requires (forall t :: NoRepeats(Ready(s, t))) && NoRepeats(s.dlq)
    requires !Holds(s, InReady(j.jobType), j)
    ensures Puts(s, PushReady(s, j), Spot(InReady(j.jobType), j))
  {
    var s' := PushReady(s, j);
    assert forall t :: Ready(s', t) == if t == j.jobType then [j] + Ready(s, t) else Ready(s, t);
  }

  lemma PutDone(s: State, j: Job)
    requires (forall t :: NoRepeats(Ready(s, t))) && NoRepeats(s.dlq)
    ensures Puts(s, s.(done := s.done + {j}), Spot(InDone, j))
  {
    assert forall t :: Ready(s.(done := s.done + {j}), t) == Ready(s, t);
  }

  lemma PutLost(s: State, j: Job)
    requires (forall t :: NoRepeats(Ready(s, t))) && NoRepeats(s.dlq)
    ensures Puts(s, Lose(s, j), Spot(InLost, j))
  {
    assert forall t :: Ready(Lose(s, j), t) == Ready(s, t);
  }

  lemma PutDelayed(s: State, j: Job)
    requires (forall t :: NoRepeats(Ready(s, t))) && NoRepeats(s.dlq)
    ensures Puts(s, ZAdd(s, j), Spot(InDelayed, j))
  {
    assert forall t :: Ready(ZAdd(s, j), t) == Ready(s, t);
  }

  lemma PutDLQ(s: State, j: Job)
    requires (forall t :: NoRepeats(Ready(s, t))) && NoRepeats(s.dlq)
    requires !Holds(s, InDLQ, j)
    ensures Puts(s, s.(dlq := [j] + s.dlq), Spot(InDLQ, j))
  {
    assert forall t :: Ready(s.(dlq := [j] + s.dlq), t) == Ready(s, t);
  }

  lemma Relocate(s: State, s1: State, s': State, loc: Locations, id: JobId, spot: Spot)
    requires Located(s, loc) && Takes(s, s1, id) && Puts(s1, s', spot) && spot.job.id == id
    ensures Located(s', loc[id := spot])
  {
  }

  /** Nobody's hands change: workers may only write or wait, drainers may only shorten snapshots. */
  predicate SameHands(s: State, s': State) {
    && |s'.workers| == |s.workers| && |s'.drainers| == |s.drainers|
    && (forall w | 0 <= w < |s.workers| :: s'.workers[w] == s.workers[w] ||
          (!s.workers[w].phase.Popped? && !s.workers[w].phase.Handling?
              && !s'.workers[w].phase.Popped? && !s'.workers[w].phase.Handling?))
    && (forall d | 0 <= d < |s.drainers| ::
        s'.drainers[d] == s.drainers[d] || (s.drainers[d].Draining? && s'.drainers[d].Draining?))
  }

  lemma StayLocated(s: State, s': State, loc: Locations)
    requires Located(s, loc) && SameStores(s, s') && SameHands(s, s')
    ensures Located(s', loc)
  {
    assert forall p, j :: Holds(s', p, j) <==> Holds(s, p, j);
    assert forall t :: Ready(s', t) == Ready(s, t);
  }

  // ---- one part of the books at a time ----

  lemma FreshIdKeeps(s: State, loc: Locations, id: JobId, log: seq<Mark>)
    requires id !in s.journal
    requires SpotsOk(loc, s.journal, s.delayed, s.clock)
    requires RowsOk(s.rows, s.journal, Tokens(loc)) && TxsOk(s.txs, s.journal, Tokens(loc), s.clock)
    requires PhasesOk(s.workers, s.journal, Tokens(loc))
    ensures var journal' := s.journal[id := log];
      SpotsOk(loc, journal', s.delayed, s.clock) &&
      RowsOk(s.rows, journal', Tokens(loc)) && TxsOk(s.txs, journal', Tokens(loc), s.clock)
          && PhasesOk(s.workers, journal', Tokens(loc))
    ensures id !in s.rows && forall t | 0 <= t < |s.txs| :: id !in TxRows(s.txs[t])
  {
    var journal' := s.journal[id := log];
    forall k, r | RowOk(s.journal, Tokens(loc), k, r) ensures k != id && RowOk(journal', Tokens(loc), k, r) {
    }
    forall x | TxOk(s.journal, Tokens(loc), s.clock, x) ensures TxOk(journal', Tokens(loc), s.clock, x) {
    }
  }

  lemma SetTx(txs: seq<Tx>, tx: nat, x: Tx, committed: set<JobId>, id: JobId)
    requires tx < |txs| && TxsApart(txs, committed)
    requires TxRows(x).Keys <= TxRows(txs[tx]).Keys + {id}
    requires id in TxRows(x) ==>
      id in TxRows(txs[tx]) || (id !in committed && forall t | 0 <= t < |txs| :: id !in TxRows(txs[t]))
    ensures TxsApart(txs[tx := x], committed)
  {
  }

  lemma CommitApart(txs: seq<Tx>, tx: nat, committed: set<JobId>)
    requires tx < |txs| && TxsApart(txs, committed)
    ensures TxsApart(txs[tx := NoTx], committed + TxRows(txs[tx]).Keys)
  {
  }

  /** A new token with the value its transaction's row has. */
  lemma NewTokenKeeps(s: State, loc: Locations, j: Job, tx: nat)
    requires tx < |s.txs| && Pushing(s.txs[tx]) && s.txs[tx].toPush.value == j
    requires SpotsOk(loc, s.journal, s.delayed, s.clock)
    requires RowsOk(s.rows, s.journal, Tokens(loc)) && TxsOk(s.txs, s.journal, Tokens(loc), s.clock)
    requires PhasesOk(s.workers, s.journal, Tokens(loc))
    requires TxsApart(s.txs, s.rows.Keys)
    ensures j.id !in loc
    ensures var loc' := loc[j.id := Spot(InReady(j.jobType), j)];
      SpotsOk(loc', s.journal, s.delayed, s.clock) &&
      RowsOk(s.rows, s.journal, Tokens(loc')) &&
      TxsOk(s.txs[tx := s.txs[tx].(toPush := None)], s.journal, Tokens(loc'), s.clock) &&
      PhasesOk(s.workers, s.journal, Tokens(loc'))
  {
    var loc' := loc[j.id := Spot(InReady(j.jobType), j)];
    var tok, tok' := Tokens(loc), Tokens(loc');
    var x := s.txs[tx];
    assert TxOk(s.journal, tok, s.clock, x);
    assert tok' == tok[j.id := j];
    assert j.id in TxRows(x);
    assert RowOk(s.journal, tok, j.id, Row(TxRows(x)[j.id], 0));
    forall k, r | k != j.id && RowOk(s.journal, tok, k, r) ensures RowOk(s.journal, tok', k, r) {
    }
    assert RowsOk(s.rows, s.journal, tok');
    forall t | 0 <= t < |s.txs|
      ensures TxOk(s.journal, tok', s.clock, if t == tx then x.(toPush := None) else s.txs[t])
    {
      assert TxOk(s.journal, tok, s.clock, s.txs[t]);
      assert t != tx ==> j.id !in TxRows(s.txs[t]);
    }
  }

  /** A token that moves keeps its value unless a run failed; the rows then see no difference. */
  lemma SameTokens(loc: Locations, id: JobId, spot: Spot)
    requires id in loc && loc[id].job == spot.job
    ensures Tokens(loc[id := spot]) == Tokens(loc)
  {
  }

  lemma SetSpot(loc: Locations, journal: map<JobId, seq<Mark>>, journal': map<JobId, seq<Mark>>,
                delayed: map<Job, int>, delayed': map<Job, int>, clock: int, id: JobId, spot: Spot)
    requires SpotsOk(loc, journal, delayed, clock) && SpotOk(journal', delayed', clock, id, spot)
    requires forall k | k in journal && k != id :: k in journal' && journal'[k] == journal[k]
    requires forall k | k in delayed && k.id != id :: k in delayed' && delayed'[k] == delayed[k]
    ensures SpotsOk(loc[id := spot], journal', delayed', clock)
  {
  }

  lemma ReplaceTx(txs: seq<Tx>, tx: nat, x: Tx, journal: map<JobId, seq<Mark>>, tok: map<JobId, Job>, clock: int)
    requires tx < |txs| && TxsOk(txs, journal, tok, clock) && TxOk(journal, tok, clock, x)
    ensures TxsOk(txs[tx := x], journal, tok, clock)
  {
  }

  lemma InsertedTxOk(x: Tx, journal: map<JobId, seq<Mark>>, tok: map<JobId, Job>, clock: int, j: Job)
    requires TxOk(journal, tok, clock, x) && j.id !in tok
    requires j.id in journal && journal[j.id] == [Queued(0)]
    requires j == NewJob(j.id, j.jobType, j.payload, clock)
    ensures TxOk(journal, tok, clock, Open(TxRows(x)[j.id := j], Some(j)))
  {
  }

  lemma PushedTxOk(x: Tx, journal: map<JobId, seq<Mark>>, tok: map<JobId, Job>, clock: int)
    requires TxOk(journal, tok, clock, x) && Pushing(x)
    ensures TxOk(journal, tok, clock, x.(toPush := None))
  {
    assert TxRows(x.(toPush := None)) == TxRows(x);
  }

  lemma CommittedRowsOk(s: State, tx: nat, tok: map<JobId, Job>)
    requires tx < |s.txs| && s.txs[tx].Open?
    requires RowsOk(s.rows, s.journal, tok) && TxsOk(s.txs, s.journal, tok, s.clock)
    ensures RowsOk(DoCommit(s, tx).rows, s.journal, tok)
    ensures DoCommit(s, tx).rows.Keys == s.rows.Keys + TxRows(s.txs[tx]).Keys
  {
    var x := s.txs[tx];
    assert TxOk(s.journal, tok, s.clock, x);
    assert TxRows(x) == x.rows;
    forall id | id in x.rows ensures RowOk(s.journal, tok, id, Row(x.rows[id], 0)) {
      assert id in TxRows(x);
    }
  }

  /** The books after one decision: one journal grows, its token moves, one worker changes phase. */
  lemma DecisionKeepsBooks(s: State, s': State, loc: Locations, id: JobId, m: Mark, w: nat, spot: Spot)
    requires Books(s, loc) && id in loc && spot.job.id == id && SameJob(spot.job, loc[id].job)
    requires w < |s.workers| && |s'.workers| == |s.workers| && s'.workers == s.workers[w := s'.workers[w]]
    requires s'.journal == s.journal[id := s.journal[id] + [m]]
    requires s'.used == s.used && s'.pushed == s.pushed && s'.rows == s.rows && s'.txs == s.txs
    requires s'.clock == s.clock && s'.drainers == s.drainers
    requires forall k | k in s.delayed && k.id != id :: k in s'.delayed && s'.delayed[k] == s.delayed[k]
    requires JournalsOk(s'.journal)
    requires SpotOk(s'.journal, s'.delayed, s'.clock, id, spot)
    requires PhaseOk(s'.journal, Tokens(loc)[id := spot.job], s'.workers[w].phase)
    ensures Books(s', loc[id := spot])
  {
    AppendKeeps(s, Tokens(loc), id, m, spot.job);
    var loc' := loc[id := spot];
    assert Tokens(loc') == Tokens(loc)[id := spot.job];
    SetSpot(loc, s.journal, s'.journal, s.delayed, s'.delayed, s.clock, id, spot);
    hide RowsOk, TxsOk, TxsApart, SpotsOk, DrainersOk, JournalsOk, SpotOk, PhaseOk;
  }

  /** An UPDATE that carries the content of a journal entry leaves the row in order. */
  lemma SetStatusKeepsBooks(s: State, loc: Locations, id: JobId, version: nat, u: Update, ok: bool)
    requires Books(s, loc) && id in loc && id in s.journal && version < |s.journal[id]|
    requires (u.status, u.attempts) == Content(s.journal[id][version])
    requires u.nextRunAt.Some? <==> s.journal[id][version].Queued?
    requires u.nextRunAt.Some? ==> NextRunOk(s.journal[id], Tokens(loc), id, version, u.nextRunAt.value)
    ensures Books(SetStatus(s, id, version, u, ok), loc)
  {
    hide TxsOk, TxsApart, SpotsOk, DrainersOk, JournalsOk, PhasesOk;
    assert SetStatus(s, id, version, u, ok).rows.Keys == s.rows.Keys;
  }

  lemma LocatePush(s: State, loc: Locations, tx: nat, j: Job)
    requires Located(s, loc) && tx < |s.txs| && Pushing(s.txs[tx]) && s.txs[tx].toPush.value == j && j.id !in loc
    ensures Located(DoPush(s, tx, true), loc[j.id := Spot(InReady(j.jobType), j)])
  {
    var s' := DoPush(s, tx, true);
    var spot := Spot(InReady(j.jobType), j);
    assert !Holds(s, InReady(j.jobType), j);
    PutReady(s, j);
    assert forall p, k :: Holds(s', p, k) <==> Holds(PushReady(s, j), p, k);
    assert forall t :: Ready(s', t) == Ready(PushReady(s, j), t);
  }

  lemma LocateMarkRunning(s: State, loc: Locations, w: nat, ok: bool)
    requires Located(s, loc) && w < |s.workers| && s.workers[w].phase.Popped?
    ensures var j := s.workers[w].phase.job;
      && j.id in loc && loc[j.id] == Spot(InHand(w), j)
      && Located(DoMarkRunning(s, w, ok), loc[j.id := Spot(InHandler(w), j)])
  {
    var j := s.workers[w].phase.job;
    var s1 := SetPhase(s, w, Idle);
    TakeFromWorker(s, s1, loc, w, Idle);
    PutInWorker(s1, DoMarkRunning(s, w, ok), w, j, Handling(j));
    Relocate(s, s1, DoMarkRunning(s, w, ok), loc, j.id, Spot(InHandler(w), j));
  }

  lemma LocateSucceed(s: State, loc: Locations, w: nat)
    requires Located(s, loc) && w < |s.workers| && s.workers[w].phase.Handling?
    ensures var j := s.workers[w].phase.job;
      && j.id in loc && loc[j.id] == Spot(InHandler(w), j)
      && Located(DoSucceed(s, w), loc[j.id := Spot(InDone, j)])
  {
    var j := s.workers[w].phase.job;
    var s' := DoSucceed(s, w);
    var s1 := s'.(done := s.done);
    TakeFromWorker(s, s1, loc, w, s'.workers[w].phase);
    PutDone(s1, j);
    Relocate(s, s1, s', loc, j.id, Spot(InDone, j));
  }

  lemma LocateBury(s: State, loc: Locations, w: nat, ok: bool)
    requires Located(s, loc) && w < |s.workers| && s.workers[w].phase.Handling?
    ensures var j := s.workers[w].phase.job;
      && j.id in loc && loc[j.id] == Spot(InHandler(w), j)
      && Located(DoBury(s, w, ok), loc[j.id := Spot(if ok then InDLQ else InLost, Buried(j))])
  {
    var j := s.workers[w].phase.job;
    var x := Buried(j);
    var s' := DoBury(s, w, ok);
    var s1 := s'.(dlq := s.dlq, lost := s.lost);
    TakeFromWorker(s, s1, loc, w, s'.workers[w].phase);
    assert !Holds(s1, InDLQ, x);
    if ok {
      PutDLQ(s1, x);
    } else {
      PutLost(s1, x);
    }
    Relocate(s, s1, s', loc, j.id, Spot(if ok then InDLQ else InLost, x));
  }

  lemma LocateRetry(s: State, loc: Locations, w: nat, ok: bool)
    requires Located(s, loc) && w < |s.workers| && s.workers[w].phase.Handling?
    ensures var j := s.workers[w].phase.job;
      && j.id in loc && loc[j.id] == Spot(InHandler(w), j)
      && Located(DoRetry(s, w, ok), loc[j.id := Spot(if ok then InDelayed else InLost, Retried(j, s.clock))])
  {
    var j := s.workers[w].phase.job;
    var x := Retried(j, s.clock);
    var s' := DoRetry(s, w, ok);
    var s1 := s'.(delayed := s.delayed, lost := s.lost);
    TakeFromWorker(s, s1, loc, w, s'.workers[w].phase);
    if ok {
      PutDelayed(s1, x);
    } else {
      PutLost(s1, x);
    }
    Relocate(s, s1, s', loc, j.id, Spot(if ok then InDelayed else InLost, x));
  }

  // ---- every step keeps the invariant ----

  lemma SpotFacts(s: State, loc: Locations, id: JobId)
    requires Inv(s, loc) && id in loc
    ensures SpotOk(s.journal, s.delayed, s.clock, id, loc[id])
  {
  }

  lemma KeepTick(s: State, loc: Locations, delta: nat)
    requires Inv(s, loc)
    ensures Inv(s.(clock := s.clock + delta), loc)
  {
    StayLocated(s, s.(clock := s.clock + delta), loc);
    hide Located;
  }

  lemma KeepInsert(s: State, loc: Locations, tx: nat, id: JobId, t: JobType, payload: int)
    requires Inv(s, loc) && tx < |s.txs| && !Pushing(s.txs[tx]) && id !in s.used
    ensures Inv(DoInsert(s, tx, id, t, payload), loc)
  {
    hide Located, RowsOk, SpotsOk, PhasesOk, DrainersOk, TxsApart, RowOk;
    var s' := DoInsert(s, tx, id, t, payload);
    StayLocated(s, s', loc);
    FreshIdKeeps(s, loc, id, [Queued(0)]);
    SetTx(s.txs, tx, s'.txs[tx], s.rows.Keys, id);
    InsertedTxOk(s.txs[tx], s'.journal, Tokens(loc), s.clock, NewJob(id, t, payload, s.clock));
    hide TxOk;
    ReplaceTx(s.txs, tx, s'.txs[tx], s'.journal, Tokens(loc), s.clock);
  }

  lemma KeepPush(s: State, loc: Locations, tx: nat) returns (loc': Locations)
    requires Inv(s, loc) && tx < |s.txs| && Pushing(s.txs[tx])
    ensures Inv(DoPush(s, tx, true), loc')
    ensures var j := s.txs[tx].toPush.value; j.id !in loc && loc' == loc[j.id := Spot(InReady(j.jobType), j)]
  {
    hide Located, RowsOk, SpotsOk, PhasesOk, DrainersOk, TxsApart;
    var j := s.txs[tx].toPush.value;
    loc' := loc[j.id := Spot(InReady(j.jobType), j)];
    assert TxOk(s.journal, Tokens(loc), s.clock, s.txs[tx]) by {
      assert TxsOk(s.txs, s.journal, Tokens(loc), s.clock);
    }
    NewTokenKeeps(s, loc, j, tx);
    assert loc'.Keys == loc.Keys + {j.id};
    LocatePush(s, loc, tx, j);
    SetTx(s.txs, tx, s.txs[tx].(toPush := None), s.rows.Keys, j.id);
  }

  lemma KeepPushFailed(s: State, loc: Locations, tx: nat)
    requires Inv(s, loc) && tx < |s.txs| && Pushing(s.txs[tx])
    ensures Inv(DoPush(s, tx, false), loc)
  {
    hide Located, RowsOk, SpotsOk, PhasesOk, DrainersOk, TxsApart, TxOk;
    StayLocated(s, DoPush(s, tx, false), loc);
    var x := s.txs[tx].(toPush := None);
    SetTx(s.txs, tx, x, s.rows.Keys, s.txs[tx].toPush.value.id);
    PushedTxOk(s.txs[tx], s.journal, Tokens(loc), s.clock);
    ReplaceTx(s.txs, tx, x, s.journal, Tokens(loc), s.clock);
  }

  lemma KeepCommit(s: State, loc: Locations, tx: nat)
    requires Inv(s, loc) && tx < |s.txs| && s.txs[tx].Open?
    ensures Inv(DoCommit(s, tx), loc)
  {
    hide Located, SpotsOk, PhasesOk, DrainersOk, TxsApart, RowsOk, TxsOk;
    StayLocated(s, DoCommit(s, tx), loc);
    CommitApart(s.txs, tx, s.rows.Keys);
    CommittedRowsOk(s, tx, Tokens(loc));
    ReplaceTx(s.txs, tx, NoTx, s.journal, Tokens(loc), s.clock);
  }

  lemma KeepRollback(s: State, loc: Locations, tx: nat)
    requires Inv(s, loc) && tx < |s.txs|
    ensures Inv(s.(txs := s.txs[tx := NoTx]), loc)
  {
    hide Located, RowsOk, SpotsOk, PhasesOk, DrainersOk, TxsApart, TxsOk;
    StayLocated(s, s.(txs := s.txs[tx := NoTx]), loc);
    SetTx(s.txs, tx, NoTx, s.rows.Keys, 0);
    ReplaceTx(s.txs, tx, NoTx, s.journal, Tokens(loc), s.clock);
  }

  lemma KeepWrite(s: State, loc: Locations, w: nat, ok: bool)
    requires Inv(s, loc) && w < |s.workers| && s.workers[w].phase.Writing?
    ensures Inv(DoWrite(s, w, ok), loc)
  {
    hide Located, SpotsOk, DrainersOk, TxsApart, TxsOk;
    var s' := DoWrite(s, w, ok);
    StayLocated(s, s', loc);
    assert s'.rows.Keys == s.rows.Keys;
    assert PhaseOk(s.journal, Tokens(loc), s.workers[w].phase);
    assert PhasesOk(s'.workers, s.journal, Tokens(loc));
    hide PhasesOk;
  }

  lemma KeepSnapshot(s: State, loc: Locations, d: nat, members: seq<Job>)
    requires Inv(s, loc) && d < |s.drainers| && s.drainers[d] == Draining([]) && DueMembers(s, members)
    ensures Inv(SetDrainer(s, d, Draining(members)), loc)
  {
    forall m | m in members ensures Unix(m.nextRunAt) <= Unix(s.clock) {
      assert Holds(s, InDelayed, m);
      assert SpotOk(s.journal, s.delayed, s.clock, m.id, loc[m.id]);
    }
    StayLocated(s, SetDrainer(s, d, Draining(members)), loc);
    hide Located, RowsOk, SpotsOk, PhasesOk, TxsApart, TxsOk;
  }

  lemma KeepPop(s: State, loc: Locations, w: nat) returns (loc': Locations)
    requires Inv(s, loc) && w < |s.workers| && s.workers[w].phase.Idle? && |Ready(s, s.workers[w].jobType)| > 0
    ensures Inv(DoPop(s, w), loc')
    ensures var q := Ready(s, s.workers[w].jobType); var j := q[|q| - 1];
      j.id in loc && loc[j.id] == Spot(InReady(s.workers[w].jobType), j) && loc' == loc[j.id := Spot(InHand(w), j)]
  {
    var t := s.workers[w].jobType;
    var q := Ready(s, t);
    var j := q[|q| - 1];
    var s1 := s.(ready := s.ready[t := q[..|q| - 1]]);
    var spot := Spot(InHand(w), j);
    TakeFromReady(s, loc, t);
    assert SpotOk(s.journal, s.delayed, s.clock, j.id, loc[j.id]);
    hide Located, RowsOk, TxsOk, TxsApart, DrainersOk;
    PutInWorker(s1, DoPop(s, w), w, j, Popped(j));
    Relocate(s, s1, DoPop(s, w), loc, j.id, spot);
    loc' := loc[j.id := spot];
    SameTokens(loc, j.id, spot);
    hide Takes, Puts, SpotsOk;
    SetSpot(loc, s.journal, s.journal, s.delayed, s.delayed, s.clock, j.id, spot);
  }

  lemma KeepPopLost(s: State, loc: Locations, w: nat) returns (loc': Locations)
    requires Inv(s, loc) && w < |s.workers| && |Ready(s, s.workers[w].jobType)| > 0
    ensures Inv(DoPopLost(s, w), loc')
    ensures var q := Ready(s, s.workers[w].jobType); var j := q[|q| - 1];
      j.id in loc && loc[j.id] == Spot(InReady(s.workers[w].jobType), j) && loc' == loc[j.id := Spot(InLost, j)]
  {
    var t := s.workers[w].jobType;
    var q := Ready(s, t);
    var j := q[|q| - 1];
    var s1 := s.(ready := s.ready[t := q[..|q| - 1]]);
    var spot := Spot(InLost, j);
    TakeFromReady(s, loc, t);
    assert SpotOk(s.journal, s.delayed, s.clock, j.id, loc[j.id]);
    hide Located, RowsOk, TxsOk, TxsApart, DrainersOk, PhasesOk;
    PutLost(s1, j);
    Relocate(s, s1, DoPopLost(s, w), loc, j.id, spot);
    loc' := loc[j.id := spot];
    SameTokens(loc, j.id, spot);
    hide Takes, Puts, SpotsOk;
    SetSpot(loc, s.journal, s.journal, s.delayed, s.delayed, s.clock, j.id, spot);
  }

  lemma KeepMarkRunning(s: State, loc: Locations, w: nat, ok: bool) returns (loc': Locations)
    requires Inv(s, loc) && w < |s.workers| && s.workers[w].phase.Popped?
    ensures Inv(DoMarkRunning(s, w, ok), loc')
    ensures var j := s.workers[w].phase.job;
      j.id in loc && loc[j.id] == Spot(InHand(w), j) && loc' == loc[j.id := Spot(InHandler(w), j)]
  {
    var j := s.workers[w].phase.job;
    var spot := Spot(InHandler(w), j);
    LocateMarkRunning(s, loc, w, ok);
    SpotFacts(s, loc, j.id);
    hide Located;
    loc' := loc[j.id := spot];
    var s1 := SetPhase(Decide(s, j.id, Started(j.attempts)), w, Handling(j));
    AppendWellFormed(s.journal, j.id, Started(j.attempts));
    assert s.pushed <= s.used && j.id in s.journal;
    hide Books;
    DecisionKeepsBooks(s, s1, loc, j.id, Started(j.attempts), w, spot);
    SetStatusKeepsBooks(s1, loc', j.id, |s.journal[j.id]|, Update(Running, 0, None), ok);
  }

  lemma KeepSucceed(s: State, loc: Locations, w: nat) returns (loc': Locations)
    requires Inv(s, loc) && w < |s.workers| && s.workers[w].phase.Handling?
    ensures Inv(DoSucceed(s, w), loc')
    ensures var j := s.workers[w].phase.job;
      j.id in loc && loc[j.id] == Spot(InHandler(w), j) && loc' == loc[j.id := Spot(InDone, j)]
  {
    var j := s.workers[w].phase.job;
    LocateSucceed(s, loc, w);
    SpotFacts(s, loc, j.id);
    hide Located;
    loc' := loc[j.id := Spot(InDone, j)];
    AppendWellFormed(s.journal, j.id, Finished(j.attempts));
    hide Books;
    DecisionKeepsBooks(s, DoSucceed(s, w), loc, j.id, Finished(j.attempts), w, Spot(InDone, j));
  }

  lemma KeepBury(s: State, loc: Locations, w: nat, ok: bool) returns (loc': Locations)
    requires Inv(s, loc) && w < |s.workers| && s.workers[w].phase.Handling? && LastRun(s.workers[w].phase.job)
    ensures Inv(DoBury(s, w, ok), loc')
    ensures var j := s.workers[w].phase.job;
      j.id in loc && loc[j.id] == Spot(InHandler(w), j)
          && loc' == loc[j.id := Spot(if ok then InDLQ else InLost, Buried(j))]
  {
    var j := s.workers[w].phase.job;
    var spot := Spot(if ok then InDLQ else InLost, Buried(j));
    LocateBury(s, loc, w, ok);
    SpotFacts(s, loc, j.id);
    hide Located;
    loc' := loc[j.id := spot];
    AppendWellFormed(s.journal, j.id, Dead(j.attempts + 1));
    hide Books;
    DecisionKeepsBooks(s, DoBury(s, w, ok), loc, j.id, Dead(j.attempts + 1), w, spot);
  }

  /** What a failed run leaves alone. */
  lemma RetryFields(s: State, w: nat, ok: bool)
    requires w < |s.workers| && s.workers[w].phase.Handling?
    ensures var s' := DoRetry(s, w, ok); var j := s.workers[w].phase.job;
      && |s'.workers| == |s.workers| && s'.workers == s.workers[w := s'.workers[w]]
      && s'.workers[w].phase == Writing(j.id, |Journal(s, j.id)|,
          Update(Pending, j.attempts + 1, Some(Retried(j, s.clock).nextRunAt)))
      && s'.journal == s.journal[j.id := Journal(s, j.id) + [Queued(j.attempts + 1)]]
      && s'.used == s.used && s'.pushed == s.pushed && s'.rows == s.rows && s'.txs == s.txs
      && s'.clock == s.clock && s'.drainers == s.drainers
      && s'.delayed == if ok then s.delayed[Retried(j, s.clock) := Unix(Retried(j, s.clock).nextRunAt)] else s.delayed
  {
    hide BackoffSec, Unix, Journal;
  }

  /** The re-queued token, the journal and the pending update fit together. */
  lemma RetryInOrder(s: State, loc: Locations, w: nat, ok: bool)
    requires w < |s.workers| && s.workers[w].phase.Handling? && !LastRun(s.workers[w].phase.job)
    requires JournalsOk(s.journal)
    requires var j := s.workers[w].phase.job;
      j.id in loc && loc[j.id] == Spot(InHandler(w), j) && SpotOk(s.journal, s.delayed, s.clock, j.id, loc[j.id])
    ensures var s' := DoRetry(s, w, ok); var j := s.workers[w].phase.job;
      var spot := Spot(if ok then InDelayed else InLost, Retried(j, s.clock));
      && j.id in s.journal && JournalsOk(s'.journal)
      && SpotOk(s'.journal, s'.delayed, s'.clock, j.id, spot)
      && PhaseOk(s'.journal, Tokens(loc)[j.id := spot.job], s'.workers[w].phase)
  {
    RetryFields(s, w, ok);
    AppendWellFormed(s.journal, s.workers[w].phase.job.id, Queued(s.workers[w].phase.job.attempts + 1));
    hide DoRetry, BackoffSec;
  }

  lemma KeepRetry(s: State, loc: Locations, w: nat, ok: bool) returns (loc': Locations)
    requires Inv(s, loc) && w < |s.workers| && s.workers[w].phase.Handling? && !LastRun(s.workers[w].phase.job)
    ensures Inv(DoRetry(s, w, ok), loc')
    ensures var j := s.workers[w].phase.job;
      j.id in loc && loc[j.id] == Spot(InHandler(w), j)
          && loc' == loc[j.id := Spot(if ok then InDelayed else InLost, Retried(j, s.clock))]
  {
    var j := s.workers[w].phase.job;
    var spot := Spot(if ok then InDelayed else InLost, Retried(j, s.clock));
    LocateRetry(s, loc, w, ok);
    SpotFacts(s, loc, j.id);
    hide Located, SpotOk, JournalsOk, PhaseOk, BackoffSec;
    loc' := loc[j.id := spot];
    RetryInOrder(s, loc, w, ok);
    RetryFields(s, w, ok);
    hide Books, DoRetry;
    DecisionKeepsBooks(s, DoRetry(s, w, ok), loc, j.id, Queued(j.attempts + 1), w, spot);
  }

  lemma KeepDropHeld(s: State, loc: Locations, w: nat) returns (loc': Locations)
    requires Inv(s, loc) && w < |s.workers| && (s.workers[w].phase.Popped? || s.workers[w].phase.Handling?)
    ensures Inv(DoDropHeld(s, w), loc')
    ensures var j := s.workers[w].phase.job;
      && j.id in loc && loc[j.id] == Spot(if s.workers[w].phase.Popped? then InHand(w) else InHandler(w), j)
      && loc' == loc[j.id := Spot(InLost, j)]
  {
    var j := s.workers[w].phase.job;
    var s1 := SetPhase(s, w, Idle);
    var spot := Spot(InLost, j);
    TakeFromWorker(s, s1, loc, w, Idle);
    assert j.id in loc && loc[j.id] == Spot(if s.workers[w].phase.Popped? then InHand(w) else InHandler(w), j);
    assert SpotOk(s.journal, s.delayed, s.clock, j.id, loc[j.id]);
    hide Located, RowsOk, TxsOk, TxsApart, DrainersOk, SpotsOk;
    PutLost(s1, j);
    Relocate(s, s1, DoDropHeld(s, w), loc, j.id, spot);
    hide Takes, Puts;
    loc' := loc[j.id := spot];
    SameTokens(loc, j.id, spot);
    SetSpot(loc, s.journal, s.journal, s.delayed, s.delayed, s.clock, j.id, spot);
  }

  lemma KeepCrashIdle(s: State, loc: Locations, w: nat)
    requires Inv(s, loc) && w < |s.workers| && !s.workers[w].phase.Popped? && !s.workers[w].phase.Handling?
    ensures Inv(DoDropHeld(s, w), loc)
  {
    StayLocated(s, DoDropHeld(s, w), loc);
    hide Located, RowsOk, TxsOk, TxsApart, DrainersOk, SpotsOk;
  }

  lemma KeepClaim(s: State, loc: Locations, d: nat) returns (loc': Locations)
    requires Inv(s, loc) && d < |s.drainers| && s.drainers[d].Draining? && |s.drainers[d].rest| > 0
    requires s.drainers[d].rest[0] in s.delayed
    ensures Inv(DoClaim(s, d, true), loc')
    ensures var m := s.drainers[d].rest[0];
      m.id in loc && loc[m.id] == Spot(InDelayed, m) && loc' == loc[m.id := Spot(InDrainer(d), m)]
  {
    var m := s.drainers[d].rest[0];
    var s1 := s.(delayed := s.delayed - {m});
    var s' := DoClaim(s, d, true);
    var spot := Spot(InDrainer(d), m);
    TakeFromDelayed(s, loc, m);
    assert m.id in loc && loc[m.id] == Spot(InDelayed, m);
    assert SpotOk(s.journal, s.delayed, s.clock, m.id, loc[m.id]);
    assert forall k | k in s.delayed && k.id == m.id :: k == m by {
      assert forall k | k in s.delayed :: Holds(s, InDelayed, k);
    }
    hide Located, RowsOk, TxsOk, TxsApart, PhasesOk, SpotsOk;
    PutInDrainer(s1, s', d, m, s.drainers[d].rest[1..]);
    Relocate(s, s1, s', loc, m.id, spot);
    hide Takes, Puts;
    loc' := loc[m.id := spot];
    SameTokens(loc, m.id, spot);
    assert m in s.drainers[d].rest;
    SetSpot(loc, s.journal, s.journal, s.delayed, s'.delayed, s.clock, m.id, spot);
  }

  lemma KeepClaimLost(s: State, loc: Locations, d: nat) returns (loc': Locations)
    requires Inv(s, loc) && d < |s.drainers| && s.drainers[d].Draining? && |s.drainers[d].rest| > 0
    requires s.drainers[d].rest[0] in s.delayed
    ensures Inv(DoClaimLost(s, d), loc')
    ensures var m := s.drainers[d].rest[0];
      m.id in loc && loc[m.id] == Spot(InDelayed, m) && loc' == loc[m.id := Spot(InLost, m)]
  {
    var m := s.drainers[d].rest[0];
    KeepMissedClaim(s, loc, d);
    hide Inv;
    loc' := KeepZRem(SetDrainer(s, d, Draining(s.drainers[d].rest[1..])), loc, m);
  }

  /** A member that leaves the delayed set for nobody's hand. */
  lemma KeepZRem(s: State, loc: Locations, m: Job) returns (loc': Locations)
    requires Inv(s, loc) && m in s.delayed
    ensures Inv(Lose(s.(delayed := s.delayed - {m}), m), loc')
    ensures m.id in loc && loc[m.id] == Spot(InDelayed, m) && loc' == loc[m.id := Spot(InLost, m)]
  {
    var s1 := s.(delayed := s.delayed - {m});
    var spot := Spot(InLost, m);
    TakeFromDelayed(s, loc, m);
    assert m.id in loc && loc[m.id] == Spot(InDelayed, m);
    assert SpotOk(s.journal, s.delayed, s.clock, m.id, loc[m.id]);
    assert forall k | k in s.delayed && k.id == m.id :: k == m by {
      assert forall k | k in s.delayed :: Holds(s, InDelayed, k);
    }
    hide Located, RowsOk, TxsOk, TxsApart, PhasesOk, SpotsOk, DrainersOk;
    PutLost(s1, m);
    Relocate(s, s1, Lose(s1, m), loc, m.id, spot);
    hide Takes, Puts;
    loc' := loc[m.id := spot];
    SameTokens(loc, m.id, spot);
    SetSpot(loc, s.journal, s.journal, s.delayed, s1.delayed, s.clock, m.id, spot);
  }

  lemma KeepMissedClaim(s: State, loc: Locations, d: nat)
    requires Inv(s, loc) && d < |s.drainers| && s.drainers[d].Draining?
    ensures |s.drainers[d].rest| > 0 ==> Inv(SetDrainer(s, d, Draining(s.drainers[d].rest[1..])), loc)
    ensures Inv(SetDrainer(s, d, Draining([])), loc)
  {
    StayLocated(s, SetDrainer(s, d, Draining([])), loc);
    if |s.drainers[d].rest| > 0 {
      StayLocated(s, SetDrainer(s, d, Draining(s.drainers[d].rest[1..])), loc);
    }
    hide Located, RowsOk, TxsOk, TxsApart, PhasesOk, SpotsOk;
  }

  lemma KeepRepush(s: State, loc: Locations, d: nat, ok: bool) returns (loc': Locations)
    requires Inv(s, loc) && d < |s.drainers| && s.drainers[d].Claimed?
    ensures Inv(DoRepush(s, d, ok), loc')
    ensures var j := s.drainers[d].job;
      && j.id in loc && loc[j.id] == Spot(InDrainer(d), j)
      && loc' == loc[j.id := Spot(if ok then InReady(j.jobType) else InLost, j)]
  {
    var j := s.drainers[d].job;
    var s1 := SetDrainer(s, d, Draining(s.drainers[d].rest));
    var s' := DoRepush(s, d, ok);
    var spot := Spot(if ok then InReady(j.jobType) else InLost, j);
    TakeFromDrainer(s, s1, loc, d, s.drainers[d].rest);
    assert j.id in loc && loc[j.id] == Spot(InDrainer(d), j);
    assert SpotOk(s.journal, s.delayed, s.clock, j.id, loc[j.id]);
    hide Located, RowsOk, TxsOk, TxsApart, PhasesOk, SpotsOk;
    if ok {
      assert !Holds(s1, InReady(j.jobType), j);
      PutReady(s1, j);
    } else {
      PutLost(s1, j);
    }
    Relocate(s, s1, s', loc, j.id, spot);
    hide Takes, Puts;
    loc' := loc[j.id := spot];
    SameTokens(loc, j.id, spot);
    SetSpot(loc, s.journal, s.journal, s.delayed, s.delayed, s.clock, j.id, spot);
  }

  lemma KeepCrashDrainer(s: State, loc: Locations, d: nat) returns (loc': Locations)
    requires Inv(s, loc) && d < |s.drainers| && s.drainers[d].Claimed?
    ensures Inv(DoCrashDrainer(s, d), loc')
    ensures var j := s.drainers[d].job;
      j.id in loc && loc[j.id] == Spot(InDrainer(d), j) && loc' == loc[j.id := Spot(InLost, j)]
  {
    loc' := KeepRepush(s, loc, d, false);
    var s1 := DoRepush(s, d, false);
    KeepMissedClaim(s1, loc', d);
    assert DoCrashDrainer(s, d) == SetDrainer(s1, d, Draining([]));
  }

  // ---- how far a token has still to go ----

  /** Falls at every move of a token. A fresh token starts at 23; done, dead and lost are 0. */
  function Rank(spot: Spot): nat {
    var left := if spot.job.attempts < MAX_RETRIES then (MAX_RETRIES - 1 - spot.job.attempts) * 5 else 0;
    match spot.place
    case InDelayed => left + 5
    case InDrainer(_) => left + 4
    case InReady(_) => left + 3
    case InHand(_) => left + 2
    case InHandler(_) => left + 1
    case _ => 0
  }

  const FRESH_RANK: nat := 23

  /** From `a` to `b`: tokens stay or fall in rank, and new ones start on a ready list, never run. */
  predicate Advances(a: Locations, b: Locations) {
    && a.Keys <= b.Keys
    && (forall id | id in a :: b[id] == a[id] || Rank(b[id]) < Rank(a[id]))
    && (forall id | id in b && id !in a :: Rank(b[id]) <= FRESH_RANK)
  }

  lemma AdvanceOne(loc: Locations, id: JobId, spot: Spot)
    requires id in loc && Rank(spot) < Rank(loc[id])
    ensures Advances(loc, loc[id := spot])
  {
  }

  lemma KeepWorkerStep(s: State, loc: Locations, e: Step) returns (loc': Locations)
    requires Inv(s, loc) && Enabled(s, e)
    requires e.Pop? || e.PopLost? || e.MarkRunning? || e.Succeed? || e.Fail?
    ensures Inv(Apply(s, e), loc')
    ensures Advances(loc, loc')
  {
    hide Inv, Advances, DoPop, DoPopLost, DoMarkRunning, DoSucceed, DoBury, DoRetry;
    match e
    case Pop(w) =>
      var q := Ready(s, s.workers[w].jobType);
      loc' := KeepPop(s, loc, w);
      AdvanceOne(loc, q[|q| - 1].id, loc'[q[|q| - 1].id]);
    case PopLost(w) =>
      var q := Ready(s, s.workers[w].jobType);
      loc' := KeepPopLost(s, loc, w);
      AdvanceOne(loc, q[|q| - 1].id, loc'[q[|q| - 1].id]);
    case MarkRunning(w, ok) =>
      loc' := KeepMarkRunning(s, loc, w, ok);
      AdvanceOne(loc, s.workers[w].phase.job.id, loc'[s.workers[w].phase.job.id]);
    case Succeed(w) =>
      loc' := KeepSucceed(s, loc, w);
      AdvanceOne(loc, s.workers[w].phase.job.id, loc'[s.workers[w].phase.job.id]);
    case Fail(w, ok) =>
      var j := s.workers[w].phase.job;
      if LastRun(j) {
        loc' := KeepBury(s, loc, w, ok);
      } else {
        loc' := KeepRetry(s, loc, w, ok);
        SpotFacts(s, loc, j.id);
      }
      AdvanceOne(loc, j.id, loc'[j.id]);
  }

  lemma KeepDropped(s: State, loc: Locations, w: nat) returns (loc': Locations)
    requires Inv(s, loc) && w < |s.workers|
    ensures Inv(DoDropHeld(s, w), loc')
    ensures Advances(loc, loc')
  {
    hide Inv;
    if s.workers[w].phase.Popped? || s.workers[w].phase.Handling? {
      loc' := KeepDropHeld(s, loc, w);
      AdvanceOne(loc, s.workers[w].phase.job.id, loc'[s.workers[w].phase.job.id]);
    } else {
      KeepCrashIdle(s, loc, w);
      loc' := loc;
    }
  }

  lemma KeepDrainerStep(s: State, loc: Locations, e: Step) returns (loc': Locations)
    requires Inv(s, loc) && Enabled(s, e)
    requires e.Snapshot? || e.Claim? || e.ClaimLost? || e.Repush? || e.CrashDrainer?
    ensures Inv(Apply(s, e), loc')
    ensures Advances(loc, loc')
  {
    hide Inv;
    loc' := loc;
    match e
    case Snapshot(d, members) => KeepSnapshot(s, loc, d, members);
    case Claim(d, ok) =>
      if ok && s.drainers[d].rest[0] in s.delayed {
        loc' := KeepClaim(s, loc, d);
        AdvanceOne(loc, s.drainers[d].rest[0].id, loc'[s.drainers[d].rest[0].id]);
      } else {
        KeepMissedClaim(s, loc, d);
      }
    case ClaimLost(d) =>
      if s.drainers[d].rest[0] in s.delayed {
        loc' := KeepClaimLost(s, loc, d);
        AdvanceOne(loc, s.drainers[d].rest[0].id, loc'[s.drainers[d].rest[0].id]);
      } else {
        KeepMissedClaim(s, loc, d);
      }
    case Repush(d, ok) =>
      loc' := KeepRepush(s, loc, d, ok);
      AdvanceOne(loc, s.drainers[d].job.id, loc'[s.drainers[d].job.id]);
    case CrashDrainer(d) =>
      if s.drainers[d].Claimed? {
        loc' := KeepCrashDrainer(s, loc, d);
        AdvanceOne(loc, s.drainers[d].job.id, loc'[s.drainers[d].job.id]);
      } else {
        KeepMissedClaim(s, loc, d);
      }
  }

  /** Every step keeps the invariant, and no token ever moves back. */
  lemma KeepNext(s: State, loc: Locations, e: Step) returns (loc': Locations)
    requires Inv(s, loc)
    ensures Inv(Next(s, e), loc')
    ensures Advances(loc, loc')
  {
    hide Inv;
    loc' := loc;
    if Enabled(s, e) {
      match e
      case Tick(delta) => KeepTick(s, loc, delta);
      case Insert(tx, id, t, payload) => KeepInsert(s, loc, tx, id, t, payload);
      case Push(tx, ok) =>
        if ok {
          loc' := KeepPush(s, loc, tx);
        } else {
          KeepPushFailed(s, loc, tx);
        }
      case Commit(tx) => KeepCommit(s, loc, tx);
      case Rollback(tx) => KeepRollback(s, loc, tx);
      case Write(w, ok) => KeepWrite(s, loc, w, ok);
      case Discard(w) => loc' := KeepDropped(s, loc, w);
      case CrashWorker(w) => loc' := KeepDropped(s, loc, w);
      case Snapshot(_, _) => loc' := KeepDrainerStep(s, loc, e);
      case Claim(_, _) => loc' := KeepDrainerStep(s, loc, e);
      case ClaimLost(_) => loc' := KeepDrainerStep(s, loc, e);
      case Repush(_, _) => loc' := KeepDrainerStep(s, loc, e);
      case CrashDrainer(_) => loc' := KeepDrainerStep(s, loc, e);
      case _ => loc' := KeepWorkerStep(s, loc, e);
    }
  }

  lemma {:induction false} AdvancesTransitive(a: Locations, b: Locations, c: Locations)
    requires Advances(a, b) && Advances(b, c)
    ensures Advances(a, c)
  {
  }

  /** The invariant holds after every schedule. */
  lemma {:induction false} KeepExec(s: State, loc: Locations, schedule: seq<Step>) returns (loc': Locations)
    requires Inv(s, loc)
    ensures Inv(Exec(s, schedule), loc')
    ensures Advances(loc, loc')
    decreases |schedule|
  {
    hide Inv;
    if schedule == [] {
      loc' := loc;
    } else {
      var loc1 := KeepNext(s, loc, schedule[0]);
      loc' := KeepExec(Next(s, schedule[0]), loc1, schedule[1..]);
      AdvancesTransitive(loc, loc1, loc');
    }
  }
}