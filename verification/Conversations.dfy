/** Private conversations: one row per unordered pair of users, however many requests to open one
    run at the same time. */
module Conversations {
  import Jobs

  type UserId = int

  /** The row of a pair; CHECK(user1_id < user2_id). */
  datatype Pair = Pair(user1: UserId, user2: UserId)

  function Canonical(a: UserId, b: UserId): Pair {
    if a > b then Pair(b, a) else Pair(a, b)
  }

  predicate HasPair(rows: map<nat, Pair>, p: Pair) {
    exists id | id in rows :: rows[id] == p
  }

  /** The row of a pair, if there is one. */
  ghost predicate RowOf(rows: map<nat, Pair>, p: Pair, found: Jobs.Option<nat>) {
    match found
    case Some(id) => id in rows && rows[id] == p
    case None => !HasPair(rows, p)
  }

  /** UNIQUE(user1_id, user2_id), the check, and the identity sequence. */
  predicate RowsOk(rows: map<nat, Pair>, next: nat) {
    && (forall id | id in rows :: id < next && rows[id].user1 < rows[id].user2)
    && (forall i, k | i in rows && k in rows && i != k :: rows[i] != rows[k])
  }

  // ---- one request at a time ----

  datatype Answer = Conversation(id: nat, created: bool) | BadRequest | NotFound | Failed

  /** The reply to the query for the receiver. */
  datatype Lookup = Found | Missing | LookupFailed

  /** Which query of CreatePrivate fails: the lookup, the insert, or the reload of the new row. */
  datatype Fault = NoFault | AtLookup | AtInsert | AtReload

  class Privates {
    var rows: map<nat, Pair>
    var next: nat

    ghost predicate Valid()
      reads this
    {
      RowsOk(rows, next)
    }

    constructor ()
      ensures Valid() && rows == map[]
    {
      rows, next := map[], 1;
    }

    /** The arguments are swapped into order first, so their order does not matter. */
    method GetPrivateByUsers(user1Id: UserId, user2Id: UserId) returns (found: Jobs.Option<nat>)
      ensures RowOf(rows, Canonical(user1Id, user2Id), found)
    {
      var a, b := user1Id, user2Id;
      if a > b {
        a, b := b, a;
      }
      if id :| id in rows && rows[id] == Pair(a, b) {
        return Jobs.Some(id);
      }
      found := Jobs.None;
    }

    /** The row of the pair, inserted if it was not there. An error for a user with themselves, and if a
        query fails; when the last one does, the new row is there all the same. */
    method CreatePrivate(user1Id: UserId, user2Id: UserId, fault: Fault) returns (id: Jobs.Option<nat>)
      requires Valid()
      modifies this
      ensures Valid()
      ensures var p := Canonical(user1Id, user2Id);
        && (id == Jobs.None <==>
              user1Id == user2Id || fault == AtLookup || (!HasPair(old(rows), p) && fault != NoFault))
        && (id.Some? ==> id.value in rows && rows[id.value] == p)
        && (if user1Id == user2Id || HasPair(old(rows), p) || fault == AtLookup || fault == AtInsert
            then rows == old(rows)
            else old(next) !in old(rows) && rows == old(rows)[old(next) := p])
    {
      if user1Id == user2Id {
        return Jobs.None;
      }
      var a, b := user1Id, user2Id;
      if a > b {
        a, b := b, a;
      }
      if fault == AtLookup {
        return Jobs.None;
      }
      var existing := GetPrivateByUsers(a, b);
      if existing.Some? {
        return existing;
      }
      if fault == AtInsert {
        return Jobs.None;
      }
      id := Jobs.Some(next);
      rows := rows[next := Pair(a, b)];
      next := next + 1;
      if fault == AtReload {
        id := Jobs.None;
      }
    }

    /** HandleJoinPrivate: `lookup` is the reply about the receiver, `queryOk` whether the first query for
        the pair works, `fault` where creating the conversation breaks, if it comes to that. */
    method HandleJoinPrivate(user: UserId, receiver: UserId, lookup: Lookup, queryOk: bool, fault: Fault)
        returns (answer: Answer)
      requires Valid()
      modifies this
      ensures Valid()
      ensures var p := Canonical(user, receiver); var asked := receiver != 0 && user != receiver;
        && (answer == BadRequest <==> !asked)
        && (answer == NotFound <==> asked && lookup == Missing)
        && (answer == Failed <==>
              asked && (lookup == LookupFailed
                  || (lookup == Found && (!queryOk || (!HasPair(old(rows), p) && fault != NoFault)))))
        && (answer.Conversation? ==>
              answer.id in rows && rows[answer.id] == p && answer.created == !HasPair(old(rows), p))
        && (rows == old(rows) || (rows == old(rows)[old(next) := p] && !HasPair(old(rows), p) && asked
              && (answer.Conversation? || fault == AtReload)))
    {
      if receiver == 0 || user == receiver {
        return BadRequest;
      }
      if lookup == Missing {
        return NotFound;
      }
      if lookup == LookupFailed || !queryOk {
        return Failed;
      }
      var found := GetPrivateByUsers(user, receiver);
      if found.Some? {
        assert rows[found.value] == Canonical(user, receiver);
        return Conversation(found.value, false);
      }
      var id := CreatePrivate(user, receiver, fault);
      if id.None? {
        return Failed;
      }
      answer := Conversation(id.value, true);
    }
  }

  // ---- many requests at once ----

  /** Where a request is: before its lookup, before the second lookup inside CreatePrivate, before
      its insert, or answered. */
  datatype Phase = Looking | Checking | Inserting | Answered(answer: Answer)

  datatype Request = Request(user: UserId, receiver: UserId, phase: Phase)

  datatype State = State(rows: map<nat, Pair>, next: nat, requests: seq<Request>)

  const Empty: State := State(map[], 1, [])

  /** A row that a lookup finds is named by the step. */
  datatype Step =
    | Join(user: UserId, receiver: UserId, receiverExists: bool)
    | Find(i: nat, id: nat)
    | Miss(i: nat)
    | Insert(i: nat, reloadOk: bool)
    | Fail(i: nat)

  function Wanted(r: Request): Pair {
    Canonical(r.user, r.receiver)
  }

  function Opening(user: UserId, receiver: UserId, receiverExists: bool): Phase {
    if receiver == 0 || user == receiver then Answered(BadRequest)
    else if !receiverExists then Answered(NotFound)
    else Looking
  }

  predicate Enabled(s: State, e: Step) {
    match e
    case Join(_, _, _) => true
    case Find(i, id) =>
      && i < |s.requests| && (s.requests[i].phase == Looking || s.requests[i].phase == Checking)
      && id in s.rows && s.rows[id] == Wanted(s.requests[i])
    case Miss(i) =>
      && i < |s.requests| && (s.requests[i].phase == Looking || s.requests[i].phase == Checking)
      && !HasPair(s.rows, Wanted(s.requests[i]))
    case Insert(i, _) => i < |s.requests| && s.requests[i].phase == Inserting
    case Fail(i) => i < |s.requests| && !s.requests[i].phase.Answered?
  }

  function Moved(s: State, i: nat, phase: Phase): State
    requires i < |s.requests|
  {
    s.(requests := s.requests[i := s.requests[i].(phase := phase)])
  }

  /** A conversation found inside CreatePrivate is still answered as created. The insert fails if
      another request has inserted the pair meanwhile; the sequence moves on all the same. */
  function Next(s: State, e: Step): State {
    if !Enabled(s, e) then s else
    match e
    case Join(user, receiver, there) =>
        s.(requests := s.requests + [Request(user, receiver, Opening(user, receiver, there))])
    case Find(i, id) => Moved(s, i, Answered(Conversation(id, s.requests[i].phase == Checking)))
    case Miss(i) => Moved(s, i, if s.requests[i].phase == Looking then Checking else Inserting)
    case Insert(i, reloadOk) =>
      var s1 := s.(next := s.next + 1);
      if HasPair(s.rows, Wanted(s.requests[i])) then Moved(s1, i, Answered(Failed))
      else
        Moved(s1, i, Answered(if reloadOk then Conversation(s.next, true) else Failed)).(rows :=
            s.rows[s.next := Wanted(s.requests[i])])
    case Fail(i) => Moved(s, i, Answered(Failed))
  }

  function Exec(s: State, schedule: seq<Step>): State {
    if schedule == [] then s else Next(Exec(s, schedule[..|schedule| - 1]), schedule[|schedule| - 1])
  }

  predicate RequestOk(r: Request, rows: map<nat, Pair>) {
    && (!r.phase.Answered? ==> r.user != r.receiver)
    && (r.phase.Answered? && r.phase.answer.Conversation? ==>
          r.phase.answer.id in rows && rows[r.phase.answer.id] == Wanted(r))
  }

  predicate Inv(s: State) {
    && RowsOk(s.rows, s.next)
    && forall i | 0 <= i < |s.requests| :: RequestOk(s.requests[i], s.rows)
  }

  lemma KeepNext(s: State, e: Step)
    requires Inv(s)
    ensures Inv(Next(s, e))
    ensures forall id | id in s.rows :: id in Next(s, e).rows && Next(s, e).rows[id] == s.rows[id]
  {
    if e.Insert? && Enabled(s, e) {
      assert !HasPair(s.rows, Wanted(s.requests[e.i])) ==>
          forall id | id in s.rows :: s.rows[id] != Wanted(s.requests[e.i]);
    }
  }

  lemma {:induction false} KeepExec(s: State, schedule: seq<Step>)
    requires Inv(s)
    ensures Inv(Exec(s, schedule))
    ensures forall id | id in s.rows :: id in Exec(s, schedule).rows && Exec(s, schedule).rows[id] == s.rows[id]
    decreases |schedule|
  {
    if schedule != [] {
      var last := |schedule| - 1;
      KeepExec(s, schedule[..last]);
      KeepNext(Exec(s, schedule[..last]), schedule[last]);
      hide Inv, Next;
    }
  }

  predicate Got(s: State, i: nat, id: nat) {
    i < |s.requests| && s.requests[i].phase.Answered? && s.requests[i].phase.answer.Conversation?
        && s.requests[i].phase.answer.id == id
  }

  /** In every interleaving: at most one row for two users in either order, and any two requests
      answered with a conversation got the same one exactly if they named the same two users. */
  lemma OneConversationPerPair(schedule: seq<Step>)
    ensures var s := Exec(Empty, schedule);
      && (forall i, k | i in s.rows && k in s.rows ::
            Canonical(s.rows[i].user1, s.rows[i].user2) == Canonical(s.rows[k].user2, s.rows[k].user1) ==> i == k)
      && (forall i: nat, k: nat, x: nat, y: nat :: Got(s, i, x) && Got(s, k, y) ==>
            (x == y <==> {s.requests[i].user, s.requests[i].receiver} == {s.requests[k].user, s.requests[k].receiver}))
  {
    KeepExec(Empty, schedule);
    var s := Exec(Empty, schedule);
    forall i: nat, k: nat, x: nat, y: nat | Got(s, i, x) && Got(s, k, y)
      ensures x == y <==> {s.requests[i].user, s.requests[i].receiver} == {s.requests[k].user, s.requests[k].receiver}
    {
      var a, b := s.requests[i], s.requests[k];
      assert RequestOk(a, s.rows) && RequestOk(b, s.rows);
      SamePair(a.user, a.receiver, b.user, b.receiver);
    }
  }

  lemma SamePair(a: UserId, b: UserId, c: UserId, d: UserId)
    ensures Canonical(a, b) == Canonical(c, d) <==> {a, b} == {c, d}
  {
    if {a, b} == {c, d} {
      assert a in {c, d} && b in {c, d} && c in {a, b} && d in {a, b};
    }
    if Canonical(a, b) == Canonical(c, d) {
      assert (a == c && b == d) || (a == d && b == c);
    }
  }

  // ---- what a request is told ----

  /** A request is refused at once if it names nobody, or the user themselves, or a receiver who does not
      exist; otherwise it looks for the conversation. */
  lemma JoinOpens(s: State, user: UserId, receiver: UserId, there: bool)
    ensures var s' := Next(s, Join(user, receiver, there));
      && s'.rows == s.rows && |s'.requests| == |s.requests| + 1 && s'.requests[..|s.requests|] == s.requests
      && var r := s'.requests[|s.requests|];
         && r.user == user && r.receiver == receiver
         && (r.phase == Answered(BadRequest) <==> receiver == 0 || receiver == user)
         && (r.phase == Answered(NotFound) <==> receiver != 0 && receiver != user && !there)
         && (r.phase == Looking <==> receiver != 0 && receiver != user && there)
  {
  }

  /** Some lookup of request i found nothing. */
  ghost predicate Missed(schedule: seq<Step>, i: nat) {
    exists k: nat :: k < |schedule| && schedule[k] == Miss(i) && Enabled(Exec(Empty, schedule[..k]), Miss(i))
  }

  lemma MissedLater(a: seq<Step>, e: Step, i: nat)
    ensures Missed(a + [e], i) <==> Missed(a, i) || (e == Miss(i) && Enabled(Exec(Empty, a), Miss(i)))
  {
    var b := a + [e];
    assert b[..|a|] == a && b[|a|] == e;
    assert forall k: nat | k < |a| :: b[..k] == a[..k] && b[k] == a[k];
    if Missed(b, i) {
      var k: nat :| k < |b| && b[k] == Miss(i) && Enabled(Exec(Empty, b[..k]), Miss(i));
      assert k < |a| ==> a[k] == Miss(i) && Enabled(Exec(Empty, a[..k]), Miss(i));
    }
    if Missed(a, i) {
      var k: nat :| k < |a| && a[k] == Miss(i) && Enabled(Exec(Empty, a[..k]), Miss(i));
      assert b[k] == Miss(i) && Enabled(Exec(Empty, b[..k]), Miss(i));
    }
    hide Exec, Enabled;
    if e == Miss(i) && Enabled(Exec(Empty, a), Miss(i)) {
      assert b[|a|] == Miss(i) && Enabled(Exec(Empty, b[..|a|]), Miss(i));
    }
  }

  /** In every run a request is told that the conversation is new exactly if one of its own lookups had
      found none, even if it was another request that made it. */
  lemma {:induction false} CreatedExactlyWhenMissed(schedule: seq<Step>, i: nat)
    ensures var s := Exec(Empty, schedule);
      && (i >= |s.requests| ==> !Missed(schedule, i))
      && (i < |s.requests| ==>
            var p := s.requests[i].phase;
            && (p == Looking ==> !Missed(schedule, i))
            && (p == Checking || p == Inserting ==> Missed(schedule, i))
            && (p.Answered? && p.answer.Conversation? ==> (p.answer.created <==> Missed(schedule, i))))
    decreases |schedule|
  {
    if schedule != [] {
      var a, e := schedule[..|schedule| - 1], schedule[|schedule| - 1];
      CreatedExactlyWhenMissed(a, i);
      MissedLater(a, e, i);
      assert a + [e] == schedule;
      hide Missed, HasPair;
    }
  }

  // ---- the price of the unique key ----

  /** The state before the k-th step of a run. */
  function At(schedule: seq<Step>, k: nat): State
    requires k <= |schedule|
  {
    Exec(Empty, schedule[..k])
  }

  /** Step k is request i's second and last miss. */
  predicate Misses(schedule: seq<Step>, k: nat, i: nat) {
    && k < |schedule| && schedule[k] == Miss(i) && Enabled(At(schedule, k), Miss(i))
    && At(schedule, k).requests[i].phase == Checking
  }

  /** Step m is another request's insert of the pair. */
  predicate Adds(schedule: seq<Step>, m: nat, i: nat, p: Pair) {
    && m < |schedule| && schedule[m].Insert? && schedule[m].i != i && Enabled(At(schedule, m), schedule[m])
    && Wanted(At(schedule, m).requests[schedule[m].i]) == p && !HasPair(At(schedule, m).rows, p)
  }

  predicate Inserts(schedule: seq<Step>, n: nat, i: nat) {
    n < |schedule| && schedule[n].Insert? && schedule[n].i == i && Enabled(At(schedule, n), schedule[n])
  }

  /** Between its last miss and its own insert another request inserted the pair. */
  ghost predicate Overtaken(schedule: seq<Step>, i: nat, p: Pair) {
    exists k: nat, m: nat, n: nat ::
        k < m < n && Misses(schedule, k, i) && Adds(schedule, m, i, p) && Inserts(schedule, n, i)
  }

  /** No query fails for any other reason. */
  predicate NoOtherFaults(schedule: seq<Step>) {
    forall e | e in schedule :: !e.Fail? && (e.Insert? ==> e.reloadOk)
  }

  lemma Earlier(a: seq<Step>, e: Step, k: nat, i: nat, p: Pair)
    requires k < |a|
    ensures Misses(a + [e], k, i) <==> Misses(a, k, i)
    ensures Adds(a + [e], k, i, p) <==> Adds(a, k, i, p)
    ensures Inserts(a + [e], k, i) <==> Inserts(a, k, i)
  {
    assert (a + [e])[..k] == a[..k] && (a + [e])[k] == a[k];
  }

  lemma OvertakenEarlier(a: seq<Step>, e: Step, i: nat, p: Pair)
    requires Overtaken(a, i, p)
    ensures Overtaken(a + [e], i, p)
  {
    var k: nat, m: nat, n: nat :| k < m < n && Misses(a, k, i) && Adds(a, m, i, p) && Inserts(a, n, i);
    Earlier(a, e, k, i, p);
    Earlier(a, e, m, i, p);
    Earlier(a, e, n, i, p);
  }

  /** A request that is about to insert has missed, and if the pair is there by now, it has been added since. */
  ghost predicate Raced(a: seq<Step>, i: nat, p: Pair) {
    exists k: nat :: Misses(a, k, i) && (HasPair(Exec(Empty, a).rows, p) ==> exists m: nat :: k < m && Adds(a, m, i, p))
  }

  lemma RacedLater(a: seq<Step>, e: Step, i: nat, p: Pair)
    requires Raced(a, i, p)
    requires var s, s' := Exec(Empty, a), Next(Exec(Empty, a), e);
      HasPair(s'.rows, p) && !HasPair(s.rows, p) ==>
        e.Insert? && e.i != i && Enabled(s, e) && Wanted(s.requests[e.i]) == p
    ensures Raced(a + [e], i, p)
  {
    assert (a + [e])[..|a|] == a;
    var k: nat :| Misses(a, k, i) && (HasPair(Exec(Empty, a).rows, p) ==> exists m: nat :: k < m && Adds(a, m, i, p));
    Earlier(a, e, k, i, p);
    if HasPair(Exec(Empty, a).rows, p) {
      var m: nat :| k < m && Adds(a, m, i, p);
      Earlier(a, e, m, i, p);
    } else if HasPair(Exec(Empty, a + [e]).rows, p) {
      assert Adds(a + [e], |a|, i, p);
    }
  }

  lemma PairsAppear(s: State, e: Step, p: Pair)
    ensures HasPair(s.rows, p) ==> HasPair(Next(s, e).rows, p) || (e.Insert? && s.next in s.rows)
    ensures HasPair(Next(s, e).rows, p) && !HasPair(s.rows, p) ==>
      e.Insert? && Enabled(s, e) && Wanted(s.requests[e.i]) == p
  {
    if HasPair(s.rows, p) {
      var id :| id in s.rows && s.rows[id] == p;
      assert s.next !in s.rows ==> id in Next(s, e).rows && Next(s, e).rows[id] == p;
    }
  }

  /** Who asked for what does not change, and answers are final. */
  lemma RequestsStay(s: State, e: Step, i: nat)
    requires i < |s.requests|
    ensures i < |Next(s, e).requests| && Wanted(Next(s, e).requests[i]) == Wanted(s.requests[i])
    ensures s.requests[i].phase.Answered? ==> Next(s, e).requests[i] == s.requests[i]
  {
  }

  lemma {:induction false} FailedMeansOvertaken(schedule: seq<Step>, i: nat)
    requires NoOtherFaults(schedule) && i < |Exec(Empty, schedule).requests|
    ensures var r := Exec(Empty, schedule).requests[i];
      && (r.phase == Inserting ==> Raced(schedule, i, Wanted(r)))
      && (r.phase == Answered(Failed) ==> Overtaken(schedule, i, Wanted(r)))
    decreases |schedule|
  {
    if schedule != [] {
      var n := |schedule| - 1;
      var a, e := schedule[..n], schedule[n];
      var s := Exec(Empty, a);
      assert schedule == a + [e] && e in schedule;
      assert forall x | x in a :: x in schedule;
      if i < |s.requests| {
        FailedMeansOvertaken(a, i);
        RequestsStay(s, e, i);
        var p := Wanted(s.requests[i]);
        PairsAppear(s, e, p);
        hide Overtaken, Raced, HasPair;
        if s.requests[i].phase == Answered(Failed) {
          OvertakenEarlier(a, e, i, p);
        } else if s.requests[i].phase == Inserting && Next(s, e).requests[i].phase == Inserting {
          RacedLater(a, e, i, p);
        } else if s.requests[i].phase == Inserting && Next(s, e).requests[i].phase == Answered(Failed) {
          InsertFails(a, e, i, p);
        } else if Next(s, e).requests[i].phase == Inserting {
          JustMissed(a, e, i, p);
        }
      }
    }
  }

  lemma InsertFails(a: seq<Step>, e: Step, i: nat, p: Pair)
    requires var s := Exec(Empty, a); i < |s.requests| && s.requests[i].phase == Inserting && Wanted(s.requests[i]) == p
    requires e == Insert(i, true) && HasPair(Exec(Empty, a).rows, p) && Raced(a, i, p)
    ensures Overtaken(a + [e], i, p)
  {
    assert (a + [e])[..|a|] == a;
    var k: nat :| Misses(a, k, i) && (HasPair(Exec(Empty, a).rows, p) ==> exists m: nat :: k < m && Adds(a, m, i, p));
    var m: nat :| k < m && Adds(a, m, i, p);
    Earlier(a, e, k, i, p);
    Earlier(a, e, m, i, p);
    assert Inserts(a + [e], |a|, i);
  }

  lemma JustMissed(a: seq<Step>, e: Step, i: nat, p: Pair)
    requires var s := Exec(Empty, a);
        i < |s.requests| && s.requests[i].phase == Checking && Enabled(s, e) && e == Miss(i)
    requires Wanted(Exec(Empty, a).requests[i]) == p
    ensures Raced(a + [e], i, p)
  {
    assert (a + [e])[..|a|] == a;
    assert Misses(a + [e], |a|, i);
    assert Next(Exec(Empty, a), e).rows == Exec(Empty, a).rows;
  }

  lemma {:induction false} StaysFrom(schedule: seq<Step>, n: nat, i: nat, p: Pair)
    requires n <= |schedule| && i < |At(schedule, n).requests|
    ensures var s := Exec(Empty, schedule);
      && i < |s.requests| && Wanted(s.requests[i]) == Wanted(At(schedule, n).requests[i])
      && (At(schedule, n).requests[i].phase.Answered? ==> s.requests[i] == At(schedule, n).requests[i])
      && (HasPair(At(schedule, n).rows, p) ==> HasPair(s.rows, p))
    decreases |schedule|
  {
    if n == |schedule| {
      assert schedule[..n] == schedule;
    } else {
      var last := |schedule| - 1;
      var a := schedule[..last];
      assert schedule[..n] == a[..n];
      StaysFrom(a, n, i, p);
      KeepExec(Empty, a);
      RequestsStay(Exec(Empty, a), schedule[last], i);
      PairsAppear(Exec(Empty, a), schedule[last], p);
      hide HasPair, Next;
    }
  }

  lemma NextAt(schedule: seq<Step>, n: nat)
    requires n < |schedule|
    ensures At(schedule, n + 1) == Next(At(schedule, n), schedule[n])
  {
    assert schedule[..n + 1][..n] == schedule[..n] && schedule[..n + 1][n] == schedule[n];
  }

  lemma Between(schedule: seq<Step>, n: nat, m: nat, i: nat, p: Pair)
    requires n <= m <= |schedule| && i < |At(schedule, n).requests|
    ensures var s := At(schedule, m);
      && i < |s.requests| && Wanted(s.requests[i]) == Wanted(At(schedule, n).requests[i])
      && (At(schedule, n).requests[i].phase.Answered? ==> s.requests[i] == At(schedule, n).requests[i])
      && (HasPair(At(schedule, n).rows, p) ==> HasPair(s.rows, p))
  {
    assert schedule[..m][..n] == schedule[..n];
    StaysFrom(schedule[..m], n, i, p);
  }

  lemma AddedPair(schedule: seq<Step>, m: nat, i: nat, p: Pair)
    requires Adds(schedule, m, i, p)
    ensures HasPair(At(schedule, m + 1).rows, p)
  {
    NextAt(schedule, m);
    var s := At(schedule, m);
    hide At;
    assert s.next in Next(s, schedule[m]).rows && Next(s, schedule[m]).rows[s.next] == p;
  }

  /** At its insert an overtaken request finds the pair there. */
  lemma OvertakenFindsPair(schedule: seq<Step>, k: nat, m: nat, n: nat, i: nat, p: Pair)
    requires k < m < n && Misses(schedule, k, i) && Adds(schedule, m, i, p) && Inserts(schedule, n, i)
    ensures HasPair(At(schedule, n).rows, p)
  {
    assert i < |At(schedule, k).requests|;
    AddedPair(schedule, m, i, p);
    hide Adds, Misses, Inserts, At, HasPair;
    Between(schedule, k, m + 1, i, p);
    Between(schedule, m + 1, n, i, p);
  }

  lemma OvertakenMeansFailed(schedule: seq<Step>, i: nat)
    requires i < |Exec(Empty, schedule).requests| && Overtaken(schedule, i, Wanted(Exec(Empty, schedule).requests[i]))
    ensures Exec(Empty, schedule).requests[i].phase == Answered(Failed)
  {
    var p := Wanted(Exec(Empty, schedule).requests[i]);
    var k: nat, m: nat, n: nat :| k < m < n && Misses(schedule, k, i) && Adds(schedule, m, i, p)
        && Inserts(schedule, n, i);
    OvertakenFindsPair(schedule, k, m, n, i, p);
    hide Exec, At, HasPair, Misses, Adds, Overtaken;
    AtEnd(schedule);
    Between(schedule, n, |schedule|, i, p);
    NextAt(schedule, n);
    var s := At(schedule, n);
    assert Next(s, schedule[n]).requests[i].phase == Answered(Failed);
    hide Next, Inserts;
    Between(schedule, n + 1, |schedule|, i, p);
  }

  lemma AtEnd(schedule: seq<Step>)
    ensures At(schedule, |schedule|) == Exec(Empty, schedule)
  {
    assert schedule[..|schedule|] == schedule;
  }

  /** In every run in which no query fails by itself, a request is answered with an error exactly if
      another request inserted its pair between its last miss and its insert. */
  lemma FailedExactlyWhenOvertaken(schedule: seq<Step>, i: nat)
    requires NoOtherFaults(schedule) && i < |Exec(Empty, schedule).requests|
    ensures Exec(Empty, schedule).requests[i].phase == Answered(Failed)
      <==> Overtaken(schedule, i, Wanted(Exec(Empty, schedule).requests[i]))
  {
    hide Overtaken, Raced;
    FailedMeansOvertaken(schedule, i);
    if Overtaken(schedule, i, Wanted(Exec(Empty, schedule).requests[i])) {
      OvertakenMeansFailed(schedule, i);
    }
  }

  lemma OneMore(a: seq<Step>, e: Step)
    ensures Exec(Empty, a + [e]) == Next(Exec(Empty, a), e)
  {
    assert (a + [e])[..|a|] == a;
  }

  function Both(a: UserId, b: UserId, p: Phase, q: Phase): State {
    State(map[], 1, [Request(a, b, p), Request(b, a, q)])
  }

  lemma BothAsk(a: UserId, b: UserId)
    requires a != b && a != 0 && b != 0
    ensures Exec(Empty, [Join(a, b, true), Join(b, a, true)]) == Both(a, b, Looking, Looking)
  {
    OneMore([], Join(a, b, true));
    OneMore([Join(a, b, true)], Join(b, a, true));
    assert [] + [Join(a, b, true)] == [Join(a, b, true)];
    assert [Join(a, b, true)] + [Join(b, a, true)] == [Join(a, b, true), Join(b, a, true)];
  }

  lemma BothMiss(a: UserId, b: UserId)
    ensures Next(Both(a, b, Looking, Looking), Miss(0)) == Both(a, b, Checking, Looking)
    ensures Next(Both(a, b, Checking, Looking), Miss(1)) == Both(a, b, Checking, Checking)
    ensures Next(Both(a, b, Checking, Checking), Miss(0)) == Both(a, b, Inserting, Checking)
    ensures Next(Both(a, b, Inserting, Checking), Miss(1)) == Both(a, b, Inserting, Inserting)
  {
  }

  lemma BothInsert(a: UserId, b: UserId)
    ensures var s := Next(Next(Both(a, b, Inserting, Inserting), Insert(0, true)), Insert(1, true));
      && |s.requests| == 2
      && s.requests[0] == Request(a, b, Answered(Conversation(1, true)))
      && s.requests[1] == Request(b, a, Answered(Failed))
      && HasPair(s.rows, Canonical(b, a))
  {
    var s := Next(Both(a, b, Inserting, Inserting), Insert(0, true));
    assert 1 in s.rows && s.rows[1] == Canonical(b, a);
    assert HasPair(s.rows, Canonical(b, a));
  }

  /** It happens: two users ask for each other, both requests miss twice, and the second insert fails
      although the conversation is there. */
  lemma TwoJoinsRace(a: UserId, b: UserId)
    requires a != b && a != 0 && b != 0
    ensures exists schedule ::
      var s := Exec(Empty, schedule);
      && NoOtherFaults(schedule) && |s.requests| == 2
      && s.requests[0] == Request(a, b, Answered(Conversation(1, true)))
      && s.requests[1] == Request(b, a, Answered(Failed))
      && HasPair(s.rows, Canonical(b, a))
  {
    var two := [Join(a, b, true), Join(b, a, true)];
    BothAsk(a, b);
    OneMore(two, Miss(0));
    OneMore(two + [Miss(0)], Miss(1));
    OneMore(two + [Miss(0)] + [Miss(1)], Miss(0));
    OneMore(two + [Miss(0)] + [Miss(1)] + [Miss(0)], Miss(1));
    BothMiss(a, b);
    var six := two + [Miss(0)] + [Miss(1)] + [Miss(0)] + [Miss(1)];
    OneMore(six, Insert(0, true));
    OneMore(six + [Insert(0, true)], Insert(1, true));
    BothInsert(a, b);
    hide Exec, Next, Both, HasPair;
    assert NoOtherFaults(six + [Insert(0, true)] + [Insert(1, true)]);
  }
}
