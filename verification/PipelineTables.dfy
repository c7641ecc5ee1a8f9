/** What the handlers leave in each table, told from the events and runs themselves: over every run
    for rooms, attendance and summaries, and for each transaction that commits. */
module PipelineTables {
  import opened Jobs
  import Rooms
  import opened Pipeline
  import opened PipelineTheorems
  import opened PipelineRuns

  // ---- rooms ----

  /** What an event says about room n. */
  function RoomEventOf(event: Event, n: Name, now: int): Option<Rooms.RoomEvent> {
    match event
    case RoomStarted(room) => if room == Some(n) then Some(Rooms.Started(now)) else None
    case RoomFinished(room) => if room == Some(n) then Some(Rooms.Finished(now)) else None
    case _ => None
  }

  /** The events of room n that a schedule dispatches with their statement succeeding, from the time
      the room is there. */
  function RoomLog(s: State, schedule: seq<Step>, n: Name): seq<Rooms.RoomEvent>
    decreases |schedule|
  {
    if schedule == [] then []
    else NewsOfRoom(s, schedule[0], n) + RoomLog(Next(s, schedule[0]), schedule[1..], n)
  }

  function NewsOfRoom(s: State, e: Step, n: Name): seq<Rooms.RoomEvent> {
    if n in s.rooms && Enabled(s, e) && e.Dispatch? && e.dbOk && RoomEventOf(s.inbox[e.eid], n, e.now).Some?
    then [RoomEventOf(s.inbox[e.eid], n, e.now).value]
    else []
  }

  lemma HandledRoom(s: State, event: Event, now: int, slot: nat, redisOk: bool, n: Name)
    requires n in s.rooms
    ensures var rooms := Handle(s, event, now, slot, redisOk).rooms;
      n in rooms && rooms[n] == match RoomEventOf(event, n, now)
                                case None => s.rooms[n]
                                case Some(e) => Rooms.OnEvent(s.rooms[n], e)
  {
    hide EndedTx, Joined, Left, Rooms.OnEvent;
    match event
    case RoomStarted(_) =>
    case RoomFinished(_) =>
    case ParticipantJoined(_, _) =>
    case ParticipantLeft(_, _) =>
    case EgressStarted(_) =>
    case EgressEnded(_) =>
    case OtherEvent =>
  }

  lemma RoomNext(s: State, e: Step, n: Name)
    requires n in s.rooms
    ensures n in Next(s, e).rooms && Next(s, e).rooms[n] == Rooms.Deliver(s.rooms[n], NewsOfRoom(s, e, n))
  {
    hide Rooms.OnEvent, Handle, RoomEventOf;
    if Enabled(s, e) {
      match e
      case CreateRoom(_, _) =>
      case Receive(_, _) =>
      case Dispatch(eid, now, slot, dbOk, redisOk) =>
        var s1 := s.(inbox := s.inbox - {eid}, handled := s.handled + [eid]);
        HandledRoom(s1, s.inbox[eid], now, slot, redisOk, n);
        hide Waits;
      case Forget(_) =>
      case CommitTx(_) =>
      case RollbackTx(_) =>
      case RunTranscribe(_, _, _, _, _) => hide TranscriptTx;
      case RunSummarize(_, _, _, _) =>
    }
  }

  lemma NobodyElseCreates(s: State, e: Step, n: Name)
    requires n !in s.rooms
    ensures n in Next(s, e).rooms ==> exists host :: Next(s, e).rooms[n] == Rooms.NewRoom(host)
    ensures NewsOfRoom(s, e, n) == []
  {
    hide Handle, TranscriptTx, Rooms.NewRoom;
    if Enabled(s, e) {
      match e
      case CreateRoom(_, host) => assert Apply(s, e).rooms == s.rooms[e.name := Rooms.NewRoom(host)];
      case Receive(_, _) =>
      case Dispatch(eid, now, slot, dbOk, redisOk) =>
        HandledKeysOfRooms(s.(inbox := s.inbox - {eid}, handled := s.handled + [eid]), s.inbox[eid], now, slot,
                           redisOk);
      case Forget(_) =>
      case CommitTx(_) =>
      case RollbackTx(_) =>
      case RunTranscribe(_, _, _, _, _) =>
      case RunSummarize(_, _, _, _) =>
    }
  }

  lemma HandledKeysOfRooms(s: State, event: Event, now: int, slot: nat, redisOk: bool)
    ensures Handle(s, event, now, slot, redisOk).rooms.Keys == s.rooms.Keys
  {
    hide EndedTx, Joined, Left, Rooms.OnEvent;
    match event
    case RoomStarted(_) =>
    case RoomFinished(_) =>
    case ParticipantJoined(_, _) =>
    case ParticipantLeft(_, _) =>
    case EgressStarted(_) =>
    case EgressEnded(_) =>
    case OtherEvent =>
  }

  lemma {:induction false} RoomExec(s: State, schedule: seq<Step>, n: Name)
    requires n in s.rooms
    ensures n in Exec(s, schedule).rooms
    ensures Exec(s, schedule).rooms[n] == Rooms.Deliver(s.rooms[n], RoomLog(s, schedule, n))
    decreases |schedule|
  {
    if schedule != [] {
      var news, rest := NewsOfRoom(s, schedule[0], n), RoomLog(Next(s, schedule[0]), schedule[1..], n);
      RoomNext(s, schedule[0], n);
      RoomExec(Next(s, schedule[0]), schedule[1..], n);
      assert |news| <= 1;
      hide Next, NewsOfRoom, Rooms.OnEvent;
      if news != [] {
        assert (news + rest)[0] == news[0] && (news + rest)[1..] == rest;
        assert news[1..] == [];
        assert Rooms.Deliver(s.rooms[n], news) == Rooms.Deliver(Rooms.OnEvent(s.rooms[n], news[0]), []);
      } else {
        assert news + rest == rest;
      }
    }
  }

  lemma {:induction false} RoomFromItsCreation(s: State, schedule: seq<Step>, n: Name) returns (host: string)
    requires n !in s.rooms
    ensures n in Exec(s, schedule).rooms ==>
      Exec(s, schedule).rooms[n] == Rooms.Deliver(Rooms.NewRoom(host), RoomLog(s, schedule, n))
    decreases |schedule|
  {
    host := "";
    if schedule != [] {
      var s1 := Next(s, schedule[0]);
      NobodyElseCreates(s, schedule[0], n);
      hide Next, NewsOfRoom, Rooms.NewRoom;
      assert RoomLog(s, schedule, n) == RoomLog(s1, schedule[1..], n);
      if n in s1.rooms {
        host :| s1.rooms[n] == Rooms.NewRoom(host);
        RoomExec(s1, schedule[1..], n);
      } else {
        host := RoomFromItsCreation(s1, schedule[1..], n);
      }
    }
  }

  /** A room over any run, from the events of the room that were dispatched while it was there: it has
      ended exactly if one was a finish, is live exactly if there was one and none was a finish; it has
      the time of the first event if that was a start, and of the first finish. */
  lemma RoomsFollowTheirEvents(schedule: seq<Step>, n: Name)
    requires n in Exec(Empty, schedule).rooms
    ensures var r, log := Exec(Empty, schedule).rooms[n], RoomLog(Empty, schedule, n);
      && (r.status == Rooms.Ended <==> exists i :: 0 <= i < |log| && log[i].Finished?)
      && (r.status == Rooms.Live <==> log != [] && forall i :: 0 <= i < |log| ==> log[i].Started?)
      && r.startedAt == (if log != [] && log[0].Started? then Some(log[0].at) else None)
      && (r.endedAt.Some? <==> r.status == Rooms.Ended)
      && (r.endedAt.Some? ==>
            exists i :: 0 <= i < |log| && log[i] == Rooms.Finished(r.endedAt.value)
              && forall k :: 0 <= k < i ==> log[k].Started?)
      && r.tier == Rooms.Guest && r.durationMins == 30 && !r.extendUsed
  {
    var log := RoomLog(Empty, schedule, n);
    var host := RoomFromItsCreation(Empty, schedule, n);
    Rooms.LifecycleClosedForm(Rooms.NewRoom(host), log);
    Rooms.FirstFinishExists(log);
    FirstFinishIsFirst(log);
    hide Exec, RoomLog;
  }

  lemma {:induction false} FirstFinishIsFirst(log: seq<Rooms.RoomEvent>)
    ensures Rooms.FirstFinish(log).Some? ==>
      exists i :: 0 <= i < |log| && log[i] == Rooms.Finished(Rooms.FirstFinish(log).value)
        && forall k :: 0 <= k < i ==> log[k].Started?
  {
    if log != [] && !log[0].Finished? {
      FirstFinishIsFirst(log[1..]);
      if Rooms.FirstFinish(log[1..]).Some? {
        var i :| 0 <= i < |log[1..]| && log[1..][i] == Rooms.Finished(Rooms.FirstFinish(log[1..]).value)
          && forall k :: 0 <= k < i ==> log[1..][k].Started?;
        assert log[i + 1] == log[1..][i];
        forall k | 0 <= k < i + 1 ensures log[k].Started? {
          assert k > 0 ==> log[k] == log[1..][k - 1];
        }
      }
    } else if log != [] {
      assert log[0] == Rooms.Finished(Rooms.FirstFinish(log).value);
    }
  }

  /** The rooms table before and after one dispatched event. */
  predicate RoomsAfter(rooms: map<Name, Rooms.Room>, rooms': map<Name, Rooms.Room>, event: Event, now: int) {
    match event
    case RoomStarted(Some(n)) =>
      rooms' == if n in rooms && rooms[n].status == Rooms.Draft then
                  rooms[n := rooms[n].(status := Rooms.Live, startedAt := Some(now))]
                else rooms
    case RoomFinished(Some(n)) =>
      rooms' == if n in rooms && rooms[n].status != Rooms.Ended then
                  rooms[n := rooms[n].(status := Rooms.Ended, endedAt := Some(now))]
                else rooms
    case _ => rooms' == rooms
  }

  // ---- attendance ----

  /** What an event says about the attendance of a room. */
  function VisitOf(event: Event, room: Name, now: int): Option<Visit> {
    match event
    case ParticipantJoined(r, who) => if r == Some(room) && who.Some? then Some(Joining(who.value, now)) else None
    case ParticipantLeft(r, who) => if r == Some(room) && who.Some? then Some(Leaving(who.value, now)) else None
    case _ => None
  }

  function NewsOfVisits(s: State, e: Step, room: Name): seq<Visit> {
    if Enabled(s, e) && e.Dispatch? && e.dbOk && VisitOf(s.inbox[e.eid], room, e.now).Some?
    then [VisitOf(s.inbox[e.eid], room, e.now).value]
    else []
  }

  /** The joinings and leavings of a room that a schedule dispatches with their statement succeeding. */
  function VisitLog(s: State, schedule: seq<Step>, room: Name): seq<Visit>
    decreases |schedule|
  {
    if schedule == [] then []
    else NewsOfVisits(s, schedule[0], room) + VisitLog(Next(s, schedule[0]), schedule[1..], room)
  }

  ghost predicate SameIn(a: map<(Name, string), Attendance>, b: map<(Name, string), Attendance>, room: Name) {
    forall id: string ::
      ((room, id) in a <==> (room, id) in b) && ((room, id) in a && (room, id) in b ==> a[(room, id)] == b[(room, id)])
  }

  lemma HandledVisit(s: State, event: Event, now: int, slot: nat, redisOk: bool, room: Name)
    ensures SameIn(Handle(s, event, now, slot, redisOk).attendance,
                   match VisitOf(event, room, now)
                   case None => s.attendance
                   case Some(Joining(who, at)) => Joined(s.attendance, Some(room), Some(who), at)
                   case Some(Leaving(who, at)) => Left(s.attendance, Some(room), Some(who), at),
                   room)
  {
    hide EndedTx, RoomUpdated;
    match event
    case RoomStarted(_) =>
    case RoomFinished(_) =>
    case ParticipantJoined(_, _) =>
    case ParticipantLeft(_, _) =>
    case EgressStarted(_) =>
    case EgressEnded(_) =>
    case OtherEvent =>
  }

  lemma SameAfterVisit(a: map<(Name, string), Attendance>, b: map<(Name, string), Attendance>, room: Name, v: Visit)
    requires SameIn(a, b, room)
    ensures SameIn(Joined(a, Some(room), Some(v.who), v.at), Joined(b, Some(room), Some(v.who), v.at), room)
    ensures SameIn(Left(a, Some(room), Some(v.who), v.at), Left(b, Some(room), Some(v.who), v.at), room)
  {
  }

  lemma VisitAppended(a: map<(Name, string), Attendance>, room: Name, seen: seq<Visit>, v: Visit)
    requires SameIn(a, Attend(map[], room, seen), room)
    ensures SameIn(match v
                   case Joining(who, at) => Joined(a, Some(room), Some(who), at)
                   case Leaving(who, at) => Left(a, Some(room), Some(who), at),
                   Attend(map[], room, seen + [v]), room)
  {
    hide SameIn, Joined, Left;
    SameAfterVisit(a, Attend(map[], room, seen), room, v);
    assert (seen + [v])[..|seen + [v]| - 1] == seen;
  }

  lemma SameInTwice(a: map<(Name, string), Attendance>, b: map<(Name, string), Attendance>,
          c: map<(Name, string), Attendance>, room: Name)
    requires SameIn(a, b, room) && SameIn(b, c, room)
    ensures SameIn(a, c, room)
  {
  }

  lemma DispatchVisits(s: State, e: Step, room: Name, seen: seq<Visit>)
    requires SameIn(s.attendance, Attend(map[], room, seen), room)
    requires Enabled(s, e) && e.Dispatch? && e.dbOk
    ensures SameIn(Next(s, e).attendance, Attend(map[], room, seen + NewsOfVisits(s, e, room)), room)
  {
    var s1 := s.(inbox := s.inbox - {e.eid}, handled := s.handled + [e.eid]);
    assert Next(s, e) == Handle(s1, s.inbox[e.eid], e.now, e.slot, e.redisOk);
    hide Next, Waits, Joined, Left, SameIn, Attend, Handle;
    HandledVisit(s1, s.inbox[e.eid], e.now, e.slot, e.redisOk, room);
    match VisitOf(s.inbox[e.eid], room, e.now)
    case None =>
      assert seen + [] == seen;
      SameInTwice(Next(s, e).attendance, s.attendance, Attend(map[], room, seen), room);
    case Some(v) =>
      VisitAppended(s.attendance, room, seen, v);
      SameInTwice(Next(s, e).attendance,
                  match v
                  case Joining(who, at) => Joined(s.attendance, Some(room), Some(who), at)
                  case Leaving(who, at) => Left(s.attendance, Some(room), Some(who), at),
                  Attend(map[], room, seen + [v]), room);
  }

  /** One step moves the attendance of a room as its news say. */
  lemma VisitNext(s: State, e: Step, room: Name, seen: seq<Visit>)
    requires SameIn(s.attendance, Attend(map[], room, seen), room)
    ensures SameIn(Next(s, e).attendance, Attend(map[], room, seen + NewsOfVisits(s, e, room)), room)
  {
    hide Next, SameIn, Attend, Enabled;
    if Enabled(s, e) && e.Dispatch? && e.dbOk {
      DispatchVisits(s, e, room, seen);
    } else {
      OtherAttendance(s, e);
      assert seen + [] == seen;
    }
  }

  lemma OtherAttendance(s: State, e: Step)
    requires !(Enabled(s, e) && e.Dispatch? && e.dbOk)
    ensures Next(s, e).attendance == s.attendance
  {
    hide Handle, TranscriptTx;
  }

  lemma Joint<T>(a: seq<T>, b: seq<T>, c: seq<T>)
    ensures (a + b) + c == a + (b + c)
  {
  }

  lemma {:induction false} VisitsExec(s: State, schedule: seq<Step>, room: Name, seen: seq<Visit>)
    requires SameIn(s.attendance, Attend(map[], room, seen), room)
    ensures SameIn(Exec(s, schedule).attendance, Attend(map[], room, seen + VisitLog(s, schedule, room)), room)
    decreases |schedule|
  {
    hide Next, NewsOfVisits, SameIn, Attend;
    if schedule == [] {
      assert seen + [] == seen;
    } else {
      var s1, news := Next(s, schedule[0]), NewsOfVisits(s, schedule[0], room);
      VisitNext(s, schedule[0], room, seen);
      VisitsExec(s1, schedule[1..], room, seen + news);
      Joint(seen, news, VisitLog(s1, schedule[1..], room));
    }
  }

  /** Attendance over any run, from the joinings and leavings that were dispatched: a row for a person
      exactly if there was one, with the name of the first, the time of the last joining, and a leaving
      time exactly if the last one was a leaving. */
  lemma AttendanceFollowsTheEvents(schedule: seq<Step>, room: Name, identity: string)
    ensures var a, mine := Exec(Empty, schedule).attendance, Of(VisitLog(Empty, schedule, room), identity);
      && ((room, identity) in a <==> mine != [])
      && ((room, identity) in a && mine != [] ==>
            && a[(room, identity)].display == mine[0].who.display
            && a[(room, identity)].joinedAt == LastJoin(mine)
            && a[(room, identity)].leftAt == if mine[|mine| - 1].Leaving? then Some(mine[|mine| - 1].at) else None)
  {
    VisitsExec(Empty, schedule, room, []);
    assert [] + VisitLog(Empty, schedule, room) == VisitLog(Empty, schedule, room);
    AttendanceFollowsTheLastEvent(room, VisitLog(Empty, schedule, room), identity);
    hide Exec, VisitLog, Attend, Of, LastJoin;
  }

  /** The attendance table before and after one dispatched event. */
  predicate AttendanceAfter(a: map<(Name, string), Attendance>, a': map<(Name, string), Attendance>, event: Event,
          now: int) {
    match event
    case ParticipantJoined(Some(n), Some(who)) =>
      var display := if (n, who.identity) in a then a[(n, who.identity)].display else who.display;
      a' == a[(n, who.identity) := Attendance(display, Some(now), None)]
    case ParticipantLeft(Some(n), Some(who)) =>
      var there := (n, who.identity) in a;
      a' == a[(n, who.identity) := Attendance(if there then a[(n, who.identity)].display else who.display,
                                              if there then a[(n, who.identity)].joinedAt else None, Some(now))]
    case _ => a' == a
  }

  // ---- summaries ----

  predicate SummariesNumbered(s: State) {
    forall k | k in s.summaries :: s.summaries[k].id < s.nextSummary
  }

  predicate Stores(s: State, s': State, work: Work, tr: Transcript, body: string, now: int)
    requires work.SummarizeWork?
  {
    && s'.summaries.Keys == s.summaries.Keys + {tr.id}
    && s'.summaries[tr.id].body == body
    && (tr.id in s.summaries ==> s'.summaries[tr.id] == s.summaries[tr.id].(body := body))
    && (tr.id !in s.summaries ==>
          && s'.summaries[tr.id].category == work.category && s'.summaries[tr.id].room == tr.room
          && s'.summaries[tr.id].createdAt == now
          && forall k | k in s.summaries :: s'.summaries[tr.id].id != s.summaries[k].id)
    && (forall k | k in s.summaries && k != tr.id :: s'.summaries[k] == s.summaries[k])
  }

  lemma StoredColumns(s: State, work: Work, tr: Transcript, body: string, now: int)
    requires work.SummarizeWork? && SummariesNumbered(s)
    ensures Stores(s, StoreSummary(s, work, tr, body, now), work, tr, body, now)
  {
  }

  /** A summarize run is stored: the row of its transcript has the new body, in the room of the
      transcript. A row that was there keeps the rest, a new one has the run's category, its time and
      an id no other row has. No other row changes. */
  lemma SummaryIsStored(s: State, work: Work, e: EgressId, body: string, now: int)
    requires Reachable(s) && Enabled(s, RunSummarize(work, e, body, now))
    ensures var s' := Next(s, RunSummarize(work, e, body, now)); var id := s.transcripts[e].id;
      && s'.summaries.Keys == s.summaries.Keys + {id}
      && s'.summaries[id].body == body && s'.summaries[id].room == s.transcripts[e].room
      && (id in s.summaries ==> s'.summaries[id] == s.summaries[id].(body := body))
      && (id !in s.summaries ==>
            && s'.summaries[id].category == work.category && s'.summaries[id].createdAt == now
            && forall k | k in s.summaries :: s'.summaries[id].id != s.summaries[k].id)
      && (forall k | k in s.summaries && k != id :: s'.summaries[k] == s.summaries[k])
  {
    SummaryIds(s);
    var tr := s.transcripts[e];
    StoredColumns(s, work, tr, body, now);
    assert Next(s, RunSummarize(work, e, body, now)) == StoreSummary(s, work, tr, body, now);
    hide StoreSummary, Next;
    if tr.id in s.summaries {
      SummariesFollowTranscripts(s, tr.id);
      assert s.summaries[tr.id].room == tr.room;
    }
    hide Reachable;
  }

  lemma HandledSummaries(s: State, event: Event, now: int, slot: nat, redisOk: bool)
    ensures var s' := Handle(s, event, now, slot, redisOk);
      s'.summaries == s.summaries && s'.nextSummary == s.nextSummary
  {
    hide EndedTx, Joined, Left, RoomUpdated;
  }

  lemma SameSummaries(s: State, e: Step)
    requires !(Enabled(s, e) && e.RunSummarize?)
    ensures Next(s, e).summaries == s.summaries && Next(s, e).nextSummary == s.nextSummary
  {
    hide TranscriptTx, Handle, StoreSummary;
    if Enabled(s, e) && e.Dispatch? {
      HandledSummaries(s.(inbox := s.inbox - {e.eid}, handled := s.handled + [e.eid]), s.inbox[e.eid], e.now, e.slot,
                       e.redisOk);
    }
  }

  lemma {:induction false} SummariesNumberedExec(s: State, schedule: seq<Step>)
    requires SummariesNumbered(s)
    ensures SummariesNumbered(Exec(s, schedule))
    decreases |schedule|
  {
    if schedule != [] {
      if !(Enabled(s, schedule[0]) && schedule[0].RunSummarize?) {
        SameSummaries(s, schedule[0]);
        hide Next;
      }
      SummariesNumberedExec(Next(s, schedule[0]), schedule[1..]);
    }
  }

  lemma SummaryIds(s: State)
    requires Reachable(s)
    ensures SummariesNumbered(s)
  {
    var schedule :| s == Exec(Empty, schedule);
    SummariesNumberedExec(Empty, schedule);
  }

  /** A run of the summarize handler that stored something. */
  datatype SummaryRun = SummaryRun(category: string, body: string, at: int)

  function NewsOfSummary(s: State, e: Step, id: nat): seq<SummaryRun> {
    if Enabled(s, e) && e.RunSummarize? && e.work.transcriptId == id
    then [SummaryRun(e.work.category, e.body, e.now)]
    else []
  }

  function SummaryLog(s: State, schedule: seq<Step>, id: nat): seq<SummaryRun>
    decreases |schedule|
  {
    if schedule == [] then []
    else NewsOfSummary(s, schedule[0], id) + SummaryLog(Next(s, schedule[0]), schedule[1..], id)
  }

  predicate Tells(log: seq<SummaryRun>, s: State, id: nat) {
    && (id in s.summaries <==> log != [])
    && (id in s.summaries && log != [] ==>
          && s.summaries[id].body == log[|log| - 1].body
          && s.summaries[id].category == log[0].category && s.summaries[id].createdAt == log[0].at)
  }

  lemma TellsNext(s: State, e: Step, id: nat, log: seq<SummaryRun>)
    requires Reachable(s) && Tells(log, s, id)
    ensures Tells(log + NewsOfSummary(s, e, id), Next(s, e), id)
  {
    if Enabled(s, e) && e.RunSummarize? {
      SummaryIsStored(s, e.work, e.egress, e.body, e.now);
      hide Next, Reachable;
      assert log + [] == log;
    } else {
      SameSummaries(s, e);
      hide Next, Reachable;
      assert log + [] == log;
    }
  }

  lemma {:induction false} TellsExec(s: State, schedule: seq<Step>, id: nat, log: seq<SummaryRun>)
    requires Reachable(s) && Tells(log, s, id)
    ensures Tells(log + SummaryLog(s, schedule, id), Exec(s, schedule), id)
    decreases |schedule|
  {
    hide Next, NewsOfSummary, Tells, Reachable;
    if schedule == [] {
      assert log + [] == log;
    } else {
      var s1, news := Next(s, schedule[0]), NewsOfSummary(s, schedule[0], id);
      TellsNext(s, schedule[0], id, log);
      ReachNext(s, schedule[0]);
      TellsExec(s1, schedule[1..], id, log + news);
      Joint(log, news, SummaryLog(s1, schedule[1..], id));
    }
  }

  /** A summary over any run: it is there exactly if a summarize run of its transcript has stored one;
      its body is that of the last such run, its category and time are those of the first. */
  lemma SummariesFollowTheRuns(schedule: seq<Step>, id: nat)
    ensures var s, log := Exec(Empty, schedule), SummaryLog(Empty, schedule, id);
      && (id in s.summaries <==> log != [])
      && (id in s.summaries && log != [] ==>
            && s.summaries[id].body == log[|log| - 1].body
            && s.summaries[id].category == log[0].category && s.summaries[id].createdAt == log[0].at)
  {
    assert Empty == Exec(Empty, []);
    assert Reachable(Empty);
    hide Reachable, Exec;
    TellsExec(Empty, schedule, id, []);
    assert [] + SummaryLog(Empty, schedule, id) == SummaryLog(Empty, schedule, id);
  }

  // ---- what a transaction writes ----

  /** Nanoseconds in whole seconds, rounded toward zero. */
  predicate WholeSecondsOf(nanos: int, secs: int) {
    && (nanos >= 0 ==> secs * SECOND <= nanos < (secs + 1) * SECOND)
    && (nanos <= 0 ==> (secs - 1) * SECOND < nanos <= secs * SECOND)
  }

  /** The file's data if there is a file, else those of the segment playlist, else none. */
  predicate Documents(info: EgressInfo, url: string, size: int, secs: int) {
    match (info.file, info.segments)
    case (Some(f), _) => url == f.location && size == f.size && WholeSecondsOf(f.durationNanos, secs)
    case (None, Some(g)) => url == g.location && size == g.size && WholeSecondsOf(g.durationNanos, secs)
    case (None, None) => url == "" && size == 0 && secs == 0
  }

  lemma EndedTxColumns(s: State, info: EgressInfo, now: int)
    ensures var x := EndedTx(s, info, now);
      && x.work.TranscribeWork? && x.work.room == info.room && x.work.egress == info.egress && x.transcript == None
      && (exists size, secs :: Documents(info, x.work.fileURL, size, secs))
      && (Matches(s, info.egress) ==>
            && x.recording.Some? && x.recording.value.0 == info.egress
            && var r, r' := s.recordings[info.egress], x.recording.value.1;
               && r'.id == r.id && r'.room == r.room && r'.createdAt == r.createdAt
               && r'.status == Complete && r'.completedAt == Some(now) && r'.fileURL == Some(x.work.fileURL)
               && Documents(info, x.work.fileURL, r'.sizeBytes, r'.durationSec))
  {
    var (url, size, secs) := EgressFile(info);
    assert Documents(info, url, size, secs);
  }

  /** The events that write nothing: unknown ones, those without the parts they need, an egress_ended
      that did not complete, and any event whose statement fails. */
  predicate WritesNothing(event: Event) {
    match event
    case RoomStarted(room) => room.None?
    case RoomFinished(room) => room.None?
    case ParticipantJoined(room, who) => room.None? || who.None?
    case ParticipantLeft(room, who) => room.None? || who.None?
    case EgressStarted(info) => info.None? || info.value.room == "" || info.value.egress == ""
    case EgressEnded(info) => info.None? || !info.value.complete
    case OtherEvent => true
  }

  /** Dispatching such an event leaves every table, every transaction and every token as they were. */
  lemma NothingIsWritten(s: State, eid: EventId, now: int, slot: nat, dbOk: bool, redisOk: bool)
    requires Enabled(s, Dispatch(eid, now, slot, dbOk, redisOk)) && (!dbOk || WritesNothing(s.inbox[eid]))
    ensures Next(s, Dispatch(eid, now, slot, dbOk, redisOk)) ==
      s.(inbox := s.inbox - {eid}, handled := s.handled + [eid])
  {
    hide EndedTx;
    match s.inbox[eid]
    case RoomStarted(_) =>
    case RoomFinished(_) =>
    case ParticipantJoined(_, _) =>
    case ParticipantLeft(_, _) =>
    case EgressStarted(_) =>
    case EgressEnded(_) =>
    case OtherEvent =>
  }

  predicate Starts(recordings: map<EgressId, Recording>, recordings': map<EgressId, Recording>, info: EgressInfo,
          now: int) {
    if info.room == "" || info.egress == "" || info.egress in recordings then recordings' == recordings
    else && recordings'.Keys == recordings.Keys + {info.egress}
         && (forall e | e in recordings :: recordings'[e] == recordings[e])
         && var r := recordings'[info.egress];
            && r.room == info.room && r.status == InProgress && r.createdAt == now
            && r.fileURL == None && r.sizeBytes == 0 && r.durationSec == 0 && r.completedAt == None
            && forall e | e in recordings :: recordings[e].id != r.id
  }

  lemma StartedColumns(s: State, info: EgressInfo, now: int)
    requires forall e | e in s.recordings :: s.recordings[e].id < s.nextRecording
    ensures Starts(s.recordings, StartRecording(s, info, now).recordings, info, now)
  {
  }

  /** What a dispatched egress_started writes: a recording in progress under a new id, if both names are
      given and the egress is not known; otherwise nothing. */
  lemma StartedWritesTheRecording(s: State, eid: EventId, now: int, slot: nat, redisOk: bool)
    requires Reachable(s) && Enabled(s, Dispatch(eid, now, slot, true, redisOk))
    requires s.inbox[eid].EgressStarted? && s.inbox[eid].info.Some?
    ensures var s' := Next(s, Dispatch(eid, now, slot, true, redisOk));
      Starts(s.recordings, s'.recordings, s.inbox[eid].info.value, now)
  {
    ReachableInv(s);
    var s1 := s.(inbox := s.inbox - {eid}, handled := s.handled + [eid]);
    assert forall e | e in s.recordings :: s.recordings[e].id < s.nextRecording;
    StartedColumns(s1, s.inbox[eid].info.value, now);
    hide Inv, Reachable, Starts, StartRecording, RecordingsOk, Waits;
  }

  lemma OpensTheEndedTx(s: State, eid: EventId, now: int, slot: nat, redisOk: bool, e: EgressId)
    requires Enabled(s, Dispatch(eid, now, slot, true, redisOk)) && Completes(s.inbox[eid], e)
    ensures var s' := Next(s, Dispatch(eid, now, slot, true, redisOk));
      slot in s'.txs && s'.txs[slot] == EndedTx(s, s.inbox[eid].info.value, now)
  {
    var s1 := s.(inbox := s.inbox - {eid}, handled := s.handled + [eid]);
    assert EndedTx(s1, s.inbox[eid].info.value, now) == EndedTx(s, s.inbox[eid].info.value, now);
    hide EndedTx;
  }

  lemma CommitWrites(s: State, slot: nat)
    requires slot in s.txs
    ensures var x, s' := s.txs[slot], Next(s, CommitTx(slot));
      && s'.jobRows == s.jobRows + [x.work]
      && s'.recordings == (if x.recording.Some? then s.recordings[x.recording.value.0 := x.recording.value.1]
                           else s.recordings)
      && s'.transcripts == (if x.transcript.Some? then s.transcripts[x.transcript.value.0 := x.transcript.value.1]
                            else s.transcripts)
  {
  }

  /** What a committed egress_ended writes, whatever happens while its transaction is open: a
      transcribe row with the location of the output, and, if the recording was in progress, its
      location, size and length, with the time and nothing else changed. */
  lemma EndedWritesTheOutput(s: State, eid: EventId, now: int, slot: nat, redisOk: bool, e: EgressId,
          between: seq<Step>)
    requires Enabled(s, Dispatch(eid, now, slot, true, redisOk)) && Completes(s.inbox[eid], e)
    requires LeavesOpen(between, slot)
    ensures var info := s.inbox[eid].info.value;
      var s1 := Exec(Next(s, Dispatch(eid, now, slot, true, redisOk)), between);
      var s' := Next(s1, CommitTx(slot));
      exists url, size, secs :: (
        && Documents(info, url, size, secs)
        && s'.jobRows == s1.jobRows + [TranscribeWork(info.room, e, url)] && s'.transcripts == s1.transcripts
        && s'.recordings ==
             if e in s.recordings && s.recordings[e].status == InProgress then
               s1.recordings[e := Recording(s.recordings[e].id, s.recordings[e].room, Complete, Some(url), size, secs,
                                            s.recordings[e].createdAt, Some(now))]
             else s1.recordings)
  {
    var info := s.inbox[eid].info.value;
    var s0 := Next(s, Dispatch(eid, now, slot, true, redisOk));
    OpensTheEndedTx(s, eid, now, slot, redisOk, e);
    EndedTxColumns(s, info, now);
    EndedTxFacts(s, info, now);
    var x := EndedTx(s, info, now);
    hide Next, EndedTx, Documents, LeavesOpen, Enabled;
    TxStays(s0, between, slot);
    var s1 := Exec(s0, between);
    CommitWrites(s1, slot);
    assert x.work == TranscribeWork(info.room, e, x.work.fileURL);
    if Matches(s, e) {
      var r := x.recording.value.1;
      assert r == Recording(s.recordings[e].id, s.recordings[e].room, Complete, Some(x.work.fileURL), r.sizeBytes,
                            r.durationSec, s.recordings[e].createdAt, Some(now));
      assert Documents(info, x.work.fileURL, r.sizeBytes, r.durationSec);
    } else {
      var size, secs :| Documents(info, x.work.fileURL, size, secs);
    }
  }

  lemma OpensTheTranscriptTx(s: State, work: Work, slot: nat, text: string, now: int, redisOk: bool)
    requires Enabled(s, RunTranscribe(work, slot, text, now, redisOk))
    ensures var s', e := Next(s, RunTranscribe(work, slot, text, now, redisOk)), work.egress;
      && slot in s'.txs && s'.txs[slot].recording == None
      && s'.txs[slot].transcript.Some? && s'.txs[slot].transcript.value.0 == e
      && var t := s'.txs[slot].transcript.value.1; var room := s.recordings[e].room;
         && t == (if e in s.transcripts then s.transcripts[e].(text := text)
                  else Transcript(s.nextTranscript, work.room, s.recordings[e].id, text, now))
         && s'.txs[slot].work == SummarizeWork(work.room, t.id,
              if room in s.rooms && s.rooms[room].tier == Rooms.Pro then "pro" else "guest")
  {
  }

  lemma OwnId(s: State, slot: nat)
    requires Inv(s) && slot in s.txs && s.txs[slot].transcript.Some?
    ensures var (e, t) := s.txs[slot].transcript.value;
      forall f | f in s.transcripts && f != e :: s.transcripts[f].id != t.id
  {
    var (e, t) := s.txs[slot].transcript.value;
    TxFacts(s, slot);
    forall f | f in s.transcripts && f != e ensures s.transcripts[f].id != t.id {
      assert s.transcripts[f].id == t.id ==> HasId(s.transcripts, t.id);
    }
  }

  /** What a committed transcription writes, whatever happens while its transaction is open: the text,
      under a new id and the names the job carries if there was no transcript, and otherwise nothing
      but the text; and a summarize row for that transcript with the tier of the recording's room. */
  lemma TranscriptionWritesTheText(s: State, work: Work, slot: nat, text: string, now: int, redisOk: bool,
          between: seq<Step>)
    requires Reachable(s) && Enabled(s, RunTranscribe(work, slot, text, now, redisOk)) && LeavesOpen(between, slot)
    ensures var e := work.egress; var room := s.recordings[e].room;
      var s1 := Exec(Next(s, RunTranscribe(work, slot, text, now, redisOk)), between);
      var s' := Next(s1, CommitTx(slot));
      && e in s'.transcripts && s'.recordings == s1.recordings
      && var t := s'.transcripts[e];
         && s'.transcripts == s1.transcripts[e := t] && t.text == text
         && (e in s.transcripts ==> t == s.transcripts[e].(text := text))
         && (e !in s.transcripts ==>
               && t.room == work.room && t.recordingId == s.recordings[e].id && t.createdAt == now
               && forall f | f in s1.transcripts && f != e :: s1.transcripts[f].id != t.id)
         && s'.jobRows == s1.jobRows + [SummarizeWork(work.room, t.id,
              if room in s.rooms && s.rooms[room].tier == Rooms.Pro then "pro" else "guest")]
  {
    var s0 := Next(s, RunTranscribe(work, slot, text, now, redisOk));
    OpensTheTranscriptTx(s, work, slot, text, now, redisOk);
    ReachNext(s, RunTranscribe(work, slot, text, now, redisOk));
    hide Next, LeavesOpen, Enabled;
    TxStays(s0, between, slot);
    var s1 := Exec(s0, between);
    ReachableInv(s0);
    KeepExec(s0, between);
    CommitWrites(s1, slot);
    hide Reachable;
    OwnId(s1, slot);
    hide Inv, Exec;
  }
}
