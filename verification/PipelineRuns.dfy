/** The pipeline over whole runs: atomicity, retry convergence, stray tokens, webhook dedup. */
module PipelineRuns {
  import opened Jobs
  import Rooms
  import opened Pipeline
  import opened PipelineTheorems

  ghost predicate Reachable(s: State) {
    exists schedule :: s == Exec(Empty, schedule)
  }

  lemma ReachNext(s: State, e: Step)
    requires Reachable(s)
    ensures Reachable(Next(s, e))
  {
    var schedule :| s == Exec(Empty, schedule);
    hide Next;
    ExecSplit(Empty, schedule, [e]);
    assert Exec(s, [e]) == Next(s, e);
    assert Next(s, e) == Exec(Empty, schedule + [e]);
  }

  lemma StartedWebhook(s: State, eid: EventId, info: EgressInfo, now: int) returns (s': State)
    requires Reachable(s) && eid !in s.events && info.room != "" && info.egress != "" && info.egress !in s.recordings
    ensures Reachable(s') && s'.events == s.events + {eid}
    ensures s'.rooms == s.rooms && s'.transcripts == s.transcripts && s'.summaries == s.summaries && s'.txs == s.txs
    ensures s'.recordings == s.recordings[info.egress :=
        Recording(s.nextRecording, info.room, InProgress, None, 0, 0, now, None)]
  {
    ReachNext(s, Receive(eid, EgressStarted(Some(info))));
    var s1 := Next(s, Receive(eid, EgressStarted(Some(info))));
    ReachNext(s1, Dispatch(eid, now, 0, true, true));
    hide Reachable;
    s' := Next(s1, Dispatch(eid, now, 0, true, true));
  }

  lemma ReachableInv(s: State)
    requires Reachable(s)
    ensures Inv(s)
  {
    var schedule :| s == Exec(Empty, schedule);
    KeepExec(Empty, schedule);
  }

  /** Data and the job rows that refer to it commit together: a completed recording has a committed
      transcribe row with its file, and transcripts and summarize rows name each other. */
  lemma CommittedTogether(s: State)
    requires Reachable(s)
    ensures forall e | e in s.recordings && s.recordings[e].status == Complete ::
      s.recordings[e].fileURL.Some? && Queued(s.jobRows, e, s.recordings[e].fileURL.value)
    ensures forall id :: HasId(s.transcripts, id) <==> Named(s.jobRows, id)
  {
    ReachableInv(s);
    forall id ensures HasId(s.transcripts, id) <==> Named(s.jobRows, id) {
    }
  }

  /** Whatever egress_ended wrote, its rollback leaves neither the recording update nor the job
      row; only the token stays behind, if the push went through. */
  lemma RollbackLeavesOnlyTheToken(s: State, eid: EventId, now: int, slot: nat, redisOk: bool)
    requires Enabled(s, Dispatch(eid, now, slot, true, redisOk))
    requires s.inbox[eid].EgressEnded? && s.inbox[eid].info.Some? && s.inbox[eid].info.value.complete
    ensures var info := s.inbox[eid].info.value;
      Next(Next(s, Dispatch(eid, now, slot, true, redisOk)), RollbackTx(slot)) ==
      s.(inbox := s.inbox - {eid}, handled := s.handled + [eid],
         tokens := if redisOk then s.tokens + {TranscribeWork(info.room, info.egress, EgressFile(info).0)}
             else s.tokens)
  {
    var s1 := s.(inbox := s.inbox - {eid}, handled := s.handled + [eid]);
    var x := EndedTx(s1, s.inbox[eid].info.value, now);
    var s2 := Next(s, Dispatch(eid, now, slot, true, redisOk));
    assert s2 == OpenTx(s1, slot, x, redisOk);
    assert s2.txs - {slot} == s.txs;
    assert x.work == TranscribeWork(s.inbox[eid].info.value.room, s.inbox[eid].info.value.egress,
        EgressFile(s.inbox[eid].info.value).0);
    hide EndedTx, EgressFile, Handle;
  }

  // ---- what later steps can change in what is there ----

  predicate RoomGrows(a: Rooms.Room, b: Rooms.Room) {
    && (a.status == Rooms.Live ==> b.status != Rooms.Draft)
    && (a.status == Rooms.Ended ==> b.status == Rooms.Ended)
    && (a.startedAt.Some? ==> b.startedAt == a.startedAt)
    && (a.status == Rooms.Ended && a.endedAt.Some? ==> b.endedAt == a.endedAt)
    && b.tier == a.tier
  }

  predicate RecordingGrows(a: Recording, b: Recording) {
    && b.id == a.id && b.room == a.room && b.createdAt == a.createdAt
    && (a.status == Complete ==> b == a)
  }

  predicate RoomsGrow(a: map<Name, Rooms.Room>, b: map<Name, Rooms.Room>) {
    forall n | n in a :: n in b && RoomGrows(a[n], b[n])
  }

  predicate RecordingsGrow(a: map<EgressId, Recording>, b: map<EgressId, Recording>) {
    forall e | e in a :: e in b && RecordingGrows(a[e], b[e])
  }

  predicate TranscriptsGrow(a: map<EgressId, Transcript>, b: map<EgressId, Transcript>) {
    forall e | e in a :: e in b && b[e] == a[e].(text := b[e].text)
  }

  predicate SummariesGrow(a: map<nat, Summary>, b: map<nat, Summary>) {
    forall id | id in a :: id in b && b[id] == a[id].(body := b[id].body)
  }

  /** Rows are never removed and keep their identity: a completed recording is final, a transcript
      only changes its text, a summary only its body, and job rows are only added. */
  predicate Grows(s: State, s': State) {
    && RoomsGrow(s.rooms, s'.rooms)
    && RecordingsGrow(s.recordings, s'.recordings)
    && TranscriptsGrow(s.transcripts, s'.transcripts)
    && SummariesGrow(s.summaries, s'.summaries)
    && s.jobRows <= s'.jobRows
  }

  /** A room that has not started has no start time. */
  predicate RoomsOk(rooms: map<Name, Rooms.Room>) {
    forall n | n in rooms :: rooms[n].status == Rooms.Draft ==> rooms[n].startedAt == None
  }

  lemma GrowsSelf(s: State)
    ensures Grows(s, s)
  {
  }

  lemma RoomsGrowByEvent(rooms: map<Name, Rooms.Room>, room: Option<Name>, e: Rooms.RoomEvent)
    requires RoomsOk(rooms)
    ensures RoomsGrow(rooms, RoomUpdated(rooms, room, e)) && RoomsOk(RoomUpdated(rooms, room, e))
  {
  }

  lemma AddedRecording(recordings: map<EgressId, Recording>, e: EgressId, r: Recording)
    requires e !in recordings
    ensures RecordingsGrow(recordings, recordings[e := r])
  {
  }

  predicate SameTables(s: State, s': State) {
    && s'.rooms == s.rooms && s'.recordings == s.recordings && s'.transcripts == s.transcripts
    && s'.summaries == s.summaries && s'.jobRows == s.jobRows
  }

  lemma GrowsSame(s: State, s': State)
    requires SameTables(s, s')
    ensures Grows(s, s')
  {
    GrowsSelf(s);
    hide RoomsGrow, RecordingsGrow, TranscriptsGrow, SummariesGrow;
  }

  lemma GrowsStartRecording(s: State, info: EgressInfo, now: int)
    ensures Grows(s, StartRecording(s, info, now))
  {
    GrowsSelf(s);
    hide RecordingsGrow, RoomsGrow, TranscriptsGrow, SummariesGrow;
    if info.egress !in s.recordings {
      AddedRecording(s.recordings, info.egress,
          Recording(s.nextRecording, info.room, InProgress, None, 0, 0, now, None));
    }
  }

  lemma GrowsRoomEvent(s: State, room: Option<Name>, e: Rooms.RoomEvent)
    requires RoomsOk(s.rooms)
    ensures Grows(s, s.(rooms := RoomUpdated(s.rooms, room, e))) && RoomsOk(RoomUpdated(s.rooms, room, e))
  {
    GrowsSelf(s);
    RoomsGrowByEvent(s.rooms, room, e);
    hide RoomUpdated, RoomsOk, RecordingsGrow, RoomsGrow, TranscriptsGrow, SummariesGrow;
  }

  lemma GrowsHandle(s: State, event: Event, now: int, slot: nat, redisOk: bool)
    requires RoomsOk(s.rooms)
    ensures Grows(s, Handle(s, event, now, slot, redisOk)) && RoomsOk(Handle(s, event, now, slot, redisOk).rooms)
  {
    hide Grows, RoomsOk, RoomUpdated, Joined, Left, EndedTx;
    match event
    case RoomStarted(room) => GrowsRoomEvent(s, room, Rooms.Started(now));
    case RoomFinished(room) => GrowsRoomEvent(s, room, Rooms.Finished(now));
    case EgressStarted(info) => GrowsSelf(s); if info.Some? { GrowsStartRecording(s, info.value, now); }
    case EgressEnded(_) => GrowsSame(s, Handle(s, event, now, slot, redisOk));
    case ParticipantJoined(_, _) => GrowsSame(s, Handle(s, event, now, slot, redisOk));
    case ParticipantLeft(_, _) => GrowsSame(s, Handle(s, event, now, slot, redisOk));
    case OtherEvent => GrowsSelf(s);
  }

  lemma GrowsCommit(s: State, slot: nat)
    requires Inv(s) && slot in s.txs
    ensures Grows(s, DoCommit(s, slot))
  {
    TxFacts(s, slot);
    GrowsSelf(s);
    hide Inv, HasId, RoomsGrow, SummariesGrow;
  }

  lemma GrowsCreate(s: State, name: Name, host: string)
    requires RoomsOk(s.rooms) && name !in s.rooms
    ensures Grows(s, s.(rooms := s.rooms[name := Rooms.NewRoom(host)])) && RoomsOk(s.rooms[name := Rooms.NewRoom(host)])
  {
    GrowsSelf(s);
    hide RecordingsGrow, TranscriptsGrow, SummariesGrow;
  }

  lemma GrowsSummary(s: State, work: Work, tr: Transcript, body: string, now: int)
    requires work.SummarizeWork?
    ensures Grows(s, StoreSummary(s, work, tr, body, now)) && StoreSummary(s, work, tr, body, now).rooms == s.rooms
  {
    GrowsSelf(s);
    hide RoomsGrow, RecordingsGrow, TranscriptsGrow;
  }

  lemma GrowsDispatch(s: State, eid: EventId, now: int, slot: nat, dbOk: bool, redisOk: bool)
    requires RoomsOk(s.rooms) && eid in s.inbox
    ensures var s' := DoDispatch(s, eid, now, slot, dbOk, redisOk); Grows(s, s') && RoomsOk(s'.rooms)
  {
    var s1 := s.(inbox := s.inbox - {eid}, handled := s.handled + [eid]);
    hide Grows, RoomsOk, Handle;
    GrowsSame(s, s1);
    if dbOk {
      GrowsHandle(s1, s.inbox[eid], now, slot, redisOk);
      GrowsFrom(s, s1, Handle(s1, s.inbox[eid], now, slot, redisOk));
    }
  }

  lemma GrowsNext(s: State, e: Step)
    requires Inv(s) && RoomsOk(s.rooms)
    ensures Grows(s, Next(s, e)) && RoomsOk(Next(s, e).rooms)
  {
    hide Inv, Grows, RoomsOk;
    if !Enabled(s, e) {
      GrowsSelf(s);
    } else {
      match e
      case CreateRoom(name, host) => GrowsCreate(s, name, host);
      case Receive(_, _) => GrowsSame(s, Next(s, e));
      case Dispatch(eid, now, slot, dbOk, redisOk) => GrowsDispatch(s, eid, now, slot, dbOk, redisOk); hide DoDispatch;
      case Forget(_) => GrowsSame(s, Next(s, e));
      case CommitTx(slot) => GrowsCommit(s, slot);
      case RollbackTx(_) => GrowsSame(s, Next(s, e));
      case RunTranscribe(_, _, _, _, _) => hide TranscriptTx; GrowsSame(s, Next(s, e));
      case RunSummarize(work, egress, body, now) => GrowsSummary(s, work, s.transcripts[egress], body, now);
          hide StoreSummary;
    }
  }

  lemma GrowsFrom(s: State, s1: State, s': State)
    requires SameTables(s, s1) && Grows(s1, s')
    ensures Grows(s, s')
  {
    hide RoomsGrow, RecordingsGrow, TranscriptsGrow, SummariesGrow;
  }

  lemma GrowsTransitive(a: State, b: State, c: State)
    requires Grows(a, b) && Grows(b, c)
    ensures Grows(a, c)
  {
  }

  lemma {:induction false} GrowsExec(s: State, schedule: seq<Step>)
    requires Inv(s) && RoomsOk(s.rooms)
    ensures Grows(s, Exec(s, schedule)) && RoomsOk(Exec(s, schedule).rooms)
    decreases |schedule|
  {
    GrowsSelf(s);
    if schedule != [] {
      var s1 := Next(s, schedule[0]);
      GrowsNext(s, schedule[0]);
      KeepNext(s, schedule[0]);
      hide Inv, Next, Grows;
      GrowsExec(s1, schedule[1..]);
      GrowsTransitive(s, s1, Exec(s1, schedule[1..]));
    }
  }

  /** Whatever retries and duplicates run next: what is stored keeps its ids and rooms. */
  lemma RowsKeepIdentity(s: State, schedule: seq<Step>)
    requires Reachable(s)
    ensures Grows(s, Exec(s, schedule))
  {
    ReachableInv(s);
    var past :| s == Exec(Empty, past);
    GrowsExec(Empty, past);
    GrowsExec(s, schedule);
  }

  /** One transcript per id, and each summary belongs to one transcript, in the same room. */
  lemma SummariesFollowTranscripts(s: State, id: nat)
    requires Reachable(s) && id in s.summaries
    ensures exists e :: (
      && e in s.transcripts && s.transcripts[e].id == id && s.transcripts[e].room == s.summaries[id].room
      && (forall f :: f in s.transcripts && s.transcripts[f].id == id ==> f == e))
  {
    ReachableInv(s);
    assert InRoom(s.transcripts, id, s.summaries[id].room);
    var e :| e in s.transcripts && s.transcripts[e].id == id && s.transcripts[e].room == s.summaries[id].room;
    hide Named, HasId, InRoom, Queued;
    forall f | f in s.transcripts && s.transcripts[f].id == id ensures f == e {
    }
  }

  // ---- attendance ----

  datatype Visit = Joining(who: Person, at: int) | Leaving(who: Person, at: int)

  /** Attendance after the events of one room, in the order in which they are handled. */
  function Attend(a: map<(Name, string), Attendance>, room: Name, visits: seq<Visit>): map<(Name, string), Attendance> {
    if visits == [] then a else
    var before := Attend(a, room, visits[..|visits| - 1]);
    match visits[|visits| - 1]
    case Joining(who, at) => Joined(before, Some(room), Some(who), at)
    case Leaving(who, at) => Left(before, Some(room), Some(who), at)
  }

  /** The visits of one person. */
  function Of(visits: seq<Visit>, identity: string): seq<Visit> {
    if visits == [] then [] else
    var before := Of(visits[..|visits| - 1], identity);
    var v := visits[|visits| - 1];
    if v.who.identity == identity then before + [v] else before
  }

  function LastJoin(visits: seq<Visit>): Option<int> {
    if visits == [] then None
    else if visits[|visits| - 1].Joining? then Some(visits[|visits| - 1].at)
    else LastJoin(visits[..|visits| - 1])
  }

  /** One row per person, named by their first event; it says they left exactly if the last event
      handled was their leaving. So a leaving that overtakes its joining is forgotten. */
  lemma {:induction false} AttendanceFollowsTheLastEvent(room: Name, visits: seq<Visit>, identity: string)
    ensures var mine := Of(visits, identity);
      var a := Attend(map[], room, visits);
      && ((room, identity) in a <==> mine != [])
      && (mine != [] ==>
            && a[(room, identity)].display == mine[0].who.display
            && a[(room, identity)].joinedAt == LastJoin(mine)
            && a[(room, identity)].leftAt == if mine[|mine| - 1].Leaving? then Some(mine[|mine| - 1].at) else None)
  {
    if visits != [] {
      var init := visits[..|visits| - 1];
      var v := visits[|visits| - 1];
      AttendanceFollowsTheLastEvent(room, init, identity);
      if v.who.identity == identity {
        var before := Of(init, identity);
        assert (before + [v])[..|before|] == before;
      }
    }
  }

  // ---- stray tokens ----

  /** No transcript has this id, no open transaction is about to give it to one, and the identity
      sequence is past it. */
  predicate Dead(s: State, id: nat) {
    && id < s.nextTranscript && !HasId(s.transcripts, id)
    && forall t | t in s.txs :: s.txs[t].transcript.Some? ==> s.txs[t].transcript.value.1.id != id
  }

  lemma DeadCommit(s: State, slot: nat, id: nat)
    requires Dead(s, id) && slot in s.txs && TxsOk(s.txs, s.recordings, s.transcripts, s.nextTranscript)
    ensures Dead(DoCommit(s, slot), id)
  {
    TxFacts(s, slot);
    var x := s.txs[slot];
    hide TxsOk, HasId;
    if x.transcript.Some? {
      WriteTranscript(s.transcripts, x.transcript.value.0, x.transcript.value.1);
    }
  }

  lemma DeadTranscribe(s: State, work: Work, slot: nat, text: string, now: int, redisOk: bool, id: nat)
    requires Dead(s, id) && work.TranscribeWork? && work.egress in s.recordings && slot !in s.txs
    ensures Dead(DoTranscribe(s, work, slot, text, now, redisOk), id)
  {
    IdFacts(s.transcripts, id);
    hide HasId;
  }

  lemma DeadHandle(s: State, event: Event, now: int, slot: nat, redisOk: bool, id: nat)
    requires Dead(s, id)
    ensures Dead(Handle(s, event, now, slot, redisOk), id)
  {
    hide HasId, RoomUpdated, Joined, Left;
    match event
    case RoomStarted(_) =>
    case RoomFinished(_) =>
    case ParticipantJoined(_, _) =>
    case ParticipantLeft(_, _) =>
    case EgressStarted(_) =>
    case EgressEnded(_) => hide EgressFile;
    case OtherEvent =>
  }

  lemma DeadNext(s: State, e: Step, id: nat)
    requires Inv(s) && Dead(s, id)
    ensures Dead(Next(s, e), id)
  {
    if Enabled(s, e) {
      match e
      case CreateRoom(_, _) => hide Inv, HasId;
      case Receive(_, _) => hide Inv, HasId;
      case Dispatch(eid, now, slot, dbOk, redisOk) =>
        var s1 := s.(inbox := s.inbox - {eid}, handled := s.handled + [eid]);
        assert Dead(s1, id) by { hide Inv, HasId; }
        DeadHandle(s1, s.inbox[eid], now, slot, redisOk, id);
        hide Inv, Dead, Handle;
      case Forget(_) => hide Inv, HasId;
      case CommitTx(slot) => DeadCommit(s, slot, id); hide Inv, Dead;
      case RollbackTx(_) => hide Inv, HasId;
      case RunTranscribe(work, slot, text, now, redisOk) => DeadTranscribe(s, work, slot, text, now, redisOk, id);
          hide Inv, Dead;
      case RunSummarize(_, _, _, _) => hide Inv, HasId;
    }
  }

  lemma {:induction false} DeadExec(s: State, schedule: seq<Step>, id: nat)
    requires Inv(s) && Dead(s, id)
    ensures Dead(Exec(s, schedule), id)
    decreases |schedule|
  {
    if schedule != [] {
      DeadNext(s, schedule[0], id);
      KeepNext(s, schedule[0]);
      hide Inv, Next, Dead;
      DeadExec(Next(s, schedule[0]), schedule[1..], id);
    }
  }

  /** A rolled back transcription leaves nothing but a used sequence number and the token. */
  lemma TranscribeThenRollback(s: State, work: Work, slot: nat, text: string, now: int, redisOk: bool)
    requires Enabled(s, RunTranscribe(work, slot, text, now, redisOk))
    ensures var w := TranscriptTx(s, work, text, now).work;
      && Next(s, RunTranscribe(work, slot, text, now, redisOk)).txs[slot].work == w
      && Next(Next(s, RunTranscribe(work, slot, text, now, redisOk)), RollbackTx(slot)) ==
           s.(nextTranscript := s.nextTranscript + 1, tokens := if redisOk then s.tokens + {w} else s.tokens)
  {
    var s1 := DoTranscribe(s, work, slot, text, now, redisOk);
    assert Next(s, RunTranscribe(work, slot, text, now, redisOk)) == s1;
    hide TranscriptTx;
    assert s1.txs - {slot} == s.txs;
  }

  lemma UsedIdIsDead(s: State, s': State)
    requires Inv(s) && s'.transcripts == s.transcripts && s'.txs == s.txs && s'.nextTranscript == s.nextTranscript + 1
    ensures Dead(s', s.nextTranscript)
  {
    SequenceMovesOn(s);
    hide Inv, HasId;
  }

  /** A transcription whose transaction rolls back may leave a summarize token behind. That token
      names a transcript id that no transcript will ever have, so whatever happens next, no run
      of it finds anything to summarise. */
  lemma StraySummarizeTokensStayDead(s: State, work: Work, slot: nat, text: string, now: int, redisOk: bool,
          schedule: seq<Step>)
    requires Reachable(s) && Enabled(s, RunTranscribe(work, slot, text, now, redisOk)) && work.egress !in s.transcripts
    ensures var s1 := Next(s, RunTranscribe(work, slot, text, now, redisOk));
      var stray := s1.txs[slot].work;
      var s2 := Next(s1, RollbackTx(slot));
      && (redisOk ==> stray in s2.tokens)
      && forall e, body, at :: !Enabled(Exec(s2, schedule), RunSummarize(stray, e, body, at))
  {
    ReachableInv(s);
    var s2 := DeadAfterRollback(s, work, slot, text, now, redisOk);
    KeepNext(s, RunTranscribe(work, slot, text, now, redisOk));
    KeepNext(Next(s, RunTranscribe(work, slot, text, now, redisOk)), RollbackTx(slot));
    hide Inv, Next, Exec, Dead, Reachable;
    DeadExec(s2, schedule, s.nextTranscript);
    DeadMeansNotEnabled(Exec(s2, schedule), s.nextTranscript);
  }

  lemma DeadMeansNotEnabled(s: State, id: nat)
    requires Dead(s, id)
    ensures forall w: Work, e, body, at | w.SummarizeWork? && w.transcriptId == id ::
        !Enabled(s, RunSummarize(w, e, body, at))
  {
    IdFacts(s.transcripts, id);
    hide HasId;
  }

  lemma DeadAfterRollback(s: State, work: Work, slot: nat, text: string, now: int, redisOk: bool) returns (s2: State)
    requires Inv(s) && Enabled(s, RunTranscribe(work, slot, text, now, redisOk)) && work.egress !in s.transcripts
    ensures var s1 := Next(s, RunTranscribe(work, slot, text, now, redisOk));
      && s2 == Next(s1, RollbackTx(slot)) && Dead(s2, s.nextTranscript)
      && slot in s1.txs && s1.txs[slot].work.SummarizeWork? && s1.txs[slot].work.transcriptId == s.nextTranscript
      && (redisOk ==> s1.txs[slot].work in s2.tokens)
  {
    TranscribeThenRollback(s, work, slot, text, now, redisOk);
    var w := TranscriptTx(s, work, text, now).work;
    assert w.transcriptId == s.nextTranscript && w.SummarizeWork?;
    s2 := s.(nextTranscript := s.nextTranscript + 1, tokens := if redisOk then s.tokens + {w} else s.tokens);
    UsedIdIsDead(s, s2);
    hide Inv, Next, TranscriptTx, Dead;
  }

  /** A transcribe token left by a rolled back egress_ended is different: it can be run at once exactly
      if there is a token at all, the recording is known and no other transcription of it is open. It
      leaves the recording as it was, so a recording that was in progress then has a transcript. */
  lemma StrayTranscribeTokenRuns(s: State, eid: EventId, now: int, slot: nat, redisOk: bool, text: string, ok: bool)
    requires Enabled(s, Dispatch(eid, now, slot, true, redisOk))
    requires s.inbox[eid].EgressEnded? && s.inbox[eid].info.Some? && s.inbox[eid].info.value.complete
    ensures var info := s.inbox[eid].info.value;
      var work := TranscribeWork(info.room, info.egress, EgressFile(info).0);
      var s2 := Next(Next(s, Dispatch(eid, now, slot, true, redisOk)), RollbackTx(slot));
      var run := RunTranscribe(work, slot, text, now, ok);
      && (Enabled(s2, run) <==>
            (redisOk || work in s.tokens) && info.egress in s.recordings && !TranscriptLocked(s, info.egress))
      && (Enabled(s2, run) ==>
            var s4 := Next(Next(s2, run), CommitTx(slot));
            s4.recordings == s.recordings && info.egress in s4.transcripts && s4.transcripts[info.egress].text == text)
  {
    var info := s.inbox[eid].info.value;
    var work := TranscribeWork(info.room, info.egress, EgressFile(info).0);
    var s2 := Next(Next(s, Dispatch(eid, now, slot, true, redisOk)), RollbackTx(slot));
    RollbackLeavesOnlyTheToken(s, eid, now, slot, redisOk);
    assert slot !in s.txs && s2.txs == s.txs && s2.recordings == s.recordings && s2.transcripts == s.transcripts;
    assert work in s2.tokens <==> redisOk || work in s.tokens;
    hide EgressFile, EndedTx, Handle;
    var run := RunTranscribe(work, slot, text, now, ok);
    assert TranscriptLocked(s2, info.egress) <==> TranscriptLocked(s, info.egress);
    if Enabled(s2, run) {
      TranscribeThenCommit(s2, work, slot, text, now, ok);
      hide Next;
    }
  }

  lemma TranscribeThenCommit(s: State, work: Work, slot: nat, text: string, now: int, ok: bool)
    requires Enabled(s, RunTranscribe(work, slot, text, now, ok))
    ensures var s' := Next(Next(s, RunTranscribe(work, slot, text, now, ok)), CommitTx(slot));
      s'.recordings == s.recordings && work.egress in s'.transcripts && s'.transcripts[work.egress].text == text
  {
    var s1 := DoTranscribe(s, work, slot, text, now, ok);
    assert Next(s, RunTranscribe(work, slot, text, now, ok)) == s1;
    assert s1.txs[slot].transcript.Some? && s1.txs[slot].transcript.value.0 == work.egress
        && s1.txs[slot].recording == None;
    assert s1.txs[slot].transcript.value.1.text == text;
    hide DoTranscribe;
    assert Next(s1, CommitTx(slot)) == DoCommit(s1, slot);
  }

  /** It happens: for every room and egress there is a run after which a recording that is still in
      progress has a transcript. */
  lemma UnfinishedTranscript(room: Name, egress: EgressId)
    requires room != "" && egress != ""
    ensures exists s :: (
      && Reachable(s) && egress in s.recordings && s.recordings[egress].status == InProgress && egress in s.transcripts)
  {
    var info := EgressInfo(room, egress, true, None, None);
    var ended := EgressEnded(Some(info));
    assert Empty == Exec(Empty, []);
    hide Reachable, EgressFile;
    var s1 := StartedWebhook(Empty, "1", info, 0);
    assert "2" !in s1.events;
    ReachNext(s1, Receive("2", ended));
    var s2 := s1.(events := s1.events + {"2"}, inbox := s1.inbox["2" := ended]);
    assert Next(s1, Receive("2", ended)) == s2;
    var dispatch := Dispatch("2", 1, 0, true, true);
    assert Enabled(s2, dispatch) && !TranscriptLocked(s2, egress);
    hide Next, Enabled;
    StrayTranscribeTokenRuns(s2, "2", 1, 0, true, "text", true);
    var run := RunTranscribe(TranscribeWork(room, egress, EgressFile(info).0), 0, "text", 1, true);
    ReachNext(s2, dispatch);
    ReachNext(Next(s2, dispatch), RollbackTx(0));
    ReachNext(Next(Next(s2, dispatch), RollbackTx(0)), run);
    ReachNext(Next(Next(Next(s2, dispatch), RollbackTx(0)), run), CommitTx(0));
  }

  // ---- an egress_ended that comes too early ----

  predicate Completes(event: Event, e: EgressId) {
    event.EgressEnded? && event.info.Some? && event.info.value.complete && event.info.value.egress == e
  }

  predicate IsComplete(s: State, e: EgressId) {
    e in s.recordings && s.recordings[e].status == Complete
  }

  /** The steps that do not end the transaction in this slot. */
  predicate LeavesOpen(schedule: seq<Step>, slot: nat) {
    forall x | x in schedule :: x != CommitTx(slot) && x != RollbackTx(slot)
  }

  predicate TxStaysIn(s: State, s': State, slot: nat) {
    slot in s.txs ==> slot in s'.txs && s'.txs[slot] == s.txs[slot]
  }

  lemma TxStaysHandle(s: State, event: Event, now: int, free: nat, redisOk: bool, slot: nat)
    requires !Waits(s, event, free)
    ensures TxStaysIn(s, Handle(s, event, now, free, redisOk), slot)
  {
    hide EndedTx, RoomUpdated, Joined, Left, EgressFile;
    match event
    case RoomStarted(_) =>
    case RoomFinished(_) =>
    case ParticipantJoined(_, _) =>
    case ParticipantLeft(_, _) =>
    case EgressStarted(_) =>
    case EgressEnded(_) =>
    case OtherEvent =>
  }

  lemma TxStaysNext(s: State, e: Step, slot: nat)
    requires e != CommitTx(slot) && e != RollbackTx(slot)
    ensures TxStaysIn(s, Next(s, e), slot)
  {
    if Enabled(s, e) {
      hide TranscriptTx, StoreSummary, Handle;
      match e
      case CreateRoom(_, _) =>
      case Receive(_, _) =>
      case Dispatch(eid, now, free, dbOk, redisOk) =>
        var s1 := s.(inbox := s.inbox - {eid}, handled := s.handled + [eid]);
        assert Waits(s1, s.inbox[eid], free) <==> Waits(s, s.inbox[eid], free);
        TxStaysHandle(s1, s.inbox[eid], now, free, redisOk, slot);
        hide Waits, Enabled;
      case Forget(_) =>
      case CommitTx(_) =>
      case RollbackTx(_) =>
      case RunTranscribe(_, _, _, _, _) =>
      case RunSummarize(_, _, _, _) =>
    }
  }

  lemma {:induction false} TxStays(s: State, schedule: seq<Step>, slot: nat)
    requires slot in s.txs && LeavesOpen(schedule, slot)
    ensures slot in Exec(s, schedule).txs && Exec(s, schedule).txs[slot] == s.txs[slot]
    decreases |schedule|
  {
    if schedule != [] {
      assert schedule[0] in schedule && forall x | x in schedule[1..] :: x in schedule;
      TxStaysNext(s, schedule[0], slot);
      hide Next;
      TxStays(Next(s, schedule[0]), schedule[1..], slot);
    }
  }

  lemma CommitCompletes(s: State, slot: nat, e: EgressId)
    requires Inv(s) && slot in s.txs
    ensures IsComplete(Next(s, CommitTx(slot)), e) <==>
      IsComplete(s, e) || (s.txs[slot].recording.Some? && s.txs[slot].recording.value.0 == e)
  {
    TxFacts(s, slot);
    hide Inv;
  }

  lemma OpensEnded(s: State, eid: EventId, now: int, slot: nat, redisOk: bool, e: EgressId)
    requires Enabled(s, Dispatch(eid, now, slot, true, redisOk)) && Completes(s.inbox[eid], e)
    ensures var s' := Next(s, Dispatch(eid, now, slot, true, redisOk));
      && s'.recordings == s.recordings && s'.inbox == s.inbox - {eid} && slot in s'.txs && slot !in s.txs
      && s'.txs == s.txs[slot := s'.txs[slot]]
      && (s'.txs[slot].recording.Some? ==> s'.txs[slot].recording.value.0 == e)
      && (s'.txs[slot].recording.Some? <==> Matches(s, e))
  {
    var info := s.inbox[eid].info.value;
    var s1 := s.(inbox := s.inbox - {eid}, handled := s.handled + [eid]);
    EndedTxFacts(s1, info, now);
    assert Matches(s1, e) <==> Matches(s, e);
    hide EndedTx, Matches;
    var s2 := OpenTx(s1, slot, EndedTx(s1, info, now), redisOk);
    assert Next(s, Dispatch(eid, now, slot, true, redisOk)) == s2;
    hide Next, Waits;
  }

  lemma NeverFailed(s: State, e: EgressId)
    requires Inv(s) && e in s.recordings
    ensures IsComplete(s, e) || Matches(s, e)
  {
  }

  /** An egress_ended is handled, anything may happen while its transaction is open, and it commits.
      Then its recording is complete exactly if it was there when the event was handled, or another
      event has completed it meanwhile. One that overtakes its egress_started completes nothing. */
  lemma EndedCompletesExactlyWhen(s: State, eid: EventId, now: int, slot: nat, redisOk: bool, e: EgressId,
          between: seq<Step>)
    requires Reachable(s) && Enabled(s, Dispatch(eid, now, slot, true, redisOk)) && Completes(s.inbox[eid], e)
    requires LeavesOpen(between, slot)
    ensures var s1 := Exec(Next(s, Dispatch(eid, now, slot, true, redisOk)), between);
      IsComplete(Next(s1, CommitTx(slot)), e) <==> e in s.recordings || IsComplete(s1, e)
  {
    ReachableInv(s);
    OpensEnded(s, eid, now, slot, redisOk, e);
    if e in s.recordings {
      NeverFailed(s, e);
    }
    var s0 := Next(s, Dispatch(eid, now, slot, true, redisOk));
    ReachNext(s, Dispatch(eid, now, slot, true, redisOk));
    hide Reachable, Next, Inv, Completes;
    ReachableInv(s0);
    TxStays(s0, between, slot);
    KeepExec(s0, between);
    CommitCompletes(Exec(s0, between), slot, e);
    RowsKeepIdentity(s0, between);
    assert IsComplete(s0, e) ==> IsComplete(Exec(s0, between), e);
  }

  lemma EndedTxFacts(s: State, info: EgressInfo, now: int)
    ensures var x := EndedTx(s, info, now);
      && x.transcript == None
      && (x.recording.Some? <==> Matches(s, info.egress))
      && (x.recording.Some? ==> x.recording.value.0 == info.egress && x.recording.value.1.status == Complete)
  {
    hide EgressFile;
  }

  /** Nothing that would complete the recording of this egress is stored or under way. */
  predicate NotComing(s: State, e: EgressId) {
    && (e in s.recordings ==> s.recordings[e].status != Complete)
    && (forall t | t in s.txs :: s.txs[t].recording.Some? ==> s.txs[t].recording.value.0 != e)
    && (forall k | k in s.inbox :: !Completes(s.inbox[k], e))
  }

  lemma NotComingStart(s: State, info: EgressInfo, now: int, e: EgressId)
    requires NotComing(s, e)
    ensures NotComing(StartRecording(s, info, now), e)
  {
    hide Completes;
  }

  lemma NotComingOpen(s: State, slot: nat, x: Tx, redisOk: bool, e: EgressId)
    requires NotComing(s, e) && (x.recording.Some? ==> x.recording.value.0 != e)
    ensures NotComing(OpenTx(s, slot, x, redisOk), e)
  {
    hide Completes;
  }

  lemma NotComingHandle(s: State, event: Event, now: int, slot: nat, redisOk: bool, e: EgressId)
    requires NotComing(s, e) && !Completes(event, e)
    ensures NotComing(Handle(s, event, now, slot, redisOk), e)
  {
    hide EndedTx, RoomUpdated, Joined, Left, StartRecording, OpenTx;
    match event
    case RoomStarted(_) =>
    case RoomFinished(_) =>
    case ParticipantJoined(_, _) =>
    case ParticipantLeft(_, _) =>
    case EgressStarted(info) => if info.Some? { NotComingStart(s, info.value, now, e); } hide NotComing;
    case EgressEnded(info) =>
      if info.Some? && info.value.complete {
        EndedTxFacts(s, info.value, now);
        NotComingOpen(s, slot, EndedTx(s, info.value, now), redisOk, e);
      }
      hide NotComing;
    case OtherEvent => hide NotComing;
  }

  lemma NotComingNext(s: State, step: Step, e: EgressId)
    requires NotComing(s, e) && !(step.Receive? && Completes(step.event, e))
    ensures NotComing(Next(s, step), e)
  {
    if Enabled(s, step) {
      match step
      case CreateRoom(_, _) =>
      case Receive(_, _) =>
      case Dispatch(eid, now, slot, dbOk, redisOk) =>
        var s1 := s.(inbox := s.inbox - {eid}, handled := s.handled + [eid]);
        assert NotComing(s1, e);
        NotComingHandle(s1, s.inbox[eid], now, slot, redisOk, e);
        hide NotComing, Handle;
      case Forget(_) =>
      case CommitTx(_) =>
      case RollbackTx(_) =>
      case RunTranscribe(_, _, _, _, _) =>
      case RunSummarize(_, _, _, _) =>
    }
  }

  lemma {:induction false} NotComingExec(s: State, schedule: seq<Step>, e: EgressId)
    requires NotComing(s, e) && forall x | x in schedule :: !(x.Receive? && Completes(x.event, e))
    ensures NotComing(Exec(s, schedule), e)
    decreases |schedule|
  {
    if schedule != [] {
      assert schedule[0] in schedule && forall x | x in schedule[1..] :: x in schedule;
      NotComingNext(s, schedule[0], e);
      hide Next, NotComing;
      NotComingExec(Next(s, schedule[0]), schedule[1..], e);
    }
  }

  /** So if the only egress_ended of a recording is handled before its egress_started, the recording
      is never completed, whatever follows. */
  lemma EarlyEndNeverCompletes(s: State, eid: EventId, now: int, slot: nat, redisOk: bool, e: EgressId,
          schedule: seq<Step>)
    requires Reachable(s) && Enabled(s, Dispatch(eid, now, slot, true, redisOk)) && Completes(s.inbox[eid], e)
    requires e !in s.recordings && forall k | k in s.inbox :: k != eid ==> !Completes(s.inbox[k], e)
    requires forall x | x in schedule :: !(x.Receive? && Completes(x.event, e))
    ensures !IsComplete(Exec(Next(s, Dispatch(eid, now, slot, true, redisOk)), schedule), e)
  {
    ReachableInv(s);
    OpensEnded(s, eid, now, slot, redisOk, e);
    forall t | t in s.txs ensures s.txs[t].recording.Some? ==> s.txs[t].recording.value.0 != e {
      TxFacts(s, t);
    }
    hide Inv, Next, Reachable, Completes;
    NotComingExec(Next(s, Dispatch(eid, now, slot, true, redisOk)), schedule, e);
  }

  lemma EndsEarly(s: State, info: EgressInfo, work: Work, s': State)
    requires s == Empty.(events := {"1"}, inbox := map["1" := EgressEnded(Some(info))])
    requires info.complete && info.file == None && info.segments == None
    requires work == TranscribeWork(info.room, info.egress, "")
    requires s' == s.(inbox := map[], handled := ["1"], txs := map[0 := Tx(None, None, work)], tokens := {work})
    ensures Next(s, Dispatch("1", 0, 0, true, true)) == s'
  {
    assert s.inbox - {"1"} == map[];
    assert EndedTx(s, info, 0) == Tx(None, None, work);
  }

  /** It happens: for every room and egress the egress_ended is handled and committed, the
      egress_started is handled, and the recording is in progress with its transcribe row in place. */
  lemma EarlyEndHappens(room: Name, egress: EgressId)
    requires room != "" && egress != ""
    ensures exists s :: (
      && Reachable(s) && s.handled == ["1", "2"] && egress in s.recordings && s.recordings[egress].status == InProgress
      && Queued(s.jobRows, egress, "") && NotComing(s, egress))
  {
    var info := EgressInfo(room, egress, true, None, None);
    var ended := EgressEnded(Some(info));
    var work := TranscribeWork(room, egress, "");
    assert Empty == Exec(Empty, []);
    hide Reachable;
    ReachNext(Empty, Receive("1", ended));
    var s1 := Empty.(events := {"1"}, inbox := map["1" := ended]);
    assert Next(Empty, Receive("1", ended)) == s1;
    var s2 := s1.(inbox := map[], handled := ["1"], txs := map[0 := Tx(None, None, work)], tokens := {work});
    ReachNext(s1, Dispatch("1", 0, 0, true, true));
    EndsEarly(s1, info, work, s2);
    hide EgressFile, EndedTx, Handle;
    ReachNext(s2, CommitTx(0));
    var s3 := s2.(txs := map[], jobRows := [work]);
    assert Next(s2, CommitTx(0)) == s3;
    hide Next;
    EarlyEndStarts(s3, info, work);
  }

  lemma EarlyEndStarts(s: State, info: EgressInfo, work: Work)
    requires Reachable(s) && s.events == {"1"} && s.handled == ["1"] && s.inbox == map[] && s.txs == map[]
    requires s.recordings == map[] && info.room != "" && info.egress != ""
    requires s.jobRows == [work] && work == TranscribeWork(info.room, info.egress, "")
    ensures exists s' :: (
      && Reachable(s') && s'.handled == ["1", "2"]
      && info.egress in s'.recordings && s'.recordings[info.egress].status == InProgress
      && Queued(s'.jobRows, info.egress, "") && NotComing(s', info.egress))
  {
    hide Reachable;
    var started := EgressStarted(Some(info));
    var s1 := s.(events := {"1", "2"}, inbox := map["2" := started]);
    assert Next(s, Receive("2", started)) == s1;
    ReachNext(s, Receive("2", started));
    ReachNext(s1, Dispatch("2", 1, 0, true, true));
    var s2 := Next(s1, Dispatch("2", 1, 0, true, true));
    assert s2.inbox == map[] && s2.txs == map[] && s2.jobRows == [work] && s2.handled == ["1", "2"];
    assert s2.recordings == map[info.egress := Recording(s.nextRecording, info.room, InProgress, None, 0, 0, 1, None)];
    hide Next;
    assert work in s2.jobRows;
  }

  // ---- dedup ----

  /** No event id is dispatched twice, in any interleaving of deliveries. */
  lemma NoEventDispatchedTwice(s: State)
    requires Reachable(s)
    ensures forall i, k :: 0 <= i < k < |s.handled| ==> s.handled[i] != s.handled[k]
  {
    ReachableInv(s);
  }

  /** One POST to the webhook: its event, whether the insert into webhook_events succeeds, and how
      the statements of its handler fare. */
  datatype Delivery = Delivery(eid: EventId, event: Event, stored: bool, now: int, slot: nat, dbOk: bool,
      redisOk: bool, commits: bool)

  /** The steps handleWebhook takes after storing the event. */
  function HandleSteps(d: Delivery): seq<Step> {
    [Receive(d.eid, d.event), Dispatch(d.eid, d.now, d.slot, d.dbOk, d.redisOk),
     if d.commits then CommitTx(d.slot) else RollbackTx(d.slot)]
  }

  /** handleWebhook: a failed insert is answered with an error, a repeated id is ignored. */
  function HandleWebhook(s: State, d: Delivery): State {
    if !d.stored || d.eid in s.events then s else Exec(s, HandleSteps(d))
  }

  function HandleLog(s: State, log: seq<Delivery>): State
    decreases |log|
  {
    if log == [] then s else HandleLog(HandleWebhook(s, log[0]), log[1..])
  }

  /** The deliveries that are the first stored one of their id. */
  function FirstStored(log: seq<Delivery>, seen: set<EventId>): seq<Delivery>
    decreases |log|
  {
    if log == [] then []
    else if !log[0].stored || log[0].eid in seen then FirstStored(log[1..], seen)
    else [log[0]] + FirstStored(log[1..], seen + {log[0].eid})
  }

  lemma OnlyReceiveStores(s: State, e: Step)
    ensures Next(s, e).events == if Enabled(s, e) && e.Receive? then s.events + {e.eid} else s.events
  {
    if e.Dispatch? && Enabled(s, e) {
      HandleKeepsEvents(s.(inbox := s.inbox - {e.eid}, handled := s.handled + [e.eid]), s.inbox[e.eid], e.now, e.slot,
          e.redisOk);
      hide Handle;
    }
  }

  lemma HandleKeepsEvents(s: State, event: Event, now: int, slot: nat, redisOk: bool)
    ensures Handle(s, event, now, slot, redisOk).events == s.events
  {
    hide RoomUpdated, Joined, Left, EndedTx;
  }

  lemma WebhookEvents(s: State, d: Delivery)
    requires d.stored && d.eid !in s.events
    ensures HandleWebhook(s, d).events == s.events + {d.eid}
  {
    var steps := HandleSteps(d);
    var s1 := Next(s, steps[0]);
    var s2 := Next(s1, steps[1]);
    OnlyReceiveStores(s, steps[0]);
    OnlyReceiveStores(s1, steps[1]);
    OnlyReceiveStores(s2, steps[2]);
    assert s1.events == s.events + {d.eid};
    hide Next;
    assert steps == [steps[0], steps[1], steps[2]];
    assert steps[1..] == [steps[1], steps[2]] && [steps[1], steps[2]][1..] == [steps[2]];
    assert Exec(s, steps) == Exec(s1, [steps[1], steps[2]]);
    assert Exec(s1, [steps[1], steps[2]]) == Exec(s2, [steps[2]]);
    assert Exec(s2, [steps[2]]) == Next(s2, steps[2]);
  }

  /** The whole state after a log with repeats, failures and retries is the state after only the
      first stored delivery of each id. */
  lemma {:induction false} DedupIsFilter(s: State, log: seq<Delivery>)
    ensures HandleLog(s, log) == HandleLog(s, FirstStored(log, s.events))
    decreases |log|
  {
    if log != [] {
      var d := log[0];
      if d.stored && d.eid !in s.events {
        var rest := FirstStored(log[1..], s.events + {d.eid});
        assert ([d] + rest)[0] == d && ([d] + rest)[1..] == rest;
        WebhookEvents(s, d);
        hide HandleWebhook;
        DedupIsFilter(HandleWebhook(s, d), log[1..]);
      } else {
        DedupIsFilter(s, log[1..]);
      }
    }
  }

  /** A schedule without the deliveries that repeat an id. */
  function FirstReceives(schedule: seq<Step>, seen: set<EventId>): seq<Step>
    decreases |schedule|
  {
    if schedule == [] then []
    else if schedule[0].Receive? then
      if schedule[0].eid in seen then FirstReceives(schedule[1..], seen)
      else [schedule[0]] + FirstReceives(schedule[1..], seen + {schedule[0].eid})
    else [schedule[0]] + FirstReceives(schedule[1..], seen)
  }

  /** The same for handlers that interleave in any way with each other and with the workers. */
  lemma {:induction false} InterleavedDedup(s: State, schedule: seq<Step>)
    ensures Exec(s, schedule) == Exec(s, FirstReceives(schedule, s.events))
    decreases |schedule|
  {
    if schedule != [] {
      var s1 := Next(s, schedule[0]);
      OnlyReceiveStores(s, schedule[0]);
      if schedule[0].Receive? && schedule[0].eid in s.events {
        assert s1 == s;
        hide Next;
        InterleavedDedup(s, schedule[1..]);
      } else {
        var rest := FirstReceives(schedule[1..], s1.events);
        assert ([schedule[0]] + rest)[0] == schedule[0] && ([schedule[0]] + rest)[1..] == rest;
        hide Next;
        InterleavedDedup(s1, schedule[1..]);
      }
    }
  }
}
