/** The pipeline status of a room, derived from four tables, and how it moves over whole runs. */
module Insights {
  import opened Jobs
  import Rooms
  import opened Pipeline
  import opened PipelineTheorems
  import opened PipelineRuns

  datatype Progress = StatusLive | StatusProcessing | StatusCompleted | StatusFailed

  datatype Stage = AtLive | AtFinalizing | AtRecording | AtTranscribing | AtSummarizing | AtCompleted | AtFailed

  /** The switch of HandleGetByRoomName. */
  function Derive(room: Rooms.RoomStatus, recording: Option<RecordingStatus>, hasTranscript: bool, hasSummary: bool)
      : (r: (Progress, Stage))
    ensures r.0 == StatusLive <==> r.1 == AtLive
    ensures r.0 == StatusCompleted <==> r.1 == AtCompleted
    ensures r.0 == StatusFailed <==> r.1 == AtFailed
  {
    if hasSummary then (StatusCompleted, AtCompleted)
    else if hasTranscript then (StatusProcessing, AtSummarizing)
    else if recording == Some(Complete) then (StatusProcessing, AtTranscribing)
    else if recording == Some(InProgress) then (StatusProcessing, AtRecording)
    else if recording == Some(Broken) then (StatusFailed, AtFailed)
    else if room == Rooms.Ended then (StatusProcessing, AtFinalizing)
    else (StatusLive, AtLive)
  }

  // ---- the query ----

  predicate HasTranscript(transcripts: map<EgressId, Transcript>, room: Name) {
    exists e | e in transcripts :: transcripts[e].room == room
  }

  predicate HasSummary(summaries: map<nat, Summary>, room: Name) {
    exists id | id in summaries :: summaries[id].room == room
  }

  predicate HasRecording(recordings: map<EgressId, Recording>, room: Name) {
    exists e | e in recordings :: recordings[e].room == room
  }

  /** ORDER BY created_at DESC LIMIT 1 may pick this row; between equal times the query does not say. */
  predicate IsLatest(recordings: map<EgressId, Recording>, room: Name, e: EgressId) {
    && e in recordings && recordings[e].room == room
    && forall f | f in recordings && recordings[f].room == room :: recordings[f].createdAt <= recordings[e].createdAt
  }

  /** May the sub-query on recordings answer this? */
  predicate Answers(recordings: map<EgressId, Recording>, room: Name, answer: Option<RecordingStatus>) {
    match answer
    case None => !HasRecording(recordings, room)
    case Some(st) => exists e | e in recordings :: IsLatest(recordings, room, e) && recordings[e].status == st
  }

  /** May a request for this room be answered with this stage? */
  ghost predicate Shows(s: State, room: Name, stage: Stage) {
    && room in s.rooms
    && exists answer ::
         && Answers(s.recordings, room, answer)
         && stage == Derive(s.rooms[room].status, answer, HasTranscript(s.transcripts, room),
             HasSummary(s.summaries, room)).1
  }

  /** May a request for this room be answered with this status and step? */
  ghost predicate Replies(s: State, room: Name, reply: (Progress, Stage)) {
    && room in s.rooms
    && exists answer ::
         && Answers(s.recordings, room, answer)
         && reply == Derive(s.rooms[room].status, answer, HasTranscript(s.transcripts, room),
             HasSummary(s.summaries, room))
  }

  function Rank(stage: Stage): nat {
    match stage
    case AtLive => 0
    case AtFinalizing => 1
    case AtRecording => 2
    case AtTranscribing => 3
    case AtSummarizing => 4
    case AtCompleted => 5
    case AtFailed => 6
  }

  /** Some recording is the latest, so every existing room has a stage. */
  lemma {:induction false} LatestAmong(recordings: map<EgressId, Recording>, room: Name, among: set<EgressId>)
    requires among <= recordings.Keys
    ensures (exists e | e in among :: recordings[e].room == room) ==>
      exists e | e in among :: (
        && recordings[e].room == room
        && forall f | f in among && recordings[f].room == room :: recordings[f].createdAt <= recordings[e].createdAt)
    decreases |among|
  {
    if x :| x in among {
      var rest := among - {x};
      assert among == rest + {x};
      LatestAmong(recordings, room, rest);
      if recordings[x].room == room {
        if e :| e in rest && recordings[e].room == room
                && forall f | f in rest && recordings[f].room == room ::
                    recordings[f].createdAt <= recordings[e].createdAt {
          var best := if recordings[x].createdAt <= recordings[e].createdAt then e else x;
          assert best in among;
        } else {
          assert forall f | f in rest :: recordings[f].room != room;
          assert x in among;
        }
      }
    }
  }

  lemma AlwaysAnswers(recordings: map<EgressId, Recording>, room: Name)
    ensures HasRecording(recordings, room) ==> exists e :: IsLatest(recordings, room, e)
    ensures exists answer :: Answers(recordings, room, answer)
  {
    if HasRecording(recordings, room) {
      var e0 :| e0 in recordings && recordings[e0].room == room;
      assert e0 in recordings.Keys;
      LatestAmong(recordings, room, recordings.Keys);
      var e :| e in recordings.Keys && recordings[e].room == room
               && forall f | f in recordings.Keys && recordings[f].room == room ::
                   recordings[f].createdAt <= recordings[e].createdAt;
      assert IsLatest(recordings, room, e);
      assert Answers(recordings, room, Some(recordings[e].status));
    } else {
      assert Answers(recordings, room, None);
    }
  }

  /** Every room that exists shows some stage. */
  lemma EveryRoomShowsAStage(s: State, room: Name)
    ensures room in s.rooms <==> exists stage :: Shows(s, room, stage)
  {
    if room in s.rooms {
      AlwaysAnswers(s.recordings, room);
      var answer :| Answers(s.recordings, room, answer);
      assert Shows(s, room, Derive(s.rooms[room].status, answer, HasTranscript(s.transcripts, room),
          HasSummary(s.summaries, room)).1);
    }
  }

  // ---- over whole runs ----

  lemma NeverBroken(recordings: map<EgressId, Recording>, jobRows: seq<Work>, next: nat, room: Name,
          answer: Option<RecordingStatus>)
    requires RecordingsOk(recordings, jobRows, next) && Answers(recordings, room, answer)
    ensures answer != Some(Broken)
  {
    hide Queued;
  }

  /** The answer behind a stage. */
  lemma PickAnswer(s: State, room: Name, stage: Stage) returns (answer: Option<RecordingStatus>)
    requires Inv(s) && Shows(s, room, stage)
    ensures Answers(s.recordings, room, answer) && answer != Some(Broken)
    ensures stage == Derive(s.rooms[room].status, answer, HasTranscript(s.transcripts, room),
        HasSummary(s.summaries, room)).1
  {
    hide HasTranscript, HasSummary, Answers, RecordingsOk;
    answer :| Answers(s.recordings, room, answer)
      && stage == Derive(s.rooms[room].status, answer, HasTranscript(s.transcripts, room),
          HasSummary(s.summaries, room)).1;
    NeverBroken(s.recordings, s.jobRows, s.nextRecording, room, answer);
  }

  /** No handler marks a recording failed, so no request is ever answered with that stage. */
  lemma FailedIsNeverShown(s: State, room: Name, stage: Stage)
    requires Reachable(s) && Shows(s, room, stage)
    ensures stage != AtFailed
  {
    ReachableInv(s);
    hide Inv, HasTranscript, HasSummary, Answers;
    var answer := PickAnswer(s, room, stage);
  }

  ghost predicate NoTranscript(s: State, room: Name) {
    forall e | e in s.transcripts :: s.transcripts[e].room != room
  }

  ghost predicate NoSummary(s: State, room: Name) {
    forall id | id in s.summaries :: s.summaries[id].room != room
  }

  ghost predicate NoRecording(s: State, room: Name) {
    forall e | e in s.recordings :: s.recordings[e].room != room
  }

  /** Some recording of the room has this status, and none of the room is younger. */
  ghost predicate LatestIs(s: State, room: Name, status: RecordingStatus) {
    exists e | e in s.recordings ::
      && s.recordings[e].room == room && s.recordings[e].status == status
      && forall f | f in s.recordings :: s.recordings[f].room == room ==>
           s.recordings[f].createdAt <= s.recordings[e].createdAt
  }

  lemma LatestIsAnswer(s: State, room: Name, status: RecordingStatus)
    ensures LatestIs(s, room, status) <==> Answers(s.recordings, room, Some(status))
  {
    if LatestIs(s, room, status) {
      var e :| e in s.recordings && s.recordings[e].room == room && s.recordings[e].status == status
        && forall f | f in s.recordings :: s.recordings[f].room == room ==>
             s.recordings[f].createdAt <= s.recordings[e].createdAt;
      assert IsLatest(s.recordings, room, e);
    }
  }

  /** The stage for one answer of the sub-query. */
  function StageFor(s: State, room: Name, answer: Option<RecordingStatus>): Stage
    requires room in s.rooms
  {
    Derive(s.rooms[room].status, answer, HasTranscript(s.transcripts, room), HasSummary(s.summaries, room)).1
  }

  /** A reachable state has three answers at most, and one at least. */
  lemma ShowsByAnswers(s: State, room: Name, stage: Stage)
    requires Reachable(s)
    ensures Shows(s, room, stage) <==>
      room in s.rooms
      && ((Answers(s.recordings, room, None) && stage == StageFor(s, room, None))
          || (Answers(s.recordings, room, Some(Complete)) && stage == StageFor(s, room, Some(Complete)))
          || (Answers(s.recordings, room, Some(InProgress)) && stage == StageFor(s, room, Some(InProgress))))
    ensures Answers(s.recordings, room, None) || Answers(s.recordings, room, Some(Complete))
      || Answers(s.recordings, room, Some(InProgress))
    ensures Answers(s.recordings, room, None) ==>
      !Answers(s.recordings, room, Some(Complete)) && !Answers(s.recordings, room, Some(InProgress))
  {
    ReachableInv(s);
    AlwaysAnswers(s.recordings, room);
    forall answer | Answers(s.recordings, room, answer) ensures answer != Some(Broken) {
      NeverBroken(s.recordings, s.jobRows, s.nextRecording, room, answer);
    }
    hide Inv, Reachable, HasTranscript, HasSummary, Derive;
    assert Answers(s.recordings, room, None) ==> !HasRecording(s.recordings, room);
    assert forall st :: Answers(s.recordings, room, Some(st)) ==> HasRecording(s.recordings, room);
    hide Answers, HasRecording;
    if Shows(s, room, stage) {
      var answer :| Answers(s.recordings, room, answer) && stage == StageFor(s, room, answer);
      assert answer == None || answer == Some(Complete) || answer == Some(InProgress);
    }
  }

  /** Which stage a room shows, row by row. */
  lemma StageTable(s: State, room: Name)
    requires Reachable(s)
    ensures Shows(s, room, AtCompleted) <==> room in s.rooms && !NoSummary(s, room)
    ensures Shows(s, room, AtSummarizing) <==> room in s.rooms && NoSummary(s, room) && !NoTranscript(s, room)
    ensures Shows(s, room, AtTranscribing) <==>
      room in s.rooms && NoSummary(s, room) && NoTranscript(s, room) && LatestIs(s, room, Complete)
    ensures Shows(s, room, AtRecording) <==>
      room in s.rooms && NoSummary(s, room) && NoTranscript(s, room) && LatestIs(s, room, InProgress)
    ensures Shows(s, room, AtFinalizing) <==>
      room in s.rooms && NoSummary(s, room) && NoTranscript(s, room) && NoRecording(s, room)
      && s.rooms[room].status == Rooms.Ended
    ensures Shows(s, room, AtLive) <==>
      room in s.rooms && NoSummary(s, room) && NoTranscript(s, room) && NoRecording(s, room)
      && s.rooms[room].status != Rooms.Ended
    ensures !Shows(s, room, AtFailed)
  {
    assert NoTranscript(s, room) <==> !HasTranscript(s.transcripts, room);
    assert NoSummary(s, room) <==> !HasSummary(s.summaries, room);
    assert NoRecording(s, room) <==> Answers(s.recordings, room, None);
    LatestIsAnswer(s, room, Complete);
    LatestIsAnswer(s, room, InProgress);
    hide Reachable, HasTranscript, HasSummary, Answers, NoTranscript, NoSummary, NoRecording, LatestIs, Shows;
    ShowsByAnswers(s, room, AtCompleted);
    ShowsByAnswers(s, room, AtSummarizing);
    ShowsByAnswers(s, room, AtTranscribing);
    ShowsByAnswers(s, room, AtRecording);
    ShowsByAnswers(s, room, AtFinalizing);
    ShowsByAnswers(s, room, AtLive);
    ShowsByAnswers(s, room, AtFailed);
  }

  /** Which status goes with each stage. */
  lemma RepliesByStage(s: State, room: Name, progress: Progress, stage: Stage)
    ensures Replies(s, room, (progress, stage)) <==>
      Shows(s, room, stage) && progress == match stage
                                           case AtLive => StatusLive
                                           case AtFinalizing => StatusProcessing
                                           case AtRecording => StatusProcessing
                                           case AtTranscribing => StatusProcessing
                                           case AtSummarizing => StatusProcessing
                                           case AtCompleted => StatusCompleted
                                           case AtFailed => StatusFailed
  {
    hide HasTranscript, HasSummary, Answers;
    if Shows(s, room, stage) {
      var answer :| Answers(s.recordings, room, answer)
        && stage == Derive(s.rooms[room].status, answer, HasTranscript(s.transcripts, room),
            HasSummary(s.summaries, room)).1;
    }
  }

  lemma ContentStays(s: State, s': State, room: Name)
    requires Grows(s, s')
    ensures HasTranscript(s.transcripts, room) ==> HasTranscript(s'.transcripts, room)
    ensures HasSummary(s.summaries, room) ==> HasSummary(s'.summaries, room)
    ensures HasRecording(s.recordings, room) ==> HasRecording(s'.recordings, room)
  {
    hide RoomsGrow;
    if HasTranscript(s.transcripts, room) {
      var e :| e in s.transcripts && s.transcripts[e].room == room;
      assert s'.transcripts[e].room == room;
    }
    if HasSummary(s.summaries, room) {
      var id :| id in s.summaries && s.summaries[id].room == room;
      assert s'.summaries[id].room == room;
    }
    if HasRecording(s.recordings, room) {
      var e :| e in s.recordings && s.recordings[e].room == room;
      assert s'.recordings[e].room == room;
    }
  }

  /** Completed is final, and a room that is summarizing never falls behind that, whatever runs next. */
  lemma LateStagesAreSticky(s: State, schedule: seq<Step>, room: Name, before: Stage, after: Stage)
    requires Reachable(s) && Shows(s, room, before) && Shows(Exec(s, schedule), room, after)
    ensures before == AtCompleted ==> after == AtCompleted
    ensures before == AtSummarizing ==> after == AtSummarizing || after == AtCompleted
  {
    RowsKeepIdentity(s, schedule);
    ContentStays(s, Exec(s, schedule), room);
    hide Grows, HasTranscript, HasSummary, Answers;
  }

  predicate AtMostOneRecording(recordings: map<EgressId, Recording>, room: Name) {
    forall e, f | e in recordings && f in recordings ::
      recordings[e].room == room && recordings[f].room == room ==> e == f
  }

  /** With one recording the query has one answer: its status. */
  lemma OnlyAnswer(recordings: map<EgressId, Recording>, room: Name, e: EgressId, answer: Option<RecordingStatus>)
    requires e in recordings && recordings[e].room == room && AtMostOneRecording(recordings, room)
    requires Answers(recordings, room, answer)
    ensures answer == Some(recordings[e].status)
  {
    assert HasRecording(recordings, room);
  }

  /** Nothing but its recordings lets a room fall back. */
  lemma RankFromParts(r: Rooms.Room, r': Rooms.Room, answer: Option<RecordingStatus>, answer': Option<RecordingStatus>,
                      t: bool, t': bool, m: bool, m': bool)
    requires RoomGrows(r, r') && (t ==> t') && (m ==> m')
    requires answer != Some(Broken) && answer' != Some(Broken)
    ensures Rank(Derive(r'.status, answer', t', m').1) < Rank(Derive(r.status, answer, t, m).1) <==>
      && !t' && !m' && answer.Some?
      && (answer' == None || (answer == Some(Complete) && answer' == Some(InProgress)))
  {
    assert answer.Some? ==> answer.value.InProgress? || answer.value.Complete?;
    assert answer'.Some? ==> answer'.value.InProgress? || answer'.value.Complete?;
  }

  /** The stage falls between two states only if the answer about recordings does. */
  lemma FallFromParts(s: State, s': State, room: Name, before: Stage, after: Stage)
      returns (a: Option<RecordingStatus>, a': Option<RecordingStatus>)
    requires Inv(s) && Inv(s') && Grows(s, s') && Shows(s, room, before) && Shows(s', room, after)
    ensures Answers(s.recordings, room, a) && Answers(s'.recordings, room, a')
    ensures Rank(after) < Rank(before) <==>
      && !HasTranscript(s'.transcripts, room) && !HasSummary(s'.summaries, room)
      && a == Some(Complete) && a' == Some(InProgress)
  {
    hide Inv, HasTranscript, HasSummary, HasRecording, IsLatest, RecordingsGrow, TranscriptsGrow, SummariesGrow;
    ContentStays(s, s', room);
    assert RoomGrows(s.rooms[room], s'.rooms[room]);
    hide Grows, RoomsGrow;
    a := PickAnswer(s, room, before);
    a' := PickAnswer(s', room, after);
    assert a.Some? ==> HasRecording(s.recordings, room) by { AnswerMeansRecording(s.recordings, room, a); }
    RankFromParts(s.rooms[room], s'.rooms[room], a, a',
        HasTranscript(s.transcripts, room), HasTranscript(s'.transcripts, room),
                  HasSummary(s.summaries, room), HasSummary(s'.summaries, room));
  }

  lemma AnswerMeansRecording(recordings: map<EgressId, Recording>, room: Name, answer: Option<RecordingStatus>)
    requires Answers(recordings, room, answer)
    ensures answer.Some? <==> HasRecording(recordings, room)
  {
    if answer.Some? {
      var e :| e in recordings && IsLatest(recordings, room, e);
      assert recordings[e].room == room;
    }
  }

  /** In a room with at most one recording the stage never falls, over any run. */
  lemma OneRecordingNeverFalls(s: State, schedule: seq<Step>, room: Name, before: Stage, after: Stage)
    requires Reachable(s) && Shows(s, room, before) && Shows(Exec(s, schedule), room, after)
    requires AtMostOneRecording(Exec(s, schedule).recordings, room)
    ensures Rank(before) <= Rank(after)
  {
    var s' := Exec(s, schedule);
    RowsKeepIdentity(s, schedule);
    ReachableInv(s);
    KeepExec(s, schedule);
    var a, a' := FallFromParts(s, s', room, before, after);
    hide Inv, Reachable, Shows, Exec;
    if a == Some(Complete) {
      OneAnswer(s.recordings, s'.recordings, room, a');
    }
  }

  lemma OneAnswer(recordings: map<EgressId, Recording>, later: map<EgressId, Recording>, room: Name,
          answer: Option<RecordingStatus>)
    requires RecordingsGrow(recordings, later) && AtMostOneRecording(later, room)
    requires Answers(recordings, room, Some(Complete)) && Answers(later, room, answer)
    ensures answer == Some(Complete)
  {
    var e :| e in recordings && IsLatest(recordings, room, e) && recordings[e].status == Complete;
    assert RecordingGrows(recordings[e], later[e]);
    OnlyAnswer(later, room, e, answer);
  }

  // ---- exactly when one step lets a room fall back ----

  ghost predicate CanFall(s: State, s': State, room: Name) {
    exists before, after :: Shows(s, room, before) && Shows(s', room, after) && Rank(after) < Rank(before)
  }

  lemma ShownIfAnswered(s: State, room: Name, answer: Option<RecordingStatus>)
    requires room in s.rooms && Answers(s.recordings, room, answer)
    ensures Shows(s, room, Derive(s.rooms[room].status, answer, HasTranscript(s.transcripts, room),
        HasSummary(s.summaries, room)).1)
  {
  }

  lemma ReachableRooms(s: State)
    requires Reachable(s)
    ensures RoomsOk(s.rooms)
  {
    var schedule :| s == Exec(Empty, schedule);
    GrowsExec(Empty, schedule);
  }

  lemma FallNeedsBoth(s: State, s': State, room: Name)
    requires Inv(s) && Inv(s') && Grows(s, s') && CanFall(s, s', room)
    ensures !HasTranscript(s'.transcripts, room) && !HasSummary(s'.summaries, room)
    ensures Answers(s.recordings, room, Some(Complete)) && Answers(s'.recordings, room, Some(InProgress))
  {
    hide Inv, Grows, HasTranscript, HasSummary, Shows, Answers;
    var before, after :| Shows(s, room, before) && Shows(s', room, after) && Rank(after) < Rank(before);
    var a, a' := FallFromParts(s, s', room, before, after);
  }

  lemma RoomStays(s: State, s': State, room: Name)
    requires Grows(s, s') && room in s.rooms
    ensures room in s'.rooms
  {
    hide RecordingsGrow, TranscriptsGrow, SummariesGrow;
  }

  lemma BothFall(s: State, s': State, room: Name)
    requires Grows(s, s') && room in s.rooms
    requires !HasTranscript(s'.transcripts, room) && !HasSummary(s'.summaries, room)
    requires Answers(s.recordings, room, Some(Complete)) && Answers(s'.recordings, room, Some(InProgress))
    ensures CanFall(s, s', room)
  {
    hide Grows, HasTranscript, HasSummary, HasRecording, Answers, Shows;
    ContentStays(s, s', room);
    RoomStays(s, s', room);
    ShownIfAnswered(s, room, Some(Complete));
    ShownIfAnswered(s', room, Some(InProgress));
    assert Shows(s, room, AtTranscribing) && Shows(s', room, AtRecording);
  }

  /** Does this step insert a recording of the room, at this time? */
  predicate StartsRecording(s: State, e: Step, room: Name) {
    && e.Dispatch? && Enabled(s, e) && e.dbOk
    && s.inbox[e.eid].EgressStarted? && s.inbox[e.eid].info.Some?
    && var info := s.inbox[e.eid].info.value;
       info.room == room && room != "" && info.egress != "" && info.egress !in s.recordings
  }

  /** The recording that this step completes, if it does. */
  function CompletedBy(s: State, e: Step): Option<EgressId> {
    if e.CommitTx? && Enabled(s, e) && s.txs[e.slot].recording.Some?
    then Some(s.txs[e.slot].recording.value.0)
    else None
  }

  /** Does this step commit a transcript of the room? */
  predicate Publishes(s: State, e: Step, room: Name) {
    e.CommitTx? && Enabled(s, e) && s.txs[e.slot].transcript.Some? && s.txs[e.slot].transcript.value.1.room == room
  }

  lemma HandleOnRecordings(s: State, event: Event, now: int, slot: nat, redisOk: bool)
    ensures var s' := Handle(s, event, now, slot, redisOk);
      if event.EgressStarted? && event.info.Some? && event.info.value.room != "" && event.info.value.egress != ""
         && event.info.value.egress !in s.recordings then
        var info := event.info.value;
        s'.recordings == s.recordings[info.egress :=
            Recording(s.nextRecording, info.room, InProgress, None, 0, 0, now, None)]
      else
        s'.recordings == s.recordings
  {
    hide RoomUpdated, Joined, Left, EndedTx;
    match event
    case RoomStarted(_) =>
    case RoomFinished(_) =>
    case ParticipantJoined(_, _) =>
    case ParticipantLeft(_, _) =>
    case EgressStarted(_) =>
    case EgressEnded(_) =>
    case OtherEvent =>
  }

  /** The room's recordings stay as they are, except that one may be completed. */
  predicate Kept(a: map<EgressId, Recording>, b: map<EgressId, Recording>, room: Name, completed: Option<EgressId>) {
    && (forall f | f in a && a[f].room == room :: f in b && b[f].room == room)
    && (forall f | f in b && b[f].room == room ::
          && f in a && a[f].room == room && b[f].createdAt == a[f].createdAt
          && (if completed == Some(f) then b[f].status == Complete else b[f].status == a[f].status))
  }

  lemma DispatchOnRecordings(s: State, e: Step, room: Name)
    requires e.Dispatch? && Enabled(s, e)
    ensures StartsRecording(s, e, room) ==>
      var info := s.inbox[e.eid].info.value;
      Next(s, e).recordings == s.recordings[info.egress :=
          Recording(s.nextRecording, room, InProgress, None, 0, 0, e.now, None)]
    ensures !StartsRecording(s, e, room) ==> Kept(s.recordings, Next(s, e).recordings, room, None)
  {
    HandleOnRecordings(s.(inbox := s.inbox - {e.eid}, handled := s.handled + [e.eid]), s.inbox[e.eid], e.now, e.slot,
        e.redisOk);
    hide Handle;
  }

  lemma CommitOnRecordings(s: State, slot: nat, room: Name)
    requires slot in s.txs && CompletingTx(s.txs[slot], s.recordings)
    ensures Kept(s.recordings, DoCommit(s, slot).recordings, room, CompletedBy(s, CommitTx(slot)))
  {
  }

  lemma OtherStepsRecordNothing(s: State, e: Step)
    requires !e.Dispatch? && !e.CommitTx?
    ensures Next(s, e).recordings == s.recordings
  {
    hide TranscriptTx;
    match e
    case CreateRoom(_, _) =>
    case Receive(_, _) =>
    case Forget(_) =>
    case RollbackTx(_) =>
    case RunTranscribe(_, _, _, _, _) =>
    case RunSummarize(_, _, _, _) =>
  }

  lemma KeptSame(recordings: map<EgressId, Recording>, room: Name)
    ensures Kept(recordings, recordings, room, None)
  {
  }

  lemma StepOnRecordings(s: State, e: Step, room: Name)
    requires Inv(s)
    ensures StartsRecording(s, e, room) ==>
      var info := s.inbox[e.eid].info.value;
      Next(s, e).recordings == s.recordings[info.egress :=
          Recording(s.nextRecording, room, InProgress, None, 0, 0, e.now, None)]
    ensures !StartsRecording(s, e, room) ==> Kept(s.recordings, Next(s, e).recordings, room, CompletedBy(s, e))
  {
    KeptSame(s.recordings, room);
    if !Enabled(s, e) {
      hide Inv, Kept, Enabled;
    } else if e.Dispatch? {
      DispatchOnRecordings(s, e, room);
      hide Inv, Kept, Next;
    } else if e.CommitTx? {
      TxFacts(s, e.slot);
      CommitOnRecordings(s, e.slot, room);
      hide Inv, Kept, DoCommit;
    } else {
      OtherStepsRecordNothing(s, e);
      hide Inv, Kept, Next;
    }
  }

  lemma WrittenRoom(transcripts: map<EgressId, Transcript>, e: EgressId, t: Transcript, room: Name)
    requires e in transcripts ==> t == transcripts[e].(text := t.text)
    ensures HasTranscript(transcripts[e := t], room) <==> HasTranscript(transcripts, room) || t.room == room
  {
    var after := transcripts[e := t];
    if t.room == room {
      assert after[e].room == room;
    }
    if f :| f in transcripts && transcripts[f].room == room {
      assert f in after && after[f].room == room;
    }
  }

  lemma StepOnTranscripts(s: State, e: Step, room: Name)
    requires Inv(s)
    ensures HasTranscript(Next(s, e).transcripts, room) <==> HasTranscript(s.transcripts, room) || Publishes(s, e, room)
  {
    if e.CommitTx? && Enabled(s, e) {
      TxFacts(s, e.slot);
      hide Inv, HasTranscript;
      var x := s.txs[e.slot];
      if x.transcript.Some? {
        WrittenRoom(s.transcripts, x.transcript.value.0, x.transcript.value.1, room);
      }
    } else {
      OnlyCommitsWrite(s, e);
      hide Inv, HasTranscript, Next;
    }
  }

  lemma StartOnTexts(s: State, info: EgressInfo, now: int)
    ensures StartRecording(s, info, now).transcripts == s.transcripts
    ensures StartRecording(s, info, now).summaries == s.summaries
  {
  }

  lemma HandleOnTexts(s: State, event: Event, now: int, slot: nat, redisOk: bool)
    ensures Handle(s, event, now, slot, redisOk).transcripts == s.transcripts
    ensures Handle(s, event, now, slot, redisOk).summaries == s.summaries
  {
    hide RoomUpdated, Joined, Left, EndedTx, StartRecording;
    if event.EgressStarted? && event.info.Some? {
      StartOnTexts(s, event.info.value, now);
    }
  }

  lemma OnlyCommitsWrite(s: State, e: Step)
    requires !(e.CommitTx? && Enabled(s, e))
    ensures Next(s, e).transcripts == s.transcripts
    ensures !(e.RunSummarize? && Enabled(s, e)) ==> Next(s, e).summaries == s.summaries
  {
    hide TranscriptTx;
    if Enabled(s, e) {
      match e
      case CreateRoom(_, _) =>
      case Receive(_, _) =>
      case Dispatch(eid, now, slot, _, redisOk) =>
        HandleOnTexts(s.(inbox := s.inbox - {eid}, handled := s.handled + [eid]), s.inbox[eid], now, slot, redisOk);
        hide Handle;
      case Forget(_) =>
      case RollbackTx(_) =>
      case RunTranscribe(_, _, _, _, _) =>
      case RunSummarize(_, _, _, _) =>
    }
  }

  lemma StepOnSummaries(s: State, e: Step, room: Name)
    requires !HasTranscript(s.transcripts, room)
    ensures HasSummary(Next(s, e).summaries, room) <==> HasSummary(s.summaries, room)
  {
    if e.RunSummarize? && Enabled(s, e) {
      var tr := s.transcripts[e.egress];
      assert tr.room != room;
      StoredRoom(s, e.work, tr, e.body, e.now, room);
      hide HasSummary, StoreSummary, HasTranscript;
    } else if !(e.CommitTx? && Enabled(s, e)) {
      OnlyCommitsWrite(s, e);
      hide HasSummary, Next, HasTranscript;
    } else {
      hide HasSummary, HasTranscript;
    }
  }

  lemma StoredRoom(s: State, work: Work, tr: Transcript, body: string, now: int, room: Name)
    requires work.SummarizeWork? && tr.room != room
    ensures HasSummary(StoreSummary(s, work, tr, body, now).summaries, room) <==> HasSummary(s.summaries, room)
  {
    var after := StoreSummary(s, work, tr, body, now).summaries;
    if id :| id in s.summaries && s.summaries[id].room == room {
      assert id in after && after[id].room == room;
    }
    if id :| id in after && after[id].room == room {
      assert id in s.summaries && s.summaries[id].room == room;
    }
  }

  /** A latest recording that is in progress and that this step does not complete. */
  predicate OpenLatest(recordings: map<EgressId, Recording>, room: Name, completed: Option<EgressId>) {
    exists g | g in recordings :: IsLatest(recordings, room, g) && recordings[g].status == InProgress
        && completed != Some(g)
  }

  lemma KeptLatest(a: map<EgressId, Recording>, b: map<EgressId, Recording>, room: Name, completed: Option<EgressId>,
          f: EgressId)
    requires Kept(a, b, room, completed)
    ensures IsLatest(a, room, f) <==> IsLatest(b, room, f)
  {
  }

  /** If none is added, the answer may be in progress exactly if a latest one was and stays so. */
  lemma KeptAnswers(a: map<EgressId, Recording>, b: map<EgressId, Recording>, room: Name, completed: Option<EgressId>)
    requires Kept(a, b, room, completed)
    ensures Answers(b, room, Some(InProgress)) <==> OpenLatest(a, room, completed)
  {
    if Answers(b, room, Some(InProgress)) {
      var g :| g in b && IsLatest(b, room, g) && b[g].status == InProgress;
      KeptLatest(a, b, room, completed, g);
      assert g in a && IsLatest(a, room, g) && a[g].status == InProgress;
    }
    if OpenLatest(a, room, completed) {
      var g :| g in a && IsLatest(a, room, g) && a[g].status == InProgress && completed != Some(g);
      KeptLatest(a, b, room, completed, g);
      assert g in b && IsLatest(b, room, g) && b[g].status == InProgress;
    }
  }

  /** The latest recordings are no younger than this. */
  predicate LatestBy(recordings: map<EgressId, Recording>, room: Name, now: int) {
    forall f | f in recordings && recordings[f].room == room :: recordings[f].createdAt <= now
  }

  /** With a new one in progress, exactly if it is not older than the others, or an old latest one was. */
  lemma StartedAnswers(a: map<EgressId, Recording>, room: Name, e: EgressId, r: Recording)
    requires e !in a && r.room == room && r.status == InProgress
    ensures Answers(a[e := r], room, Some(InProgress)) <==>
      LatestBy(a, room, r.createdAt) || OpenLatest(a, room, None)
  {
    var b := a[e := r];
    if LatestBy(a, room, r.createdAt) {
      assert e in b && IsLatest(b, room, e) && b[e].status == InProgress;
    } else if OpenLatest(a, room, None) {
      var g :| g in a && IsLatest(a, room, g) && a[g].status == InProgress;
      var f :| f in a && a[f].room == room && a[f].createdAt > r.createdAt;
      assert g in b && IsLatest(b, room, g) && b[g].status == InProgress;
    }
    if Answers(b, room, Some(InProgress)) {
      var g :| g in b && IsLatest(b, room, g) && b[g].status == InProgress;
      if g == e {
        forall f | f in a && a[f].room == room ensures a[f].createdAt <= r.createdAt {
          assert b[f] == a[f];
        }
      } else {
        forall f | f in a && a[f].room == room ensures a[f].createdAt <= a[g].createdAt {
          assert b[f] == a[f];
        }
        assert g in a && IsLatest(a, room, g);
      }
    }
  }

  /** What lets a room fall back: nothing of it is transcribed or summarised or about to be committed,
      a latest recording is complete, and the step starts one that is not older, or another latest
      one, made at the same instant, is in progress and stays so. */
  predicate FallsBack(s: State, e: Step, room: Name) {
    && !HasTranscript(s.transcripts, room) && !HasSummary(s.summaries, room) && !Publishes(s, e, room)
    && Answers(s.recordings, room, Some(Complete))
    && ((StartsRecording(s, e, room) && LatestBy(s.recordings, room, e.now))
        || OpenLatest(s.recordings, room, CompletedBy(s, e)))
  }

  lemma InProgressNext(s: State, e: Step, room: Name)
    requires Inv(s)
    ensures Answers(Next(s, e).recordings, room, Some(InProgress)) <==>
      (StartsRecording(s, e, room) && LatestBy(s.recordings, room, e.now))
          || OpenLatest(s.recordings, room, CompletedBy(s, e))
  {
    StepOnRecordings(s, e, room);
    hide Inv, Next, Answers, OpenLatest, LatestBy, Kept;
    if StartsRecording(s, e, room) {
      StartedAnswers(s.recordings, room, s.inbox[e.eid].info.value.egress,
                     Recording(s.nextRecording, room, InProgress, None, 0, 0, e.now, None));
    } else {
      KeptAnswers(s.recordings, Next(s, e).recordings, room, CompletedBy(s, e));
    }
  }

  /** One step from a reachable state lets a room fall back exactly under that condition. */
  lemma FallsExactlyWhen(s: State, e: Step, room: Name)
    requires Reachable(s) && room in s.rooms
    ensures CanFall(s, Next(s, e), room) <==> FallsBack(s, e, room)
  {
    ReachableInv(s);
    KeepNext(s, e);
    ReachableRooms(s);
    GrowsNext(s, e);
    InProgressNext(s, e, room);
    StepOnTranscripts(s, e, room);
    hide Inv, Reachable, Next, Grows, CanFall, HasTranscript, HasSummary, Answers, OpenLatest, LatestBy,
        StartsRecording, Publishes;
    if !HasTranscript(s.transcripts, room) {
      StepOnSummaries(s, e, room);
    }
    if CanFall(s, Next(s, e), room) {
      FallNeedsBoth(s, Next(s, e), room);
    }
    if FallsBack(s, e, room) {
      BothFall(s, Next(s, e), room);
    }
  }

  /** The latest recordings of the room agree on their status, so the query has one answer. */
  predicate Untied(recordings: map<EgressId, Recording>, room: Name) {
    forall e, f | e in recordings && f in recordings ::
      IsLatest(recordings, room, e) && IsLatest(recordings, room, f) ==> recordings[e].status == recordings[f].status
  }

  lemma UntiedIsNotOpen(recordings: map<EgressId, Recording>, room: Name, completed: Option<EgressId>)
    requires Untied(recordings, room) && Answers(recordings, room, Some(Complete))
    ensures !OpenLatest(recordings, room, completed)
  {
  }

  /** If the query has one answer, only a new recording lets the room fall back. */
  lemma UntiedFallsByRestart(s: State, e: Step, room: Name)
    requires Reachable(s) && room in s.rooms && Untied(s.recordings, room) && CanFall(s, Next(s, e), room)
    ensures StartsRecording(s, e, room) && LatestBy(s.recordings, room, e.now)
  {
    FallsExactlyWhen(s, e, room);
    UntiedIsNotOpen(s.recordings, room, CompletedBy(s, e));
    hide Reachable, Next, CanFall, StartsRecording, HasTranscript, HasSummary, LatestBy, OpenLatest, Untied, Answers;
  }

  lemma EndedWebhook(s: State, eid: EventId, info: EgressInfo, now: int) returns (s': State)
    requires Reachable(s) && eid !in s.events && s.txs == map[] && info.complete && Matches(s, info.egress)
    ensures Reachable(s') && s'.events == s.events + {eid}
    ensures s'.rooms == s.rooms && s'.transcripts == s.transcripts && s'.summaries == s.summaries && s'.txs == map[]
    ensures info.egress in s'.recordings && s'.recordings[info.egress].status == Complete
    ensures s'.recordings == s.recordings[info.egress := s'.recordings[info.egress]]
    ensures RecordingGrows(s.recordings[info.egress], s'.recordings[info.egress])
  {
    ReachNext(s, Receive(eid, EgressEnded(Some(info))));
    var s1 := Next(s, Receive(eid, EgressEnded(Some(info))));
    ReachNext(s1, Dispatch(eid, now, 0, true, true));
    hide Reachable, EgressFile;
    assert Enabled(s1, Dispatch(eid, now, 0, true, true));
    var s2 := Next(s1, Dispatch(eid, now, 0, true, true));
    assert 0 in s2.txs && s2.txs[0].transcript == None && s2.recordings == s.recordings;
    assert s2.txs[0].recording == EndedTx(s, info, now).recording;
    assert s2.txs - {0} == map[];
    ReachNext(s2, CommitTx(0));
    s' := Next(s2, CommitTx(0));
  }

  lemma SecondRecordingFallsBack(s: State, eid: EventId, a: EgressId, second: EgressInfo, now: int) returns (s': State)
    requires Reachable(s) && eid !in s.events && second.room in s.rooms && second.room != ""
    requires second.egress != "" && second.egress != a
    requires s.recordings.Keys == {a} && s.recordings[a].room == second.room && s.recordings[a].status == Complete
    requires s.recordings[a].createdAt <= now && s.transcripts == map[] && s.summaries == map[]
    ensures Reachable(s') && CanFall(s', Next(s', Dispatch(eid, now, 0, true, true)), second.room)
  {
    ReachNext(s, Receive(eid, EgressStarted(Some(second))));
    s' := s.(events := s.events + {eid}, inbox := s.inbox[eid := EgressStarted(Some(second))]);
    assert Next(s, Receive(eid, EgressStarted(Some(second)))) == s';
    hide Next, Reachable, CanFall;
    var e := Dispatch(eid, now, 0, true, true);
    assert FallsBack(s', e, second.room) by {
      assert a in s'.recordings && IsLatest(s'.recordings, second.room, a) && s'.recordings[a].status == Complete;
      assert StartsRecording(s', e, second.room);
    }
    hide FallsBack;
    FallsExactlyWhen(s', e, second.room);
  }

  /** It does happen: with two recordings in one room, whatever their names, a reachable state falls
      back from transcribing to recording. */
  lemma TwoRecordingsFallBack(room: Name, a: EgressId, b: EgressId)
    requires room != "" && a != "" && b != "" && a != b
    ensures exists s, e :: Reachable(s) && CanFall(s, Next(s, e), room)
  {
    var first := EgressInfo(room, a, true, None, None);
    var second := EgressInfo(room, b, true, None, None);
    assert Empty == Exec(Empty, []);
    ReachNext(Empty, CreateRoom(room, ""));
    var s1 := Empty.(rooms := map[room := Rooms.NewRoom("")]);
    assert Next(Empty, CreateRoom(room, "")) == s1;
    hide Reachable, CanFall, Next;
    var s2 := StartedWebhook(s1, "1", first, 0);
    var s3 := EndedWebhook(s2, "2", first, 1);
    assert "3" !in s3.events;
    var s4 := SecondRecordingFallsBack(s3, "3", a, second, 2);
  }
}
