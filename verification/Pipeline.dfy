/**
 From webhook to summary, as a state machine over the Postgres tables, the committed job rows and
 the work that has been pushed to Redis. Handlers of any number of webhooks and jobs interleave;
 transactions can commit or roll back, statements and pushes can fail, and a pushed piece of work
 can be run any number of times, by retries or as a duplicate.
 */
module Pipeline {
  import opened Jobs
  import Rooms

  type Name = string
  type EgressId = string

  /** The typed payloads of the two job types. */
  datatype Work =
    | TranscribeWork(room: Name, egress: EgressId, fileURL: string)
    | SummarizeWork(room: Name, transcriptId: nat, category: string)

  datatype RecordingStatus = InProgress | Complete | Broken

  datatype Recording = Recording(id: nat, room: Name, status: RecordingStatus, fileURL: Option<string>,
                                 sizeBytes: int, durationSec: int, createdAt: int, completedAt: Option<int>)

  datatype Transcript = Transcript(id: nat, room: Name, recordingId: nat, text: string, createdAt: int)

  datatype Summary = Summary(id: nat, room: Name, category: string, body: string, createdAt: int)

  datatype Attendance = Attendance(display: string, joinedAt: Option<int>, leftAt: Option<int>)

  // ---- webhook events ----

  datatype Output = Output(location: string, size: int, durationNanos: int)

  datatype EgressInfo = EgressInfo(room: Name, egress: EgressId, complete: bool, file: Option<Output>,
      segments: Option<Output>)

  datatype Person = Person(identity: string, display: string)

  datatype Event =
    | RoomStarted(room: Option<Name>)
    | RoomFinished(room: Option<Name>)
    | ParticipantJoined(room: Option<Name>, who: Option<Person>)
    | ParticipantLeft(room: Option<Name>, who: Option<Person>)
    | EgressStarted(info: Option<EgressInfo>)
    | EgressEnded(info: Option<EgressInfo>)
    | OtherEvent

  type EventId = string

  /** Go's int64 division by time.Second, which truncates. */
  function WholeSeconds(nanos: int): (secs: int)
    ensures nanos >= 0 ==> secs * SECOND <= nanos < (secs + 1) * SECOND
    ensures nanos <= 0 ==> (secs - 1) * SECOND < nanos <= secs * SECOND
  {
    if nanos >= 0 then nanos / SECOND else -((-nanos) / SECOND)
  }

  /** extractEgressFileInfo: the file, else the segment playlist, else nothing. */
  function EgressFile(info: EgressInfo): (string, int, int) {
    match info.file
    case Some(f) => (f.location, f.size, WholeSeconds(f.durationNanos))
    case None =>
      match info.segments
      case Some(g) => (g.location, g.size, WholeSeconds(g.durationNanos))
      case None => ("", 0, 0)
  }

  // ---- the state ----

  /** An open transaction: what it will write to the recordings or transcripts table if it commits,
      and the job row it has inserted. The rows it writes are locked until it ends. */
  datatype Tx = Tx(recording: Option<(EgressId, Recording)>, transcript: Option<(EgressId, Transcript)>, work: Work)

  datatype State = State(
    events: set<EventId>,                       // webhook_events
    inbox: map<EventId, Event>,                 // stored, not yet dispatched
    handled: seq<EventId>,                      // history: dispatched, in order
    rooms: map<Name, Rooms.Room>,
    attendance: map<(Name, string), Attendance>,
    recordings: map<EgressId, Recording>,
    transcripts: map<EgressId, Transcript>,
    summaries: map<nat, Summary>,               // keyed by transcript_id
    jobRows: seq<Work>,                         // committed job_queue rows
    tokens: set<Work>,                          // work pushed to Redis at some time
    txs: map<nat, Tx>,
    nextRecording: nat, nextTranscript: nat, nextSummary: nat)  // identity sequences

  const Empty: State := State({}, map[], [], map[], map[], map[], map[], map[], [], {}, map[], 1, 1, 1)

  datatype Step =
    | CreateRoom(name: Name, host: string)
    | Receive(eid: EventId, event: Event)
    | Dispatch(eid: EventId, now: int, slot: nat, dbOk: bool, redisOk: bool)
    | Forget(eid: EventId)
    | CommitTx(slot: nat)
    | RollbackTx(slot: nat)
    | RunTranscribe(work: Work, slot: nat, text: string, now: int, redisOk: bool)
    | RunSummarize(work: Work, egress: EgressId, body: string, now: int)

  // ---- webhooks/handler.go ----

  /** The two guarded UPDATEs of rooms; an event without a room is refused, an unknown room matches no row. */
  function RoomUpdated(rooms: map<Name, Rooms.Room>, room: Option<Name>, e: Rooms.RoomEvent): map<Name, Rooms.Room> {
    if room.Some? && room.value in rooms then rooms[room.value := Rooms.OnEvent(rooms[room.value], e)] else rooms
  }

  function Joined(a: map<(Name, string), Attendance>, room: Option<Name>, who: Option<Person>, now: int)
    : map<(Name, string), Attendance> {
    if room.None? || who.None? then a else
    var key := (room.value, who.value.identity);
    if key in a then a[key := a[key].(joinedAt := Some(now), leftAt := None)]
    else a[key := Attendance(who.value.display, Some(now), None)]
  }

  function Left(a: map<(Name, string), Attendance>, room: Option<Name>, who: Option<Person>, now: int)
    : map<(Name, string), Attendance> {
    if room.None? || who.None? then a else
    var key := (room.value, who.value.identity);
    if key in a then a[key := a[key].(leftAt := Some(now))]
    else a[key := Attendance(who.value.display, None, Some(now))]
  }

  /** INSERT ... ON CONFLICT (egress_id) DO NOTHING; the identity sequence advances either way. */
  function StartRecording(s: State, info: EgressInfo, now: int): State {
    if info.room == "" || info.egress == "" then s
    else if info.egress in s.recordings then s.(nextRecording := s.nextRecording + 1)
    else s.(nextRecording := s.nextRecording + 1,
            recordings := s.recordings[info.egress :=
              Recording(s.nextRecording, info.room, InProgress, None, 0, 0, now, None)])
  }

  /** Does the UPDATE of handleEgressEnded match a row? */
  predicate Matches(s: State, e: EgressId) {
    e in s.recordings && s.recordings[e].status == InProgress
  }

  function EndedTx(s: State, info: EgressInfo, now: int): Tx {
    var (url, size, secs) := EgressFile(info);
    Tx(if Matches(s, info.egress) then
         Some((info.egress, s.recordings[info.egress].(status := Complete, fileURL := Some(url), sizeBytes := size,
                                                       durationSec := secs, completedAt := Some(now))))
       else None,
       None,
       TranscribeWork(info.room, info.egress, url))
  }

  /** The row lock: another open transaction is updating the recording of this egress. */
  predicate RecordingLocked(s: State, e: EgressId) {
    exists t | t in s.txs :: s.txs[t].recording.Some? && s.txs[t].recording.value.0 == e
  }

  predicate TranscriptLocked(s: State, e: EgressId) {
    exists t | t in s.txs :: s.txs[t].transcript.Some? && s.txs[t].transcript.value.0 == e
  }

  /** A transaction inserts its job row and pushes the token, before it commits. */
  function OpenTx(s: State, slot: nat, x: Tx, redisOk: bool): State {
    s.(txs := s.txs[slot := x], tokens := if redisOk then s.tokens + {x.work} else s.tokens)
  }

  /** dispatch, with the statement succeeding. */
  function Handle(s: State, event: Event, now: int, slot: nat, redisOk: bool): State {
    match event
    case RoomStarted(room) => s.(rooms := RoomUpdated(s.rooms, room, Rooms.Started(now)))
    case RoomFinished(room) => s.(rooms := RoomUpdated(s.rooms, room, Rooms.Finished(now)))
    case ParticipantJoined(room, who) => s.(attendance := Joined(s.attendance, room, who, now))
    case ParticipantLeft(room, who) => s.(attendance := Left(s.attendance, room, who, now))
    case EgressStarted(info) => if info.None? then s else StartRecording(s, info.value, now)
    case EgressEnded(info) =>
      if info.None? || !info.value.complete then s else OpenTx(s, slot, EndedTx(s, info.value, now), redisOk)
    case OtherEvent => s
  }

  /** Must the handler of this event wait for a row lock or a free transaction? */
  predicate Waits(s: State, event: Event, slot: nat) {
    event.EgressEnded? && event.info.Some? && event.info.value.complete
    && (slot in s.txs || (Matches(s, event.info.value.egress) && RecordingLocked(s, event.info.value.egress)))
  }

  // ---- transcripts/service.go and summaries/service.go ----

  function TierName(s: State, room: Name): string {
    if room in s.rooms && s.rooms[room].tier == Rooms.Pro then "pro" else "guest"
  }

  /** persistTranscript for an egress whose recording exists: the upsert rewrites only the text. */
  function TranscriptTx(s: State, work: Work, text: string, now: int): Tx
    requires work.TranscribeWork? && work.egress in s.recordings
  {
    var rec := s.recordings[work.egress];
    var row := if work.egress in s.transcripts then s.transcripts[work.egress].(text := text)
               else Transcript(s.nextTranscript, work.room, rec.id, text, now);
    Tx(None, Some((work.egress, row)), SummarizeWork(work.room, row.id, TierName(s, rec.room)))
  }

  /** persistSummary: the room comes from the transcript row; a conflict rewrites only the body.
      Handle skips a transcript that was empty when it was fetched; the text may have been rewritten
      while the model was working, so storing does not look at it again. */
  function StoreSummary(s: State, work: Work, tr: Transcript, body: string, now: int): State
    requires work.SummarizeWork?
  {
    var row := if tr.id in s.summaries then s.summaries[tr.id].(body := body)
               else Summary(s.nextSummary, tr.room, work.category, body, now);
    s.(summaries := s.summaries[tr.id := row], nextSummary := s.nextSummary + 1)
  }

  // ---- the machine ----

  predicate Enabled(s: State, e: Step) {
    match e
    case CreateRoom(name, _) => name !in s.rooms
    case Receive(eid, _) => eid !in s.events
    case Dispatch(eid, _, slot, _, _) => eid in s.inbox && !Waits(s, s.inbox[eid], slot)
    case Forget(eid) => eid in s.inbox
    case CommitTx(slot) => slot in s.txs
    case RollbackTx(slot) => slot in s.txs
    case RunTranscribe(work, slot, _, _, _) =>
      work in s.tokens && work.TranscribeWork? && work.egress in s.recordings && slot !in s.txs
          && !TranscriptLocked(s, work.egress)
    case RunSummarize(work, e, _, _) =>
      work in s.tokens && work.SummarizeWork? && e in s.transcripts && s.transcripts[e].id == work.transcriptId
  }

  function DoDispatch(s: State, eid: EventId, now: int, slot: nat, dbOk: bool, redisOk: bool): State
    requires eid in s.inbox
  {
    var s1 := s.(inbox := s.inbox - {eid}, handled := s.handled + [eid]);
    if dbOk then Handle(s1, s.inbox[eid], now, slot, redisOk) else s1
  }

  function DoCommit(s: State, slot: nat): State
    requires slot in s.txs
  {
    var x := s.txs[slot];
    s.(txs := s.txs - {slot},
       jobRows := s.jobRows + [x.work],
       recordings := if x.recording.Some? then s.recordings[x.recording.value.0 := x.recording.value.1]
           else s.recordings,
       transcripts := if x.transcript.Some? then s.transcripts[x.transcript.value.0 := x.transcript.value.1]
           else s.transcripts)
  }

  function DoTranscribe(s: State, work: Work, slot: nat, text: string, now: int, redisOk: bool): State
    requires work.TranscribeWork? && work.egress in s.recordings
  {
    OpenTx(s, slot, TranscriptTx(s, work, text, now), redisOk).(nextTranscript := s.nextTranscript + 1)
  }

  function Apply(s: State, e: Step): State
    requires Enabled(s, e)
  {
    match e
    case CreateRoom(name, host) => s.(rooms := s.rooms[name := Rooms.NewRoom(host)])
    case Receive(eid, event) => s.(events := s.events + {eid}, inbox := s.inbox[eid := event])
    case Dispatch(eid, now, slot, dbOk, redisOk) => DoDispatch(s, eid, now, slot, dbOk, redisOk)
    case Forget(eid) => s.(inbox := s.inbox - {eid})
    case CommitTx(slot) => DoCommit(s, slot)
    case RollbackTx(slot) => s.(txs := s.txs - {slot})
    case RunTranscribe(work, slot, text, now, redisOk) => DoTranscribe(s, work, slot, text, now, redisOk)
    case RunSummarize(work, e, body, now) => StoreSummary(s, work, s.transcripts[e], body, now)
  }

  function Next(s: State, e: Step): State {
    if Enabled(s, e) then Apply(s, e) else s
  }

  function Exec(s: State, schedule: seq<Step>): State
    decreases |schedule|
  {
    if schedule == [] then s else Exec(Next(s, schedule[0]), schedule[1..])
  }

  lemma {:induction false} ExecSplit(s: State, a: seq<Step>, b: seq<Step>)
    ensures Exec(s, a + b) == Exec(Exec(s, a), b)
    decreases |a|
  {
    if a == [] {
      assert a + b == b;
    } else {
      assert (a + b)[0] == a[0] && (a + b)[1..] == a[1..] + b;
      ExecSplit(Next(s, a[0]), a[1..], b);
    }
  }
}
