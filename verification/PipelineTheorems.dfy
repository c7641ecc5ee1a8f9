/** What every run of the pipeline keeps: data and job rows commit together, rows keep their
    identity, no event is dispatched twice. */
module PipelineTheorems {
  import opened Jobs
  import opened Pipeline

  // ---- the invariant, part by part ----

  predicate Queued(jobRows: seq<Work>, e: EgressId, url: string) {
    exists w | w in jobRows :: w.TranscribeWork? && w.egress == e && w.fileURL == url
  }

  predicate Named(jobRows: seq<Work>, id: nat) {
    exists w | w in jobRows :: w.SummarizeWork? && w.transcriptId == id
  }

  predicate HasId(transcripts: map<EgressId, Transcript>, id: nat) {
    exists e | e in transcripts :: transcripts[e].id == id
  }

  predicate InRoom(transcripts: map<EgressId, Transcript>, id: nat, room: Name) {
    exists e | e in transcripts :: transcripts[e].id == id && transcripts[e].room == room
  }

  /** A completed recording has a committed transcribe row with its file, and no recording fails. */
  predicate RecordingsOk(recordings: map<EgressId, Recording>, jobRows: seq<Work>, next: nat) {
    && (forall e | e in recordings ::
          && recordings[e].id < next
          && recordings[e].status != Broken
          && (recordings[e].status == Complete ==>
              recordings[e].fileURL.Some? && Queued(jobRows, e, recordings[e].fileURL.value)))
    && (forall e, f | e in recordings && f in recordings && e != f :: recordings[e].id != recordings[f].id)
  }

  /** Transcripts and committed summarize rows name each other. */
  predicate TranscriptsOk(transcripts: map<EgressId, Transcript>, recordings: map<EgressId, Recording>,
          jobRows: seq<Work>, next: nat) {
    && (forall e | e in transcripts ::
          && transcripts[e].id < next
          && Named(jobRows, transcripts[e].id)
          && e in recordings && recordings[e].id == transcripts[e].recordingId)
    && (forall w | w in jobRows :: w.SummarizeWork? ==> HasId(transcripts, w.transcriptId))
    && (forall e, f | e in transcripts && f in transcripts && e != f :: transcripts[e].id != transcripts[f].id)
  }

  predicate SummariesOk(summaries: map<nat, Summary>, transcripts: map<EgressId, Transcript>) {
    forall id | id in summaries :: InRoom(transcripts, id, summaries[id].room)
  }

  predicate CompletingTx(x: Tx, recordings: map<EgressId, Recording>) {
    x.recording.Some? ==>
      var (e, r) := x.recording.value;
      && e in recordings && recordings[e].status == InProgress
      && r.status == Complete && r.id == recordings[e].id && r.room == recordings[e].room
          && r.createdAt == recordings[e].createdAt
      && x.work.TranscribeWork? && x.work.egress == e && r.fileURL == Some(x.work.fileURL)
  }

  predicate TranscribingTx(x: Tx, recordings: map<EgressId, Recording>, transcripts: map<EgressId, Transcript>,
          next: nat) {
    && (x.work.SummarizeWork? <==> x.transcript.Some?)
    && (x.transcript.Some? ==>
          var (e, t) := x.transcript.value;
          && x.work.transcriptId == t.id && t.id < next
          && e in recordings && recordings[e].id == t.recordingId
          && (if e in transcripts then t == transcripts[e].(text := t.text) else !HasId(transcripts, t.id)))
  }

  /** Row locks and the identity sequence keep open transactions out of each other's rows. */
  predicate Disjoint(x: Tx, y: Tx) {
    && (x.recording.Some? && y.recording.Some? ==> x.recording.value.0 != y.recording.value.0)
    && (x.transcript.Some? && y.transcript.Some? ==>
          x.transcript.value.0 != y.transcript.value.0 && x.transcript.value.1.id != y.transcript.value.1.id)
  }

  predicate TxsOk(txs: map<nat, Tx>, recordings: map<EgressId, Recording>, transcripts: map<EgressId, Transcript>,
          next: nat) {
    && (forall t | t in txs ::
          CompletingTx(txs[t], recordings) && TranscribingTx(txs[t], recordings, transcripts, next))
    && (forall t, u | t in txs && u in txs && t != u :: Disjoint(txs[t], txs[u]))
  }

  predicate InboxOk(s: State) {
    && s.inbox.Keys <= s.events
    && (forall i | 0 <= i < |s.handled| :: s.handled[i] in s.events && s.handled[i] !in s.inbox)
    && (forall i, k | 0 <= i < k < |s.handled| :: s.handled[i] != s.handled[k])
  }

  predicate TokensOk(tokens: set<Work>, next: nat) {
    forall w | w in tokens :: w.SummarizeWork? ==> w.transcriptId < next
  }

  predicate Inv(s: State) {
    && RecordingsOk(s.recordings, s.jobRows, s.nextRecording)
    && TranscriptsOk(s.transcripts, s.recordings, s.jobRows, s.nextTranscript)
    && SummariesOk(s.summaries, s.transcripts)
    && TxsOk(s.txs, s.recordings, s.transcripts, s.nextTranscript)
    && InboxOk(s)
    && TokensOk(s.tokens, s.nextTranscript)
  }

  // ---- the steps keep it ----

  lemma MoreJobRows(rows: seq<Work>, w: Work)
    ensures forall e, url :: Queued(rows, e, url) ==> Queued(rows + [w], e, url)
    ensures forall id :: Named(rows, id) ==> Named(rows + [w], id)
    ensures w.TranscribeWork? ==> Queued(rows + [w], w.egress, w.fileURL)
    ensures w.SummarizeWork? ==> Named(rows + [w], w.transcriptId)
    ensures forall x :: x in rows + [w] <==> x in rows || x == w
  {
    assert w in rows + [w];
  }

  /** Writing a transcript row under its own egress: ids and rooms of the other rows stay, and so
      does the row's own identity if it was there before. */
  lemma WriteTranscript(transcripts: map<EgressId, Transcript>, e: EgressId, t: Transcript)
    requires e in transcripts ==> t == transcripts[e].(text := t.text)
    ensures forall id :: HasId(transcripts[e := t], id) <==> HasId(transcripts, id) || id == t.id
    ensures forall id, room :: InRoom(transcripts, id, room) ==> InRoom(transcripts[e := t], id, room)
  {
    var after := transcripts[e := t];
    forall id ensures HasId(after, id) <==> HasId(transcripts, id) || id == t.id {
      assert after[e].id == t.id;
      if HasId(transcripts, id) {
        var f :| f in transcripts && transcripts[f].id == id;
        assert f in after && after[f].id == id;
      }
    }
    forall id, room | InRoom(transcripts, id, room) ensures InRoom(after, id, room) {
      var f :| f in transcripts && transcripts[f].id == id && transcripts[f].room == room;
      assert f in after && after[f].id == id && after[f].room == room;
    }
  }

  lemma IdFacts(transcripts: map<EgressId, Transcript>, id: nat)
    ensures !HasId(transcripts, id) <==> forall e | e in transcripts :: transcripts[e].id != id
    ensures forall e | e in transcripts :: InRoom(transcripts, transcripts[e].id, transcripts[e].room)
  {
  }

  lemma CommitRecordingRows(recordings: map<EgressId, Recording>, jobRows: seq<Work>, next: nat, x: Tx)
    requires RecordingsOk(recordings, jobRows, next) && CompletingTx(x, recordings)
    ensures RecordingsOk(if x.recording.Some? then recordings[x.recording.value.0 := x.recording.value.1]
        else recordings, jobRows + [x.work], next)
  {
    hide Queued;
    MoreJobRows(jobRows, x.work);
  }

  lemma CommitTranscriptRows(s: State, x: Tx)
    requires TranscriptsOk(s.transcripts, s.recordings, s.jobRows, s.nextTranscript)
    requires TranscribingTx(x, s.recordings, s.transcripts, s.nextTranscript)
    ensures TranscriptsOk(if x.transcript.Some? then s.transcripts[x.transcript.value.0 := x.transcript.value.1]
        else s.transcripts,
                          s.recordings, s.jobRows + [x.work], s.nextTranscript)
  {
    hide Named, HasId;
    MoreJobRows(s.jobRows, x.work);
    if x.transcript.Some? {
      var (e, t) := x.transcript.value;
      WriteTranscript(s.transcripts, e, t);
      IdFacts(s.transcripts, t.id);
    }
  }

  /** Completing a recording keeps its id, which is all that transcripts look at. */
  lemma CompletedKeepsTranscripts(transcripts: map<EgressId, Transcript>, recordings: map<EgressId, Recording>,
                                  jobRows: seq<Work>, next: nat, e: EgressId, r: Recording)
    requires TranscriptsOk(transcripts, recordings, jobRows, next)
    requires e in recordings ==> r.id == recordings[e].id
    ensures TranscriptsOk(transcripts, recordings[e := r], jobRows, next)
  {
    hide Named, HasId;
  }

  lemma CommitOtherTxs(s: State, slot: nat)
    requires slot in s.txs && TxsOk(s.txs, s.recordings, s.transcripts, s.nextTranscript)
    ensures var s' := DoCommit(s, slot); TxsOk(s'.txs, s'.recordings, s'.transcripts, s'.nextTranscript)
  {
    hide HasId;
    var x := s.txs[slot];
    var s' := DoCommit(s, slot);
    if x.transcript.Some? {
      assert TranscribingTx(x, s.recordings, s.transcripts, s.nextTranscript);
      WriteTranscript(s.transcripts, x.transcript.value.0, x.transcript.value.1);
    }
    forall t | t in s'.txs ensures CompletingTx(s'.txs[t], s'.recordings)
        && TranscribingTx(s'.txs[t], s'.recordings, s'.transcripts, s'.nextTranscript) {
      assert Disjoint(s.txs[t], x) && CompletingTx(x, s.recordings);
      assert CompletingTx(s.txs[t], s.recordings)
          && TranscribingTx(s.txs[t], s.recordings, s.transcripts, s.nextTranscript);
    }
  }

  lemma TxFacts(s: State, slot: nat)
    requires slot in s.txs && TxsOk(s.txs, s.recordings, s.transcripts, s.nextTranscript)
    ensures CompletingTx(s.txs[slot], s.recordings)
    ensures TranscribingTx(s.txs[slot], s.recordings, s.transcripts, s.nextTranscript)
  {
  }

  lemma CommitSummaries(summaries: map<nat, Summary>, transcripts: map<EgressId, Transcript>, e: EgressId,
          t: Transcript)
    requires SummariesOk(summaries, transcripts) && (e in transcripts ==> t == transcripts[e].(text := t.text))
    ensures SummariesOk(summaries, transcripts[e := t])
  {
    hide InRoom;
    WriteTranscript(transcripts, e, t);
  }

  lemma KeepCommit(s: State, slot: nat)
    requires Inv(s) && slot in s.txs
    ensures Inv(DoCommit(s, slot))
  {
    var x := s.txs[slot];
    hide RecordingsOk, TranscriptsOk, TxsOk, TokensOk, SummariesOk, HasId;
    TxFacts(s, slot);
    CommitRecordingRows(s.recordings, s.jobRows, s.nextRecording, x);
    CommitTranscriptRows(s, x);
    CommitOtherTxs(s, slot);
    if x.recording.Some? {
      var (e, r) := x.recording.value;
      CompletedKeepsTranscripts(s.transcripts, s.recordings, s.jobRows + [x.work], s.nextTranscript, e, r);
    }
    if x.transcript.Some? {
      CommitSummaries(s.summaries, s.transcripts, x.transcript.value.0, x.transcript.value.1);
    }
  }

  lemma NewEndedTx(s: State, info: EgressInfo, now: int)
    requires !(Matches(s, info.egress) && RecordingLocked(s, info.egress))
    ensures var x := EndedTx(s, info, now);
      && x.work.TranscribeWork? && CompletingTx(x, s.recordings)
      && TranscribingTx(x, s.recordings, s.transcripts, s.nextTranscript)
      && forall t | t in s.txs :: Disjoint(s.txs[t], x) && Disjoint(x, s.txs[t])
  {
    hide HasId, EgressFile;
    var x := EndedTx(s, info, now);
    forall t | t in s.txs ensures Disjoint(s.txs[t], x) && Disjoint(x, s.txs[t]) {
    }
  }

  lemma OpenEndedTx(s: State, info: EgressInfo, now: int, slot: nat, redisOk: bool)
    requires Inv(s) && slot !in s.txs && !(Matches(s, info.egress) && RecordingLocked(s, info.egress))
    ensures Inv(OpenTx(s, slot, EndedTx(s, info, now), redisOk))
  {
    var x := EndedTx(s, info, now);
    NewEndedTx(s, info, now);
    hide EndedTx, RecordingsOk, TranscriptsOk, SummariesOk, HasId, TxsOk, CompletingTx, TranscribingTx, Disjoint,
        TokensOk, InboxOk;
    NewTxOk(s.txs, slot, x, s.recordings, s.transcripts, s.nextTranscript);
    MoreTokens(s.tokens, s.nextTranscript, x.work);
    InboxStays(s, OpenTx(s, slot, x, redisOk));
  }

  /** A sequence that has moved on keeps what was below it. */
  lemma SequenceMovesOn(s: State)
    requires Inv(s)
    ensures TranscriptsOk(s.transcripts, s.recordings, s.jobRows, s.nextTranscript + 1)
    ensures TokensOk(s.tokens, s.nextTranscript + 1)
    ensures TxsOk(s.txs, s.recordings, s.transcripts, s.nextTranscript + 1)
    ensures !HasId(s.transcripts, s.nextTranscript)
    ensures forall t | t in s.txs && s.txs[t].transcript.Some? :: s.txs[t].transcript.value.1.id < s.nextTranscript
  {
    IdFacts(s.transcripts, s.nextTranscript);
    hide Queued, Named, HasId, InRoom;
    forall t | t in s.txs ensures TranscribingTx(s.txs[t], s.recordings, s.transcripts, s.nextTranscript) {
    }
  }

  /** No open transaction is about to insert a row with the id of a committed one. */
  lemma OpenIdsDiffer(s: State, e: EgressId, t: nat)
    requires Inv(s) && e in s.transcripts && t in s.txs && s.txs[t].transcript.Some? && s.txs[t].transcript.value.0 != e
    ensures s.txs[t].transcript.value.1.id != s.transcripts[e].id
  {
    assert TranscribingTx(s.txs[t], s.recordings, s.transcripts, s.nextTranscript);
    IdFacts(s.transcripts, s.txs[t].transcript.value.1.id);
    hide Queued, Named, HasId, InRoom;
  }

  lemma NewTxOk(txs: map<nat, Tx>, slot: nat, x: Tx, recordings: map<EgressId, Recording>,
                transcripts: map<EgressId, Transcript>, next: nat)
    requires TxsOk(txs, recordings, transcripts, next) && slot !in txs
    requires CompletingTx(x, recordings) && TranscribingTx(x, recordings, transcripts, next)
    requires forall t | t in txs :: Disjoint(txs[t], x) && Disjoint(x, txs[t])
    ensures TxsOk(txs[slot := x], recordings, transcripts, next)
  {
  }

  lemma NewTranscriptTx(s: State, work: Work, text: string, now: int)
    requires Inv(s) && work.TranscribeWork? && work.egress in s.recordings && !TranscriptLocked(s, work.egress)
    ensures var x := TranscriptTx(s, work, text, now);
      && TranscribingTx(x, s.recordings, s.transcripts, s.nextTranscript + 1)
      && x.work.transcriptId < s.nextTranscript + 1
      && forall t | t in s.txs :: Disjoint(s.txs[t], x) && Disjoint(x, s.txs[t])
  {
    var x := TranscriptTx(s, work, text, now);
    SequenceMovesOn(s);
    TranscriptFacts(s, work.egress);
    hide RecordingsOk, TranscriptsOk, SummariesOk, HasId, TxsOk, TokensOk;
    forall t | t in s.txs ensures Disjoint(s.txs[t], x) && Disjoint(x, s.txs[t]) {
      if s.txs[t].transcript.Some? && work.egress in s.transcripts {
        assert s.txs[t].transcript.value.0 != work.egress;
        OpenIdsDiffer(s, work.egress, t);
      }
    }
  }

  lemma TranscriptFacts(s: State, e: EgressId)
    requires Inv(s)
    ensures e in s.transcripts ==>
      s.transcripts[e].id < s.nextTranscript && e in s.recordings && s.recordings[e].id == s.transcripts[e].recordingId
  {
  }

  lemma MoreTokens(tokens: set<Work>, next: nat, w: Work)
    requires TokensOk(tokens, next) && (w.SummarizeWork? ==> w.transcriptId < next)
    ensures TokensOk(tokens + {w}, next)
  {
  }

  lemma InboxStays(s: State, s': State)
    requires InboxOk(s) && s'.inbox == s.inbox && s'.events == s.events && s'.handled == s.handled
    ensures InboxOk(s')
  {
  }

  lemma KeepTranscribe(s: State, work: Work, slot: nat, text: string, now: int, redisOk: bool)
    requires Inv(s) && work.TranscribeWork? && work.egress in s.recordings && slot !in s.txs
    requires !TranscriptLocked(s, work.egress)
    ensures Inv(DoTranscribe(s, work, slot, text, now, redisOk))
  {
    var x := TranscriptTx(s, work, text, now);
    var s' := DoTranscribe(s, work, slot, text, now, redisOk);
    NewTranscriptTx(s, work, text, now);
    SequenceMovesOn(s);
    hide TranscriptTx, RecordingsOk, TranscriptsOk, SummariesOk, HasId, TxsOk, TranscribingTx, Disjoint, TokensOk,
        InboxOk;
    assert CompletingTx(x, s.recordings) by { assert x.recording == None; }
    NewTxOk(s.txs, slot, x, s.recordings, s.transcripts, s.nextTranscript + 1);
    MoreTokens(s.tokens, s.nextTranscript + 1, x.work);
    InboxStays(s, s');
  }

  lemma NewRecordingOk(recordings: map<EgressId, Recording>, jobRows: seq<Work>, next: nat, e: EgressId, r: Recording)
    requires RecordingsOk(recordings, jobRows, next) && e !in recordings && r.status == InProgress && r.id == next
    ensures RecordingsOk(recordings, jobRows, next + 1)
    ensures RecordingsOk(recordings[e := r], jobRows, next + 1)
  {
    hide Queued;
  }

  lemma NewRecordingTxs(s: State, e: EgressId, r: Recording)
    requires TxsOk(s.txs, s.recordings, s.transcripts, s.nextTranscript) && e !in s.recordings
    ensures TxsOk(s.txs, s.recordings[e := r], s.transcripts, s.nextTranscript)
  {
    hide HasId;
    forall t | t in s.txs
      ensures CompletingTx(s.txs[t], s.recordings[e := r])
      ensures TranscribingTx(s.txs[t], s.recordings[e := r], s.transcripts, s.nextTranscript)
    {
      assert CompletingTx(s.txs[t], s.recordings)
          && TranscribingTx(s.txs[t], s.recordings, s.transcripts, s.nextTranscript);
    }
  }

  lemma KeepStartRecording(s: State, info: EgressInfo, now: int)
    requires Inv(s)
    ensures Inv(StartRecording(s, info, now))
  {
    hide RecordingsOk, TranscriptsOk, SummariesOk, TxsOk, TokensOk;
    if info.egress !in s.recordings {
      var r := Recording(s.nextRecording, info.room, InProgress, None, 0, 0, now, None);
      NewRecordingOk(s.recordings, s.jobRows, s.nextRecording, info.egress, r);
      NewRecordingTxs(s, info.egress, r);
      CompletedKeepsTranscripts(s.transcripts, s.recordings, s.jobRows, s.nextTranscript, info.egress, r);
    } else {
      RecordingSequence(s);
    }
  }

  lemma RecordingSequence(s: State)
    requires RecordingsOk(s.recordings, s.jobRows, s.nextRecording)
    ensures RecordingsOk(s.recordings, s.jobRows, s.nextRecording + 1)
  {
    hide Queued;
  }

  lemma KeepHandle(s: State, event: Event, now: int, slot: nat, redisOk: bool)
    requires Inv(s) && !Waits(s, event, slot)
    ensures Inv(Handle(s, event, now, slot, redisOk))
  {
    hide RecordingsOk, TranscriptsOk, SummariesOk, TxsOk, TokensOk;
    match event
    case EgressStarted(info) => if info.Some? { KeepStartRecording(s, info.value, now); }
    case EgressEnded(info) =>
      if info.Some? && info.value.complete {
        OpenEndedTx(s, info.value, now, slot, redisOk);
      }
    case RoomStarted(_) =>
    case RoomFinished(_) =>
    case ParticipantJoined(_, _) =>
    case ParticipantLeft(_, _) =>
    case OtherEvent =>
  }

  lemma KeepSummary(s: State, work: Work, e: EgressId, body: string, now: int)
    requires Inv(s) && work.SummarizeWork? && e in s.transcripts
    ensures Inv(StoreSummary(s, work, s.transcripts[e], body, now))
  {
    hide RecordingsOk, TranscriptsOk, TxsOk, TokensOk, InRoom, HasId;
    IdFacts(s.transcripts, 0);
  }

  /** Every step keeps the invariant. */
  lemma KeepNext(s: State, e: Step)
    requires Inv(s)
    ensures Inv(Next(s, e))
  {
    if Enabled(s, e) {
      match e
      case CreateRoom(_, _) =>
      case Receive(eid, _) =>
        hide RecordingsOk, TranscriptsOk, SummariesOk, TxsOk, TokensOk;
      case Dispatch(eid, now, slot, dbOk, redisOk) =>
        hide RecordingsOk, TranscriptsOk, SummariesOk, TxsOk, TokensOk;
        var s1 := s.(inbox := s.inbox - {eid}, handled := s.handled + [eid]);
        assert Inv(s1);
        if dbOk {
          KeepHandle(s1, s.inbox[eid], now, slot, redisOk);
        }
      case Forget(eid) =>
        hide RecordingsOk, TranscriptsOk, SummariesOk, TxsOk, TokensOk;
      case CommitTx(slot) =>
        KeepCommit(s, slot);
      case RollbackTx(slot) =>
        hide RecordingsOk, TranscriptsOk, SummariesOk, TokensOk, InboxOk;
      case RunTranscribe(work, slot, text, now, redisOk) => KeepTranscribe(s, work, slot, text, now, redisOk);
      case RunSummarize(work, egress, body, now) => KeepSummary(s, work, egress, body, now);
    }
  }

  lemma {:induction false} KeepExec(s: State, schedule: seq<Step>)
    requires Inv(s)
    ensures Inv(Exec(s, schedule))
    decreases |schedule|
  {
    hide Inv;
    if schedule != [] {
      KeepNext(s, schedule[0]);
      KeepExec(Next(s, schedule[0]), schedule[1..]);
    }
  }
}
