/** The webhook, transcript and summary handlers as they run one at a time, changing the tables in
    place. Each is proved to take the machine's steps. */
module Database {
  import opened Jobs
  import Rooms
  import opened Pipeline
  import opened PipelineTheorems
  import PipelineRuns
  import PipelineTables

  /** Storing an event and dispatching it, from a state with no other event in hand. */
  lemma WebhookSteps(s: State, d: PipelineRuns.Delivery)
    requires d.stored && d.eid !in s.events && s.inbox == map[] && s.txs == map[]
    ensures var s1 := s.(events := s.events + {d.eid}, handled := s.handled + [d.eid]);
      var s2 := if d.dbOk then Handle(s1, d.event, d.now, d.slot, d.redisOk) else s1;
      PipelineRuns.HandleWebhook(s, d) == Next(s2, if d.commits then CommitTx(d.slot) else RollbackTx(d.slot))
  {
    var steps := PipelineRuns.HandleSteps(d);
    var a := Next(s, steps[0]);
    var b := Next(a, steps[1]);
    assert a.inbox == map[d.eid := d.event] && a.inbox - {d.eid} == map[];
    assert Enabled(a, steps[1]);
    assert steps == [steps[0], steps[1], steps[2]];
    hide Next, Handle;
    assert steps[1..] == [steps[1], steps[2]] && [steps[1], steps[2]][1..] == [steps[2]];
    assert Exec(s, steps) == Exec(a, [steps[1], steps[2]]);
    assert Exec(a, [steps[1], steps[2]]) == Exec(b, [steps[2]]);
    assert Exec(b, [steps[2]]) == Next(b, steps[2]);
  }

  /** The two ends of a transaction that nothing interleaves with. */
  lemma EndOfTx(s: State, slot: nat, x: Tx, redisOk: bool)
    requires s.txs == map[]
    ensures var tokens := if redisOk then s.tokens + {x.work} else s.tokens;
      && Next(OpenTx(s, slot, x, redisOk), RollbackTx(slot)) == s.(tokens := tokens)
      && Next(OpenTx(s, slot, x, redisOk), CommitTx(slot)) ==
           s.(tokens := tokens, jobRows := s.jobRows + [x.work],
              recordings := if x.recording.Some? then s.recordings[x.recording.value.0 := x.recording.value.1]
                  else s.recordings,
              transcripts := if x.transcript.Some? then s.transcripts[x.transcript.value.0 := x.transcript.value.1]
                  else s.transcripts)
  {
    var s1 := OpenTx(s, slot, x, redisOk);
    assert s1.txs - {slot} == map[];
    assert Next(s1, CommitTx(slot)) == DoCommit(s1, slot);
  }

  lemma TranscriptSteps(s: State, work: Work, text: string, now: int, slot: nat, redisOk: bool)
    requires s.txs == map[] && work.TranscribeWork? && work.egress in s.recordings
    ensures var x := TranscriptTx(s, work, text, now);
      var s1 := DoTranscribe(s, work, slot, text, now, redisOk);
      var tokens := if redisOk then s.tokens + {x.work} else s.tokens;
      && Next(s1, RollbackTx(slot)) == s.(tokens := tokens, nextTranscript := s.nextTranscript + 1)
      && Next(s1, CommitTx(slot)) ==
          s.(tokens := tokens, nextTranscript := s.nextTranscript + 1, jobRows := s.jobRows + [x.work],
                                        transcripts := s.transcripts[work.egress := x.transcript.value.1])
  {
    var x := TranscriptTx(s, work, text, now);
    assert x.recording == None && x.transcript.Some? && x.transcript.value.0 == work.egress;
    assert DoTranscribe(s, work, slot, text, now, redisOk) ==
        OpenTx(s.(nextTranscript := s.nextTranscript + 1), slot, x, redisOk);
    EndOfTx(s.(nextTranscript := s.nextTranscript + 1), slot, x, redisOk);
    hide Next, TranscriptTx, DoTranscribe, OpenTx;
  }

  class Database {
    var events: set<EventId>
    var rooms: map<Name, Rooms.Room>
    var attendance: map<(Name, string), Attendance>
    var recordings: map<EgressId, Recording>
    var transcripts: map<EgressId, Transcript>
    var summaries: map<nat, Summary>
    var jobRows: seq<Work>
    var tokens: set<Work>
    var nextRecording: nat
    var nextTranscript: nat
    var nextSummary: nat
    ghost var handled: seq<EventId>

    /** Between calls no event is in hand and no transaction is open. */
    ghost function View(): State
      reads this
    {
      State(events, map[], handled, rooms, attendance, recordings, transcripts, summaries, jobRows, tokens, map[],
            nextRecording, nextTranscript, nextSummary)
    }

    ghost predicate Valid()
      reads this
    {
      Inv(View())
    }

    constructor ()
      ensures Valid() && View() == Empty
    {
      events, rooms, attendance, recordings, transcripts, summaries := {}, map[], map[], map[], map[], map[];
      jobRows, tokens, handled := [], {}, [];
      nextRecording, nextTranscript, nextSummary := 1, 1, 1;
    }

    // ---- webhooks/handler.go ----

    /** INSERT ... ON CONFLICT (event_id) DO NOTHING; reports whether a row was inserted. */
    method InsertWebhookEvent(eid: EventId) returns (inserted: bool)
      modifies `events
      ensures inserted <==> eid !in old(events)
      ensures events == old(events) + {eid}
    {
      inserted := eid !in events;
      if inserted {
        events := events + {eid};
      }
    }

    method HandleRoomStarted(room: Option<Name>, now: int, dbOk: bool) returns (ok: bool)
      modifies `rooms
      ensures ok <==> room.Some? && dbOk
      ensures rooms == if dbOk then RoomUpdated(old(rooms), room, Rooms.Started(now)) else old(rooms)
    {
      if room.None? || !dbOk {
        return false;
      }
      if room.value in rooms && rooms[room.value].status == Rooms.Draft {
        rooms := rooms[room.value := rooms[room.value].(status := Rooms.Live, startedAt := Some(now))];
      }
      ok := true;
    }

    method HandleRoomFinished(room: Option<Name>, now: int, dbOk: bool) returns (ok: bool)
      modifies `rooms
      ensures ok <==> room.Some? && dbOk
      ensures rooms == if dbOk then RoomUpdated(old(rooms), room, Rooms.Finished(now)) else old(rooms)
    {
      if room.None? || !dbOk {
        return false;
      }
      if room.value in rooms && rooms[room.value].status != Rooms.Ended {
        rooms := rooms[room.value := rooms[room.value].(status := Rooms.Ended, endedAt := Some(now))];
      }
      ok := true;
    }

    method HandleParticipantJoined(room: Option<Name>, who: Option<Person>, now: int, dbOk: bool) returns (ok: bool)
      modifies `attendance
      ensures ok <==> room.Some? && who.Some? && dbOk
      ensures attendance == if dbOk then Joined(old(attendance), room, who, now) else old(attendance)
    {
      if room.None? || who.None? || !dbOk {
        return false;
      }
      var key := (room.value, who.value.identity);
      var row := if key in attendance then attendance[key] else Attendance(who.value.display, None, None);
      attendance := attendance[key := row.(joinedAt := Some(now), leftAt := None)];
      ok := true;
    }

    method HandleParticipantLeft(room: Option<Name>, who: Option<Person>, now: int, dbOk: bool) returns (ok: bool)
      modifies `attendance
      ensures ok <==> room.Some? && who.Some? && dbOk
      ensures attendance == if dbOk then Left(old(attendance), room, who, now) else old(attendance)
    {
      if room.None? || who.None? || !dbOk {
        return false;
      }
      var key := (room.value, who.value.identity);
      var row := if key in attendance then attendance[key] else Attendance(who.value.display, None, None);
      attendance := attendance[key := row.(leftAt := Some(now))];
      ok := true;
    }

    method HandleEgressStarted(info: Option<EgressInfo>, now: int, dbOk: bool) returns (ok: bool)
      modifies `recordings, `nextRecording
      ensures ok <==> info.Some? && info.value.room != "" && info.value.egress != "" && dbOk
      ensures View() == if dbOk && info.Some? then StartRecording(old(View()), info.value, now) else old(View())
    {
      if info.None? || info.value.room == "" || info.value.egress == "" || !dbOk {
        return false;
      }
      if info.value.egress !in recordings {
        recordings := recordings[info.value.egress :=
            Recording(nextRecording, info.value.room, InProgress, None, 0, 0, now, None)];
      }
      nextRecording := nextRecording + 1;
      ok := true;
    }

    /** The job row joins the caller's transaction; the token is pushed at once. */
    method EnqueueTx(work: Work, redisOk: bool)
      modifies `tokens
      ensures tokens == if redisOk then old(tokens) + {work} else old(tokens)
    {
      if redisOk {
        tokens := tokens + {work};
      }
    }

    /** extractEgressFileInfo: the file, else the segment playlist, else nothing. */
    method ExtractEgressFileInfo(info: EgressInfo) returns (url: string, size: int, secs: int)
      ensures (url, size, secs) == EgressFile(info)
    {
      if info.file.Some? {
        return info.file.value.location, info.file.value.size, WholeSeconds(info.file.value.durationNanos);
      }
      if info.segments.Some? {
        return info.segments.value.location, info.segments.value.size, WholeSeconds(info.segments.value.durationNanos);
      }
      return "", 0, 0;
    }

    /** The recording update and the transcribe row commit together or not at all. */
    method HandleEgressEnded(info: Option<EgressInfo>, now: int, slot: nat, dbOk: bool, redisOk: bool, commits: bool)
        returns (ok: bool)
      modifies `recordings, `jobRows, `tokens
      ensures ok <==> info.Some? && (info.value.complete ==> dbOk && commits)
      ensures View() == if info.None? || !info.value.complete || !dbOk then old(View())
                        else Next(OpenTx(old(View()), slot, EndedTx(old(View()), info.value, now), redisOk),
                                  if commits then CommitTx(slot) else RollbackTx(slot))
    {
      if info.None? {
        return false;
      }
      if !info.value.complete {
        return true;
      }
      var url, size, secs := ExtractEgressFileInfo(info.value);
      if !dbOk {
        return false;
      }
      EndOfTx(View(), slot, EndedTx(View(), info.value, now), redisOk);
      var updated := recordings;
      var egress := info.value.egress;
      if egress in recordings && recordings[egress].status == InProgress {
        updated := recordings[egress := recordings[egress].(status := Complete, fileURL := Some(url), sizeBytes := size,
                                                            durationSec := secs, completedAt := Some(now))];
      }
      var work := TranscribeWork(info.value.room, egress, url);
      hide Next, EgressFile;
      EnqueueTx(work, redisOk);
      if !commits {
        return false;
      }
      recordings, jobRows := updated, jobRows + [work];
      ok := true;
    }

    /** dispatch; an unknown event type is logged and accepted. */
    method Dispatch(event: Event, now: int, slot: nat, dbOk: bool, redisOk: bool, commits: bool) returns (ok: bool)
      modifies this
      ensures events == old(events) && handled == old(handled)
      ensures dbOk ==> PipelineTables.RoomsAfter(old(rooms), rooms, event, now)
      ensures dbOk ==> PipelineTables.AttendanceAfter(old(attendance), attendance, event, now)
      ensures !dbOk ==> rooms == old(rooms) && attendance == old(attendance)
      ensures View() == Next(if dbOk then Handle(old(View()), event, now, slot, redisOk) else old(View()),
                             if commits then CommitTx(slot) else RollbackTx(slot))
    {
      match event
      case RoomStarted(room) => ok := HandleRoomStarted(room, now, dbOk);
      case RoomFinished(room) => ok := HandleRoomFinished(room, now, dbOk);
      case ParticipantJoined(room, who) => ok := HandleParticipantJoined(room, who, now, dbOk);
      case ParticipantLeft(room, who) => ok := HandleParticipantLeft(room, who, now, dbOk);
      case EgressStarted(info) => ok := HandleEgressStarted(info, now, dbOk);
      case EgressEnded(info) => ok := HandleEgressEnded(info, now, slot, dbOk, redisOk, commits);
      case OtherEvent => ok := true;
    }

    /** handleWebhook on a verified event: 500 if the event could not be stored, else 200 whatever
        its handler says. */
    method HandleWebhook(d: PipelineRuns.Delivery) returns (code: int)
      requires Valid()
      modifies this
      ensures Valid() && View() == PipelineRuns.HandleWebhook(old(View()), d)
      ensures code == if d.stored then 200 else 500
      ensures d.stored && d.eid !in old(events) && d.dbOk ==>
        PipelineTables.RoomsAfter(old(rooms), rooms, d.event, d.now)
        && PipelineTables.AttendanceAfter(old(attendance), attendance, d.event, d.now)
    {
      if !d.stored {
        return 500;
      }
      ghost var before := View();
      var inserted := InsertWebhookEvent(d.eid);
      if !inserted {
        assert View() == before;
        return 200;
      }
      WebhookSteps(before, d);
      KeepExec(before, PipelineRuns.HandleSteps(d));
      handled := handled + [d.eid];
      hide Next, Handle, Inv, PipelineTables.RoomsAfter, PipelineTables.AttendanceAfter;
      var _ := Dispatch(d.event, d.now, d.slot, d.dbOk, d.redisOk, d.commits);
      code := 200;
    }

    // ---- transcripts/service.go ----

    method FetchRecording(egress: EgressId) returns (found: Option<(Recording, string)>)
      ensures found == if egress in recordings
          then Some((recordings[egress], TierName(View(), recordings[egress].room))) else None
    {
      if egress !in recordings {
        return None;
      }
      var rec := recordings[egress];
      var tier := if rec.room in rooms && rooms[rec.room].tier == Rooms.Pro then "pro" else "guest";
      found := Some((rec, tier));
    }

    /** The transcript upsert and the summarize row commit together or not at all. */
    method PersistTranscript(rec: Recording, tier: string, work: Work, text: string, now: int, slot: nat, dbOk: bool,
            redisOk: bool, commits: bool)
        returns (ok: bool)
      requires work.TranscribeWork? && work.egress in recordings
      requires rec == recordings[work.egress] && tier == TierName(View(), rec.room)
      modifies `transcripts, `nextTranscript, `jobRows, `tokens
      ensures ok <==> dbOk && commits
      ensures View() == if !dbOk then old(View())
                        else Next(DoTranscribe(old(View()), work, slot, text, now, redisOk),
                                  if commits then CommitTx(slot) else RollbackTx(slot))
    {
      if !dbOk {
        return false;
      }
      ghost var before := View();
      TranscriptSteps(before, work, text, now, slot, redisOk);
      var row := Transcript(nextTranscript, work.room, rec.id, text, now);
      if work.egress in transcripts {
        row := transcripts[work.egress].(text := text);
      }
      var summarize := SummarizeWork(work.room, row.id, tier);
      assert TranscriptTx(before, work, text, now) == Tx(None, Some((work.egress, row)), summarize);
      hide Next, DoTranscribe, TranscriptTx, TierName;
      nextTranscript := nextTranscript + 1;
      EnqueueTx(summarize, redisOk);
      if !commits {
        return false;
      }
      transcripts, jobRows := transcripts[work.egress := row], jobRows + [summarize];
      ok := true;
    }

    /** The transcribe handler: a payload that does not parse is swallowed, a missing recording, a
        failed presign and a failed transcription are errors that change nothing, and an empty
        transcript is persisted like any other. */
    method TranscribeHandle(payload: Option<Work>, presignOk: bool, parsed: Option<string>, now: int, slot: nat,
                            dbOk: bool, redisOk: bool, commits: bool) returns (ok: bool)
      requires Valid() && (payload.Some? ==> payload.value.TranscribeWork?)
      modifies this
      ensures Valid()
      ensures ok <==>
        (payload.Some? ==> payload.value.egress in old(recordings) && presignOk && parsed.Some? && dbOk && commits)
      ensures View() ==
        if payload.Some? && payload.value.egress in old(recordings) && presignOk && parsed.Some? && dbOk then
          Next(DoTranscribe(old(View()), payload.value, slot, parsed.value, now, redisOk),
            if commits then CommitTx(slot) else RollbackTx(slot))
        else old(View())
    {
      if payload.None? {
        return true;
      }
      var found := FetchRecording(payload.value.egress);
      if found.None? || !presignOk || parsed.None? {
        return false;
      }
      ghost var before := View();
      KeepTranscribe(before, payload.value, slot, parsed.value, now, redisOk);
      ghost var during := DoTranscribe(before, payload.value, slot, parsed.value, now, redisOk);
      KeepNext(during, if commits then CommitTx(slot) else RollbackTx(slot));
      hide Next, DoTranscribe, TierName, Inv;
      ok := PersistTranscript(found.value.0, found.value.1, payload.value, parsed.value, now, slot, dbOk, redisOk,
          commits);
    }

    // ---- summaries/service.go ----

    /** SELECT ... WHERE id = $1. */
    method FetchTranscript(id: nat) returns (found: Option<Transcript>)
      ensures found.Some? ==> found.value.id == id && exists e :: e in transcripts && transcripts[e] == found.value
      ensures found.None? ==> forall e | e in transcripts :: transcripts[e].id != id
    {
      if e :| e in transcripts && transcripts[e].id == id {
        return Some(transcripts[e]);
      }
      found := None;
    }

    method PersistSummary(tr: Transcript, work: Work, body: string, now: int, dbOk: bool) returns (ok: bool)
      requires work.SummarizeWork?
      modifies `summaries, `nextSummary
      ensures ok <==> dbOk
      ensures View() == if dbOk then StoreSummary(old(View()), work, tr, body, now) else old(View())
      ensures dbOk ==>
        && summaries.Keys == old(summaries).Keys + {tr.id} && summaries[tr.id].body == body
        && (tr.id in old(summaries) ==> summaries[tr.id] == old(summaries)[tr.id].(body := body))
        && (tr.id !in old(summaries) ==>
              summaries[tr.id].category == work.category && summaries[tr.id].room == tr.room
              && summaries[tr.id].createdAt == now)
    {
      if !dbOk {
        return false;
      }
      if tr.id in summaries {
        summaries := summaries[tr.id := summaries[tr.id].(body := body)];
      } else {
        summaries := summaries[tr.id := Summary(nextSummary, tr.room, work.category, body, now)];
      }
      nextSummary := nextSummary + 1;
      ok := true;
    }

    /** The summarize handler: a transcript that is not there is an error to be retried, an empty one
        is done with no summary, and a summary is stored under the transcript's id and room. */
    method SummarizeHandle(payload: Option<Work>, output: Option<string>, now: int, dbOk: bool) returns (ok: bool)
      requires Valid() && (payload.Some? ==> payload.value.SummarizeWork?)
      modifies this
      ensures Valid()
      ensures payload.Some? && !HasId(old(transcripts), payload.value.transcriptId) ==> !ok && View() == old(View())
      ensures forall e | e in old(transcripts) ::
          payload.Some? && old(transcripts)[e].id == payload.value.transcriptId ==>
        if old(transcripts)[e].text == "" then ok && View() == old(View())
        else && (ok <==> output.Some? && dbOk)
             && View() == if ok then StoreSummary(old(View()), payload.value, old(transcripts)[e], output.value, now)
                 else old(View())
      ensures payload.None? ==> ok && View() == old(View())
    {
      if payload.None? {
        return true;
      }
      ghost var before := View();
      var found := FetchTranscript(payload.value.transcriptId);
      if found.None? {
        IdFacts(transcripts, payload.value.transcriptId);
        hide Inv, HasId;
        return false;
      }
      ghost var e :| e in transcripts && transcripts[e] == found.value;
      assert forall f | f in transcripts && transcripts[f].id == found.value.id :: f == e;
      assert HasId(transcripts, payload.value.transcriptId);
      if found.value.text == "" {
        return true;
      }
      if output.None? {
        return false;
      }
      KeepSummary(before, payload.value, e, output.value, now);
      hide Inv, HasId;
      ok := PersistSummary(found.value, payload.value, output.value, now, dbOk);
    }
  }
}
