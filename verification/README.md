# Recallo: verified models of the queue, the pipeline and the hub

Recallo turns LiveKit meetings into transcripts and summaries and carries a small chat. This project
models the parts of its backend where several processes, two stores and a clock meet, and proves what
they guarantee together.

**The job queue** (`Jobs`, `QueueMachine`, `QueueInvariant`, `QueueTokens`, `QueueTheorems`, `QueueFairness`,
`QueueProgress`, `QueueAgreement`, `QueuePunctual`, `QueueRaces`, `WorkerPool`). A job is a Postgres row and a
Redis token. The machine has one step for every effect the code has on either store: insert, push, commit,
rollback, pop, mark running, handler success, handler failure with its ZADD or dead-letter push, the later row
update, snapshot of the delayed set, ZREM, re-push, a tick of the clock, and crashes. Every reply of Redis and
Postgres is chosen by the schedule, and a BRPOP or ZREM may also have been carried out while its reply is
lost, so each theorem speaks of all interleavings of any number of enqueuers, workers and schedulers and of
all these faults. `WorkerPool` is the imperative form: methods that change the lists, the sorted set and the
rows in place, each proved to take exactly the machine's steps.

The proof rests on a map that gives every pushed id one place and one token, on a journal of the decisions
taken on each job, and on the journal entry each row was last updated from. Tokens only move down a rank, so
the same map gives conservation, bounded retries and bounded movement. With the number of tokens ahead on a
list, and what the worker or scheduler in charge has still to do, the rank also gives liveness: in every fair
infinite run every job comes to its end.

**The pipeline** (`Pipeline`, `PipelineTheorems`, `PipelineRuns`, `PipelineTables`, `Insights`, `Database`).
Webhooks are deduplicated by event id and dispatched in any order; `egress_ended` completes a recording and
enqueues a transcribe job in one transaction; a transcribe run writes a transcript and enqueues a summarize
job in one transaction; a summarize run stores a summary. Transactions are open over several steps with their
row locks, may commit or roll back, and have pushed their token before they do. Pushed work may be run any
number of times. `PipelineTables` tells each table from the events and runs that wrote it. `Insights` derives
the status a client sees, and `Database` holds the handlers as methods over tables.

**Rooms** (`Rooms`): the guarded lifecycle updates, token lifetimes, the one-time extension with overlapping
requests, and the session enforcer.

**The realtime hub** (`Presence`, `PresenceTheorems`, `PresenceStreams`, `Hub`): a map of sets of connections
with bounded channels and the hub's lock, as a machine over whole runs and as classes with object sets.

**Smaller parts**: the transcript chunker and its call structure (`Chunker`), paging (`Paging`), delivery
marks (`Delivery`), canonical conversations (`Conversations`), and arithmetic (`Arith`).

## Where the code is not what it says

The model follows the code.

- Comments promise a reconciler that re-pushes lost tokens and repairs rows (internals/jobs/client.go:34-36,
  internals/webhooks/handler.go:207-208). No code implements one, so a token that is lost stays lost.
- The comment on the backoff starts at 2 s (internals/jobs/worker.go:123-124); the counter is raised before
  the delay is computed, so the first delay is 4 s (`Jobs.BackoffShape`).
- Marking a job running writes `attempts = 0` over the count of earlier failures
  (internals/jobs/worker.go:109-110).
- The Redis push comes before the commit. A worker can pop and finish a job whose row is not there yet, and
  the row then says pending for ever (`QueueRaces.PoppedBeforeCommit`). A rolled back transaction leaves a
  token behind: that of a transcription never finds its transcript
  (`PipelineRuns.StraySummarizeTokensStayDead`), that of an `egress_ended` runs whenever the recording is there
  (`PipelineRuns.StrayTranscribeTokenRuns`) and can transcribe a recording still in progress
  (`PipelineRuns.UnfinishedTranscript`).
- An `egress_ended` handled before its `egress_started` completes nothing, and the recording stays in progress
  for good (`PipelineRuns.EndedCompletesExactlyWhen`, `PipelineRuns.EarlyEndNeverCompletes`,
  `PipelineRuns.EarlyEndHappens`).
- A failed run re-queues its token before it updates its row. If that update is late, it overwrites what a
  later run wrote (`QueueRaces.LateWrite`). Row and token agree throughout a run exactly if every step of it is
  punctual (`QueuePunctual.AgreementExactlyWhenPunctual`).
- A comment has a late joining clear the leaving of an overtaken event (internals/webhooks/handler.go:138). It
  does, and so a participant whose leaving was delivered first is listed as present
  (`PipelineRuns.AttendanceFollowsTheLastEvent`).
- `ExtendGuestSession` checks and sets the flag in two statements. A room is extended more than once exactly if
  two requests overlap and the updates of both succeed (`Rooms.ExtendedTwiceExactlyWhen`), and that happens
  (`Rooms.OverlapExtendsTwice`). After an extension no new token is issued for the extra minutes, because
  the guard uses the configured length and not the row's (`Rooms.TokenExactlyWhen`).
- A token's time to live is computed before it is minted, and a room may start between the reading of its row
  and the minting. Such a token outlives the enforcer's deadline and the buffer by just that delay
  (`Rooms.ExpiryExactly`, `Rooms.LateTokensOutlive`).
- The page offset is computed from limit + 1, the number asked for to see whether there is a next page.
  Following the pages skips one message after each page (`Paging.NeverShownExactly`). The offset is an int64
  that a huge page number wraps around (`Paging.HugePageShowsTheFirst`).
- The stage shown to a client can fall back when a room is recorded a second time
  (`Insights.FallsExactlyWhen`).
- A connection is registered and sent the list of users by two operations of the hub. A shutdown in between
  closes its channel, and the send panics (`PresenceTheorems.ShutdownOvertakesGreeting`). The send blocks under
  the hub's lock before anything reads the channel, so a channel that is full by then stops the hub for good
  (`PresenceTheorems.StalledExactlyWhen`, `PresenceTheorems.FloodStalls`).
- Two users who ask for each other at once may both miss the conversation. The unique key keeps one row, and
  the other request is answered with an error (`Conversations.FailedExactlyWhenOvertaken`,
  `Conversations.TwoJoinsRace`).

## Model

| member | source | states |
|---|---|---|
| `Jobs.BackoffShape` | internals/jobs/worker.go:125-138 | the delay after the k-th failure is min(2^(k+1), 512) seconds for every k, between 4 and 512, and never decreases |
| `Jobs.TotalBackoffClosedForm` | internals/jobs/worker.go:125-138 | n retries wait 2^(n+2)-4 seconds in all up to the eighth, and 512 more for each one after |
| `Jobs.ScheduleOfFiveRuns` | internals/jobs/client.go:60-69 | with five allowed runs the four retries wait exactly 60 seconds |
| `QueueTokens.FailureDelays` | internals/jobs/worker.go:125-154 | a failed run that is not the last adds exactly one member to the delayed set: the same job, pending, one attempt more, due after the capped doubling delay for that attempt, which the row update is to write too; the last one puts the job, failed, at the head of the dead-letter list |
| `QueueTokens.RetriesWait` | internals/jobs/worker.go:125-140 | over any run a token with k failures is due no earlier than the sum of its k delays less k - 1 seconds after the job was created, its next run starts no more than a second before that, and a dead-lettered job has been given 57 seconds |
| `QueueTokens.EnqueuedJobIsNew` | internals/jobs/client.go:54-93 | enqueueing puts a token at the head of the list of its type and, on commit, a row: this id, type and payload, pending, no attempts, five runs, created and due now |
| `QueueTokens.EnqueuedJobIsKept` | internals/jobs/client.go:54-93 | over any run after that the token, wherever it is, and the row keep type, payload, time of creation and number of runs |
| `QueueInvariant.KeepNext` | internals/jobs/worker.go:70-222 | every step of enqueuers, workers, drainers and crashes keeps the invariant, and a token that moves goes down in rank |
| `QueueInvariant.KeepExec` | internals/jobs/worker.go:70-222 | so does every schedule, from any state that satisfies it |
| `QueueTheorems.Conservation` | internals/jobs/worker.go:70-199 | after any schedule an id was pushed iff one token for it exists, that token is in exactly one place, and no list holds it twice; so no two workers ever run the same job |
| `QueueTheorems.LostExactlyBy` | internals/jobs/worker.go:102-199 | in a reachable state a step loses a token iff it is a failed ZADD, dead-letter push or re-push, a BRPOP or ZREM whose reply is lost, a job type nobody handles, or the crash of its holder |
| `QueueTheorems.BoundedRetries` | internals/jobs/worker.go:102-154 | a token's attempts count the failed runs of its job; fewer than MaxRetries while it can still run, exactly MaxRetries in the dead-letter list |
| `QueueTheorems.HandledAtMostMaxRetries` | internals/jobs/worker.go:125-132 | no schedule enters a job's handler more than MaxRetries times |
| `QueueTheorems.BoundedMoves` | internals/jobs/worker.go:70-199 | a token changes place at most 24 times in any schedule, however long |
| `QueueTheorems.QuiescentMeansSettled` | internals/jobs/worker.go:70-199 | when no worker or drainer has a step left and nothing waits, every pushed job is done, in the dead-letter list, or was lost |
| `QueueTheorems.FaultlessRunsFinish` | internals/jobs/worker.go:70-199 | if no step of the run drops a token and the run has come to rest, every pushed job has completed, or is in the dead-letter list after exactly MaxRetries runs |
| `QueueFairness.FairRunsEndEveryJob` | internals/jobs/worker.go:70-199 | in every infinite run that drops no token, in which no worker and no scheduler rests for ever when it could go on, time goes on, and one scheduler gets no error for a ZREM and does not crash: every job pushed at any time comes to its end, completed or dead-lettered after MaxRetries runs, for good |
| `QueueProgress.SomeRunIsFair` | internals/jobs/worker.go:70-199 | there is such a run from every state with a scheduler, and a worker and a handler for each type, whatever the handlers return |
| `QueueProgress.EveryJobCanFinish` | internals/jobs/worker.go:70-199 | so from every such state, whatever the handlers return, a finite continuation with good replies only ends any pushed job that was not lost before |
| `QueueTheorems.SnapshotsAreExact` | internals/jobs/worker.go:174-182 | a waiting job is in a snapshot of the delayed set iff its whole second has come |
| `QueueTheorems.NeverASecondEarly` | internals/jobs/worker.go:133-140 | by the one clock of the model, a token on a ready list, in a hand or in a handler is less than a second early, and lies on the list of its own type |
| `QueueTheorems.OneDrainerWins` | internals/jobs/worker.go:184-196 | in every interleaving, whatever snapshots the schedulers hold, a waiting member is removed by exactly one ZREM if it has left the delayed set, and by none if it has not |
| `QueueTheorems.RemovedIsPushedOnce` | internals/jobs/worker.go:184-196 | each removal is matched by one push to a ready list, except while a scheduler holds the member or where it was dropped: an equation of counts over every run |
| `QueueTheorems.WalkedMembersAreGone` | internals/jobs/worker.go:174-199 | a scheduler that has walked past a due member with good replies leaves it out of the delayed set, removed exactly once and, if nothing was dropped and nobody carries it, pushed exactly once, whoever else drains |
| `QueueAgreement.PendingAgreement` | internals/jobs/worker.go:125-143 | for a ready or delayed token the row agrees with it in status and attempts iff the row was last updated from the latest decision |
| `QueueAgreement.SettledAgreement` | internals/jobs/worker.go:102-154 | for a completed or dead-lettered token the row shows the outcome and the attempts iff it was last updated from the latest decision |
| `QueueAgreement.StatusTellsPlace` | internals/jobs/worker.go:102-154 | if the row is up to date its status tells where the token is, and conversely, up to the tokens that were lost; a running row then has 0 attempts whatever the token carries |
| `QueueAgreement.OrderlyMeansInStep` | internals/jobs/worker.go:102-222 | if every update finds its committed row and succeeds, no handler starts while an update for its job is outstanding, and nobody crashes with an update in hand, every row without a writer is up to date, over any run |
| `QueuePunctual.InStepExactlyWhenPunctual` | internals/jobs/worker.go:102-222 | a step from a reachable state with every settled row up to date keeps them so iff it is punctual: the running update arrives, the last update in hand carries the latest decision or the row has it, no commit comes after its job was decided on unless an update is to come |
| `QueuePunctual.AgreementExactlyWhenPunctual` | internals/jobs/worker.go:102-222 | over a whole run the settled rows are up to date at every moment iff every step is punctual |
| `QueuePunctual.LatestUpdateFitsToken` | internals/jobs/worker.go:102-154 | for a token that was not lost, the update in a worker's hand is the latest, and its arrival punctual, iff the status and attempts it writes are those that fit the place where the token now lies |
| `QueueRaces.PoppedBeforeCommit` | internals/jobs/client.go:54-93 | a reachable state with every reply in order in which a completed job's row reads pending, because the push came before the commit |
| `QueueRaces.LateWrite` | internals/jobs/worker.go:133-142 | a reachable state, with rows committed first, every reply in order and no crash, in which a completed job reads pending because a late update landed last |
| `WorkerPool.WorkerPool.SetStatus` | internals/jobs/worker.go:203-222 | updates status and attempts of a committed row, next_run_at only when one is given, nothing else of the row, and nothing at all if the row or the reply is missing |
| `WorkerPool.WorkerPool.EnqueueTx` | internals/jobs/client.go:54-93 | takes the insert and push steps of the machine, in that order, inside an open transaction |
| `WorkerPool.WorkerPool.Enqueue` | internals/jobs/client.go:37-48 | takes insert, push and commit |
| `WorkerPool.WorkerPool.HandleFailure` | internals/jobs/worker.go:125-154 | takes the fail step and then the row update: a retry due after the capped doubling delay in the delayed set and in the row, or the dead-letter list |
| `WorkerPool.WorkerPool.Process` | internals/jobs/worker.go:102-121 | takes mark running, the handler's outcome and the row update, or drops a job nobody handles |
| `WorkerPool.WorkerPool.WorkerTurn` | internals/jobs/worker.go:70-99 | takes one pop from the far end of the worker's own list and processes it, or nothing |
| `WorkerPool.WorkerPool.DrainDelayed` | internals/jobs/worker.go:174-199 | takes one snapshot and then one claim and re-push per member |
| `WorkerPool.DrainMovesWhatIsDue` | internals/jobs/worker.go:174-199 | with good replies a drain moves every member of its snapshot to the list of its type, leaves the others and disturbs no ready token |
| `Rooms.LifecycleClosedForm` | internals/webhooks/handler.go:103-135 | after any sequence of started and finished events, the room row in closed form |
| `Rooms.StatusIgnoresOrder` | internals/webhooks/handler.go:103-135 | the status depends only on which kinds of events arrived, not on order or repeats |
| `Rooms.EndsAfterStart` | internals/webhooks/handler.go:103-135 | with a clock that does not go back, ended_at is not before started_at |
| `Rooms.TimesAreWrittenOnce` | internals/webhooks/handler.go:103-135 | later events never change a time that was written |
| `Rooms.TokenExactlyWhen` | internals/rooms/service.go:126-213 | exactly who gets a token and who is refused for which reason, under a clock that does not go back; the first expiry guard adds nothing to the second; between the configured and the extended deadline the room lives on but no token is issued |
| `Rooms.ExpiryExactly` | internals/rooms/service.go:155-181 | a token for a draft or live room expires at the configured deadline plus 60 s, moved by its lateness alone, whatever follows; so it outlives the enforcer's deadline plus 60 s iff the lateness exceeds the row's minutes beyond the configured ones, and the enforcer has the room before the 60 s begin iff it does not fall short of them |
| `Rooms.SessionBoundExactly` | internals/rooms/service.go:133-181 | that bound for every new room, over any run of events and overlapping extensions before and after the issue; in a room extended once a token that is not late keeps it iff the configured length is at most an hour |
| `Rooms.LateTokensOutlive` | internals/rooms/service.go:155-181 | for every delay between the two clock reads there is a room whose token outlives its deadline and buffer by exactly that delay |
| `Rooms.DefaultSessionBound` | internals/rooms/service.go:249-268 | with the configured length equal to the column default no token, draft or live, outlives the final deadline plus 60 s by more than its lateness, whatever events and extensions come before and after |
| `Rooms.DurationCountsWrites` | internals/rooms/service.go:455-464 | in any interleaving the row's duration is the default plus half the configured length per write, and the flag says whether there was one |
| `Rooms.ExtendedTwiceExactlyWhen` | internals/rooms/service.go:249-268 | from a new room, in any interleaving with failing updates, the room is extended more than once iff two requests are past the guards together and both updates succeed; otherwise the duration has one extension iff the flag is set |
| `Rooms.OverlapExtendsTwice` | internals/rooms/service.go:249-268 | from a new room the run of two reads and two writes extends twice |
| `Rooms.RoomStore.ExtendGuestSession` | internals/rooms/service.go:249-268 | exactly which requests are refused; alone, a request takes the two steps of the interleaved model and changes nothing else |
| `Rooms.RoomStore.MarkExtensionUsed` | internals/rooms/service.go:455-464 | sets the flag and adds the minutes without looking at the flag |
| `Rooms.RoomStore.InsertRoom` | internals/rooms/service.go:316-345 | a new draft room with the column defaults |
| `Rooms.EnforceAll` | internals/rooms/session_enforcer.go:53-67 | one tick deletes exactly those fetched rooms that have not ended meanwhile and that LiveKit answers for, whatever fails for the others |
| `PipelineTheorems.KeepNext` | internals/webhooks/handler.go:44-294 | every step of webhook handlers, transactions and workers keeps the invariant on tables, locks, sequences and dedup |
| `PipelineTheorems.KeepExec` | internals/webhooks/handler.go:44-294 | so does every run |
| `PipelineRuns.CommittedTogether` | internals/transcripts/service.go:118-169 | after any run a completed recording has a committed transcribe row with its file, and a transcript exists iff a committed summarize row names its id |
| `PipelineRuns.RollbackLeavesOnlyTheToken` | internals/webhooks/handler.go:222-261 | a rolled back egress_ended leaves the whole state as it was except for the event and, if the push worked, the token |
| `PipelineRuns.RowsKeepIdentity` | internals/transcripts/service.go:118-169 | in any continuation a row keeps its ids, rooms and times; a completed recording is final, a transcript changes only its text, a summary only its body |
| `PipelineRuns.SummariesFollowTranscripts` | internals/summaries/service.go:130-152 | every summary belongs to exactly one transcript, which exists, in the same room |
| `PipelineRuns.StraySummarizeTokensStayDead` | internals/transcripts/service.go:128-168 | after a rolled back transcription no later run of its summarize token ever finds a transcript |
| `PipelineRuns.StrayTranscribeTokenRuns` | internals/webhooks/handler.go:247-257 | after a rolled back egress_ended its token can be run iff it was pushed or was there, the recording is there and its transcript is not locked; the run leaves the recording as it was and stores the transcript |
| `PipelineRuns.UnfinishedTranscript` | internals/webhooks/handler.go:222-261 | for every room and egress a reachable state has a transcript of a recording that is still in progress |
| `PipelineRuns.EndedCompletesExactlyWhen` | internals/webhooks/handler.go:222-238 | whatever happens while its transaction is open, a committed egress_ended leaves its recording complete iff the recording was there when the event was handled, or another event has completed it meanwhile |
| `PipelineRuns.EarlyEndNeverCompletes` | internals/webhooks/handler.go:176-238 | if the only egress_ended of a recording is handled before its egress_started, the recording is not completed, whatever follows |
| `PipelineRuns.EarlyEndHappens` | internals/webhooks/handler.go:176-266 | for every room and egress a reachable state has both events handled, the transcribe row in place and the recording in progress for good |
| `PipelineRuns.AttendanceFollowsTheLastEvent` | internals/webhooks/handler.go:139-172 | after any joins and leavings of a room, one row per person that says they left iff the last event handled was their leaving, with the time of their last joining |
| `PipelineTables.RoomsFollowTheirEvents` | internals/webhooks/handler.go:80-135 | over any run a room is ended iff a room_finished of it was dispatched with its statement succeeding, live iff one of its events was and none was that, with the time of the first event if that was a start and of the first finish |
| `PipelineTables.AttendanceFollowsTheEvents` | internals/webhooks/handler.go:80-172 | over any run a person has a row iff a joining or leaving of theirs was dispatched, with the name of the first, the time of the last joining, and a leaving time iff the last was a leaving |
| `PipelineTables.NothingIsWritten` | internals/webhooks/handler.go:80-261 | unknown events, events without the parts they need, an egress_ended that did not complete and a failed statement leave tables, transactions and tokens as they were |
| `PipelineTables.StartedWritesTheRecording` | internals/webhooks/handler.go:176-198 | a recording in progress under a new id, with the room of the event and the time, unless a name is empty or the egress is known |
| `PipelineTables.EndedWritesTheOutput` | internals/webhooks/handler.go:209-278 | a committed egress_ended adds a transcribe row with the location of the file, else of the playlist, else none; a recording in progress gets that location, its size, its length in whole seconds rounded toward zero and the time, and keeps the rest, whatever happens while the transaction is open |
| `PipelineTables.TranscriptionWritesTheText` | internals/transcripts/service.go:118-169 | a committed transcription writes its text, under a free id with the names of the job if there was no transcript and else nothing but the text, and a summarize row for that transcript with the tier of the recording's room |
| `PipelineTables.SummaryIsStored` | internals/summaries/service.go:101-160 | a summarize run writes its text into the row of its transcript and no other; a row that was there keeps category, room, time and id, a new one has the run's category, the transcript's room, the time and a new id |
| `PipelineTables.SummariesFollowTheRuns` | internals/summaries/service.go:101-160 | over any run a transcript has a summary iff a summarize run of it was stored; the text is that of the last, category and time are those of the first |
| `PipelineRuns.NoEventDispatchedTwice` | internals/webhooks/handler.go:54-72 | no event id is dispatched twice in any interleaving |
| `PipelineRuns.DedupIsFilter` | internals/webhooks/handler.go:44-78 | for every delivery log the final tables, job rows and tokens are those of the first stored delivery of each id |
| `PipelineRuns.InterleavedDedup` | internals/webhooks/handler.go:280-294 | the same when deliveries interleave with each other, with transactions and with workers |
| `Insights.EveryRoomShowsAStage` | internals/insights/handler.go:84-100 | a request has an answer iff the room exists; `Insights.StageTable` says which |
| `Insights.StageTable` | internals/insights/handler.go:84-126 | in every reachable state, for each stage, exactly which rooms show it: completed with a summary, summarizing with a transcript and no summary, then transcribing or recording by a latest recording, and without a recording finalizing or live by the room having ended or not |
| `Insights.RepliesByStage` | internals/insights/handler.go:104-126 | the status that goes with each stage |
| `Insights.FailedIsNeverShown` | internals/insights/handler.go:104-126 | no run ever leads to the failed stage |
| `Insights.LateStagesAreSticky` | internals/insights/handler.go:104-110 | completed is final and summarizing never falls back, over any run |
| `Insights.OneRecordingNeverFalls` | internals/insights/handler.go:104-126 | in a room with at most one recording the rank of the stage never falls, over any run |
| `Insights.FallsExactlyWhen` | internals/insights/handler.go:84-126 | one step lets a room fall back iff nothing of it is transcribed, a latest recording is complete, and the step stores one not older, or another latest one of the same instant stays in progress |
| `Insights.UntiedFallsByRestart` | internals/insights/handler.go:84-126 | where the query has one answer a fall by one step needs a further recording, not older than the others |
| `Insights.TwoRecordingsFallBack` | internals/webhooks/handler.go:176-198 | for any two egress ids a reachable state falls back |
| `Database.Database.InsertWebhookEvent` | internals/webhooks/handler.go:280-294 | stores the id and reports whether it was new |
| `Database.Database.HandleWebhook` | internals/webhooks/handler.go:44-78 | the tables after one delivery are those the machine gives, the columns of rooms and attendance spelled out for each event; 500 only if the event could not be stored |
| `Database.Database.HandleEgressEnded` | internals/webhooks/handler.go:209-266 | opens a transaction with the guarded update and the job row, and commits or rolls back both; a token may stay |
| `Database.Database.HandleEgressStarted` | internals/webhooks/handler.go:176-198 | inserts a recording unless its egress is known; refuses an empty room or egress |
| `Database.Database.HandleParticipantJoined` | internals/webhooks/handler.go:139-154 | upserts attendance with the joining time and clears the leaving time |
| `Database.Database.HandleParticipantLeft` | internals/webhooks/handler.go:157-172 | upserts attendance with the leaving time |
| `Database.Database.TranscribeHandle` | internals/transcripts/service.go:59-114 | succeeds iff the payload is unreadable or recording, presign, transcription and transaction all work; a failure before the transaction changes nothing |
| `Database.Database.PersistTranscript` | internals/transcripts/service.go:118-169 | upserts the transcript and inserts the summarize row together or not at all |
| `Database.Database.SummarizeHandle` | internals/summaries/service.go:46-97 | a missing transcript is an error, an empty one is done with no summary, otherwise the summary is stored under the transcript's id and room |
| `Database.Database.PersistSummary` | internals/summaries/service.go:101-160 | inserts the summary with the job's category and the transcript's room, or rewrites the body of the one that is there |
| `Presence.FirstExactlyWhen` | internals/realtime/hub.go:69-81 | a registration counts as the first iff the user was absent or had this connection as the only one |
| `Presence.RemovedTwice` | internals/realtime/hub.go:100-113 | removing a connection again changes nothing and decides nothing |
| `PresenceTheorems.UnregisteredTwice` | internals/realtime/hub.go:100-121 | the same for the whole hub: no state change and no second offline event |
| `PresenceTheorems.PresenceIsAccurate` | internals/realtime/hub.go:69-121 | over any run, for every user, decisions since the last shutdown alternate starting with online, and the user is in the map iff the last was online; no empty entry, everyone filed under their own user |
| `PresenceTheorems.SendsMeetClosedExactlyWhen` | internals/realtime/hub.go:21-186 | in every run a send meets a closed channel iff it is the list of users for a connection a shutdown has closed since it was registered; broadcasts, targeted sends, errors and shutdowns never do |
| `PresenceTheorems.ShutdownOvertakesGreeting` | internals/routes/websocket.go:81-85 | it happens: connect, shutdown, and the handler panics |
| `PresenceTheorems.OfferedExactlyTargets` | internals/realtime/hub.go:21-67 | a step offers something to exactly the connections it is meant for, except the list of users on a closed or full channel |
| `PresenceStreams.StepOffers` | internals/realtime/hub.go:21-186 | exactly which events every step offers to every connection |
| `PresenceStreams.AnnouncementsAreDecisions` | internals/realtime/hub.go:69-121 | over any run, from connecting on and as long as a connection stays, the online and offline events it is offered are one for one the decisions of the hub, in order |
| `PresenceTheorems.StreamsAreSubsequences` | internals/realtime/client.go:26-31 | in any run what a client received and holds is a subsequence of what it was offered, and it holds at most 512 |
| `Presence.LostExactlyWhenFull` | internals/realtime/client.go:18-31 | over any sends and reads the number of lost events is the number offered to a full channel, and nothing is lost iff there was none |
| `PresenceTheorems.SlowClientsDoNotMatter` | internals/realtime/client.go:26-31 | in every run, whether one client reads or not, every other client's stream, everyone's presence and the hub's lock are the same |
| `PresenceTheorems.StalledExactlyWhen` | internals/realtime/hub.go:123-149 | in every run the hub's lock is held for good iff some handler met a full channel when it sent the list of users, and then nothing of the hub changes in any continuation |
| `PresenceTheorems.FloodStalls` | internals/realtime/hub.go:123-149 | it happens: 511 broadcasts between a user's first registration and the list |
| `Hub.Client.SendEvent` | internals/realtime/client.go:26-31 | appends to an open channel unless it is full |
| `Hub.Hub.BroadcastToAll` | internals/realtime/hub.go:21-30 | every connection is offered the event once, and nothing else changes |
| `Hub.Hub.GetClients` | internals/realtime/hub.go:32-48 | every connection of the user exactly once, or none if the user is absent |
| `Hub.Hub.SendEventToUserIds` | internals/realtime/hub.go:50-67 | each connection is offered the event once for each time its user is listed |
| `Hub.Hub.SendError` | internals/realtime/hub.go:151-168 | the connections of one user are offered the error, the others nothing |
| `Hub.Hub.RegisterClientConnection` | internals/realtime/hub.go:69-98 | files the connection and, if it is the first, offers the online event to everyone including it |
| `Hub.Hub.UnRegisterClientConnection` | internals/realtime/hub.go:100-121 | drops the connection and, if it was the last, offers the offline event to everyone left |
| `Hub.Hub.SentCurrentClients` | internals/realtime/hub.go:123-149 | one event that lists every other user exactly once; it panics iff the channel is closed and blocks iff it is open and full, and then offers nothing |
| `Hub.Hub.Shutdown` | internals/realtime/hub.go:170-186 | every client is offered the shutdown event and then closed, and the map is empty |
| `Hub.Hub.Connect` | internals/routes/websocket.go:81-85 | the first things a new connection is offered are its own online event, if it is the first, and the list of the others; the other connections are offered the online event iff the user was absent |
| `Hub.Hub.Disconnect` | internals/routes/websocket.go:87-91 | unregistering before closing keeps every channel of the hub open; everyone left is offered the offline event iff this was the user's last connection, and the connection itself nothing |
| `Chunker.SplitIntoChunks` | internals/summaries/openai.go:223-240 | the loop terminates for every positive size and any overlap and yields the windows of the specification |
| `Chunker.WindowSizes` | internals/summaries/openai.go:223-240 | every window is non-empty and at most maxSize, all but the last exactly that |
| `Chunker.WindowCount` | internals/summaries/openai.go:223-240 | the number of windows in closed form, for every overlap that is not negative |
| `Chunker.NeighboursShare` | internals/summaries/openai.go:223-240 | neighbours share exactly the overlap, and nothing if it is maxSize or more |
| `Chunker.WindowsRebuildTheText` | internals/summaries/openai.go:223-240 | dropping the shared prefix of all windows but the first gives back the text |
| `Chunker.ThreeWindowsExactlyWhen` | internals/summaries/openai.go:223-240 | some rune is in three windows iff there are three and the stride is below half a window |
| `Chunker.HalfOverlapIsEnough` | internals/summaries/openai.go:223-240 | with twice the overlap at most maxSize no rune is in three windows |
| `Chunker.CoveredExactlyWhen` | internals/summaries/openai.go:223-240 | the windows cover the text iff the overlap is not negative or one window is enough |
| `Chunker.Summarize` | internals/summaries/openai.go:90-115 | one call for a short transcript; otherwise the parts in order up to the first failure, and the merge of all their outputs if there is none |
| `Chunker.PartsOfATranscript` | internals/summaries/openai.go:100-115 | the parts of a long transcript share exactly 500 runes with their neighbours, no rune is in three of them, dropping what is shared rebuilds the transcript, and the number of calls follows from its length |
| `Paging.GetMessagesByPrivateID` | internals/models/message.go:70-119 | the rows of the page in order |
| `Paging.HandleGetPrivateMessages` | internals/handlers/convo.go:125-182 | exactly which parameters are refused, and what page and has_next_page a good request gets, with the int64 offset wrapped around and a negative one answered by an error |
| `Paging.RequestsWalk` | internals/handlers/convo.go:161-182 | following has_next_page from the first page is the walk the other lemmas speak of, and no offset of it wraps around |
| `Paging.HugePageShowsTheFirst` | internals/models/message.go:76-88 | with limit 31 a page number of 2^59 + 1 shows the first page |
| `Paging.PageCount` | internals/handlers/convo.go:161-172 | the walk has floor(n/(limit+1)) + 1 pages |
| `Paging.PagesAreDisjointAndOrdered` | internals/models/message.go:76-88 | a message is on at most one page, and later messages are on later pages |
| `Paging.NeverShownExactly` | internals/models/message.go:76-88 | the messages never shown are exactly those at positions congruent to limit modulo limit + 1 |
| `Paging.CompleteExactlyWhen` | internals/handlers/convo.go:161-172 | the walk shows everything iff the history fits on one page |
| `Paging.OffsetFromLimitTiles` | internals/models/message.go:76-88 | with the offset taken from limit instead, the pages would tile the history exactly |
| `Delivery.BatchIsEach` | internals/models/message.go:198-229 | the single update equals marking messages one by one, in any order, iff every incoming one is marked and every other marked one was delivered already |
| `Delivery.BatchSettles` | internals/models/message.go:198-215 | the update is idempotent and marks exactly the undelivered messages others sent in the user's conversations, changing nothing else |
| `Delivery.BatchesCommute` | internals/models/message.go:198-243 | updates of two users, and updates and single marks, can run in either order |
| `Delivery.MarksNeverRevert` | internals/models/message.go:198-243 | in any run no message goes away, no mark reverts and nothing else about a message changes |
| `Delivery.DeliveredExactlyWhenMarked` | internals/models/message.go:198-229 | a message ends delivered iff it was, or during the run another member of its conversation came online or anybody but its sender acknowledged it |
| `Delivery.ReadExactlyWhenMarked` | internals/models/message.go:231-243 | a message ends read iff it was, or somebody but its sender marked it read during the run |
| `Delivery.SendersMarkNothing` | internals/routes/websocket.go:250-289 | while only its sender comes online or acknowledges, a message stays undelivered |
| `Delivery.MessageStore.MarkAllIncomingMessagesAsDelivered` | internals/models/message.go:198-215 | visiting the rows in any order has the effect of the single update |
| `Conversations.Privates.GetPrivateByUsers` | internals/models/private.go:52-77 | finds the row of the pair whatever the order of the arguments, or says there is none |
| `Conversations.Privates.CreatePrivate` | internals/models/private.go:123-152 | the row of the pair, inserted iff it was not there; an error for a user with themselves or where a query fails, after the last of which the row is there all the same |
| `Conversations.Privates.HandleJoinPrivate` | internals/handlers/convo.go:43-103 | exactly which requests are refused, which are answered with an internal error, and the one conversation of the pair otherwise |
| `Conversations.OneConversationPerPair` | internals/models/private.go:123-152 | in every interleaving of requests at most one row per unordered pair, and two requests get the same conversation iff they name the same two users |
| `Conversations.JoinOpens` | internals/handlers/convo.go:43-76 | which requests are refused at once and for what, and which go on to look for the conversation |
| `Conversations.CreatedExactlyWhenMissed` | internals/handlers/convo.go:80-103 | over any run a request is told that the conversation was created iff one of its own lookups had found none, even if another request made it |
| `Conversations.FailedExactlyWhenOvertaken` | internals/models/private.go:137-149 | in every run without other faults a request is answered with an error iff another inserted its pair between its last miss and its insert |
| `Conversations.TwoJoinsRace` | internals/handlers/convo.go:82-103 | it happens: two users ask for each other, one gets the conversation and the other an error |

## Left out

- A reconciler: nothing in the repository implements one, so no lost token is recovered.
- Postgres, Redis, LiveKit, Deepgram, Grok and Spaces beyond their abstract effect; JSON is taken to be an
  injective encoding of a job, so the branches for tokens that do not parse are not modelled.
- Fairness is a premise of `QueueFairness.FairRunsEndEveryJob`: that steps keep being taken is up to the Go
  runtime and the stores. With it goes that the handlers return.
- A Redis command is executed at most once here. The client library may send a command again when its reply is
  lost, and an LPUSH that is executed twice puts a token on a list twice; `QueueTheorems.Conservation` does not
  cover that.
- QueueTheorems.NeverASecondEarly: all schedulers and workers read one clock here; the code has one per
  process, and a job may run early by as much as the clocks differ.
- `WorkerPool`: its methods take replies that arrive, good or bad. A BRPOP or ZREM whose reply is lost is a
  step of the machine only.
- Failed inserts of a job row abort the enqueuer, which is a rollback of its transaction here; a transaction
  held open with no further step stands for a hung database.
- QueueAgreement.OrderlyMeansInStep: its condition is sufficient only, and easier to see from outside than the
  exact one, which is `QueuePunctual.AgreementExactlyWhenPunctual`.
- Pipeline steps read and write in one go where the code has no lock in between and the row read is never
  rewritten: fetching a recording and opening the transcript transaction, fetching a transcript and storing
  its summary.
- The words, confidence, model and language of a transcript and the structure of a summary are one text.
- `Database`: its methods run with no other transaction open; interleavings are the machine's.
- `extractSpacesKey`, `presignTTL`, `mapVideoQuality`, prompts, refresh tokens, `ListRoomsByHost` and
  `GetRoom`: members that would be easy.
- Insights: the payloads attached to the answer; the messages shown to the user.
- Hub: its methods are atomic here, and the machine's steps too, but for a send that blocks. Value receivers
  copy the lock in the code, loops over a set run outside it, and the heartbeat sends on the channel directly;
  none of that is modelled.
- Presence: events are offered to the connections of a broadcast in one step, so the order in which they
  reach different clients is not modelled; the delivery update started by the first registration is
  `Delivery.Step.ComeOnline`.
- Rounding of token times to whole seconds by the token format, and the token itself.
- Paging: the order of messages with equal creation times is not fixed by the query, and messages that arrive
  during a walk shift it; the history is one sequence here.
- Chunker: the JSON of partial outputs and the text of prompts; the model's answers are arbitrary, and any
  call may fail.
- HTTP routing, authentication, CORS, logging, configuration, and mapping of errors to status codes except
  where a row above says so.
- `SearchMutualUsers` and its cache: the search returns an empty list.
