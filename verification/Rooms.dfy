/** Guest rooms: the lifecycle the webhooks drive, token lifetimes, the one-time extension and the
    enforcer that tears expired rooms down. */
module Rooms {
  import opened Jobs

  const MINUTE: int := 60 * SECOND
  const TOKEN_BUFFER: int := 60 * SECOND
  /** The column default of rooms.session_duration_mins; insertRoom never sets the column. */
  const DEFAULT_DURATION: int := 30

  datatype RoomStatus = Draft | Live | Ended
  datatype Tier = Guest | Pro

  /** The columns of a rooms row that change or that decisions read. */
  datatype Room = Room(status: RoomStatus, startedAt: Option<int>, endedAt: Option<int>,
                       tier: Tier, host: string, durationMins: int, extendUsed: bool)

  function NewRoom(host: string): Room {
    Room(Draft, None, None, Guest, host, DEFAULT_DURATION, false)
  }

  // ---- lifecycle ----

  /** UPDATE ... SET status = 'live', started_at = now WHERE status = 'draft'. */
  function OnStarted(r: Room, now: int): Room {
    if r.status == Draft then r.(status := Live, startedAt := Some(now)) else r
  }

  /** UPDATE ... SET status = 'ended', ended_at = now WHERE status != 'ended'. */
  function OnFinished(r: Room, now: int): Room {
    if r.status != Ended then r.(status := Ended, endedAt := Some(now)) else r
  }

  datatype RoomEvent = Started(at: int) | Finished(at: int)

  function OnEvent(r: Room, e: RoomEvent): Room {
    match e
    case Started(at) => OnStarted(r, at)
    case Finished(at) => OnFinished(r, at)
  }

  function Deliver(r: Room, events: seq<RoomEvent>): Room
    decreases |events|
  {
    if events == [] then r else Deliver(OnEvent(r, events[0]), events[1..])
  }

  predicate SawFinish(events: seq<RoomEvent>) {
    exists i :: 0 <= i < |events| && events[i].Finished?
  }

  /** The time of the first finish, if there is one. */
  function FirstFinish(events: seq<RoomEvent>): Option<int> {
    if events == [] then None
    else if events[0].Finished? then Some(events[0].at)
    else FirstFinish(events[1..])
  }

  lemma {:induction false} FirstFinishExists(events: seq<RoomEvent>)
    ensures SawFinish(events) <==> FirstFinish(events).Some?
  {
    if events != [] && !events[0].Finished? {
      FirstFinishExists(events[1..]);
      if SawFinish(events) {
        var i :| 0 <= i < |events| && events[i].Finished?;
        assert events[1..][i - 1].Finished?;
      }
      if SawFinish(events[1..]) {
        var i :| 0 <= i < |events[1..]| && events[1..][i].Finished?;
        assert events[i + 1].Finished?;
      }
    }
  }

  lemma {:induction false} DeliverLive(r: Room, events: seq<RoomEvent>)
    requires r.status == Live
    ensures Deliver(r, events) == match FirstFinish(events)
                                  case None => r
                                  case Some(t) => r.(status := Ended, endedAt := Some(t))
    decreases |events|
  {
    if events != [] {
      if events[0].Started? {
        DeliverLive(r, events[1..]);
      } else {
        DeliverEnded(OnFinished(r, events[0].at), events[1..]);
      }
    }
  }

  lemma {:induction false} DeliverEnded(r: Room, events: seq<RoomEvent>)
    requires r.status == Ended
    ensures Deliver(r, events) == r
    decreases |events|
  {
    if events != [] {
      DeliverEnded(r, events[1..]);
    }
  }

  /** The row after any events, in any order and with any repeats: the furthest status reached; the
      start time of the first event if that is a start; the time of the first finish. */
  lemma LifecycleClosedForm(r: Room, events: seq<RoomEvent>)
    requires r.status == Draft && r.startedAt == None && r.endedAt == None
    ensures Deliver(r, events) == r.(
        status := if SawFinish(events) then Ended else if events != [] then Live else Draft,
        startedAt := if events != [] && events[0].Started? then Some(events[0].at) else None,
        endedAt := FirstFinish(events))
  {
    FirstFinishExists(events);
    if events != [] {
      if events[0].Started? {
        DeliverLive(OnStarted(r, events[0].at), events[1..]);
      } else {
        DeliverEnded(OnFinished(r, events[0].at), events[1..]);
      }
    }
  }

  /** Reordering and repeating events never changes the status they lead to. */
  lemma StatusIgnoresOrder(r: Room, a: seq<RoomEvent>, b: seq<RoomEvent>)
    requires r.status == Draft && r.startedAt == None && r.endedAt == None
    requires forall e :: e in a <==> e in b
    ensures Deliver(r, a).status == Deliver(r, b).status
  {
    LifecycleClosedForm(r, a);
    LifecycleClosedForm(r, b);
    assert a != [] ==> a[0] in b;
    assert b != [] ==> b[0] in a;
    if SawFinish(a) {
      var i :| 0 <= i < |a| && a[i].Finished?;
      assert a[i] in b;
    }
    if SawFinish(b) {
      var i :| 0 <= i < |b| && b[i].Finished?;
      assert b[i] in a;
    }
  }

  predicate NonDecreasing(events: seq<RoomEvent>) {
    forall i, k :: 0 <= i < k < |events| ==> events[i].at <= events[k].at
  }

  lemma {:induction false} FirstFinishNotBefore(events: seq<RoomEvent>, t: int)
    requires forall i :: 0 <= i < |events| ==> t <= events[i].at
    ensures FirstFinish(events).Some? ==> t <= FirstFinish(events).value
  {
    if events != [] && !events[0].Finished? {
      FirstFinishNotBefore(events[1..], t);
    }
  }

  /** Under a clock that does not run back, a room never ends before it starts. */
  lemma EndsAfterStart(r: Room, events: seq<RoomEvent>)
    requires r.status == Draft && r.startedAt == None && r.endedAt == None && NonDecreasing(events)
    ensures var x := Deliver(r, events);
      x.startedAt.Some? && x.endedAt.Some? ==> x.startedAt.value <= x.endedAt.value
  {
    LifecycleClosedForm(r, events);
    if events != [] {
      FirstFinishNotBefore(events, events[0].at);
    }
  }

  /** Both times are written once: what is there stays, whatever arrives later. */
  lemma TimesAreWrittenOnce(r: Room, a: seq<RoomEvent>, b: seq<RoomEvent>)
    requires r.status == Draft && r.startedAt == None && r.endedAt == None
    ensures var x, y := Deliver(r, a), Deliver(r, a + b);
      && (x.startedAt.Some? ==> y.startedAt == x.startedAt)
      && (x.endedAt.Some? ==> y.endedAt == x.endedAt)
  {
    LifecycleClosedForm(r, a);
    LifecycleClosedForm(r, a + b);
    FirstFinishPrefix(a, b);
  }

  lemma {:induction false} FirstFinishPrefix(a: seq<RoomEvent>, b: seq<RoomEvent>)
    ensures FirstFinish(a).Some? ==> FirstFinish(a + b) == FirstFinish(a)
  {
    if a != [] && !a[0].Finished? {
      assert (a + b)[1..] == a[1..] + b;
      FirstFinishPrefix(a[1..], b);
    }
  }

  // ---- tokens ----

  datatype Config = Config(maxParticipants: int, sessionMins: int)

  datatype TokenError = RoomNotFound | RoomEnded | CountFailed | PlanExceeded | SessionExpired | MintFailed

  datatype Issued = Token(expiresAt: int) | Refused(error: TokenError)

  predicate Timed(r: Room) {
    r.status == Live && r.startedAt.Some?
  }

  function CfgDeadline(cfg: Config, r: Room): int
    requires r.startedAt.Some?
  {
    r.startedAt.value + cfg.sessionMins * MINUTE
  }

  /** IssueGuestToken; `count` is LiveKit's reply, `minted` whether signing works. The code reads the clock three
      times: t1 for the expiry guard, t2 for the remaining time, t3 when the token is minted with that time to live. */
  function IssueGuestToken(cfg: Config, room: Option<Room>, count: Option<int>, minted: bool, t1: int, t2: int,
          t3: int): Issued {
    if room.None? then Refused(RoomNotFound)
    else
      var r := room.value;
      if r.status == Ended then Refused(RoomEnded)
      else if count.None? then Refused(CountFailed)
      else if count.value >= cfg.maxParticipants then Refused(PlanExceeded)
      else if Timed(r) && t1 > CfgDeadline(cfg, r) then Refused(SessionExpired)
      else if Timed(r) then
        var remaining := CfgDeadline(cfg, r) - t2;
        if remaining <= 0 then Refused(SessionExpired)
        else if !minted then Refused(MintFailed)
        else Token(t3 + remaining + TOKEN_BUFFER)
      else if !minted then Refused(MintFailed)
      else Token(t3 + cfg.sessionMins * MINUTE + TOKEN_BUFFER)
  }

  /** fetchExpiredGuestRooms: the rows the enforcer tears down at time now. */
  predicate Expired(r: Room, now: int) {
    r.tier == Guest && Timed(r) && Deadline(r) <= now
  }

  /** When the enforcer may tear the room down. */
  function Deadline(r: Room): int
    requires r.startedAt.Some?
  {
    r.startedAt.value + r.durationMins * MINUTE
  }

  /** Exactly who gets a token, and who is refused why, under a clock that does not go back: the room
      must be there and not have ended, LiveKit must answer and count fewer participants than the plan
      allows, a live room must be strictly before its configured deadline, and signing must work, in
      this order. The first of the two expiry guards adds nothing to the second; and in the minutes an
      extension has added nobody gets in, though the enforcer lets the room live. */
  lemma TokenExactlyWhen(cfg: Config, room: Option<Room>, n: Option<int>, minted: bool, t1: int, t2: int, t3: int)
    requires t1 <= t2 <= t3
    ensures var answer := IssueGuestToken(cfg, room, n, minted, t1, t2, t3);
      var open := room.Some? && room.value.status != Ended;
      var fits := open && n.Some? && n.value < cfg.maxParticipants;
      var late := fits && room.value.status == Live && room.value.startedAt.Some?
        && room.value.startedAt.value + cfg.sessionMins * (60 * SECOND) <= t2;
      && (answer.Token? <==> fits && !late && minted)
      && (answer == Refused(RoomNotFound) <==> room.None?)
      && (answer == Refused(RoomEnded) <==> room.Some? && room.value.status == Ended)
      && (answer == Refused(CountFailed) <==> open && n.None?)
      && (answer == Refused(PlanExceeded) <==> open && n.Some? && n.value >= cfg.maxParticipants)
      && (answer == Refused(SessionExpired) <==> late)
      && (answer == Refused(MintFailed) <==> fits && !late && !minted)
      && (late && t2 < Deadline(room.value) ==> !Expired(room.value, t2))
  {
  }

  // ---- the one-time extension ----

  /** Go's integer division. */
  function Half(n: int): int {
    if n >= 0 then n / 2 else -((-n) / 2)
  }

  /** Where one ExtendGuestSession request stands: not begun, past its guards, or answered. */
  datatype Request = NotBegun | Granted | Refusal | Done | NotWritten

  datatype Extension = Extension(room: Room, requests: seq<Request>, writes: nat)

  datatype ExtStep = Read(i: nat) | Write(i: nat, dbOk: bool) | Event(e: RoomEvent)

  function NewExtension(r: Room, n: nat): Extension {
    Extension(r, seq(n, _ => NotBegun), 0)
  }

  /** The guards read the row; markExtensionUsed later updates it without looking again. */
  function Extend(cfg: Config, x: Extension, e: ExtStep): Extension {
    match e
    case Read(i) =>
      if i < |x.requests| && x.requests[i] == NotBegun then
        x.(requests := x.requests[i := if x.room.status == Ended || x.room.extendUsed then Refusal else Granted])
      else x
    case Write(i, dbOk) =>
      if i < |x.requests| && x.requests[i] == Granted && !dbOk then
        x.(requests := x.requests[i := NotWritten])
      else if i < |x.requests| && x.requests[i] == Granted then
        x.(requests := x.requests[i := Done], writes := x.writes + 1,
           room := x.room.(extendUsed := true, durationMins := x.room.durationMins + Half(cfg.sessionMins)))
      else x
    case Event(ev) => x.(room := OnEvent(x.room, ev))
  }

  function ExtendAll(cfg: Config, x: Extension, schedule: seq<ExtStep>): Extension
    decreases |schedule|
  {
    if schedule == [] then x else ExtendAll(cfg, Extend(cfg, x, schedule[0]), schedule[1..])
  }

  predicate Counts(cfg: Config, x: Extension) {
    x.room.durationMins == DEFAULT_DURATION + x.writes * Half(cfg.sessionMins) && (x.room.extendUsed <==> x.writes > 0)
  }

  /** Whatever overlaps, the row's duration counts the writes, and the flag says if there was one. */
  lemma {:induction false} DurationCountsWrites(cfg: Config, x: Extension, schedule: seq<ExtStep>)
    requires Counts(cfg, x)
    ensures Counts(cfg, ExtendAll(cfg, x, schedule))
    decreases |schedule|
  {
    if schedule != [] {
      var e := schedule[0];
      assert e.Write? && e.dbOk ==>
          (x.writes + 1) * Half(cfg.sessionMins) == x.writes * Half(cfg.sessionMins) + Half(cfg.sessionMins);
      DurationCountsWrites(cfg, Extend(cfg, x, e), schedule[1..]);
    }
  }

  /** Requests i and k are past the guards at the same time somewhere in the schedule. */
  predicate Overlap(cfg: Config, x: Extension, schedule: seq<ExtStep>, i: nat, k: nat)
    decreases |schedule|
  {
    || (i < |x.requests| && k < |x.requests| && x.requests[i] == Granted && x.requests[k] == Granted)
    || (schedule != [] && Overlap(cfg, Extend(cfg, x, schedule[0]), schedule[1..], i, k))
  }

  /** Requests whose update succeeded. */
  function Writers(requests: seq<Request>): nat {
    if requests == [] then 0
    else Writers(requests[..|requests| - 1]) + (if requests[|requests| - 1] == Done then 1 else 0)
  }

  lemma {:induction false} WritersUpdate(requests: seq<Request>, i: nat, q: Request)
    requires i < |requests|
    ensures Writers(requests[i := q]) + (if requests[i] == Done then 1 else 0)
      == Writers(requests) + (if q == Done then 1 else 0)
  {
    var last := |requests| - 1;
    if i == last {
      assert requests[i := q][..last] == requests[..last];
    } else {
      WritersUpdate(requests[..last], i, q);
      assert requests[i := q][..last] == requests[..last][i := q];
    }
  }

  predicate Two(requests: seq<Request>, i: nat, k: nat) {
    i < k < |requests| && requests[i] == Done && requests[k] == Done
  }

  lemma {:induction false} TwoWriters(requests: seq<Request>)
    ensures Writers(requests) >= 2 <==> exists i: nat, k: nat :: Two(requests, i, k)
    ensures Writers(requests) >= 1 <==> Done in requests
  {
    if requests != [] {
      var init, last := requests[..|requests| - 1], |requests| - 1;
      TwoWriters(init);
      assert requests == init + [requests[last]];
      assert forall i: nat, k: nat :: Two(init, i, k) ==> Two(requests, i, k);
      assert forall i: nat, k: nat :: Two(requests, i, k) && k < last ==> Two(init, i, k);
      if requests[last] == Done && Done in init {
        var i :| 0 <= i < last && init[i] == Done;
        assert Two(requests, i, last);
      }
    }
  }

  /** The books of a run: the writes are those of the writers, and only a write sets the flag. */
  predicate Kept(x: Extension) {
    x.writes == Writers(x.requests) && (Done in x.requests ==> x.room.extendUsed)
  }

  lemma {:induction false} KeptNext(cfg: Config, x: Extension, e: ExtStep)
    requires Kept(x)
    ensures Kept(Extend(cfg, x, e))
  {
    var x' := Extend(cfg, x, e);
    if !e.Event? && e.i < |x.requests| && x'.requests != x.requests {
      WritersUpdate(x.requests, e.i, x'.requests[e.i]);
      assert x'.requests == x.requests[e.i := x'.requests[e.i]];
      if Done in x'.requests && x'.requests[e.i] != Done {
        var k :| 0 <= k < |x'.requests| && x'.requests[k] == Done;
        assert x.requests[k] == Done;
      }
    }
  }

  /** As long as i and k have not both been past the guards, they have not both written, and what
      one has written keeps the other out. */
  predicate Apart(x: Extension, i: nat, k: nat) {
    && i != k && i < |x.requests| && k < |x.requests|
    && (x.requests[i] == Done ==> x.requests[k] != Granted && x.requests[k] != Done)
    && (x.requests[k] == Done ==> x.requests[i] != Granted && x.requests[i] != Done)
  }

  lemma {:induction false} BothWriteOnlyByOverlap(cfg: Config, x: Extension, schedule: seq<ExtStep>, i: nat, k: nat)
    requires Kept(x) && Apart(x, i, k)
    ensures var x' := ExtendAll(cfg, x, schedule);
      && Kept(x') && |x'.requests| == |x.requests|
      && (x'.requests[i] == Done && x'.requests[k] == Done ==> Overlap(cfg, x, schedule, i, k))
    decreases |schedule|
  {
    if schedule != [] {
      var x1 := Extend(cfg, x, schedule[0]);
      KeptNext(cfg, x, schedule[0]);
      if x.requests[i] == Granted && x.requests[k] == Granted {
        KeptAll(cfg, x1, schedule[1..]);
      } else {
        BothWriteOnlyByOverlap(cfg, x1, schedule[1..], i, k);
      }
    }
  }

  lemma {:induction false} KeptAll(cfg: Config, x: Extension, schedule: seq<ExtStep>)
    requires Kept(x)
    ensures Kept(ExtendAll(cfg, x, schedule)) && |ExtendAll(cfg, x, schedule).requests| == |x.requests|
    decreases |schedule|
  {
    if schedule != [] {
      KeptNext(cfg, x, schedule[0]);
      KeptAll(cfg, Extend(cfg, x, schedule[0]), schedule[1..]);
    }
  }

  /** Requests i and k overlap, and the updates of both succeed. */
  predicate BothExtend(cfg: Config, x: Extension, schedule: seq<ExtStep>, i: nat, k: nat) {
    Two(ExtendAll(cfg, x, schedule).requests, i, k) && Overlap(cfg, x, schedule, i, k)
  }

  /** A new room is extended more than once exactly if two requests are past the guards together and
      the updates of both succeed; if not, its duration is the default, or the default and one
      extension once the flag is set. */
  lemma {:induction false} ExtendedTwiceExactlyWhen(cfg: Config, host: string, n: nat, schedule: seq<ExtStep>)
    ensures var x0 := NewExtension(NewRoom(host), n); var x := ExtendAll(cfg, x0, schedule);
      && (x.writes >= 2 <==> exists i: nat, k: nat :: BothExtend(cfg, x0, schedule, i, k))
      && (x.writes <= 1 ==>
            x.room.durationMins == DEFAULT_DURATION + (if x.room.extendUsed then Half(cfg.sessionMins) else 0))
  {
    var x0 := NewExtension(NewRoom(host), n);
    var x := ExtendAll(cfg, x0, schedule);
    DurationCountsWrites(cfg, x0, schedule);
    TwoWriters(x0.requests);
    KeptAll(cfg, x0, schedule);
    TwoWriters(x.requests);
    if x.writes >= 2 {
      var i: nat, k: nat :| Two(x.requests, i, k);
      BothWriteOnlyByOverlap(cfg, x0, schedule, i, k);
      assert BothExtend(cfg, x0, schedule, i, k);
    }
  }

  /** Two requests on a new room, both reading before either writes: it is extended twice. */
  lemma OverlapExtendsTwice(cfg: Config, host: string)
    ensures var x := ExtendAll(cfg, NewExtension(NewRoom(host), 2), [Read(0), Read(1), Write(0, true), Write(1, true)]);
      x.writes == 2 && x.room.durationMins == DEFAULT_DURATION + 2 * Half(cfg.sessionMins) && x.room.extendUsed
  {
    var x0 := NewExtension(NewRoom(host), 2);
    var x1 := Extend(cfg, x0, Read(0));
    var x2 := Extend(cfg, x1, Read(1));
    var x3 := Extend(cfg, x2, Write(0, true));
    var x4 := Extend(cfg, x3, Write(1, true));
    assert ExtendAll(cfg, x3, [Write(1, true)]) == ExtendAll(cfg, x4, []);
    assert [Write(0, true), Write(1, true)][1..] == [Write(1, true)];
    assert ExtendAll(cfg, x2, [Write(0, true), Write(1, true)]) == ExtendAll(cfg, x3, [Write(1, true)]);
    assert [Read(1), Write(0, true), Write(1, true)][1..] == [Write(0, true), Write(1, true)];
    assert ExtendAll(cfg, x1, [Read(1), Write(0, true), Write(1, true)])
      == ExtendAll(cfg, x2, [Write(0, true), Write(1, true)]);
    assert [Read(0), Read(1), Write(0, true), Write(1, true)][1..] == [Read(1), Write(0, true), Write(1, true)];
  }

  datatype ExtendAnswer = Extended | ExtendNotFound | ExtendRoomEnded | ExtendOnce | ExtendDbFailed

  /** The guards and the update of one request, with nothing in between. */
  lemma ExtendAlone(cfg: Config, r: Room)
    ensures ExtendAll(cfg, Extension(r, [NotBegun], 0), [Read(0), Write(0, true)]).room ==
      if r.status == Ended || r.extendUsed then r
      else r.(extendUsed := true, durationMins := r.durationMins + Half(cfg.sessionMins))
  {
    var x := Extend(cfg, Extension(r, [NotBegun], 0), Read(0));
    assert [Read(0), Write(0, true)][1..] == [Write(0, true)];
    assert ExtendAll(cfg, x, [Write(0, true)]) == ExtendAll(cfg, Extend(cfg, x, Write(0, true)), []);
  }

  /** The rooms table. */
  class RoomStore {
    var rooms: map<nat, Room>
    var next: nat

    ghost predicate Valid()
      reads this
    {
      forall id | id in rooms :: id < next
    }

    constructor ()
      ensures Valid() && rooms == map[]
    {
      rooms, next := map[], 1;
    }

    /** The duration and the extension flag take their column defaults. */
    method InsertRoom(host: string) returns (id: nat)
      requires Valid()
      modifies this
      ensures Valid() && id !in old(rooms) && rooms == old(rooms)[id := NewRoom(host)]
      ensures rooms[id] == Room(Draft, None, None, Guest, host, 30, false)
    {
      id := next;
      rooms := rooms[id := Room(Draft, None, None, Guest, host, DEFAULT_DURATION, false)];
      next := next + 1;
    }

    /** UPDATE rooms ... WHERE id = $1; it does not look at the flag. */
    method MarkExtensionUsed(id: nat, extraMins: int, dbOk: bool) returns (ok: bool)
      modifies `rooms
      ensures ok <==> dbOk
      ensures rooms == if dbOk && id in old(rooms)
                       then old(rooms)[id := old(rooms)[id].(extendUsed := true,
                           durationMins := old(rooms)[id].durationMins + extraMins)]
                       else old(rooms)
    {
      if dbOk && id in rooms {
        var r := rooms[id];
        rooms := rooms[id := r.(extendUsed := true, durationMins := r.durationMins + extraMins)];
      }
      ok := dbOk;
    }

    /** ExtendGuestSession without interference: the two steps of one request, and nothing else. Any
        guest may ask. */
    method ExtendGuestSession(cfg: Config, id: nat, dbOk: bool) returns (answer: ExtendAnswer)
      modifies `rooms
      ensures answer == ExtendNotFound <==> id !in old(rooms)
      ensures answer == ExtendRoomEnded <==> id in old(rooms) && old(rooms)[id].status == Ended
      ensures answer == ExtendOnce <==> id in old(rooms) && old(rooms)[id].status != Ended && old(rooms)[id].extendUsed
      ensures answer == Extended ==> dbOk
      ensures rooms == if answer == Extended
                       then old(rooms)[id := ExtendAll(cfg, Extension(old(rooms)[id], [NotBegun], 0),
                           [Read(0), Write(0, true)]).room]
                       else old(rooms)
    {
      if id !in rooms {
        return ExtendNotFound;
      }
      var room := rooms[id];
      if room.status == Ended {
        return ExtendRoomEnded;
      }
      if room.extendUsed {
        return ExtendOnce;
      }
      ExtendAlone(cfg, room);
      var ok := MarkExtensionUsed(id, Half(cfg.sessionMins), dbOk);
      answer := if ok then Extended else ExtendDbFailed;
    }
  }

  lemma {:induction false} ExtendSplit(cfg: Config, x: Extension, a: seq<ExtStep>, b: seq<ExtStep>)
    ensures ExtendAll(cfg, x, a + b) == ExtendAll(cfg, ExtendAll(cfg, x, a), b)
    decreases |a|
  {
    if a == [] {
      assert a + b == b;
    } else {
      assert (a + b)[0] == a[0] && (a + b)[1..] == a[1..] + b;
      ExtendSplit(cfg, Extend(cfg, x, a[0]), a[1..], b);
    }
  }

  /** A draft room has no start time, a live one has; neither a start time nor minutes are taken away. */
  predicate Dated(r: Room) {
    (r.status == Draft ==> r.startedAt == None) && (r.status == Live ==> r.startedAt.Some?)
  }

  lemma {:induction false} DatesStay(cfg: Config, x: Extension, schedule: seq<ExtStep>)
    requires Dated(x.room)
    ensures var r := ExtendAll(cfg, x, schedule).room;
      Dated(r) && (x.room.startedAt.Some? ==> r.startedAt == x.room.startedAt)
    decreases |schedule|
  {
    if schedule != [] {
      DatesStay(cfg, Extend(cfg, x, schedule[0]), schedule[1..]);
    }
  }

  /** How late a token was minted: after its time to live was computed, or, if the room was read as
      draft, after the room started. */
  function Lateness(issuedFor: Room, final: Room, t2: int, t3: int): int
    requires final.startedAt.Some?
  {
    if Timed(issuedFor) then t3 - t2 else t3 - final.startedAt.value
  }

  /** The expiry of every token, for a room read as draft or as live and whatever happens to it later:
      the configured deadline and the buffer, moved by the lateness alone. So the token outlives the
      enforcer's deadline, as the row has it in the end, by more than the buffer exactly if it was
      minted later than the minutes the row has beyond the configured session; and the enforcer has
      the room before the buffer begins exactly if those minutes are no more than the lateness. */
  lemma ExpiryExactly(cfg: Config, x: Extension, later: seq<ExtStep>, n: Option<int>, minted: bool, t1: int, t2: int,
          t3: int)
    requires Dated(x.room)
    ensures var issued := IssueGuestToken(cfg, Some(x.room), n, minted, t1, t2, t3);
      var final := ExtendAll(cfg, x, later).room;
      issued.Token? && final.startedAt.Some? ==>
        var late := Lateness(x.room, final, t2, t3);
        var extra := (final.durationMins - cfg.sessionMins) * MINUTE;
        && issued.expiresAt == final.startedAt.value + cfg.sessionMins * (60 * SECOND) + 60 * SECOND + late
        && (issued.expiresAt > Deadline(final) + TOKEN_BUFFER <==> late > extra)
        && (final.tier == Guest && final.status == Live ==>
              (Expired(final, issued.expiresAt - TOKEN_BUFFER) <==> extra <= late))
        && (final.tier == Pro || final.status == Ended ==> !Expired(final, issued.expiresAt - TOKEN_BUFFER))
  {
    DatesStay(cfg, x, later);
  }

  /** The session bound for every room and every token. At any moment of any run of lifecycle events
      and overlapping extension requests a token is issued; the run goes on; then the token outlives
      the enforcer's deadline by more than the buffer exactly if it is later than the extra minutes.
      In a room extended once, a token that is not late stays within the bound exactly if the
      configured session is at most an hour. */
  lemma SessionBoundExactly(cfg: Config, host: string, requests: nat, past: seq<ExtStep>, later: seq<ExtStep>,
                            n: Option<int>, minted: bool, t1: int, t2: int, t3: int)
    ensures var x := ExtendAll(cfg, NewExtension(NewRoom(host), requests), past);
      var issued := IssueGuestToken(cfg, Some(x.room), n, minted, t1, t2, t3);
      var final := ExtendAll(cfg, x, later);
      issued.Token? && final.room.startedAt.Some? ==>
        var late := Lateness(x.room, final.room, t2, t3);
        && (issued.expiresAt > Deadline(final.room) + TOKEN_BUFFER <==>
              late > (final.room.durationMins - cfg.sessionMins) * MINUTE)
        && (final.writes == 1 && late == 0 ==>
              (issued.expiresAt <= Deadline(final.room) + TOKEN_BUFFER <==> cfg.sessionMins <= 60))
  {
    var x0 := NewExtension(NewRoom(host), requests);
    var x := ExtendAll(cfg, x0, past);
    DatesStay(cfg, x0, past);
    DurationCountsWrites(cfg, x0, past);
    DurationCountsWrites(cfg, x, later);
    ExpiryExactly(cfg, x, later, n, minted, t1, t2, t3);
    hide IssueGuestToken, ExtendAll, Expired, Dated;
  }

  /** With the configured session equal to the column default, whatever events and extension requests
      a room has seen and will see, no token outlives the enforcer's deadline by more than the buffer
      and its own lateness. */
  lemma DefaultSessionBound(cfg: Config, host: string, requests: nat, past: seq<ExtStep>, later: seq<ExtStep>,
                            n: Option<int>, minted: bool, t1: int, t2: int, t3: int)
    requires cfg.sessionMins == DEFAULT_DURATION
    ensures var x := ExtendAll(cfg, NewExtension(NewRoom(host), requests), past);
      var issued := IssueGuestToken(cfg, Some(x.room), n, minted, t1, t2, t3);
      var final := ExtendAll(cfg, x, later).room;
      issued.Token? && final.startedAt.Some? ==>
        issued.expiresAt <= Deadline(final) + TOKEN_BUFFER + Lateness(x.room, final, t2, t3)
  {
    var x0 := NewExtension(NewRoom(host), requests);
    var x := ExtendAll(cfg, x0, past);
    var final := ExtendAll(cfg, x, later).room;
    DurationCountsWrites(cfg, x0, past);
    DurationCountsWrites(cfg, x, later);
    assert final.durationMins >= DEFAULT_DURATION;
    DatesStay(cfg, x0, past);
    DatesStay(cfg, x, later);
  }

  /** The lateness is not idle: a token minted late for a room that is never extended outlives the
      deadline by more than the buffer, by just that lateness. */
  lemma LateTokensOutlive(cfg: Config, host: string, n: Option<int>, started: int, t2: int, t3: int)
    requires cfg.sessionMins == DEFAULT_DURATION && n.Some? && n.value < cfg.maxParticipants
    requires started <= t2 < t3 && t2 < started + DEFAULT_DURATION * MINUTE
    ensures var r := ExtendAll(cfg, NewExtension(NewRoom(host), 0), [Event(Started(started))]).room;
      r.startedAt == Some(started) && IssueGuestToken(cfg, Some(r), n, true, t2, t2, t3) ==
          Token(Deadline(r) + TOKEN_BUFFER + (t3 - t2))
  {
    var x := NewExtension(NewRoom(host), 0);
    assert ExtendAll(cfg, x, [Event(Started(started))]) == ExtendAll(cfg, Extend(cfg, x, Event(Started(started))), []);
  }

  // ---- the enforcer ----

  datatype EndResult = Deleted | AlreadyEnded | NotHost | LiveKitFailed | NotFound

  /** EndRoom with the row as it is read at that moment; the row itself is left to the webhook. */
  function EndRoom(row: Option<Room>, requester: string, lkOk: bool): (r: EndResult)
    ensures r == NotFound <==> row.None?
    ensures r == AlreadyEnded <==> row.Some? && row.value.status == Ended
    ensures r == NotHost <==> row.Some? && row.value.status != Ended && row.value.host != requester
    ensures row.Some? && row.value.host == requester && row.value.status != Ended ==> (r == Deleted <==> lkOk)
  {
    if row.None? then NotFound
    else if row.value.status == Ended then AlreadyEnded
    else if row.value.host != requester then NotHost
    else if !lkOk then LiveKitFailed
    else Deleted
  }

  /** One tick. `fetched` is the reply to the query, `rows` and `lkOk` what each EndRoom call finds.
      One bad room never keeps another from being torn down: a fetched room is deleted exactly when
      it has not ended meanwhile and LiveKit answers. */
  method EnforceAll(fetched: seq<(int, Room)>, rows: seq<Option<Room>>, lkOk: seq<bool>, now: int)
      returns (deleted: seq<int>)
    requires |rows| == |lkOk| == |fetched|
    requires forall i :: 0 <= i < |fetched| ==> Expired(fetched[i].1, now)
    requires forall i :: 0 <= i < |fetched| && rows[i].Some? ==> rows[i].value.host == fetched[i].1.host
    requires forall i, k :: 0 <= i < k < |fetched| ==> fetched[i].0 != fetched[k].0
    ensures forall i :: 0 <= i < |fetched| ==>
      (fetched[i].0 in deleted <==> rows[i].Some? && rows[i].value.status != Ended && lkOk[i])
    ensures forall id :: id in deleted ==> exists i :: 0 <= i < |fetched| && fetched[i].0 == id
  {
    deleted := [];
    for n := 0 to |fetched|
      invariant forall i :: 0 <= i < n ==>
        (fetched[i].0 in deleted <==> rows[i].Some? && rows[i].value.status != Ended && lkOk[i])
      invariant forall id :: id in deleted ==> exists i :: 0 <= i < n && fetched[i].0 == id
    {
      var r := EndRoom(rows[n], fetched[n].1.host, lkOk[n]);
      assert forall i :: 0 <= i < n ==> fetched[i].0 != fetched[n].0;
      assert fetched[n].0 !in deleted;
      if r == Deleted {
        deleted := deleted + [fetched[n].0];
      }
    }
  }
}
