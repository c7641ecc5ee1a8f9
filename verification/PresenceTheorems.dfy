/** What holds of the hub over every run: presence, streams, closed channels, and when it stalls. */
module PresenceTheorems {
  import opened Presence

  /** For every user, the decisions since the last shutdown alternate, starting with online, and the
      user is in the map exactly if the last one was online. No entry is empty, and every connection
      is filed under its own user. */
  lemma PresenceIsAccurate(schedule: seq<Step>, u: UserId)
    ensures var w := Exec(NewWorld, schedule);
      && Alternates(About(w.decisions, u), u in w.clients)
      && NoEmptySets(w.clients) && Filed(w.clients, w.owner)
  {
    StartsOk();
    KeepExec(NewWorld, schedule);
    hide BuffersOk, NoEmptySets, Filed, Alternates, Conns;
  }

  /** Unregistering again changes nothing and announces nothing, at any time. */
  lemma UnregisteredTwice(w: World, c: ConnId)
    requires HubOk(w)
    ensures Next(Next(w, Unregister(c)), Unregister(c)) == Next(w, Unregister(c))
  {
    if Enabled(w, Unregister(c)) {
      RemovedTwice(w.clients, w.owner[c], c);
      hide Removed, LastGone, OfferAll, HubOk;
      assert (w.left + {c}) + {c} == w.left + {c};
    }
  }

  lemma TargetsAreConns(w: World, e: Step)
    requires HubOk(w) && Enabled(w, e) && !e.SendCurrent?
    ensures forall c | c in Targets(w, e) :: c !in w.closed
  {
    hide ListsOthers, First, LastGone, HandlersOk;
    match e
    case Connect(c, u) => AddedConns(w.clients, u, c); NewIsOpen(w, c); hide Added;
    case Resume => NeverResumed(w);
    case Unregister(c) => RemovedConns(w.clients, w.owner[c], c); hide Removed;
    case Close(_) =>
    case Broadcast(_) => hide NoEmptySets;
    case SendTo(_, _) => hide NoEmptySets;
    case SendError(u, _) => if u in w.clients { UserConns(w.clients, u); } hide NoEmptySets;
    case Read(_) =>
    case Shutdown => hide NoEmptySets;
  }

  lemma NewIsOpen(w: World, c: ConnId)
    requires HubOk(w) && c !in w.owner
    ensures c !in w.closed
  {
  }

  /** In every run, a send of the hub meets a closed channel exactly if it is the sending of the
      current users to a connection that a shutdown has closed since it was registered. Broadcasts,
      targeted sends, errors and shutdowns never do. */
  lemma SendsMeetClosedExactlyWhen(schedule: seq<Step>, e: Step)
    ensures var w := Exec(NewWorld, schedule);
      Enabled(w, e) ==> (!(Targets(w, e) !! w.closed) <==> e.SendCurrent? && e.conn in w.shut)
  {
    StartsOk();
    KeepExec(NewWorld, schedule);
    var w := Exec(NewWorld, schedule);
    hide Exec;
    if Enabled(w, e) {
      if e.SendCurrent? {
        assert Targets(w, e) == {e.conn};
        hide Conns, NoEmptySets, Filed, BuffersOk, PresenceOk, ListsOthers;
      } else {
        hide BuffersOk, PresenceOk;
        TargetsAreConns(w, e);
        hide Targets, Enabled, HubOk;
      }
    }
  }

  /** It happens: a shutdown between registering and sending. The handler panics. */
  lemma ShutdownOvertakesGreeting(c: ConnId, u: UserId)
    ensures var w := Exec(NewWorld, [Connect(c, u), Shutdown]);
      && Enabled(w, SendCurrent(c, [])) && c in w.shut
      && c in Next(w, SendCurrent(c, [])).panicked
  {
    var w1 := Next(NewWorld, Connect(c, u));
    AddedConns<ConnId>(map[], u, c);
    assert Conns<ConnId>(map[]) == {};
    assert c in Conns(w1.clients) && c in w1.owner && c !in w1.greeted;
    var w2 := DoShutdown(w1);
    hide Conns, First, OfferAll, Added;
    assert Next(w1, Shutdown) == w2;
    assert [Connect(c, u), Shutdown][1..] == [Shutdown];
    assert Exec(w1, [Shutdown]) == Exec(w2, []);
  }

  /** In every run, what a client has received and holds is a subsequence of what it was offered, and
      it never holds more than its channel has room for. */
  lemma StreamsAreSubsequences(schedule: seq<Step>, c: ConnId)
    ensures var w := Exec(NewWorld, schedule); c in w.owner ==> c in w.buffers && BufferOk(w.buffers[c])
  {
    StartsOk();
    KeepExec(NewWorld, schedule);
    hide BufferOk, NoEmptySets, Filed, PresenceOk;
  }

  lemma {:induction false} OfferTimesOffers(b: Buffer, e: Event, n: nat)
    ensures |OfferTimes(b, e, n).offered| == |b.offered| + n
    ensures n == 0 ==> OfferTimes(b, e, n) == b
  {
    if n > 0 {
      OfferTimesOffers(b, e, n - 1);
    }
  }

  /** A step offers something to exactly the connections it is meant for, except that the sending of
      the current users offers nothing on a closed or a full channel. */
  lemma OfferedExactlyTargets(w: World, e: Step, c: ConnId)
    requires HubOk(w) && Enabled(w, e) && c in w.buffers
    ensures c in Next(w, e).buffers
    ensures Next(w, e).buffers[c].offered != w.buffers[c].offered <==>
      c in Targets(w, e) && !(e.SendCurrent? && (c in w.closed || Full(w, c)))
  {
    hide HandlersOk;
    match e
    case Connect(d, u) => AddedConns(w.clients, u, d); hide Conns, NoEmptySets, First, Added;
    case SendCurrent(_, _) => hide Conns, NoEmptySets, ListsOthers;
    case Resume => hide Conns, NoEmptySets;
    case Unregister(_) => hide Conns, NoEmptySets, LastGone, Removed;
    case Close(_) => hide Conns, NoEmptySets;
    case Broadcast(_) => hide Conns, NoEmptySets;
    case SendTo(users, event) =>
      OfferTimesOffers(w.buffers[c], event, multiset(users)[w.owner[c]]);
      hide Conns, NoEmptySets, OfferTimes;
    case SendError(u, message) =>
      OfferTimesOffers(w.buffers[c], ErrorEvent(message), multiset([u])[w.owner[c]]);
      OwnConns(w, u, c);
      hide Conns, NoEmptySets, OfferTimes;
    case Read(_) => hide Conns, NoEmptySets;
    case Shutdown => hide Conns, NoEmptySets;
  }

  lemma OwnConns(w: World, u: UserId, c: ConnId)
    requires HubOk(w) && c in w.owner
    ensures u in w.clients && c in w.clients[u] <==> c in Conns(w.clients) && w.owner[c] == u
  {
    hide NoEmptySets;
  }

  // ---- a slow client does not slow the others ----

  /** Worlds that differ at most in what one client has received and holds since it was greeted. */
  predicate SameBut(a: World, b: World, slow: ConnId) {
    && a.clients == b.clients && a.owner == b.owner && a.closed == b.closed && a.shut == b.shut
        && a.greeted == b.greeted
    && a.panicked == b.panicked && a.left == b.left && a.lock == b.lock && a.decisions == b.decisions
    && a.buffers.Keys == b.buffers.Keys
    && (forall c | c in a.buffers :: c != slow || c !in a.greeted ==> a.buffers[c] == b.buffers[c])
    && (a.lock.Waiting? ==> a.lock.conn !in a.greeted)
  }

  /** A schedule in which this client never reads. */
  function NeverReads(schedule: seq<Step>, slow: ConnId): seq<Step>
    decreases |schedule|
  {
    if schedule == [] then []
    else if schedule[0] == Read(slow) then NeverReads(schedule[1..], slow)
    else [schedule[0]] + NeverReads(schedule[1..], slow)
  }

  lemma OffersBut(a: World, b: World, event: Event, users: seq<UserId>, slow: ConnId)
    requires SameBut(a, b, slow)
    ensures SameBut(a.(buffers := OfferAll(a, event)), b.(buffers := OfferAll(b, event)), slow)
    ensures SameBut(a.(buffers := OfferTo(a, users, event)), b.(buffers := OfferTo(b, users, event)), slow)
  {
    hide Conns, Offer, OfferTimes;
  }

  lemma ConnectBut(a: World, b: World, c: ConnId, u: UserId, slow: ConnId)
    requires SameBut(a, b, slow)
    ensures SameBut(DoConnect(a, c, u), DoConnect(b, c, u), slow)
  {
    var a1 := a.(clients := Added(a.clients, u, c), owner := a.owner[c := u], buffers := a.buffers[c := EmptyBuffer]);
    var b1 := b.(clients := Added(b.clients, u, c), owner := b.owner[c := u], buffers := b.buffers[c := EmptyBuffer]);
    hide Added, First, OfferAll, OfferTo;
    assert SameBut(a1, b1, slow);
    OffersBut(a1, b1, UserOnline(u), [], slow);
  }

  lemma UnregisterBut(a: World, b: World, c: ConnId, slow: ConnId)
    requires SameBut(a, b, slow) && c in a.owner
    ensures SameBut(DoUnregister(a, c), DoUnregister(b, c), slow)
  {
    var u := a.owner[c];
    var a1 := a.(clients := Removed(a.clients, u, c), left := a.left + {c});
    var b1 := b.(clients := Removed(b.clients, u, c), left := b.left + {c});
    hide Removed, LastGone, OfferAll, OfferTo;
    assert SameBut(a1, b1, slow);
    OffersBut(a1, b1, UserOffline(u), [], slow);
  }

  lemma ShutdownBut(a: World, b: World, slow: ConnId)
    requires SameBut(a, b, slow)
    ensures SameBut(DoShutdown(a), DoShutdown(b), slow)
  {
    OffersBut(a, b, ShutdownEvent, [], slow);
    hide OfferAll, OfferTo, Conns;
  }

  lemma SendCurrentBut(a: World, b: World, c: ConnId, users: seq<UserId>, slow: ConnId)
    requires SameBut(a, b, slow) && c !in a.greeted
    ensures SameBut(DoSendCurrent(a, c, users), DoSendCurrent(b, c, users), slow)
  {
    hide Offer;
  }

  lemma StepBut(a: World, b: World, e: Step, slow: ConnId)
    requires SameBut(a, b, slow) && e != Read(slow)
    ensures SameBut(Next(a, e), Next(b, e), slow)
  {
    assert Enabled(a, e) <==> Enabled(b, e) by { hide ListsOthers; }
    hide ListsOthers, DoConnect, DoSendCurrent, DoUnregister, DoShutdown, OfferAll, OfferTo, Offer, Drain;
    if Enabled(a, e) {
      match e
      case Connect(c, u) => ConnectBut(a, b, c, u, slow); hide SameBut;
      case SendCurrent(c, users) => SendCurrentBut(a, b, c, users, slow); hide SameBut;
      case Resume =>
      case Unregister(c) => UnregisterBut(a, b, c, slow); hide SameBut;
      case Close(_) =>
      case Broadcast(event) => OffersBut(a, b, event, [], slow); hide SameBut;
      case SendTo(users, event) => OffersBut(a, b, event, users, slow); hide SameBut;
      case SendError(u, message) => OffersBut(a, b, ErrorEvent(message), [u], slow); hide SameBut;
      case Read(_) =>
      case Shutdown => ShutdownBut(a, b, slow); hide SameBut;
    }
  }

  lemma {:induction false} SlowFromHere(a: World, b: World, schedule: seq<Step>, slow: ConnId)
    requires SameBut(a, b, slow)
    ensures SameBut(Exec(a, schedule), Exec(b, NeverReads(schedule, slow)), slow)
    decreases |schedule|
  {
    if schedule != [] {
      var e := schedule[0];
      if e == Read(slow) {
        SlowReads(a, b, slow);
        hide Next, SameBut;
        SlowFromHere(Next(a, e), b, schedule[1..], slow);
      } else {
        StepBut(a, b, e, slow);
        var rest := NeverReads(schedule[1..], slow);
        assert ([e] + rest)[0] == e && ([e] + rest)[1..] == rest;
        hide Next, SameBut;
        SlowFromHere(Next(a, e), Next(b, e), schedule[1..], slow);
      }
    }
  }

  lemma SlowReads(a: World, b: World, slow: ConnId)
    requires SameBut(a, b, slow)
    ensures SameBut(Next(a, Read(slow)), b, slow)
  {
    hide Drain;
  }

  /** In every run, whether one client reads its events or not: every other client is offered, receives
      and holds the same, presence is the same, and so is the hub's lock. */
  lemma SlowClientsDoNotMatter(schedule: seq<Step>, slow: ConnId)
    ensures SameBut(Exec(NewWorld, schedule), Exec(NewWorld, NeverReads(schedule, slow)), slow)
  {
    SlowFromHere(NewWorld, NewWorld, schedule, slow);
  }

  // ---- what does stall the hub ----

  /** A handler sends the current users on an open channel that other users' events have filled
      before the handler's own write pump runs. */
  predicate Stalls(w: World, e: Step) {
    Enabled(w, e) && e.SendCurrent? && e.conn !in w.closed && Full(w, e.conn)
  }

  predicate StallsSomewhere(w: World, schedule: seq<Step>)
    decreases |schedule|
  {
    schedule != [] && (Stalls(w, schedule[0]) || StallsSomewhere(Next(w, schedule[0]), schedule[1..]))
  }

  lemma LockedByStall(w: World, e: Step)
    requires HubOk(w) && w.lock == Free
    ensures Next(w, e).lock.Waiting? <==> Stalls(w, e)
  {
    hide Conns, NoEmptySets, Filed, ListsOthers, First, LastGone, OfferAll, OfferTo, Offer, Added, Removed;
    match e
    case Connect(_, _) =>
    case SendCurrent(_, _) =>
    case Resume =>
    case Unregister(_) =>
    case Close(_) =>
    case Broadcast(_) =>
    case SendTo(_, _) =>
    case SendError(_, _) =>
    case Read(_) =>
    case Shutdown =>
  }

  /** A stalled hub stays stalled: the lock, the map and what anybody is offered stay as they are. */
  predicate Frozen(a: World, b: World) {
    && b.lock == a.lock && b.clients == a.clients && b.owner == a.owner && b.decisions == a.decisions
        && b.shut == a.shut
    && b.buffers.Keys == a.buffers.Keys
    && forall c | c in a.buffers :: b.buffers[c].offered == a.buffers[c].offered
  }

  lemma StalledStep(w: World, e: Step)
    requires HubOk(w) && w.lock.Waiting?
    ensures Frozen(w, Next(w, e))
  {
    NeverResumed(w);
    hide Conns, NoEmptySets, Filed, ListsOthers;
  }

  lemma {:induction false} StalledForGood(w: World, schedule: seq<Step>)
    requires HubOk(w) && w.lock.Waiting?
    ensures Frozen(w, Exec(w, schedule))
    decreases |schedule|
  {
    if schedule != [] {
      StalledStep(w, schedule[0]);
      KeepHub(w, schedule[0]);
      assert Next(w, schedule[0]).lock.Waiting?;
      hide HubOk, Next;
      StalledForGood(Next(w, schedule[0]), schedule[1..]);
    }
  }

  lemma {:induction false} StalledFromHere(w: World, schedule: seq<Step>)
    requires HubOk(w) && w.lock == Free
    ensures Exec(w, schedule).lock.Waiting? <==> StallsSomewhere(w, schedule)
    decreases |schedule|
  {
    if schedule != [] {
      var w1 := Next(w, schedule[0]);
      LockedByStall(w, schedule[0]);
      KeepHub(w, schedule[0]);
      if Stalls(w, schedule[0]) {
        StalledForGood(w1, schedule[1..]);
      } else {
        assert w1.lock == Free;
        hide HubOk, Next, Stalls;
        StalledFromHere(w1, schedule[1..]);
      }
    }
  }

  /** In every run the hub ends up stalled exactly if some handler met a full channel when it sent the
      current users; and then nobody connects, leaves, is sent anything or is shut down any more,
      whatever the run goes on with. */
  lemma StalledExactlyWhen(schedule: seq<Step>, later: seq<Step>)
    ensures var w := Exec(NewWorld, schedule);
      && (w.lock.Waiting? <==> StallsSomewhere(NewWorld, schedule))
      && (w.lock.Waiting? ==> Frozen(w, Exec(w, later)))
  {
    StartsOk();
    StalledFromHere(NewWorld, schedule);
    KeepExec(NewWorld, schedule);
    hide Exec, HubOk, BuffersOk, PresenceOk, StallsSomewhere, Frozen;
    if Exec(NewWorld, schedule).lock.Waiting? {
      StalledForGood(Exec(NewWorld, schedule), later);
    }
  }

  function Flood(event: Event, n: nat): seq<Step> {
    seq(n, _ => Broadcast(event))
  }

  lemma {:induction false} FloodFills(w: World, c: ConnId, event: Event, n: nat)
    requires w.lock == Free && c in w.buffers && c in Conns(w.clients) && |w.buffers[c].held| + n <= CAPACITY
    ensures var w' := Exec(w, Flood(event, n));
      && w' == w.(buffers := w'.buffers) && c in w'.buffers && |w'.buffers[c].held| == |w.buffers[c].held| + n
    decreases n
  {
    if n > 0 {
      var w1 := Next(w, Broadcast(event));
      assert w1 == w.(buffers := OfferAll(w, event));
      assert Flood(event, n)[1..] == Flood(event, n - 1);
      FloodFills(w1, c, event, n - 1);
    }
  }

  /** It happens: 511 broadcasts between a user's first registration and the greeting fill the channel,
      with the user's own online event. */
  lemma FloodStalls(c: ConnId, u: UserId, event: Event)
    ensures var w := Exec(Next(NewWorld, Connect(c, u)), Flood(event, 511));
      Stalls(w, SendCurrent(c, [])) && Next(w, SendCurrent(c, [])).lock == Waiting(c, [])
  {
    var w1 := Next(NewWorld, Connect(c, u));
    AddedConns<ConnId>(map[], u, c);
    FirstExactlyWhen<ConnId>(map[], u, c);
    assert Conns<ConnId>(map[]) == {};
    assert c in Conns(w1.clients) && c in w1.buffers && |w1.buffers[c].held| == 1;
    FloodFills(w1, c, event, CAPACITY - 1);
    assert w1.clients.Keys == {u} && w1.owner[c] == u;
    hide Exec, Conns, Added, OfferAll;
  }
}
