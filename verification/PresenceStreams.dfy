/** What each client is offered, event by event, and so that the announcements a connection hears are
    the decisions taken while it is registered. */
module PresenceStreams {
  import opened Presence
  import opened PresenceTheorems

  /** Is the connection in the map, under its own user? */
  predicate Listed(w: World, c: ConnId) {
    c in w.owner && w.owner[c] in w.clients && c in w.clients[w.owner[c]]
  }

  /** The events a step offers to connection c. */
  function Offers(w: World, e: Step, c: ConnId): seq<Event>
    requires Enabled(w, e)
  {
    match e
    case Connect(d, u) => if u !in w.clients && (c == d || Listed(w, c)) then [UserOnline(u)] else []
    case SendCurrent(d, users) => if c == d && c !in w.closed && !Full(w, c) then [CurrentUsers(users)] else []
    case Resume => if c == w.lock.conn then [CurrentUsers(w.lock.users)] else []
    case Unregister(d) =>
      var u := w.owner[d];
      if u in w.clients && w.clients[u] <= {d} && Listed(w, c) && c != d then [UserOffline(u)] else []
    case Broadcast(event) => if Listed(w, c) then [event] else []
    case SendTo(users, event) => if Listed(w, c) then seq(multiset(users)[w.owner[c]], _ => event) else []
    case SendError(u, message) => if Listed(w, c) && w.owner[c] == u then [ErrorEvent(message)] else []
    case Shutdown => if Listed(w, c) then [ShutdownEvent] else []
    case Close(_) => []
    case Read(_) => []
  }

  function OfferedTo(w: World, c: ConnId): seq<Event> {
    if c in w.buffers then w.buffers[c].offered else []
  }

  lemma ListedConns(w: World, c: ConnId)
    requires HubOk(w)
    ensures Listed(w, c) <==> c in Conns(w.clients)
  {
    hide NoEmptySets, HandlersOk;
    if c in Conns(w.clients) {
      var u :| u in w.clients && c in w.clients[u];
      assert w.owner[c] == u;
    }
    if Listed(w, c) {
      var u := w.owner[c];
      assert u in w.clients && c in w.clients[u];
    }
  }

  lemma {:induction false} OfferTimesAll(b: Buffer, e: Event, n: nat)
    ensures OfferTimes(b, e, n).offered == b.offered + seq(n, _ => e)
  {
    if n > 0 {
      OfferTimesAll(b, e, n - 1);
      assert seq(n, _ => e) == seq(n - 1, _ => e) + [e];
    } else {
      assert b.offered + seq(0, _ => e) == b.offered;
    }
  }

  lemma ConnectOffers(w: World, d: ConnId, u: UserId, c: ConnId)
    requires HubOk(w) && Enabled(w, Connect(d, u))
    ensures OfferedTo(DoConnect(w, d, u), c) == OfferedTo(w, c) + Offers(w, Connect(d, u), c)
  {
    FirstExactlyWhen(w.clients, u, d);
    ListedConns(w, c);
    ListedConns(w, d);
    AddedConns(w.clients, u, d);
    assert u in w.clients ==> w.clients[u] != {d} by {
      assert u in w.clients && d in w.clients[u] ==> d in Conns(w.clients);
    }
    hide Conns, NoEmptySets, First, Added, HandlersOk, Filed, Listed;
    assert Conns(w.clients) <= w.buffers.Keys by { ConnsHaveBuffers(w); }
  }

  lemma ConnsHaveBuffers(w: World)
    requires HubOk(w)
    ensures Conns(w.clients) <= w.buffers.Keys
  {
    forall c | c in Conns(w.clients) ensures c in w.buffers {
      ListedConns(w, c);
    }
  }

  lemma UnregisterOffers(w: World, d: ConnId, c: ConnId)
    requires HubOk(w) && Enabled(w, Unregister(d))
    ensures OfferedTo(DoUnregister(w, d), c) == OfferedTo(w, c) + Offers(w, Unregister(d), c)
  {
    ListedConns(w, c);
    RemovedConns(w.clients, w.owner[d], d);
    ConnsHaveBuffers(w);
    hide Conns, NoEmptySets, Removed, HandlersOk, Filed, Listed;
  }

  lemma SendOffers(w: World, users: seq<UserId>, event: Event, c: ConnId)
    requires HubOk(w)
    ensures Listed(w, c) ==> c in w.owner
    ensures OfferedTo(w.(buffers := OfferTo(w, users, event)), c) ==
      OfferedTo(w, c) + if Listed(w, c) then seq(multiset(users)[w.owner[c]], _ => event) else []
  {
    ListedConns(w, c);
    ConnsHaveBuffers(w);
    hide Conns, NoEmptySets, HandlersOk, Filed, OfferTimes;
    if c in Conns(w.clients) {
      OfferTimesAll(w.buffers[c], event, multiset(users)[w.owner[c]]);
    }
  }

  lemma ListedOwner(w: World, c: ConnId)
    ensures Listed(w, c) ==> c in w.owner
  {
  }

  lemma OneOrNone(u: UserId, event: Event, v: UserId)
    ensures seq(multiset([u])[v], _ => event) == if u == v then [event] else []
  {
  }

  /** What a step adds to the events a connection has been offered. */
  lemma StepOffers(w: World, e: Step, c: ConnId)
    requires HubOk(w) && Enabled(w, e)
    ensures OfferedTo(Next(w, e), c) == OfferedTo(w, c) + Offers(w, e, c)
  {
    ListedConns(w, c);
    ConnsHaveBuffers(w);
    hide Conns, NoEmptySets, HandlersOk, Filed, Listed, ListsOthers, OfferTimes, DoConnect, DoUnregister;
    match e
    case Connect(d, u) => ConnectOffers(w, d, u, c); hide Offers, OfferedTo;
    case SendCurrent(_, _) =>
    case Resume =>
    case Unregister(d) => UnregisterOffers(w, d, c); hide Offers, OfferedTo;
    case Close(_) =>
    case Broadcast(_) =>
    case SendTo(users, event) => SendOffers(w, users, event, c); hide OfferTo;
    case SendError(u, message) =>
      SendOffers(w, [u], ErrorEvent(message), c);
      ListedOwner(w, c);
      OneOrNone(u, ErrorEvent(message), if c in w.owner then w.owner[c] else u);
      hide OfferTo;
    case Read(_) =>
    case Shutdown =>
  }

  // ---- announcements and decisions ----

  /** The decisions a stream of events announces. */
  function Announced(events: seq<Event>): seq<Decision> {
    if events == [] then [] else
    var before := Announced(events[..|events| - 1]);
    match events[|events| - 1]
    case UserOnline(u) => before + [WentOnline(u)]
    case UserOffline(u) => before + [WentOffline(u)]
    case CurrentUsers(_) => before
    case ErrorEvent(_) => before
    case ShutdownEvent => before
    case Other(_, _) => before
  }

  predicate Announces(event: Event) {
    event.UserOnline? || event.UserOffline?
  }

  lemma {:induction false} AnnouncedSplit(a: seq<Event>, b: seq<Event>)
    ensures Announced(a + b) == Announced(a) + Announced(b)
    decreases |b|
  {
    if b == [] {
      assert a + b == a;
    } else {
      assert (a + b)[..|a + b| - 1] == a + b[..|b| - 1] && (a + b)[|a + b| - 1] == b[|b| - 1];
      AnnouncedSplit(a, b[..|b| - 1]);
    }
  }

  /** A step of others while c stays: it does not unregister c, shuts nothing down, and what it sends
      are not announcements, which only the hub makes. */
  predicate Ordinary(e: Step, c: ConnId) {
    && e != Unregister(c) && e != Shutdown
    && (e.Broadcast? ==> !Announces(e.event)) && (e.SendTo? ==> !Announces(e.event))
  }

  lemma {:induction false} NothingAnnounced(n: nat, event: Event)
    requires !Announces(event)
    ensures Announced(seq(n, _ => event)) == []
  {
    if n > 0 {
      NothingAnnounced(n - 1, event);
      assert seq(n, _ => event)[..n - 1] == seq(n - 1, _ => event);
    }
  }

  /** A step announces to a connection that stays what it decides. */
  lemma StepAnnounces(w: World, e: Step, c: ConnId)
    requires HubOk(w) && Listed(w, c) && Ordinary(e, c)
    ensures Listed(Next(w, e), c)
    ensures OfferedTo(w, c) <= OfferedTo(Next(w, e), c)
    ensures Next(w, e).decisions == w.decisions + Announced(OfferedTo(Next(w, e), c)[|OfferedTo(w, c)|..])
  {
    if Enabled(w, e) {
      StepOffers(w, e, c);
      StepDecides(w, e, c);
      var a, b := OfferedTo(w, c), Offers(w, e, c);
      assert (a + b)[|a|..] == b;
      hide Offers, OfferedTo, Next, Announced, HubOk, Enabled, Listed;
    } else {
      assert OfferedTo(w, c)[|OfferedTo(w, c)|..] == [];
      assert w.decisions + [] == w.decisions;
    }
  }

  lemma OthersConnect(w: World, d: ConnId, u: UserId, c: ConnId)
    requires HubOk(w) && Enabled(w, Connect(d, u)) && Listed(w, c)
    ensures Listed(DoConnect(w, d, u), c)
    ensures DoConnect(w, d, u).decisions == w.decisions + Announced(Offers(w, Connect(d, u), c))
  {
    ConnectDecides(w, d, u);
    hide Conns, NoEmptySets, HandlersOk, OfferAll, First, Filed;
  }

  lemma OthersUnregister(w: World, d: ConnId, c: ConnId)
    requires HubOk(w) && Enabled(w, Unregister(d)) && Listed(w, c) && c != d
    ensures Listed(DoUnregister(w, d), c)
    ensures DoUnregister(w, d).decisions == w.decisions + Announced(Offers(w, Unregister(d), c))
  {
    assert c in w.clients[w.owner[c]] - {d};
    assert w.decisions + [] == w.decisions;
    hide Conns, NoEmptySets, HandlersOk, OfferAll, Filed;
  }

  lemma StepDecides(w: World, e: Step, c: ConnId)
    requires HubOk(w) && Enabled(w, e) && Listed(w, c) && Ordinary(e, c)
    ensures Listed(Next(w, e), c)
    ensures Next(w, e).decisions == w.decisions + Announced(Offers(w, e, c))
  {
    assert w.decisions + [] == w.decisions;
    hide HubOk, DoConnect, DoUnregister, OfferAll, OfferTo, ListsOthers;
    match e
    case Connect(d, u) => OthersConnect(w, d, u, c); hide Offers, Announced, Listed;
    case SendCurrent(_, _) =>
    case Resume =>
    case Unregister(d) => OthersUnregister(w, d, c); hide Offers, Announced, Listed;
    case Close(_) =>
    case Broadcast(_) =>
    case SendTo(users, event) => NothingAnnounced(multiset(users)[w.owner[c]], event);
    case SendError(_, _) =>
    case Read(_) =>
    case Shutdown =>
  }

  lemma AnnouncedTwice(d: seq<Decision>, d1: seq<Decision>, d2: seq<Decision>, x: seq<Event>, x1: seq<Event>,
          x2: seq<Event>)
    requires x <= x1 <= x2 && d1 == d + Announced(x1[|x|..]) && d2 == d1 + Announced(x2[|x1|..])
    ensures x <= x2 && d2 == d + Announced(x2[|x|..])
  {
    hide Announced;
    assert x2[|x|..] == x1[|x|..] + x2[|x1|..];
    AnnouncedSplit(x1[|x|..], x2[|x1|..]);
    assert (d + Announced(x1[|x|..])) + Announced(x2[|x1|..]) == d + (Announced(x1[|x|..]) + Announced(x2[|x1|..]));
  }

  lemma {:induction false} RunAnnounces(w: World, schedule: seq<Step>, c: ConnId)
    requires HubOk(w) && Listed(w, c) && forall e | e in schedule :: Ordinary(e, c)
    ensures var w' := Exec(w, schedule);
      && HubOk(w') && Listed(w', c) && OfferedTo(w, c) <= OfferedTo(w', c)
      && w'.decisions == w.decisions + Announced(OfferedTo(w', c)[|OfferedTo(w, c)|..])
    decreases |schedule|
  {
    assert Announced([]) == [];
    hide Next, HubOk, Listed, OfferedTo, Announced, Ordinary;
    if schedule == [] {
      assert OfferedTo(w, c)[|OfferedTo(w, c)|..] == [];
      assert w.decisions + [] == w.decisions;
    } else {
      assert schedule[0] in schedule && forall e | e in schedule[1..] :: e in schedule;
      var w1 := Next(w, schedule[0]);
      StepAnnounces(w, schedule[0], c);
      KeepHub(w, schedule[0]);
      RunAnnounces(w1, schedule[1..], c);
      var w2 := Exec(w1, schedule[1..]);
      AnnouncedTwice(w.decisions, w1.decisions, w2.decisions, OfferedTo(w, c), OfferedTo(w1, c), OfferedTo(w2, c));
    }
  }

  lemma ListedHasBuffer(w: World, c: ConnId)
    requires HubOk(w) && Listed(w, c)
    ensures c in w.buffers
  {
  }

  lemma ConnectDecides(w: World, c: ConnId, u: UserId)
    requires HubOk(w) && Enabled(w, Connect(c, u))
    ensures var w' := DoConnect(w, c, u);
      Listed(w', c) && w'.decisions == w.decisions + (if u !in w.clients then [WentOnline(u)] else [])
  {
    FirstExactlyWhen(w.clients, u, c);
    ListedConns(w, c);
    assert u in w.clients && c in w.clients[u] ==> c in Conns(w.clients);
    assert w.decisions + [] == w.decisions;
    hide Conns, NoEmptySets, HandlersOk, OfferAll, First;
  }

  lemma ConnectAnnounces(w: World, c: ConnId, u: UserId)
    requires HubOk(w) && Enabled(w, Connect(c, u))
    ensures var w' := Next(w, Connect(c, u));
      Listed(w', c) && w'.decisions == w.decisions + Announced(OfferedTo(w', c))
  {
    StepOffers(w, Connect(c, u), c);
    ConnectDecides(w, c, u);
    assert OfferedTo(w, c) == [];
    var offers := if u !in w.clients then [UserOnline(u)] else [];
    assert Offers(w, Connect(c, u), c) == offers;
    assert [] + offers == offers;
    hide HubOk, Listed, OfferedTo, Offers, DoConnect;
  }

  lemma {:induction false} AnnouncedFromConnect(w: World, c: ConnId, u: UserId, schedule: seq<Step>)
    requires HubOk(w) && Enabled(w, Connect(c, u)) && forall e | e in schedule :: Ordinary(e, c)
    ensures var w' := Exec(Next(w, Connect(c, u)), schedule);
      c in w'.buffers && w'.decisions == w.decisions + Announced(OfferedTo(w', c))
  {
    hide Next, Enabled, HubOk, Announced, Exec, Listed, Ordinary, OfferedTo;
    var w1 := Next(w, Connect(c, u));
    KeepHub(w, Connect(c, u));
    ConnectAnnounces(w, c, u);
    RunAnnounces(w1, schedule, c);
    var x1, x2 := OfferedTo(w1, c), OfferedTo(Exec(w1, schedule), c);
    assert x2 == x1 + x2[|x1|..];
    AnnouncedSplit(x1, x2[|x1|..]);
    assert (w.decisions + Announced(x1)) + Announced(x2[|x1|..])
      == w.decisions + (Announced(x1) + Announced(x2[|x1|..]));
    ListedHasBuffer(Exec(w1, schedule), c);
  }

  /** From the moment a connection is made, and as long as it stays, the announcements it is offered
      are, one for one and in order, the decisions the hub takes: its own user's going online, if it
      is the first connection, and every other user's coming and going. */
  lemma {:induction false} AnnouncementsAreDecisions(past: seq<Step>, c: ConnId, u: UserId, schedule: seq<Step>)
    requires Enabled(Exec(NewWorld, past), Connect(c, u)) && forall e | e in schedule :: Ordinary(e, c)
    ensures var w := Exec(NewWorld, past); var w' := Exec(Next(w, Connect(c, u)), schedule);
      c in w'.buffers && w'.decisions == w.decisions + Announced(w'.buffers[c].offered)
  {
    StartsOk();
    KeepExec(NewWorld, past);
    hide HubOk, Announced, Exec, Next, Enabled, Ordinary, BuffersOk, PresenceOk;
    AnnouncedFromConnect(Exec(NewWorld, past), c, u, schedule);
  }
}
