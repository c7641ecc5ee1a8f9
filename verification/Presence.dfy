/** Online presence and bounded per-connection buffers, over any interleaving of connects,
    disconnects, sends, reads and shutdowns. Each hub operation is one step. */
module Presence {
  type UserId = int
  type ConnId = nat

  /** make(chan Event, 512). */
  const CAPACITY: nat := 512

  datatype Event =
    | UserOnline(user: UserId)
    | UserOffline(user: UserId)
    | CurrentUsers(users: seq<UserId>)
    | ErrorEvent(message: string)
    | ShutdownEvent
    | Other(kind: string, payload: string)

  // ---- the map of sets ----

  /** RegisterClientConnection on the map. */
  function Added<C(==)>(m: map<UserId, set<C>>, u: UserId, c: C): map<UserId, set<C>> {
    m[u := (if u in m then m[u] else {}) + {c}]
  }

  /** UnRegisterClientConnection on the map: an emptied entry goes. */
  function Removed<C(==)>(m: map<UserId, set<C>>, u: UserId, c: C): map<UserId, set<C>> {
    if u !in m then m else if m[u] - {c} == {} then m - {u} else m[u := m[u] - {c}]
  }

  /** firstConn: does registering leave the user with one connection? */
  predicate First<C(==)>(m: map<UserId, set<C>>, u: UserId, c: C) {
    |Added(m, u, c)[u]| == 1
  }

  /** noConnectionLeft: was the user there, and is no connection left? */
  predicate LastGone<C(==)>(m: map<UserId, set<C>>, u: UserId, c: C) {
    u in m && m[u] - {c} == {}
  }

  predicate NoEmptySets<C>(m: map<UserId, set<C>>) {
    forall u | u in m :: m[u] != {}
  }

  lemma SingletonSize<C>(s: set<C>, c: C)
    requires c in s
    ensures |s| == 1 <==> s == {c}
  {
    assert s == (s - {c}) + {c};
    if |s| == 1 {
      assert |s - {c}| == 0;
    }
  }

  /** A connection is the first exactly if its user was not there, or had it as the only one: online
      is decided a second time exactly for a repeated registration of the only connection. */
  lemma FirstExactlyWhen<C>(m: map<UserId, set<C>>, u: UserId, c: C)
    requires NoEmptySets(m)
    ensures First(m, u, c) <==> u !in m || m[u] == {c}
  {
    SingletonSize(Added(m, u, c)[u], c);
    if u in m && m[u] + {c} == {c} {
      var x :| x in m[u];
      assert x in m[u] + {c};
      assert m[u] == {c};
    }
  }

  /** Removing twice is removing once, and the second time decides nothing. */
  lemma RemovedTwice<C>(m: map<UserId, set<C>>, u: UserId, c: C)
    requires NoEmptySets(m)
    ensures NoEmptySets(Removed(m, u, c))
    ensures Removed(Removed(m, u, c), u, c) == Removed(m, u, c) && !LastGone(Removed(m, u, c), u, c)
  {
    var once := Removed(m, u, c);
    if u in once {
      assert once[u] == m[u] - {c};
      assert once[u] - {c} == once[u];
      assert once[u := once[u]] == once;
    }
  }

  // ---- buffers ----

  /** A client's channel: what it was offered and has received are history, what it holds is not
      yet received. */
  datatype Buffer = Buffer(offered: seq<Event>, received: seq<Event>, held: seq<Event>)

  const EmptyBuffer: Buffer := Buffer([], [], [])

  /** The select of SendEvent: a full channel drops the event. */
  function Offer(b: Buffer, e: Event): Buffer {
    b.(offered := b.offered + [e], held := if |b.held| < CAPACITY then b.held + [e] else b.held)
  }

  function OfferTimes(b: Buffer, e: Event, n: nat): Buffer {
    if n == 0 then b else Offer(OfferTimes(b, e, n - 1), e)
  }

  /** The write pump takes the oldest event. */
  function Drain(b: Buffer): Buffer {
    if b.held == [] then b else b.(received := b.received + [b.held[0]], held := b.held[1..])
  }

  predicate Positions(a: seq<Event>, b: seq<Event>, pos: seq<nat>) {
    && |pos| == |a|
    && (forall i | 0 <= i < |pos| :: pos[i] < |b| && b[pos[i]] == a[i])
    && (forall i, k | 0 <= i < k < |pos| :: pos[i] < pos[k])
  }

  /** What was received, followed by what is held, is a subsequence of what was offered. */
  ghost predicate BufferOk(b: Buffer) {
    && |b.held| <= CAPACITY
    && exists pos: seq<nat> :: Positions(b.received + b.held, b.offered, pos)
  }

  lemma MoreOffered(a: seq<Event>, b: seq<Event>, pos: seq<nat>, e: Event)
    requires Positions(a, b, pos)
    ensures Positions(a, b + [e], pos)
    ensures Positions(a + [e], b + [e], pos + [|b|])
  {
  }

  lemma KeepOffer(b: Buffer, e: Event)
    requires BufferOk(b)
    ensures BufferOk(Offer(b, e))
  {
    var pos: seq<nat> :| Positions(b.received + b.held, b.offered, pos);
    MoreOffered(b.received + b.held, b.offered, pos, e);
    assert b.received + (b.held + [e]) == (b.received + b.held) + [e];
    hide Positions;
  }

  lemma {:induction false} KeepOfferTimes(b: Buffer, e: Event, n: nat)
    requires BufferOk(b)
    ensures BufferOk(OfferTimes(b, e, n))
  {
    if n > 0 {
      KeepOfferTimes(b, e, n - 1);
      KeepOffer(OfferTimes(b, e, n - 1), e);
    }
  }

  lemma KeepDrain(b: Buffer)
    requires BufferOk(b)
    ensures BufferOk(Drain(b))
  {
    var pos: seq<nat> :| Positions(b.received + b.held, b.offered, pos);
    assert Drain(b).received + Drain(b).held == b.received + b.held;
    assert Positions(Drain(b).received + Drain(b).held, Drain(b).offered, pos);
  }

  datatype BufferOp = Put(event: Event) | Take

  function Do(b: Buffer, op: BufferOp): Buffer {
    match op
    case Put(e) => Offer(b, e)
    case Take => Drain(b)
  }

  function DoAll(b: Buffer, ops: seq<BufferOp>): Buffer {
    if ops == [] then b else Do(DoAll(b, ops[..|ops| - 1]), ops[|ops| - 1])
  }

  /** How many of the events were offered to a full channel. */
  function FullOffers(b: Buffer, ops: seq<BufferOp>): nat {
    if ops == [] then 0 else
    var n := FullOffers(b, ops[..|ops| - 1]);
    if ops[|ops| - 1].Put? && |DoAll(b, ops[..|ops| - 1]).held| == CAPACITY then n + 1 else n
  }

  /** An event is lost exactly when it is offered to a full channel: the ones that were not are all
      received or held, in order, and nothing else is. */
  lemma {:induction false} LostExactlyWhenFull(ops: seq<BufferOp>)
    ensures var b := DoAll(EmptyBuffer, ops);
      && BufferOk(b)
      && |b.received| + |b.held| + FullOffers(EmptyBuffer, ops) == |b.offered|
      && (FullOffers(EmptyBuffer, ops) == 0 <==> b.received + b.held == b.offered)
    decreases |ops|
  {
    if ops == [] {
      assert Positions(EmptyBuffer.received + EmptyBuffer.held, EmptyBuffer.offered, []);
    } else {
      var before := DoAll(EmptyBuffer, ops[..|ops| - 1]);
      LostExactlyWhenFull(ops[..|ops| - 1]);
      match ops[|ops| - 1]
      case Put(e) =>
        KeepOffer(before, e);
        if |before.held| < CAPACITY {
          assert before.received + (before.held + [e]) == (before.received + before.held) + [e];
        } else {
          assert |before.received + before.held| < |before.offered + [e]|;
        }
      case Take =>
        KeepDrain(before);
        assert Drain(before).received + Drain(before).held == before.received + before.held;
    }
  }

  // ---- the machine ----

  datatype Decision = WentOnline(user: UserId) | WentOffline(user: UserId)

  /** The hub's lock between steps: free, or held by the handler that waits in the blocking
      send of the current users. */
  datatype Lock = Free | Waiting(conn: ConnId, users: seq<UserId>)

  datatype World = World(
    clients: map<UserId, set<ConnId>>,
    owner: map<ConnId, UserId>,           // every connection ever made
    buffers: map<ConnId, Buffer>,
    closed: set<ConnId>,
    shut: set<ConnId>,                    // history: closed by a shutdown
    greeted: set<ConnId>,                 // sent the current users; their write pumps run
    panicked: set<ConnId>,                // whose handler died in that send
    left: set<ConnId>,                    // whose handler has unregistered
    lock: Lock,
    decisions: seq<Decision>)             // since the last shutdown

  const NewWorld: World := World(map[], map[], map[], {}, {}, {}, {}, {}, Free, [])

  datatype Step =
    | Connect(conn: ConnId, user: UserId)
    | SendCurrent(conn: ConnId, users: seq<UserId>)
    | Resume
    | Unregister(conn: ConnId)
    | Close(conn: ConnId)
    | Broadcast(event: Event)
    | SendTo(users: seq<UserId>, event: Event)
    | SendError(user: UserId, message: string)
    | Read(conn: ConnId)
    | Shutdown

  /** Every connection that is filed somewhere. */
  function Conns<C(==)>(clients: map<UserId, set<C>>): set<C> {
    set u, c | u in clients && c in clients[u] :: c
  }

  /** Every connection of the map is offered the event once. */
  function OfferAll(w: World, event: Event): map<ConnId, Buffer> {
    map c | c in w.buffers :: if c in Conns(w.clients) then Offer(w.buffers[c], event) else w.buffers[c]
  }

  /** The connections of a user are offered the event once for each time the list names the user. */
  function OfferTo(w: World, users: seq<UserId>, event: Event): map<ConnId, Buffer> {
    map c | c in w.buffers ::
      if c in Conns(w.clients) && c in w.owner then OfferTimes(w.buffers[c], event, multiset(users)[w.owner[c]])
          else w.buffers[c]
  }

  /** The other users of the map, in some order. */
  predicate ListsOthers<C>(clients: map<UserId, set<C>>, me: UserId, users: seq<UserId>) {
    && (forall u | u in users :: u in clients && u != me)
    && (forall u | u in clients :: u != me ==> u in users)
    && (forall i, k | 0 <= i < k < |users| :: users[i] != users[k])
  }

  /** The connections whose channel a step sends to, or tries to. */
  function Targets(w: World, e: Step): set<ConnId> {
    match e
    case Connect(c, u) => if First(w.clients, u, c) then Conns(Added(w.clients, u, c)) else {}
    case SendCurrent(c, _) => {c}
    case Resume => if w.lock.Waiting? then {w.lock.conn} else {}
    case Unregister(c) =>
      if c in w.owner && LastGone(w.clients, w.owner[c], c) then Conns(Removed(w.clients, w.owner[c], c)) else {}
    case Broadcast(_) => Conns(w.clients)
    case SendTo(users, _) => set c | c in Conns(w.clients) && c in w.owner && w.owner[c] in users
    case SendError(u, _) => if u in w.clients then w.clients[u] else {}
    case Shutdown => Conns(w.clients)
    case Close(_) => {}
    case Read(_) => {}
  }

  predicate Full(w: World, c: ConnId) {
    c in w.buffers && |w.buffers[c].held| >= CAPACITY
  }

  /** A handler makes its connection and registers it, sends it the current users, starts the write
      pump that reads the channel, and in the end unregisters and then closes it. Every operation of
      the hub needs its lock; reading and closing a channel do not. */
  predicate Enabled(w: World, e: Step) {
    match e
    case Connect(c, _) => w.lock == Free && c !in w.owner
    case SendCurrent(c, users) =>
      w.lock == Free && c in w.owner && c !in w.greeted && c !in w.panicked && ListsOthers(w.clients, w.owner[c], users)
    case Resume => w.lock.Waiting? && w.lock.conn in w.buffers && !Full(w, w.lock.conn)
    case Unregister(c) => w.lock == Free && c in w.owner && c in w.greeted
    case Close(c) => c in w.left
    case Broadcast(_) => w.lock == Free
    case SendTo(_, _) => w.lock == Free
    case SendError(_, _) => w.lock == Free
    case Read(c) => c in w.greeted && c in w.buffers
    case Shutdown => w.lock == Free
  }

  function DoConnect(w: World, c: ConnId, u: UserId): World {
    var w1 := w.(clients := Added(w.clients, u, c), owner := w.owner[c := u], buffers := w.buffers[c := EmptyBuffer]);
    if First(w.clients, u, c) then
      w1.(buffers := OfferAll(w1, UserOnline(u)), decisions := w.decisions + [WentOnline(u)])
    else w1
  }

  function Greet(w: World, c: ConnId, users: seq<UserId>): World
    requires c in w.buffers
  {
    w.(buffers := w.buffers[c := Offer(w.buffers[c], CurrentUsers(users))], greeted := w.greeted + {c}, lock := Free)
  }

  /** SentCurrentClients: a send on a closed channel panics, and the deferred unlock releases the lock;
      a send on a full one waits with the lock held. */
  function DoSendCurrent(w: World, c: ConnId, users: seq<UserId>): World {
    if c in w.closed then w.(panicked := w.panicked + {c})
    else if c in w.buffers && !Full(w, c) then Greet(w, c, users)
    else w.(lock := Waiting(c, users))
  }

  function DoUnregister(w: World, c: ConnId): World
    requires c in w.owner
  {
    var u := w.owner[c];
    var w1 := w.(clients := Removed(w.clients, u, c), left := w.left + {c});
    if LastGone(w.clients, u, c) then
      w1.(buffers := OfferAll(w1, UserOffline(u)), decisions := w.decisions + [WentOffline(u)])
    else w1
  }

  function DoShutdown(w: World): World {
    w.(buffers := OfferAll(w, ShutdownEvent), closed := w.closed + Conns(w.clients), shut := w.shut + Conns(w.clients),
       clients := map[], decisions := [])
  }

  function Next(w: World, e: Step): World {
    if !Enabled(w, e) then w else
    match e
    case Connect(c, u) => DoConnect(w, c, u)
    case SendCurrent(c, users) => DoSendCurrent(w, c, users)
    case Resume => Greet(w, w.lock.conn, w.lock.users)
    case Unregister(c) => DoUnregister(w, c)
    case Close(c) => w.(closed := w.closed + {c})
    case Broadcast(event) => w.(buffers := OfferAll(w, event))
    case SendTo(users, event) => w.(buffers := OfferTo(w, users, event))
    case SendError(u, message) => w.(buffers := OfferTo(w, [u], ErrorEvent(message)))
    case Read(c) => w.(buffers := w.buffers[c := Drain(w.buffers[c])])
    case Shutdown => DoShutdown(w)
  }

  function Exec(w: World, schedule: seq<Step>): World
    decreases |schedule|
  {
    if schedule == [] then w else Exec(Next(w, schedule[0]), schedule[1..])
  }

  // ---- what every step keeps ----

  predicate Filed(clients: map<UserId, set<ConnId>>, owner: map<ConnId, UserId>) {
    forall u, c | u in clients && c in clients[u] :: c in owner && owner[c] == u
  }

  /** How far the handlers are: only greeted connections leave, and a channel is closed by a shutdown
      or by its own handler after leaving. A handler that waits with the lock waits on an open, full
      channel that nobody reads yet. */
  predicate HandlersOk(w: World) {
    && w.greeted <= w.owner.Keys && w.left <= w.greeted && w.shut <= w.closed <= w.shut + w.left
    && w.closed <= w.owner.Keys
    && (w.lock.Waiting? ==>
          var c := w.lock.conn;
          c in w.owner && c !in w.greeted && c !in w.panicked && c !in w.closed && Full(w, c))
  }

  predicate HubOk(w: World) {
    && NoEmptySets(w.clients)
    && Filed(w.clients, w.owner)
    && Conns(w.clients) !! w.closed
    && Conns(w.clients) !! w.left
    && w.owner.Keys == w.buffers.Keys
    && HandlersOk(w)
  }

  ghost predicate BuffersOk(w: World) {
    forall c | c in w.buffers :: BufferOk(w.buffers[c])
  }

  /** The decisions about one user. */
  function About(decisions: seq<Decision>, u: UserId): seq<bool> {
    if decisions == [] then [] else
    var before := About(decisions[..|decisions| - 1], u);
    var d := decisions[|decisions| - 1];
    if d.user == u then before + [d.WentOnline?] else before
  }

  /** Online first, then offline and online in turn; the user is there exactly if the last was online. */
  predicate Alternates(log: seq<bool>, there: bool) {
    && (forall i | 0 <= i < |log| :: log[i] == (i % 2 == 0))
    && (there <==> log != [] && log[|log| - 1])
  }

  ghost predicate PresenceOk(w: World) {
    forall u :: Alternates(About(w.decisions, u), u in w.clients)
  }

  ghost predicate Inv(w: World) {
    HubOk(w) && BuffersOk(w) && PresenceOk(w)
  }

  lemma AddedConns<C>(m: map<UserId, set<C>>, u: UserId, c: C)
    ensures Conns(Added(m, u, c)) == Conns(m) + {c}
  {
    var m' := Added(m, u, c);
    forall x | x in Conns(m') ensures x in Conns(m) + {c} {
      var v :| v in m' && x in m'[v];
      if x != c {
        assert v in m && x in m[v];
      }
    }
    forall x | x in Conns(m) + {c} ensures x in Conns(m') {
      if x == c {
        assert c in m'[u];
      } else {
        var v :| v in m && x in m[v];
        assert x in m'[v];
      }
    }
  }

  lemma RemovedConns<C>(m: map<UserId, set<C>>, u: UserId, c: C)
    requires forall v | v in m :: c in m[v] ==> v == u
    ensures Conns(Removed(m, u, c)) == Conns(m) - {c}
  {
    var m' := Removed(m, u, c);
    forall x | x in Conns(m') ensures x in Conns(m) - {c} {
      var v :| v in m' && x in m'[v];
      assert x in m[v];
    }
    forall x | x in Conns(m) - {c} ensures x in Conns(m') {
      var v :| v in m && x in m[v];
      assert v in m' && x in m'[v];
    }
  }

  lemma UserConns<C>(clients: map<UserId, set<C>>, u: UserId)
    requires u in clients
    ensures clients[u] <= Conns(clients)
  {
  }

  lemma AddedOk(m: map<UserId, set<ConnId>>, owner: map<ConnId, UserId>, u: UserId, c: ConnId)
    requires NoEmptySets(m) && Filed(m, owner) && c !in owner
    ensures NoEmptySets(Added(m, u, c)) && Filed(Added(m, u, c), owner[c := u])
  {
    assert c in Added(m, u, c)[u];
  }

  lemma RemovedOk(m: map<UserId, set<ConnId>>, owner: map<ConnId, UserId>, u: UserId, c: ConnId)
    requires NoEmptySets(m) && Filed(m, owner)
    ensures NoEmptySets(Removed(m, u, c)) && Filed(Removed(m, u, c), owner)
  {
  }

  lemma OffersKeepKeys(w: World, event: Event, users: seq<UserId>)
    ensures OfferAll(w, event).Keys == w.buffers.Keys && OfferTo(w, users, event).Keys == w.buffers.Keys
  {
  }

  lemma AnnouncedOk(w: World, event: Event, decisions: seq<Decision>)
    requires HubOk(w) && w.lock == Free
    ensures HubOk(w.(buffers := OfferAll(w, event), decisions := decisions))
  {
    OffersKeepKeys(w, event, []);
    hide Conns, NoEmptySets, Filed, OfferAll;
  }

  lemma KeepConnect(w: World, c: ConnId, u: UserId)
    requires HubOk(w) && c !in w.owner && w.lock == Free
    ensures HubOk(DoConnect(w, c, u))
  {
    var w1 := w.(clients := Added(w.clients, u, c), owner := w.owner[c := u], buffers := w.buffers[c := EmptyBuffer]);
    assert HubOk(w1) by {
      AddedConns(w.clients, u, c);
      AddedOk(w.clients, w.owner, u, c);
      hide Conns, NoEmptySets, Filed, Added;
    }
    hide HubOk, First, Added;
    AnnouncedOk(w1, UserOnline(u), w.decisions + [WentOnline(u)]);
  }

  lemma KeepUnregister(w: World, c: ConnId)
    requires HubOk(w) && c in w.owner && c in w.greeted && w.lock == Free
    ensures HubOk(DoUnregister(w, c))
  {
    var u := w.owner[c];
    var w1 := w.(clients := Removed(w.clients, u, c), left := w.left + {c});
    assert HubOk(w1) by {
      RemovedConns(w.clients, w.owner[c], c);
      RemovedOk(w.clients, w.owner, u, c);
      hide Conns, NoEmptySets, Filed, Removed;
    }
    hide HubOk, LastGone, Removed;
    AnnouncedOk(w1, UserOffline(u), w.decisions + [WentOffline(u)]);
  }

  lemma KeepShutdown(w: World)
    requires HubOk(w) && w.lock == Free
    ensures HubOk(DoShutdown(w))
  {
    OffersKeepKeys(w, ShutdownEvent, []);
    ConnsAreOwned(w);
    assert Conns<ConnId>(map[]) == {};
    hide OfferAll, Conns;
  }

  lemma KeepSendCurrent(w: World, c: ConnId, users: seq<UserId>)
    requires HubOk(w) && Enabled(w, SendCurrent(c, users))
    ensures HubOk(DoSendCurrent(w, c, users))
  {
    hide Conns, NoEmptySets, Filed, ListsOthers;
  }

  lemma KeepRead(w: World, c: ConnId)
    requires HubOk(w) && Enabled(w, Read(c))
    ensures HubOk(w.(buffers := w.buffers[c := Drain(w.buffers[c])]))
  {
    hide Conns, NoEmptySets, Filed;
  }

  /** The wait never ends: nobody reads the channel before its handler is through. */
  lemma NeverResumed(w: World)
    requires HubOk(w)
    ensures !Enabled(w, Resume)
  {
    hide Conns, NoEmptySets, Filed;
  }

  lemma KeepHub(w: World, e: Step)
    requires HubOk(w)
    ensures HubOk(Next(w, e))
  {
    hide Conns, NoEmptySets, Filed, ListsOthers, DoConnect, DoSendCurrent, DoUnregister, DoShutdown, OfferAll, OfferTo;
    if Enabled(w, e) {
      match e
      case Connect(c, u) => KeepConnect(w, c, u); hide HubOk;
      case SendCurrent(c, users) => KeepSendCurrent(w, c, users); hide HubOk;
      case Resume => NeverResumed(w);
      case Unregister(c) => KeepUnregister(w, c); hide HubOk;
      case Close(_) =>
      case Broadcast(event) => OffersKeepKeys(w, event, []);
      case SendTo(users, event) => OffersKeepKeys(w, event, users);
      case SendError(u, message) => OffersKeepKeys(w, ErrorEvent(message), [u]);
      case Read(c) => KeepRead(w, c); hide HubOk;
      case Shutdown => KeepShutdown(w); hide HubOk;
    }
  }

  lemma ConnsAreOwned(w: World)
    requires HubOk(w)
    ensures Conns(w.clients) <= w.owner.Keys
  {
  }

  lemma OfferAllOk(w: World, event: Event)
    requires BuffersOk(w)
    ensures forall c | c in OfferAll(w, event) :: BufferOk(OfferAll(w, event)[c])
  {
    hide BufferOk, Offer;
    forall c | c in w.buffers ensures BufferOk(OfferAll(w, event)[c]) {
      KeepOffer(w.buffers[c], event);
    }
  }

  lemma OfferToOk(w: World, users: seq<UserId>, event: Event)
    requires BuffersOk(w)
    ensures forall c | c in OfferTo(w, users, event) :: BufferOk(OfferTo(w, users, event)[c])
  {
    hide BufferOk, OfferTimes;
    forall c | c in w.buffers ensures BufferOk(OfferTo(w, users, event)[c]) {
      if c in w.owner {
        KeepOfferTimes(w.buffers[c], event, multiset(users)[w.owner[c]]);
      }
    }
  }

  lemma KeepBuffers(w: World, e: Step)
    requires BuffersOk(w)
    ensures BuffersOk(Next(w, e))
  {
    if Enabled(w, e) {
      match e
      case Connect(c, u) =>
        assert BufferOk(EmptyBuffer) by {
          assert Positions(EmptyBuffer.received + EmptyBuffer.held, EmptyBuffer.offered, []);
        }
        var w1 := w.(clients := Added(w.clients, u, c), owner := w.owner[c := u],
            buffers := w.buffers[c := EmptyBuffer]);
        OfferAllOk(w1, UserOnline(u));
        hide BufferOk, OfferAll, Conns, First;
      case SendCurrent(c, users) =>
        if c in w.buffers {
          KeepOffer(w.buffers[c], CurrentUsers(users));
        }
        hide BufferOk, Conns, Offer, ListsOthers;
      case Resume => KeepOffer(w.buffers[w.lock.conn], CurrentUsers(w.lock.users)); hide BufferOk, Conns, Offer;
      case Unregister(c) =>
        var w1 := w.(clients := Removed(w.clients, w.owner[c], c), left := w.left + {c});
        OfferAllOk(w1, UserOffline(w.owner[c]));
        hide BufferOk, OfferAll, Conns;
      case Close(_) => hide BufferOk;
      case Broadcast(event) => OfferAllOk(w, event); hide BufferOk, OfferAll;
      case SendTo(users, event) => OfferToOk(w, users, event); hide BufferOk, OfferTo;
      case SendError(u, message) => OfferToOk(w, [u], ErrorEvent(message)); hide BufferOk, OfferTo;
      case Read(c) => KeepDrain(w.buffers[c]); hide BufferOk, Drain;
      case Shutdown => OfferAllOk(w, ShutdownEvent); hide BufferOk, OfferAll;
    }
  }

  /** One more decision about a user, that contradicts where it was. */
  lemma OneMoreDecision(decisions: seq<Decision>, d: Decision, u: UserId, there: bool)
    requires Alternates(About(decisions, u), there)
    requires d.user == u ==> d.WentOnline? == !there
    ensures Alternates(About(decisions + [d], u), if d.user == u then d.WentOnline? else there)
  {
    assert (decisions + [d])[..|decisions|] == decisions;
  }

  lemma KeepPresence(w: World, e: Step)
    requires HubOk(w) && PresenceOk(w)
    ensures PresenceOk(Next(w, e))
  {
    var w' := Next(w, e);
    forall u ensures Alternates(About(w'.decisions, u), u in w'.clients) {
      assert Alternates(About(w.decisions, u), u in w.clients);
      if e.Connect? && Enabled(w, e) {
        FirstExactlyWhen(w.clients, e.user, e.conn);
        if First(w.clients, e.user, e.conn) {
          OneMoreDecision(w.decisions, WentOnline(e.user), u, u in w.clients);
        }
      } else if e.Unregister? && Enabled(w, e) {
        var v := w.owner[e.conn];
        if LastGone(w.clients, v, e.conn) {
          OneMoreDecision(w.decisions, WentOffline(v), u, u in w.clients);
        }
      } else {
        hide About;
        OtherSteps(w, e);
      }
    }
  }

  lemma OtherSteps(w: World, e: Step)
    requires !Enabled(w, e) || !(e.Connect? || e.Unregister?)
    ensures if Enabled(w, e) && e.Shutdown? then Next(w, e).decisions == [] && Next(w, e).clients == map[]
            else Next(w, e).decisions == w.decisions && Next(w, e).clients == w.clients
  {
  }

  lemma {:induction false} KeepExec(w: World, schedule: seq<Step>)
    requires Inv(w)
    ensures Inv(Exec(w, schedule))
    decreases |schedule|
  {
    if schedule != [] {
      KeepHub(w, schedule[0]);
      KeepBuffers(w, schedule[0]);
      KeepPresence(w, schedule[0]);
      hide HubOk, BuffersOk, PresenceOk, Next;
      KeepExec(Next(w, schedule[0]), schedule[1..]);
    }
  }

  lemma StartsOk()
    ensures Inv(NewWorld)
  {
    assert Conns<ConnId>(map[]) == {};
  }
}
