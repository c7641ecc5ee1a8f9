/** The hub and its clients as they change in place: a map of sets of connections, each with a
    bounded channel. Every method is one critical section. */
module Hub {
  import opened Jobs
  import opened Presence

  class Client {
    const user: UserId
    var send: seq<Event>
    var closed: bool
    ghost var offered: seq<Event>
    ghost var received: seq<Event>

    constructor (user: UserId)
      ensures this.user == user && !closed && View() == EmptyBuffer
    {
      this.user, send, closed, offered, received := user, [], false, [], [];
    }

    ghost function View(): Buffer
      reads this
    {
      Buffer(offered, received, send)
    }

    /** A send that takes the default branch when the channel is full; sending on a closed channel
        would panic. */
    method SendEvent(event: Event)
      requires !closed
      modifies `send, `offered
      ensures View() == Offer(old(View()), event)
    {
      if |send| < CAPACITY {
        send := send + [event];
      }
      offered := offered + [event];
    }

    /** One receive of the write pump. */
    method Receive() returns (event: Option<Event>)
      modifies `send, `received
      ensures View() == Drain(old(View()))
      ensures event == if old(send) == [] then None else Some(old(send)[0])
    {
      if send == [] {
        return None;
      }
      event := Some(send[0]);
      received := received + [send[0]];
      send := send[1..];
    }

    /** once.Do: closing again does nothing. */
    method Close()
      modifies `closed
      ensures closed
    {
      if !closed {
        closed := true;
      }
    }
  }

  /** Everyone is filed under their own user. */
  predicate FiledUnder(clients: map<UserId, set<Client>>) {
    forall u, c | u in clients && c in clients[u] :: c.user == u
  }

  lemma AddedFiled(clients: map<UserId, set<Client>>, c: Client)
    requires FiledUnder(clients) && NoEmptySets(clients)
    ensures FiledUnder(Added(clients, c.user, c)) && NoEmptySets(Added(clients, c.user, c))
    ensures Conns(Added(clients, c.user, c)) == Conns(clients) + {c}
  {
    AddedConns(clients, c.user, c);
    hide Conns;
    assert c in Added(clients, c.user, c)[c.user];
  }

  lemma AddedEntry(clients: map<UserId, set<Client>>, c: Client, conns: set<Client>)
    requires conns == (if c.user in clients then clients[c.user] else {}) + {c}
    ensures clients[c.user := conns] == Added(clients, c.user, c)
    ensures First(clients, c.user, c) <==> |conns| == 1
  {
  }

  lemma RemovedFiled(clients: map<UserId, set<Client>>, c: Client)
    requires FiledUnder(clients) && NoEmptySets(clients)
    ensures FiledUnder(Removed(clients, c.user, c)) && NoEmptySets(Removed(clients, c.user, c))
    ensures Conns(Removed(clients, c.user, c)) == Conns(clients) - {c}
  {
    RemovedConns(clients, c.user, c);
    hide Conns;
  }

  lemma NobodyThere()
    ensures NoEmptySets<Client>(map[]) && FiledUnder(map[]) && Conns<Client>(map[]) == {}
  {
  }

  lemma SomeUser(users: set<UserId>)
    ensures users != {} ==> exists u :: u in users
  {
    if !exists u :: u in users {
      assert users == {};
    }
  }

  /** Nobody has a connection that is new to the hub. */
  lemma NewUserIsFirst(clients: map<UserId, set<Client>>, c: Client)
    requires c !in Conns(clients)
    ensures c.user in clients ==> clients[c.user] != {c}
  {
    assert c.user in clients && c in clients[c.user] ==> c in Conns(clients);
  }

  lemma LastConnection(clients: map<UserId, set<Client>>, c: Client)
    ensures LastGone(clients, c.user, c) <==> c.user in clients && clients[c.user] <= {c}
  {
  }

  /** How a blocking send ends: it is through, it waits for room, or it panics. */
  datatype Sending = Sent | Blocks | Panics

  class Hub {
    var clients: map<UserId, set<Client>>

    /** No empty entry, everyone filed under their own user, and no channel closed. */
    ghost predicate Valid()
      reads this, Conns(clients)
    {
      && NoEmptySets(clients) && FiledUnder(clients)
      && forall c | c in Conns(clients) :: !c.closed
    }

    constructor ()
      ensures Valid() && clients == map[]
    {
      clients := map[];
    }

    /** The loop over one user's connections. */
    method SendToConnections(conns: set<Client>, event: Event)
      requires forall c | c in conns :: !c.closed
      modifies conns
      ensures forall c | c in conns :: c.View() == Offer(old(c.View()), event) && !c.closed
    {
      var left := conns;
      while left != {}
        invariant left <= conns
        invariant forall c | c in conns :: !c.closed
        invariant forall c | c in left :: c.View() == old(c.View())
        invariant forall c | c in conns - left :: c.View() == Offer(old(c.View()), event)
        decreases |left|
      {
        var client :| client in left;
        client.SendEvent(event);
        left := left - {client};
      }
    }

    method BroadcastToAll(event: Event)
      requires Valid()
      modifies Conns(clients)
      ensures Valid() && clients == old(clients)
      ensures forall c | c in Conns(clients) :: c.View() == Offer(old(c.View()), event)
    {
      var users: set<UserId> := clients.Keys;
      while users != {}
        invariant users <= clients.Keys && Valid()
        invariant forall c | c in Conns(clients) ::
            c.View() == if c.user in users then old(c.View()) else Offer(old(c.View()), event)
        decreases |users|
      {
        SomeUser(users);
        var u :| u in users;
        UserConns(clients, u);
        SendToConnections(clients[u], event);
        users := users - {u};
      }
    }

    /** The connections of a user, each once, if there are any. */
    method GetClients(userId: UserId) returns (conns: Option<seq<Client>>)
      requires Valid()
      ensures conns.Some? <==> userId in clients
      ensures conns.Some? ==> multiset(conns.value) == multiset(clients[userId])
    {
      if userId !in clients || |clients[userId]| < 1 {
        return None;
      }
      var left, found := clients[userId], [];
      while left != {}
        invariant left <= clients[userId]
        invariant multiset(found) + multiset(left) == multiset(clients[userId])
        decreases |left|
      {
        var client :| client in left;
        found := found + [client];
        left := left - {client};
      }
      conns := Some(found);
    }

    /** One user's connections get the event once, if there are any. */
    method SendToUser(userId: UserId, event: Event)
      requires Valid()
      modifies Conns(clients)
      ensures Valid()
      ensures forall c | c in Conns(clients) ::
        c.View() == if c.user == userId then Offer(old(c.View()), event) else old(c.View())
    {
      if userId in clients {
        UserConns(clients, userId);
        SendToConnections(clients[userId], event);
      }
    }

    /** Each listed user's connections get the event, once for each time the user is listed. */
    method SendEventToUserIds(userIds: seq<UserId>, event: Event)
      requires Valid()
      modifies Conns(clients)
      ensures Valid()
      ensures forall c | c in Conns(clients) :: c.View() == OfferTimes(old(c.View()), event, multiset(userIds)[c.user])
    {
      hide NoEmptySets, FiledUnder, Offer;
      for i := 0 to |userIds|
        invariant Valid()
        invariant forall c | c in Conns(clients) ::
            c.View() == OfferTimes(old(c.View()), event, multiset(userIds[..i])[c.user])
      {
        assert userIds[..i + 1] == userIds[..i] + [userIds[i]];
        SendToUser(userIds[i], event);
      }
      assert userIds[..|userIds|] == userIds;
    }

    method SendError(userId: UserId, message: string)
      requires Valid()
      modifies Conns(clients)
      ensures Valid()
      ensures forall c | c in Conns(clients) ::
        c.View() == if c.user == userId then Offer(old(c.View()), ErrorEvent(message)) else old(c.View())
    {
      if userId !in clients || |clients[userId]| < 1 {
        return;
      }
      SendToUser(userId, ErrorEvent(message));
    }

    /** The part of registering that holds the lock. */
    method AddConnection(client: Client) returns (first: bool)
      requires Valid() && !client.closed
      modifies `clients
      ensures Valid() && clients == Added(old(clients), client.user, client)
      ensures first <==> First(old(clients), client.user, client)
      ensures Conns(clients) == old(Conns(clients)) + {client}
    {
      var conns := if client.user in clients then clients[client.user] else {};
      conns := conns + {client};
      AddedEntry(clients, client, conns);
      AddedFiled(clients, client);
      hide Conns, NoEmptySets, FiledUnder, Added, First, Offer;
      clients := clients[client.user := conns];
      first := |conns| == 1;
    }

    /** Files the connection under its user; for the first one everyone, the new one included, hears
        that the user is online. The result says whether the delivery update is started too. */
    method RegisterClientConnection(client: Client) returns (first: bool)
      requires Valid() && !client.closed
      modifies this, Conns(clients), client
      ensures Valid() && clients == Added(old(clients), client.user, client)
      ensures first <==> First(old(clients), client.user, client)
      ensures Conns(clients) == old(Conns(clients)) + {client}
      ensures forall c | c in Conns(clients) ::
          c.View() == if first then Offer(old(c.View()), UserOnline(client.user)) else old(c.View())
    {
      first := AddConnection(client);
      hide Conns, NoEmptySets, FiledUnder, Added, First, Offer;
      if first {
        BroadcastToAll(UserOnline(client.user));
      }
    }

    /** Drops the connection; when a user's last one goes, everyone left hears that it is offline. */
    method UnRegisterClientConnection(client: Client) returns (gone: bool)
      requires Valid()
      modifies this, Conns(clients)
      ensures Valid() && clients == Removed(old(clients), client.user, client)
      ensures gone <==> LastGone(old(clients), client.user, client)
      ensures Conns(clients) == old(Conns(clients)) - {client}
      ensures client.View() == old(client.View()) && client.closed == old(client.closed)
      ensures forall c | c in Conns(clients) ::
          c.View() == if gone then Offer(old(c.View()), UserOffline(client.user)) else old(c.View())
    {
      RemovedFiled(clients, client);
      hide Conns, NoEmptySets, FiledUnder;
      if client.user !in clients {
        return false;
      }
      var conns := clients[client.user] - {client};
      gone := conns == {};
      clients := if gone then clients - {client.user} else clients[client.user := conns];
      if gone {
        BroadcastToAll(UserOffline(client.user));
      }
    }

    /** One event with the other users, each once, by a blocking send under the hub's lock: on a closed
        channel it panics, on a full one it does not return. */
    method SentCurrentClients(client: Client) returns (sending: Sending)
      requires Valid()
      modifies client`send, client`offered
      ensures Valid()
      ensures sending == Panics <==> client.closed
      ensures sending == Blocks <==> !client.closed && |old(client.send)| >= CAPACITY
      ensures sending != Sent ==> client.View() == old(client.View())
      ensures sending == Sent ==> exists users ::
        ListsOthers(clients, client.user, users) && client.View() == Offer(old(client.View()), CurrentUsers(users))
    {
      var left, users := clients.Keys, [];
      while left != {}
        invariant left <= clients.Keys && client.View() == old(client.View())
        invariant forall u | u in users :: u in clients && u != client.user && u !in left
        invariant forall u | u in clients && u !in left :: u != client.user ==> u in users
        invariant forall i, k | 0 <= i < k < |users| :: users[i] != users[k]
        decreases |left|
      {
        SomeUser(left);
        var u :| u in left;
        left := left - {u};
        if u != client.user {
          var some :| some in clients[u];
          users := users + [some.user];
        }
      }
      if client.closed {
        return Panics;
      }
      if |client.send| >= CAPACITY {
        return Blocks;
      }
      client.send := client.send + [CurrentUsers(users)];
      client.offered := client.offered + [CurrentUsers(users)];
      assert ListsOthers(clients, client.user, users);
      assert client.View() == Offer(old(client.View()), CurrentUsers(users));
      sending := Sent;
    }

    /** Tells every client and closes its channel, in that order, and forgets them all. */
    method Shutdown()
      requires Valid()
      modifies this, Conns(clients)
      ensures Valid() && clients == map[]
      ensures forall c | c in old(Conns(clients)) :: c.closed && c.View() == Offer(old(c.View()), ShutdownEvent)
    {
      var left := Conns(clients);
      ghost var all := left;
      NobodyThere();
      hide NoEmptySets, FiledUnder, Offer;
      while left != {}
        invariant left <= all == old(Conns(clients))
        invariant clients == old(clients)
        invariant forall c | c in left :: !c.closed && c.View() == old(c.View())
        invariant forall c | c in all - left :: c.closed && c.View() == Offer(old(c.View()), ShutdownEvent)
        decreases |left|
      {
        var client :| client in left;
        client.SendEvent(ShutdownEvent);
        client.Close();
        left := left - {client};
      }
      clients := map[];
    }

    // ---- the life of one connection (routes/websocket.go) ----

    /** NewClient, and registering it. */
    method Join(user: UserId) returns (client: Client)
      requires Valid()
      modifies this, Conns(clients)
      ensures Valid() && fresh(client) && client.user == user && client in Conns(clients)
      ensures clients == Added(old(clients), user, client)
      ensures client.View() == if user in old(clients) then EmptyBuffer else Offer(EmptyBuffer, UserOnline(user))
      ensures forall c | c in old(Conns(clients)) ::
        c.View() == if user in old(clients) then old(c.View()) else Offer(old(c.View()), UserOnline(user))
    {
      client := new Client(user);
      FirstExactlyWhen(clients, user, client);
      NewUserIsFirst(clients, client);
      assert forall c | c in Conns(clients) :: c != client && c.View() == old(c.View());
      hide Conns, NoEmptySets, FiledUnder, Added, First, Offer;
      var _ := RegisterClientConnection(client);
    }

    /** A new connection is registered and then sent the other users. The first things it is offered
        are its own online event, if it is its user's first, and that list. The others hear that the user
        is online exactly if it was not there. */
    method Connect(user: UserId) returns (client: Client)
      requires Valid()
      modifies this, Conns(clients)
      ensures Valid() && fresh(client) && client.user == user && client in Conns(clients)
      ensures clients == Added(old(clients), user, client)
      ensures exists users :: (
        && ListsOthers(clients, user, users)
        && client.View().offered == (if user in old(clients) then [] else [UserOnline(user)]) + [CurrentUsers(users)])
      ensures forall c | c in old(Conns(clients)) ::
        c.View() == if user in old(clients) then old(c.View()) else Offer(old(c.View()), UserOnline(user))
    {
      client := Join(user);
      assert forall c | c in old(Conns(clients)) :: c != client;
      assert !client.closed;
      hide Conns, NoEmptySets, FiledUnder, Added, ListsOthers;
      var sending := SentCurrentClients(client);
      assert sending == Sent;
    }

    /** The deferred end of the handler: unregister first, then close, so that a channel is never
        closed while the hub can send to it. Everyone left hears that the user is offline exactly if
        this was its last connection. */
    method Disconnect(client: Client)
      requires Valid()
      modifies this, Conns(clients), client
      ensures Valid() && client.closed && clients == Removed(old(clients), client.user, client)
      ensures client !in Conns(clients) && client.View() == old(client.View())
      ensures forall c | c in Conns(clients) ::
        c.View() == if client.user in old(clients) && old(clients)[client.user] <= {client} then
                      Offer(old(c.View()), UserOffline(client.user))
                    else old(c.View())
    {
      LastConnection(clients, client);
      var _ := UnRegisterClientConnection(client);
      client.Close();
    }
  }
}
