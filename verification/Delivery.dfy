/** Delivery and read marks on messages: the one UPDATE that runs when a user comes online against
    marking the messages one by one. */
module Delivery {
  type UserId = int

  datatype Message = Message(sender: UserId, conversation: nat, content: string, delivered: bool, read: bool)

  /** The conversations table, as far as the update looks at it. */
  type Members = map<nat, (UserId, UserId)>

  predicate TakesPart(privates: Members, conversation: nat, user: UserId) {
    conversation in privates && (privates[conversation].0 == user || privates[conversation].1 == user)
  }

  /** The WHERE clause: undelivered, from someone else, in one of the user's conversations. */
  predicate Incoming(m: Message, privates: Members, user: UserId) {
    !m.delivered && m.sender != user && TakesPart(privates, m.conversation, user)
  }

  function MarkDelivered(messages: map<nat, Message>, id: nat): map<nat, Message> {
    if id in messages then messages[id := messages[id].(delivered := true)] else messages
  }

  function MarkRead(messages: map<nat, Message>, id: nat): map<nat, Message> {
    if id in messages then messages[id := messages[id].(read := true)] else messages
  }

  /** The single UPDATE. */
  function MarkAll(messages: map<nat, Message>, privates: Members, user: UserId): map<nat, Message> {
    map id | id in messages ::
      if Incoming(messages[id], privates, user) then messages[id].(delivered := true) else messages[id]
  }

  function MarkEach(messages: map<nat, Message>, ids: seq<nat>): map<nat, Message> {
    if ids == [] then messages else MarkDelivered(MarkEach(messages, ids[..|ids| - 1]), ids[|ids| - 1])
  }

  lemma {:induction false} MarkEachAt(messages: map<nat, Message>, ids: seq<nat>, id: nat)
    ensures MarkEach(messages, ids).Keys == messages.Keys
    ensures id in messages ==>
      MarkEach(messages, ids)[id] == if id in ids then messages[id].(delivered := true) else messages[id]
  {
    if ids != [] {
      var last := |ids| - 1;
      assert ids == ids[..last] + [ids[last]];
      MarkEachAt(messages, ids[..last], id);
    }
  }

  /** Marking one by one gives what the UPDATE gives exactly if every incoming message is marked and
      every other marked one was delivered already; the order and repeats do not matter. */
  lemma BatchIsEach(messages: map<nat, Message>, privates: Members, user: UserId, ids: seq<nat>)
    ensures MarkEach(messages, ids) == MarkAll(messages, privates, user) <==>
      && (forall id | id in messages :: Incoming(messages[id], privates, user) ==> id in ids)
      && (forall id | id in ids && id in messages :: Incoming(messages[id], privates, user) || messages[id].delivered)
  {
    var each, all := MarkEach(messages, ids), MarkAll(messages, privates, user);
    forall id | id in messages
      ensures id in each && id in all
      ensures each[id] == if id in ids then messages[id].(delivered := true) else messages[id]
    {
      MarkEachAt(messages, ids, id);
    }
    MarkEachAt(messages, ids, 0);
    hide MarkEach;
    if forall id | id in messages :: each[id] == all[id] {
      assert each == all;
    }
    if each == all {
      forall id | id in messages && Incoming(messages[id], privates, user) ensures id in ids {
        assert all[id].delivered && !messages[id].delivered;
      }
      forall id | id in ids && id in messages ensures Incoming(messages[id], privates, user) || messages[id].delivered {
        assert each[id].delivered && all[id] == each[id];
      }
    }
  }

  /** After the update nothing is incoming, doing it again changes nothing, and it touches neither
      the user's own messages nor conversations of others. */
  lemma BatchSettles(messages: map<nat, Message>, privates: Members, user: UserId)
    ensures var all := MarkAll(messages, privates, user);
      && MarkAll(all, privates, user) == all
      && all.Keys == messages.Keys
      && (forall id | id in all :: !Incoming(all[id], privates, user))
      && (forall id | id in messages ::
          var m := messages[id];
          all[id] != m <==>
            && !m.delivered && m.sender != user && m.conversation in privates
            && user in [privates[m.conversation].0, privates[m.conversation].1])
      && (forall id | id in messages :: all[id] != messages[id] ==> all[id] == messages[id].(delivered := true))
      && (forall id | id in messages ::
          messages[id].sender == user || !TakesPart(privates, messages[id].conversation, user) ==>
            all[id] == messages[id])
  {
  }

  /** The updates of two users can run in either order, and so can an update and a mark. */
  lemma BatchesCommute(messages: map<nat, Message>, privates: Members, u: UserId, v: UserId, id: nat)
    ensures MarkAll(MarkAll(messages, privates, u), privates, v) == MarkAll(MarkAll(messages, privates, v), privates, u)
    ensures MarkDelivered(MarkAll(messages, privates, u), id) == MarkAll(MarkDelivered(messages, id), privates, u)
    ensures MarkRead(MarkAll(messages, privates, u), id) == MarkAll(MarkRead(messages, id), privates, u)
  {
    hide TakesPart;
    var a := MarkAll(MarkAll(messages, privates, u), privates, v);
    var b := MarkAll(MarkAll(messages, privates, v), privates, u);
    assert a == b by {
      forall x | x in messages ensures a[x] == b[x] {
      }
    }
    DeliveredCommutes(messages, privates, u, id);
    ReadCommutes(messages, privates, u, id);
    hide MarkAll, MarkDelivered, MarkRead;
  }

  lemma DeliveredCommutes(messages: map<nat, Message>, privates: Members, u: UserId, id: nat)
    ensures MarkDelivered(MarkAll(messages, privates, u), id) == MarkAll(MarkDelivered(messages, id), privates, u)
  {
    hide TakesPart;
  }

  lemma ReadCommutes(messages: map<nat, Message>, privates: Members, u: UserId, id: nat)
    ensures MarkRead(MarkAll(messages, privates, u), id) == MarkAll(MarkRead(messages, id), privates, u)
  {
    hide TakesPart;
  }

  // ---- over whole runs ----

  class MessageStore {
    var messages: map<nat, Message>
    var privates: Members
    var next: nat

    ghost predicate Valid()
      reads this
    {
      next > 0 && forall id | id in messages :: id < next
    }

    constructor ()
      ensures Valid() && messages == map[] && privates == map[]
    {
      messages, privates, next := map[], map[], 1;
    }

    method CreateMessage(m: Message) returns (id: nat)
      requires Valid()
      modifies `messages, `next
      ensures Valid() && id > 0 && id !in old(messages) && messages == old(messages)[id := m]
    {
      id := next;
      messages := messages[id := m];
      next := next + 1;
    }

    method MarkMessageAsDelivered(id: nat)
      modifies `messages
      ensures messages == MarkDelivered(old(messages), id)
    {
      if id in messages {
        messages := messages[id := messages[id].(delivered := true)];
      }
    }

    method MarkMessageAsRead(id: nat)
      modifies `messages
      ensures messages == MarkRead(old(messages), id)
    {
      if id in messages {
        messages := messages[id := messages[id].(read := true)];
      }
    }

    /** The update visits the rows in any order, one at a time. */
    method MarkAllIncomingMessagesAsDelivered(user: UserId)
      modifies `messages
      ensures messages == MarkAll(old(messages), privates, user)
    {
      var rest: set<nat> := messages.Keys;
      while rest != {}
        invariant rest <= messages.Keys && messages.Keys == old(messages).Keys
        invariant forall id | id in messages ::
          messages[id] == if id in rest then old(messages)[id] else MarkAll(old(messages), privates, user)[id]
        decreases |rest|
      {
        var id :| id in rest;
        rest := rest - {id};
        var m := messages[id];
        if !m.delivered && m.sender != user && m.conversation in privates
           && (privates[m.conversation].0 == user || privates[m.conversation].1 == user) {
          messages := messages[id := m.(delivered := true)];
        }
      }
    }
  }

  datatype Step =
    | Send(id: nat, message: Message)
    | Open(conversation: nat, users: (UserId, UserId))
    | ComeOnline(user: UserId)
    | Acknowledge(id: nat, actor: UserId)
    | Read(id: nat, actor: UserId)

  predicate MayMark(messages: map<nat, Message>, id: nat, actor: UserId) {
    id in messages && messages[id].sender != actor
  }

  datatype Store = Store(messages: map<nat, Message>, privates: Members)

  /** Ids come from identity sequences, so they are new. A client may acknowledge or read any message
      that is there and is not its own; nothing asks whether it takes part in the conversation. */
  function Next(s: Store, e: Step): Store {
    match e
    case Send(id, m) => if id in s.messages then s else s.(messages := s.messages[id := m])
    case Open(c, users) => if c in s.privates then s else s.(privates := s.privates[c := users])
    case ComeOnline(u) => s.(messages := MarkAll(s.messages, s.privates, u))
    case Acknowledge(id, actor) =>
        if MayMark(s.messages, id, actor) then s.(messages := MarkDelivered(s.messages, id)) else s
    case Read(id, actor) => if MayMark(s.messages, id, actor) then s.(messages := MarkRead(s.messages, id)) else s
  }

  function Exec(s: Store, schedule: seq<Step>): Store
    decreases |schedule|
  {
    if schedule == [] then s else Exec(Next(s, schedule[0]), schedule[1..])
  }

  /** Nothing is taken away: not the message, not a mark, and nothing else about it changes. */
  predicate Later(a: Message, b: Message) {
    && b == a.(delivered := b.delivered, read := b.read)
    && (a.delivered ==> b.delivered)
    && (a.read ==> b.read)
  }

  predicate AllLater(a: map<nat, Message>, b: map<nat, Message>) {
    forall id | id in a :: id in b && Later(a[id], b[id])
  }

  /** Marks never revert, in any run. */
  lemma {:induction false} MarksNeverRevert(s: Store, schedule: seq<Step>)
    ensures AllLater(s.messages, Exec(s, schedule).messages)
    decreases |schedule|
  {
    if schedule != [] {
      var s1 := Next(s, schedule[0]);
      assert AllLater(s.messages, s1.messages);
      hide Next;
      MarksNeverRevert(s1, schedule[1..]);
    }
  }

  predicate Marks(e: Step, s: Store, id: nat) {
    match e
    case Send(_, _) => false
    case Open(_, _) => false
    case ComeOnline(u) => id in s.messages && Incoming(s.messages[id], s.privates, u)
    case Acknowledge(i, actor) => i == id && MayMark(s.messages, id, actor)
    case Read(_, _) => false
  }

  /** Some step of the schedule marks the message delivered. */
  predicate MarkedBy(s: Store, schedule: seq<Step>, id: nat)
    decreases |schedule|
  {
    schedule != [] && (Marks(schedule[0], s, id) || MarkedBy(Next(s, schedule[0]), schedule[1..], id))
  }

  /** A message that is there is delivered in the end exactly if it was, or a step of the run marked
      it: another member of its conversation came online, or anybody but its sender acknowledged it. */
  lemma {:induction false} DeliveredExactlyWhenMarked(s: Store, schedule: seq<Step>, id: nat)
    requires id in s.messages
    ensures id in Exec(s, schedule).messages
    ensures Exec(s, schedule).messages[id].delivered <==> s.messages[id].delivered || MarkedBy(s, schedule, id)
    decreases |schedule|
  {
    if schedule != [] {
      var s1 := Next(s, schedule[0]);
      assert id in s1.messages
        && (s1.messages[id].delivered <==> s.messages[id].delivered || Marks(schedule[0], s, id));
      DeliveredExactlyWhenMarked(s1, schedule[1..], id);
    }
  }

  /** Some step of the schedule reads the message: somebody but its sender asks for it. */
  predicate ReadBy(s: Store, schedule: seq<Step>, id: nat)
    decreases |schedule|
  {
    schedule != []
    && ((schedule[0].Read? && schedule[0].id == id && id in s.messages && s.messages[id].sender != schedule[0].actor)
        || ReadBy(Next(s, schedule[0]), schedule[1..], id))
  }

  /** A message that is there is read in the end exactly if it was, or somebody but its sender marked it
      read during the run; going online and acknowledging read nothing. */
  lemma {:induction false} ReadExactlyWhenMarked(s: Store, schedule: seq<Step>, id: nat)
    requires id in s.messages
    ensures id in Exec(s, schedule).messages
    ensures Exec(s, schedule).messages[id].read <==> s.messages[id].read || ReadBy(s, schedule, id)
    decreases |schedule|
  {
    if schedule != [] {
      var s1, e := Next(s, schedule[0]), schedule[0];
      assert id in s1.messages && s1.messages[id].sender == s.messages[id].sender;
      assert s1.messages[id].read <==>
        s.messages[id].read || (e.Read? && e.id == id && s.messages[id].sender != e.actor);
      ReadExactlyWhenMarked(s1, schedule[1..], id);
    }
  }

  /** So a sender alone never marks his own messages: if nobody else comes online or acknowledges, an
      undelivered message stays undelivered. */
  lemma {:induction false} SendersMarkNothing(s: Store, schedule: seq<Step>, id: nat)
    requires id in s.messages && !s.messages[id].delivered
    requires forall e | e in schedule ::
      (e.ComeOnline? ==> e.user == s.messages[id].sender) && (e.Acknowledge? ==> e.actor == s.messages[id].sender)
    ensures id in Exec(s, schedule).messages && !Exec(s, schedule).messages[id].delivered
    decreases |schedule|
  {
    if schedule != [] {
      assert schedule[0] in schedule && forall e | e in schedule[1..] :: e in schedule;
      MarksNeverRevert(s, [schedule[0]]);
      SendersMarkNothing(Next(s, schedule[0]), schedule[1..], id);
    }
  }
}
