/** The signaling hub as the mutable object it is. Every method is proved against
    its value in HubModel; iteration over a room's set takes any order. */
module HubServer {
  import opened HubIndexes
  import opened HubModel
  import opened HubRuns

  lemma TellMore(clients: map<Ref, Client>, done: set<Ref>, r: Ref, ms: seq<Event>)
    requires r in clients && r !in done
    ensures Tell(clients, done, ms)[r] == clients[r]
    ensures Tell(clients, done, ms)[r := DeliverAll(clients[r], ms)] == Tell(clients, done + {r}, ms)
  {
    hide DeliverAll;
  }

  lemma TellNobody(clients: map<Ref, Client>, ms: seq<Event>)
    ensures Tell(clients, {}, ms) == clients
  {}

  lemma DeliverNext(c: Client, ms: seq<Event>, i: nat)
    requires i < |ms|
    ensures Deliver(DeliverAll(c, ms[..i]), ms[i]) == DeliverAll(c, ms[..i + 1]) && DeliverAll(c, ms[..0]) == c
  {
    assert ms[..i + 1][..i] == ms[..i];
  }

  lemma {:induction false} DeliverTwice(c: Client, a: seq<Event>, b: seq<Event>)
    ensures DeliverAll(DeliverAll(c, a), b) == DeliverAll(c, a + b)
  {
    hide Deliver;
    if b == [] {
      assert a + b == a;
    } else {
      DeliverTwice(c, a, b[..|b| - 1]);
      assert (a + b)[..|a + b| - 1] == a + b[..|b| - 1];
    }
  }

  lemma TellTwice(clients: map<Ref, Client>, who: set<Ref>, a: seq<Event>, b: seq<Event>)
    ensures Tell(Tell(clients, who, a), who, b) == Tell(clients, who, a + b)
  {
    hide DeliverAll;
    forall r | r in clients ensures Tell(Tell(clients, who, a), who, b)[r] == Tell(clients, who, a + b)[r] {
      DeliverTwice(clients[r], a, b);
    }
  }

  class Hub {
    var clients: map<Ref, Client>
    var rooms: map<Room, set<Ref>>
    var voices: map<Room, map<Peer, Voice>>
    /** What each voice relay has still to send. */
    var queues: map<Voice, seq<Packet>>

    ghost function Value(): State
      reads this`clients, this`rooms, this`voices
    {
      State(clients, rooms, voices)
    }

    constructor ()
      ensures Value() == State(map[], map[], map[]) && queues == map[]
    {
      clients, rooms, voices, queues := map[], map[], map[], map[];
    }

    method Deliver(r: Ref, m: Event) returns (sent: bool)
      requires r in clients
      modifies this`clients
      ensures clients == old(clients)[r := HubModel.Deliver(old(clients)[r], m)]
      ensures sent <==> !old(clients)[r].revoked && old(clients)[r].waiting < SIGNAL_QUEUE
    {
      var c := clients[r];
      if c.revoked {
        return false;
      }
      if c.waiting < SIGNAL_QUEUE {
        clients := clients[r := c.(log := c.log + [m], waiting := c.waiting + 1)];
        return true;
      }
      clients := clients[r := c.(overflowed := true)];
      return false;
    }

    method DeliverEach(r: Ref, ms: seq<Event>)
      requires r in clients
      modifies this`clients
      ensures clients == old(clients)[r := DeliverAll(old(clients)[r], ms)]
    {
      hide DeliverAll;
      var i := 0;
      if |ms| == 0 {
        TellNothing(clients[r]);
        assert ms == [];
        return;
      }
      DeliverNext(clients[r], ms, 0);
      while i < |ms|
        invariant 0 <= i <= |ms| && r in old(clients)
        invariant clients == old(clients)[r := DeliverAll(old(clients)[r], ms[..i])]
      {
        DeliverNext(old(clients)[r], ms, i);
        var sent := Deliver(r, ms[i]);
        i := i + 1;
      }
      assert ms[..i] == ms;
    }

    /** Every connection in the set, in any order. */
    method TellEach(who: set<Ref>, ms: seq<Event>)
      requires who <= clients.Keys
      modifies this`clients
      ensures clients == Tell(old(clients), who, ms)
    {
      hide Tell, DeliverAll;
      var todo := who;
      ghost var done: set<Ref> := {};
      TellNobody(clients, ms);
      while todo != {}
        invariant todo <= who && done == who - todo && who <= old(clients).Keys
        invariant clients == Tell(old(clients), done, ms)
        decreases todo
      {
        var r :| r in todo;
        TellMore(old(clients), done, r, ms);
        DeliverEach(r, ms);
        todo := todo - {r};
        done := done + {r};
        assert done == who - todo;
      }
      assert done == who;
    }

    method Evict(room: Room, r: Ref)
      requires r in clients
      modifies this`clients, this`rooms, this`voices
      ensures Value() == HubModel.Evict(old(Value()), room, r)
    {
      var p := clients[r].peer;
      clients := clients[r := clients[r].(revoked := true)];
      if room in voices && p in voices[room] && voices[room][p].owner == r {
        voices := voices[room := voices[room] - {p}];
      }
      rooms := rooms[room := (if room in rooms then rooms[room] else {}) - {r}];
    }

    /** The scan of `addWithMode`: stops at the first connection whose peer belongs
        to another user, with everyone it replaced so far already gone. */
    method ScanRoom(room: Room, c: Client, replaceUser: bool) returns (conflict: bool, replaced: seq<Ref>, resumed: bool, ghost order: seq<Ref>)
      requires Indexed(Value())
      modifies this`clients, this`rooms, this`voices
      ensures Enumerates(order, Members(old(Value()), room)) && forall i | 0 <= i < |order| :: order[i] in old(clients)
      ensures conflict <==> Refused(old(clients), c, order)
      ensures conflict ==> Value() == Scan(old(Value()), room, c, replaceUser, order[..FirstConflict(old(clients), c, order)])
      ensures !conflict ==> Value() == Scan(old(Value()), room, c, replaceUser, order)
      ensures !conflict ==> replaced == Replaced(old(clients), c, replaceUser, order)
      ensures !conflict ==> (resumed <==> Holds(old(clients), order, c.peer))
    {
      ghost var start := Value();
      var todo := if room in rooms then rooms[room] else {};
      ghost var members := todo;
      assert RoomIndexed(start.clients, room, Members(start, room), Voices(start, room));
      replaced, resumed, order := [], false, [];
      hide Indexed, Scan, Replaced, FirstConflict, Holds;
      ScanStart(start, room, c, replaceUser);
      while todo != {}
        invariant members == Members(start, room) && members <= start.clients.Keys && todo <= members
        invariant Enumerates(order, members - todo) && forall i | 0 <= i < |order| :: order[i] in start.clients
        invariant !Refused(start.clients, c, order)
        invariant Value() == Scan(start, room, c, replaceUser, order)
        invariant replaced == Replaced(start.clients, c, replaceUser, order) && (resumed <==> Holds(start.clients, order, c.peer))
        decreases todo
      {
        var existing :| existing in todo;
        ScanNext(start, room, c, replaceUser, order, existing);
        var e := clients[existing];
        if e.peer == c.peer && e.user != c.user {
          order := Completed(start, c, order, existing, todo, members);
          return true, [], false, order;
        }
        if e.peer == c.peer || (replaceUser && e.user == c.user) {
          if e.peer == c.peer && e.user == c.user {
            resumed := true;
          }
          replaced := replaced + [existing];
          Evict(room, existing);
        }
        EnumeratesNext(order, members, todo, existing);
        todo := todo - {existing};
        order := order + [existing];
      }
      assert members - todo == members;
      return false, replaced, resumed, order;
    }

    /** Joins a room. `order` is the order in which the room's set was visited. */
    method AddWithMode(room: Room, r: Ref, c: Client, replaceUser: bool) returns (ok: bool, peers: set<Peer>, ghost order: seq<Ref>)
      requires Indexed(Value()) && NoEmptyRooms(Value()) && r !in clients && c.room == room
      modifies this`clients, this`rooms, this`voices
      ensures Enumerates(order, Members(old(Value()), room))
      ensures Value() == Join(old(Value()), room, r, c, replaceUser, order)
      ensures ok ==> r in clients && peers == clients[r].snapshot
      ensures Indexed(Value()) && NoEmptyRooms(Value())
    {
      ghost var start := Value();
      var conflict, replaced, resumed, visited := ScanRoom(room, c, replaceUser);
      order := visited;
      hide Scan, FirstConflict, Holds, Replaced, News, Enter;
      JoinKeeps(start, room, r, c, replaceUser, order);
      hide Indexed, NoEmptyRooms;
      if conflict {
        return false, {}, order;
      }
      ScanShrinks(start, room, c, replaceUser, order);
      peers := Admit(room, r, c, replaced, resumed, start, replaceUser, order);
      return true, peers, order;
    }

    /** The rest of a join that was not refused. */
    method Admit(room: Room, r: Ref, c: Client, replaced: seq<Ref>, resumed: bool,
                 ghost start: State, ghost replaceUser: bool, ghost order: seq<Ref>) returns (peers: set<Peer>)
      requires forall i | 0 <= i < |order| :: order[i] in start.clients
      requires Value() == Scan(start, room, c, replaceUser, order) && Members(Value(), room) <= start.clients.Keys
      requires replaced == Replaced(start.clients, c, replaceUser, order) && (resumed <==> Holds(start.clients, order, c.peer))
      modifies this`clients, this`rooms, this`voices
      ensures Value() == Enter(start, room, r, c, replaceUser, order)
      ensures r in clients && peers == clients[r].snapshot
    {
      hide Scan, Tell, Holds, Replaced, PeersOf, LeftEvents, Farewells, SameIdentity;
      ghost var scanned := Value();
      ScanShrinks(start, room, c, replaceUser, order);
      var others := if room in rooms then rooms[room] else {};
      GoodbyesAreFarewells(start.clients, scanned.clients, c, replaceUser, order);
      var farewells := Goodbyes(replaced, c.peer);
      peers := set e | e in others :: clients[e].peer;
      SamePeers(scanned.clients, others, peers);
      TellJoin(others, farewells, resumed, c.peer);
      rooms := rooms[room := others + {r}];
      clients := clients[r := c.(snapshot := peers, log := [], waiting := 0)];
    }

    /** Goodbyes first; then the arrival, unless the same participant resumes. */
    method TellJoin(others: set<Ref>, farewells: seq<Event>, resumed: bool, peer: Peer)
      requires others <= clients.Keys
      modifies this`clients
      ensures clients == Tell(old(clients), others, farewells + if resumed then [] else [Joined(peer)])
    {
      hide Tell;
      TellEach(others, farewells);
      if !resumed {
        TellEach(others, [Joined(peer)]);
      }
      TellTwice(old(clients), others, farewells, [Joined(peer)]);
      assert farewells + [] == farewells;
    }

    /** What the others hear about those replaced; the joining peer itself is not
        announced as gone. */
    method Goodbyes(replaced: seq<Ref>, peer: Peer) returns (events: seq<Event>)
      requires forall i | 0 <= i < |replaced| :: replaced[i] in clients
      ensures events == LeftEvents(clients, replaced, peer)
    {
      events := [];
      var i := 0;
      while i < |replaced|
        invariant 0 <= i <= |replaced| && events == LeftEvents(clients, replaced[..i], peer)
      {
        assert replaced[..i + 1][..i] == replaced[..i];
        if clients[replaced[i]].peer != peer {
          events := events + [Left(clients[replaced[i]].peer)];
        }
        i := i + 1;
      }
      assert replaced[..i] == replaced;
    }

    /** The locked half of `remove`. */
    method Unlink(room: Room, r: Ref) returns (left: bool)
      requires Indexed(Value()) && NoEmptyRooms(Value()) && r in clients
      modifies this`clients, this`rooms, this`voices
      ensures Value() == Detach(old(Value()), room, r) && left == (r in Members(old(Value()), room))
      ensures Indexed(Value()) && NoEmptyRooms(Value())
    {
      DetachNarrows(Value(), room, r);
      if room !in rooms || r !in rooms[room] {
        return false;
      }
      var p := clients[r].peer;
      var others := rooms[room] - {r};
      if room in voices && p in voices[room] && voices[room][p].owner == r {
        voices := voices[room := voices[room] - {p}];
      }
      if others == {} {
        rooms, voices := rooms - {room}, voices - {room};
      } else {
        rooms := rooms[room := others];
      }
      return true;
    }

    method Broadcast(room: Room, m: Event)
      requires Indexed(Value()) && NoEmptyRooms(Value())
      modifies this`clients
      ensures Value() == HubModel.Broadcast(old(Value()), room, m)
      ensures Indexed(Value()) && NoEmptyRooms(Value())
    {
      BroadcastKeeps(Value(), room, m);
      assert RoomIndexed(clients, room, Members(Value(), room), Voices(Value(), room));
      TellEach(if room in rooms then rooms[room] else {}, [m]);
    }

    /** Nobody else runs between the two halves here. */
    method Remove(room: Room, r: Ref)
      requires Indexed(Value()) && NoEmptyRooms(Value()) && r in clients
      modifies this`clients, this`rooms, this`voices
      ensures Value() == HubModel.Remove(old(Value()), room, r)
      ensures Indexed(Value()) && NoEmptyRooms(Value())
    {
      var left := Unlink(room, r);
      assert clients == old(clients);
      if left {
        Broadcast(room, Left(clients[r].peer));
      }
    }

    method RemoveEach(room: Room, refs: set<Ref>) returns (ghost order: seq<Ref>)
      requires Indexed(Value()) && NoEmptyRooms(Value()) && refs <= clients.Keys
      modifies this`clients, this`rooms, this`voices
      ensures Enumerates(order, refs) && forall i | 0 <= i < |order| :: order[i] in old(clients)
      ensures Value() == RemoveAll(old(Value()), room, order)
      ensures Indexed(Value()) && NoEmptyRooms(Value())
    {
      hide Indexed, NoEmptyRooms, HubModel.Remove, RemoveAll;
      ghost var start := Value();
      var todo := refs;
      order := [];
      RemoveNone(start, room);
      while todo != {}
        invariant todo <= refs && refs <= start.clients.Keys && Enumerates(order, refs - todo)
        invariant forall i | 0 <= i < |order| :: order[i] in start.clients
        invariant Value() == RemoveAll(start, room, order) && Indexed(Value()) && NoEmptyRooms(Value())
        decreases todo
      {
        var r :| r in todo;
        RemoveNext(start, room, order, r);
        Remove(room, r);
        EnumeratesNext(order, refs, todo, r);
        todo := todo - {r};
        order := order + [r];
      }
      assert refs - todo == refs;
    }

    // ---- Revocation ------------------------------------------------------------------

    method MarkRevoked(who: set<Ref>)
      modifies this`clients
      ensures Value() == Revoke(old(Value()), who)
    {
      clients := map r | r in clients :: if r in who then clients[r].(revoked := true) else clients[r];
    }

    /** Targets are collected and flagged under the lock, removed after it. */
    method DisconnectRoomUser(room: Room, user: User) returns (ghost order: seq<Ref>)
      requires Indexed(Value()) && NoEmptyRooms(Value())
      modifies this`clients, this`rooms, this`voices
      ensures Enumerates(order, OfUser(old(clients), Members(old(Value()), room), user))
      ensures forall i | 0 <= i < |order| :: order[i] in old(clients)
      ensures Value() == RemoveAll(RevokeRoomUser(old(Value()), room, user), room, order)
      ensures Indexed(Value()) && NoEmptyRooms(Value())
    {
      RevokeRoomUserKeeps(Value(), room, user);
      hide Indexed, NoEmptyRooms, RemoveAll, Enumerates;
      var members := if room in rooms then rooms[room] else {};
      var targets := set c | c in members && c in clients && clients[c].user == user;
      MarkRevoked(targets);
      if room in voices {
        voices := voices[room := map p | p in voices[room] && voices[room][p].user != user :: voices[room][p]];
      }
      order := RemoveEach(room, targets);
    }

    method DisconnectRoom(room: Room)
      requires Indexed(Value()) && NoEmptyRooms(Value())
      modifies this`clients, this`rooms, this`voices
      ensures Value() == DropRoom(old(Value()), room)
      ensures Indexed(Value()) && NoEmptyRooms(Value())
    {
      DropRoomKeeps(Value(), room);
      hide Indexed, NoEmptyRooms;
      MarkRevoked(if room in rooms then rooms[room] else {});
      rooms, voices := rooms - {room}, voices - {room};
    }

    method RevokeIn(room: Room, user: User) returns (here: set<Ref>)
      requires room in rooms
      modifies this`clients, this`rooms, this`voices
      ensures rooms == old(rooms)
      ensures Value() == RevokeHere(old(Value()), room, user) && here == OfUser(old(clients), old(rooms)[room], user)
    {
      here := set c | c in rooms[room] && c in clients && clients[c].user == user;
      MarkRevoked(here);
      if room in voices {
        var left := map p | p in voices[room] && voices[room][p].user != user :: voices[room][p];
        voices := if left == map[] then voices - {room} else voices[room := left];
      }
    }

    method RevokeUserRooms(user: User) returns (targets: set<Ref>)
      requires Indexed(Value())
      modifies this`clients, this`rooms, this`voices
      ensures Value() == RevokeUser(old(Value()), user)
      ensures targets == OfUser(old(clients), InRooms(old(Value()), old(rooms).Keys), user)
    {
      hide Indexed, RevokeUserIn, HubModel.RevokeHere, OfUser, InRooms;
      ghost var start := Value();
      var todo := rooms.Keys;
      ghost var done: set<Room> := {};
      targets := {};
      RevokedNowhere(start, user);
      while todo != {}
        invariant todo <= start.rooms.Keys && done == start.rooms.Keys - todo && rooms == start.rooms
        invariant Value() == RevokeUserIn(start, done, user)
        invariant targets == OfUser(start.clients, InRooms(start, done), user)
        decreases todo
      {
        var room :| room in todo;
        RevokedNext(start, done, room, user);
        var here := RevokeIn(room, user);
        targets := targets + here;
        todo := todo - {room};
        done := done + {room};
        assert done == start.rooms.Keys - todo;
      }
      assert done == start.rooms.Keys;
    }

    /** In whatever order, each from its own room. */
    method RemoveTargets(targets: set<Ref>) returns (ghost order: seq<Ref>)
      requires Indexed(Value()) && NoEmptyRooms(Value()) && targets <= clients.Keys
      modifies this`clients, this`rooms, this`voices
      ensures Enumerates(order, targets) && forall i | 0 <= i < |order| :: order[i] in old(clients)
      ensures Value() == RemoveWherever(old(Value()), order)
      ensures Indexed(Value()) && NoEmptyRooms(Value())
    {
      hide Indexed, NoEmptyRooms, HubModel.Remove, RemoveWherever;
      ghost var start := Value();
      var todo := targets;
      order := [];
      RemoveNowhere(start);
      while todo != {}
        invariant todo <= targets && targets <= start.clients.Keys && Enumerates(order, targets - todo)
        invariant forall i | 0 <= i < |order| :: order[i] in start.clients
        invariant Value() == RemoveWherever(start, order) && Indexed(Value()) && NoEmptyRooms(Value())
        decreases todo
      {
        var r :| r in todo;
        WhereverNext(start, order, r);
        Remove(clients[r].room, r);
        EnumeratesNext(order, targets, todo, r);
        todo := todo - {r};
        order := order + [r];
      }
      assert targets - todo == targets;
    }

    method DisconnectUser(user: User) returns (ghost order: seq<Ref>)
      requires Indexed(Value()) && NoEmptyRooms(Value())
      modifies this`clients, this`rooms, this`voices
      ensures Enumerates(order, OfUser(old(clients), InRooms(old(Value()), old(rooms).Keys), user))
      ensures forall i | 0 <= i < |order| :: order[i] in old(clients)
      ensures Value() == RemoveWherever(RevokeUser(old(Value()), user), order)
      ensures Indexed(Value()) && NoEmptyRooms(Value())
    {
      RevokeUserKeeps(Value(), user);
      hide Indexed, NoEmptyRooms, RemoveWherever, Enumerates, InRooms;
      var targets := RevokeUserRooms(user);
      order := RemoveTargets(targets);
    }

    /** Every connection of one session, in whatever room, one after the other. */
    method DisconnectSession(session: string) returns (ghost order: seq<Ref>)
      requires Indexed(Value()) && NoEmptyRooms(Value())
      modifies this`clients, this`rooms, this`voices
      ensures Enumerates(order, OfSession(old(clients), InRooms(old(Value()), old(rooms).Keys), session))
      ensures forall i | 0 <= i < |order| :: order[i] in old(clients)
      ensures Value() == DropEach(old(Value()), order)
      ensures Indexed(Value()) && NoEmptyRooms(Value())
    {
      hide Indexed, NoEmptyRooms, HubModel.Remove, DropEach, Revoke;
      ghost var start := Value();
      var todo := set room, c | room in rooms && c in rooms[room] && c in clients && clients[c].session == session :: c;
      ghost var targets := todo;
      assert targets == OfSession(clients, InRooms(Value(), rooms.Keys), session);
      order := [];
      DropNone(start);
      while todo != {}
        invariant todo <= targets && targets <= start.clients.Keys && Enumerates(order, targets - todo)
        invariant forall i | 0 <= i < |order| :: order[i] in start.clients
        invariant Value() == DropEach(start, order) && Indexed(Value()) && NoEmptyRooms(Value())
        decreases todo
      {
        var r :| r in todo;
        DropNext(start, order, r);
        FlagsKeep(Value(), Revoke(Value(), {r}));
        MarkRevoked({r});
        Remove(clients[r].room, r);
        EnumeratesNext(order, targets, todo, r);
        todo := todo - {r};
        order := order + [r];
      }
      assert targets - todo == targets;
    }

    // ---- Voice relays ------------------------------------------------------------------

    method AddVoice(room: Room, peer: Peer, v: Voice) returns (ok: bool)
      requires Indexed(Value()) && NoEmptyRooms(Value())
      requires MayRelay(Value(), room, peer, v) ==> clients[v.owner].user == v.user
      modifies this`clients, this`rooms, this`voices
      ensures ok <==> MayRelay(old(Value()), room, peer, v)
      ensures Value() == HubModel.AddVoice(old(Value()), room, peer, v)
      ensures Indexed(Value()) && NoEmptyRooms(Value())
    {
      VoicesKeep(Value(), room, peer, v);
      hide Indexed, NoEmptyRooms;
      ok := room in rooms && v.owner in rooms[room] && v.owner in clients && clients[v.owner].peer == peer && !clients[v.owner].revoked;
      if !ok {
        return;
      }
      voices := voices[room := (if room in voices then voices[room] else map[])[peer := v]];
    }

    method RemoveVoice(room: Room, peer: Peer, v: Voice)
      requires Indexed(Value()) && NoEmptyRooms(Value())
      modifies this`clients, this`rooms, this`voices
      ensures Value() == HubModel.RemoveVoice(old(Value()), room, peer, v)
      ensures Indexed(Value()) && NoEmptyRooms(Value())
    {
      RemoveVoiceKeeps(Value(), room, peer, v);
      hide Indexed, NoEmptyRooms;
      var left := if room in voices then voices[room] else map[];
      if peer in left && left[peer] == v {
        left := left - {peer};
      }
      voices := if left == map[] then voices - {room} else voices[room := left];
    }

    /** The three channel operations: send, else receive one, then send again. */
    method EnqueueVoice(v: Voice, packet: Packet)
      requires QueuesFit(queues)
      modifies this`queues
      ensures QueuesFit(queues)
      ensures queues == old(queues)[v := Enqueued(QueueOf(old(queues), v), packet)]
    {
      var queue := QueueOf(queues, v);
      if |queue| < VOICE_QUEUE {
        queues := queues[v := queue + [packet]];
        return;
      }
      if queue != [] {
        queue := queue[1..];
      }
      queues := queues[v := if |queue| < VOICE_QUEUE then queue + [packet] else queue];
    }

    method RelayVoice(room: Room, sender: Peer, v: Voice, to: Peer, packet: Packet) returns (valid: bool)
      requires Indexed(Value()) && QueuesFit(queues)
      modifies this`queues
      ensures QueuesFit(queues)
      ensures valid <==> Relays(Value(), room, sender, v, to)
      ensures !valid ==> queues == old(queues)
      ensures valid ==>
        var target := Voices(Value(), room)[to]; queues == old(queues)[target := Enqueued(QueueOf(old(queues), target), packet)]
    {
      var here := if room in voices then voices[room] else map[];
      valid := sender in here && here[sender] == v && to in here;
      if valid {
        var members := if room in rooms then rooms[room] else {};
        assert RoomIndexed(clients, room, Members(Value(), room), Voices(Value(), room));
        valid := v.owner in members && here[to].owner in members && !clients[v.owner].revoked && !clients[here[to].owner].revoked;
      }
      if valid {
        EnqueueVoice(here[to], packet);
      }
    }
  }

  // ---- Voice queues ------------------------------------------------------------------------

  type Packet = nat

  const VOICE_QUEUE: nat := 10

  function QueueOf(queues: map<Voice, seq<Packet>>, v: Voice): seq<Packet> { if v in queues then queues[v] else [] }

  predicate QueuesFit(queues: map<Voice, seq<Packet>>) { forall v | v in queues :: |queues[v]| <= VOICE_QUEUE }

  /** A full queue loses its oldest packet. */
  function Enqueued(queue: seq<Packet>, packet: Packet): seq<Packet> {
    if |queue| < VOICE_QUEUE then queue + [packet] else queue[1..] + [packet]
  }

  function EnqueuedAll(queue: seq<Packet>, packets: seq<Packet>): seq<Packet> {
    if packets == [] then queue else Enqueued(EnqueuedAll(queue, packets[..|packets| - 1]), packets[|packets| - 1])
  }

  /** However many packets arrive unread, the queue is the newest ten of all, in order. */
  lemma {:induction false} NewestTen(queue: seq<Packet>, packets: seq<Packet>)
    requires |queue| <= VOICE_QUEUE
    ensures var all := queue + packets;
      EnqueuedAll(queue, packets) == if |all| <= VOICE_QUEUE then all else all[|all| - VOICE_QUEUE..]
  {
    if packets == [] {
      assert queue + packets == queue;
    } else {
      var init, last := packets[..|packets| - 1], packets[|packets| - 1];
      NewestTen(queue, init);
      assert queue + packets == queue + init + [last];
    }
  }

  lemma RemoveNowhere(s: State)
    ensures RemoveWherever(s, []) == s
  {}

  lemma {:induction false} WhereverSame(s: State, refs: seq<Ref>)
    requires forall i | 0 <= i < |refs| :: refs[i] in s.clients
    ensures SameIdentities(s.clients, RemoveWherever(s, refs).clients)
  {
    hide HubModel.Remove;
    if refs != [] {
      var init, r := refs[..|refs| - 1], refs[|refs| - 1];
      WhereverSame(s, init);
      RemovedOne(RemoveWherever(s, init), s.clients[r].room, r);
    }
  }

  lemma WhereverNext(s: State, refs: seq<Ref>, r: Ref)
    requires (forall i | 0 <= i < |refs| :: refs[i] in s.clients) && r in s.clients
    ensures RemoveWherever(s, refs).clients[r].room == s.clients[r].room
    ensures RemoveWherever(s, refs + [r]) == HubModel.Remove(RemoveWherever(s, refs), s.clients[r].room, r)
  {
    WhereverSame(s, refs);
    hide HubModel.Remove;
    assert (refs + [r])[..|refs|] == refs;
  }

  lemma DropNone(s: State)
    ensures DropEach(s, []) == s
  {}

  lemma {:induction false} DropSame(s: State, refs: seq<Ref>)
    requires forall i | 0 <= i < |refs| :: refs[i] in s.clients
    ensures SameIdentities(s.clients, DropEach(s, refs).clients)
  {
    hide HubModel.Remove;
    if refs != [] {
      var init, r := refs[..|refs| - 1], refs[|refs| - 1];
      DropSame(s, init);
      RemovedOne(Revoke(DropEach(s, init), {r}), s.clients[r].room, r);
    }
  }

  lemma DropNext(s: State, refs: seq<Ref>, r: Ref)
    requires (forall i | 0 <= i < |refs| :: refs[i] in s.clients) && r in s.clients
    ensures var t := DropEach(s, refs);
      && SameIdentities(t.clients, Revoke(t, {r}).clients) && Revoke(t, {r}).rooms == t.rooms && Revoke(t, {r}).voices == t.voices
      && Revoke(t, {r}).clients[r].room == s.clients[r].room
      && DropEach(s, refs + [r]) == HubModel.Remove(Revoke(t, {r}), s.clients[r].room, r)
  {
    DropSame(s, refs);
    hide HubModel.Remove;
    assert (refs + [r])[..|refs|] == refs;
  }

  lemma RevokedNowhere(s: State, user: User)
    ensures RevokeUserIn(s, {}, user) == s && OfUser(s.clients, InRooms(s, {}), user) == {}
  {
    assert RelaysWithout(s, {}, user) == s.voices;
    assert Revoke(s, {}).clients == s.clients;
  }

  /** One more room visited. */
  lemma RevokedNext(s: State, done: set<Room>, room: Room, user: User)
    requires room in s.rooms && room !in done
    ensures RevokeUserIn(s, done, user).rooms == s.rooms
    ensures OfUser(RevokeUserIn(s, done, user).clients, s.rooms[room], user) == OfUser(s.clients, s.rooms[room], user)
    ensures RevokeHere(RevokeUserIn(s, done, user), room, user) == RevokeUserIn(s, done + {room}, user)
    ensures OfUser(s.clients, InRooms(s, done + {room}), user)
      == OfUser(s.clients, InRooms(s, done), user) + OfUser(s.clients, s.rooms[room], user)
  {
    RelaysNext(s, done, room, user);
    RevokedTwice(s, OfUser(s.clients, InRooms(s, done), user), OfUser(s.clients, s.rooms[room], user));
    hide WithoutUser, RelaysWithout, Revoke;
    assert InRooms(s, done + {room}) == InRooms(s, done) + s.rooms[room];
  }

  lemma RevokedTwice(s: State, a: set<Ref>, b: set<Ref>)
    ensures Revoke(Revoke(s, a), b) == Revoke(s, a + b)
    ensures SameIdentities(s.clients, Revoke(s, a).clients) && Revoke(s, a).rooms == s.rooms
    ensures forall t: State :: t.clients == Revoke(s, a).clients ==> Revoke(t, b).clients == Revoke(s, a + b).clients
  {
    assert Revoke(Revoke(s, a), b).clients == Revoke(s, a + b).clients;
  }

  lemma RelaysNext(s: State, done: set<Room>, room: Room, user: User)
    requires room !in done
    ensures var t := RelaysWithout(s, done, user);
      RelaysWithout(s, done + {room}, user) == (
        if room !in t then t else if WithoutUser(t[room], user) == map[] then t - {room} else t[room := WithoutUser(t[room], user)])
  {
    hide WithoutUser;
  }

  lemma SamePeers(clients: map<Ref, Client>, refs: set<Ref>, peers: set<Peer>)
    requires refs <= clients.Keys && peers == set e | e in refs :: clients[e].peer
    ensures peers == PeersOf(clients, refs)
  {}

  lemma RemoveNone(s: State, room: Room)
    ensures RemoveAll(s, room, []) == s
  {}

  lemma RemoveNext(s: State, room: Room, refs: seq<Ref>, r: Ref)
    requires (forall i | 0 <= i < |refs| :: refs[i] in s.clients) && r in s.clients
    ensures RemoveAll(s, room, refs + [r]) == HubModel.Remove(RemoveAll(s, room, refs), room, r)
  {
    hide HubModel.Remove;
    assert (refs + [r])[..|refs|] == refs;
  }

  lemma EnumeratesNext(order: seq<Ref>, refs: set<Ref>, todo: set<Ref>, r: Ref)
    requires Enumerates(order, refs - todo) && r in todo && todo <= refs
    ensures Enumerates(order + [r], refs - (todo - {r}))
  {}

  /** The evicted connections in scan order. */
  function Replaced(clients: map<Ref, Client>, c: Client, replaceUser: bool, order: seq<Ref>): seq<Ref>
    requires forall i | 0 <= i < |order| :: order[i] in clients
  {
    if order == [] then []
    else
      var r := order[|order| - 1];
      Replaced(clients, c, replaceUser, order[..|order| - 1]) + if Gives(clients[r], c, replaceUser) then [r] else []
  }

  function LeftEvents(clients: map<Ref, Client>, replaced: seq<Ref>, peer: Peer): seq<Event>
    requires forall i | 0 <= i < |replaced| :: replaced[i] in clients
  {
    if replaced == [] then []
    else
      var p := clients[replaced[|replaced| - 1]].peer;
      LeftEvents(clients, replaced[..|replaced| - 1], peer) + if p != peer then [Left(p)] else []
  }

  /** Peers do not change, so the goodbyes are those the model announces. */
  lemma {:induction false} GoodbyesAreFarewells(before: map<Ref, Client>, now: map<Ref, Client>, c: Client, replaceUser: bool, order: seq<Ref>)
    requires SameIdentities(before, now) && forall i | 0 <= i < |order| :: order[i] in before
    ensures forall i | 0 <= i < |Replaced(before, c, replaceUser, order)| :: Replaced(before, c, replaceUser, order)[i] in now
    ensures LeftEvents(now, Replaced(before, c, replaceUser, order), c.peer) == Farewells(before, c, replaceUser, order)
  {
    hide Gives;
    if order != [] {
      var init, r := order[..|order| - 1], order[|order| - 1];
      GoodbyesAreFarewells(before, now, c, replaceUser, init);
      var a := Replaced(before, c, replaceUser, init);
      assert (a + [r])[..|a|] == a && a + [] == a;
    }
  }

  lemma ScanStart(s: State, room: Room, c: Client, replaceUser: bool)
    ensures Scan(s, room, c, replaceUser, []) == s && Replaced(s.clients, c, replaceUser, []) == []
    ensures !Refused(s.clients, c, []) && !Holds(s.clients, [], c.peer)
  {}

  lemma {:induction false} ScanUntouched(s: State, room: Room, c: Client, replaceUser: bool, order: seq<Ref>, e: Ref)
    requires (forall i | 0 <= i < |order| :: order[i] in s.clients) && e !in order && e in s.clients
    ensures Scan(s, room, c, replaceUser, order).clients[e] == s.clients[e]
  {
    OtherRoomsSame(s, room, c, replaceUser, order);
  }

  lemma ScanNext(s: State, room: Room, c: Client, replaceUser: bool, order: seq<Ref>, e: Ref)
    requires (forall i | 0 <= i < |order| :: order[i] in s.clients) && e !in order && e in s.clients && !Refused(s.clients, c, order)
    ensures Scan(s, room, c, replaceUser, order).clients[e] == s.clients[e]
    ensures var t := Scan(s, room, c, replaceUser, order);
      Scan(s, room, c, replaceUser, order + [e]) == if Gives(s.clients[e], c, replaceUser) then HubModel.Evict(t, room, e) else t
    ensures Replaced(s.clients, c, replaceUser, order + [e])
      == Replaced(s.clients, c, replaceUser, order) + if Gives(s.clients[e], c, replaceUser) then [e] else []
    ensures Refused(s.clients, c, order + [e]) <==> Conflicts(s.clients[e], c)
    ensures Holds(s.clients, order + [e], c.peer) <==> Holds(s.clients, order, c.peer) || s.clients[e].peer == c.peer
  {
    ScanUntouched(s, room, c, replaceUser, order, e);
    assert (order + [e])[..|order|] == order;
    hide HubModel.Evict, Gives;
    assert forall i | 0 <= i < |order| :: (order + [e])[i] == order[i];
    assert (order + [e])[|order|] == e;
  }

  /** The order in which the whole room would have been visited. */
  ghost function Completed(s: State, c: Client, order: seq<Ref>, e: Ref, todo: set<Ref>, members: set<Ref>): (all: seq<Ref>)
    requires members <= s.clients.Keys && todo <= members && e in todo && Enumerates(order, members - todo)
    requires (forall i | 0 <= i < |order| :: order[i] in s.clients) && !Refused(s.clients, c, order) && Conflicts(s.clients[e], c)
    ensures Enumerates(all, members) && forall i | 0 <= i < |all| :: all[i] in s.clients
    ensures FirstConflict(s.clients, c, all) == |order| < |all| && all[..|order|] == order
  {
    order + [e] + Listed(todo - {e})
  }

  lemma TellNothing(c: Client)
    ensures DeliverAll(c, []) == c
  {}
}
