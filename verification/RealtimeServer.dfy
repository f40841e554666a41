/** The app-wide event hub of server/internal/api/realtime.go: who is connected,
    and which rooms and contacts each connection follows, indexed both ways. */
module RealtimeServer {
  type Ref = nat
  type Key = string

  /** A table of sets; a missing entry reads as the empty set. */
  type Table<!A(==), !B(==)> = map<A, set<B>>

  function At<A, B>(m: Table<A, B>, k: A): set<B> { if k in m then m[k] else {} }

  predicate NoEmpty<A, B>(m: Table<A, B>) { forall k | k in m :: m[k] != {} }

  /** `n` is `m` with `v` added at, or taken from, the given keys. */
  ghost predicate Added<A(!new), B>(m: Table<A, B>, n: Table<A, B>, keys: set<A>, v: B) {
    forall k: A :: At(n, k) == At(m, k) + if k in keys then {v} else {}
  }

  ghost predicate Taken<A(!new), B>(m: Table<A, B>, n: Table<A, B>, keys: set<A>, v: B) {
    forall k: A :: At(n, k) == At(m, k) - if k in keys then {v} else {}
  }

  ghost predicate TakenAt<A(!new), B>(m: Table<A, B>, n: Table<A, B>, key: A, vs: set<B>) {
    forall k: A :: At(n, k) == At(m, k) - if k == key then vs else {}
  }

  function Put<A, B>(m: Table<A, B>, k: A, v: B): Table<A, B> { m[k := At(m, k) + {v}] }

  function Drop<A, B>(m: Table<A, B>, k: A, vs: set<B>): Table<A, B> { if k in m then m[k := m[k] - vs] else m }

  function Prune<A, B>(m: Table<A, B>, k: A): Table<A, B> { if At(m, k) == {} then m - {k} else m }

  lemma PutAdds<A(!new), B>(m: Table<A, B>, k: A, v: B)
    ensures Added(m, Put(m, k, v), {k}, v) && (NoEmpty(m) ==> NoEmpty(Put(m, k, v)))
  {}

  lemma DropTakes<A(!new), B>(m: Table<A, B>, k: A, vs: set<B>)
    ensures TakenAt(m, Drop(m, k, vs), k, vs)
    ensures forall j | j in Drop(m, k, vs) && j != k :: j in m && Drop(m, k, vs)[j] == m[j]
  {}

  lemma PruneKeeps<A(!new), B>(m: Table<A, B>, k: A)
    ensures TakenAt(m, Prune(m, k), k, {})
    ensures (forall j | j in m && j != k :: m[j] != {}) ==> NoEmpty(Prune(m, k))
  {}

  lemma AddedNone<A(!new), B>(m: Table<A, B>, v: B)
    ensures Added(m, m, {}, v)
  {}

  lemma AddedMore<A(!new), B>(m: Table<A, B>, n: Table<A, B>, n': Table<A, B>, done: set<A>, r: A, v: B)
    requires Added(m, n, done, v) && Added(n, n', {r}, v)
    ensures Added(m, n', done + {r}, v)
  {}

  lemma TakenNone<A(!new), B>(m: Table<A, B>, k: A, v: B)
    ensures Taken(m, m, {}, v) && TakenAt(m, m, k, {})
  {}

  /** The two sides of one kind of subscription agree for those registered. */
  ghost predicate Inverse(registered: set<Ref>, forward: Table<Ref, Key>, back: Table<Key, Ref>) {
    forall k: Key, r: Ref :: r in At(back, k) <==> r in registered && k in At(forward, r)
  }

  lemma AddedBoth(registered: set<Ref>, f: Table<Ref, Key>, b: Table<Key, Ref>, f': Table<Ref, Key>, b': Table<Key, Ref>, r: Ref, k: Key)
    requires Inverse(registered, f, b) && r in registered && Added(f, f', {r}, k) && Added(b, b', {k}, r)
    ensures Inverse(registered, f', b')
  {}

  lemma TakenBoth(registered: set<Ref>, f: Table<Ref, Key>, b: Table<Key, Ref>, f': Table<Ref, Key>, b': Table<Key, Ref>, who: set<Ref>, k: Key)
    requires Inverse(registered, f, b) && Taken(f, f', who, k) && TakenAt(b, b', k, who)
    ensures Inverse(registered, f', b')
  {}

  lemma TakenMore(f: Table<Ref, Key>, f1: Table<Ref, Key>, done: set<Ref>, r: Ref, k: Key)
    requires Taken(f, f1, done, k)
    ensures Taken(f, f1[r := At(f1, r) - {k}], done + {r}, k)
  {}

  lemma TakenAtMore<A(!new), B>(m: Table<A, B>, m1: Table<A, B>, k: A, vs: set<B>, ws: set<B>)
    requires TakenAt(m, m1, k, vs)
    ensures TakenAt(m, Drop(m1, k, ws), k, vs + ws)
  {
    DropTakes(m1, k, ws);
  }

  datatype Socket = Socket(session: string, user: Key, revoked: bool)

  /** Exactly the given connections are flagged, and nothing else about any. */
  predicate Revoked(before: map<Ref, Socket>, now: map<Ref, Socket>, who: set<Ref>) {
    && now.Keys == before.Keys
    && forall r | r in now :: now[r] == if r in who then before[r].(revoked := true) else before[r]
  }

  class RealtimeHub {
    var sockets: map<Ref, Socket>
    var users: Table<Key, Ref>
    /** Each connection's own `rooms` and `contacts`, and their reverse indexes. */
    var follows: Table<Ref, Key>
    var rooms: Table<Key, Ref>
    var watches: Table<Ref, Key>
    var watchers: Table<Key, Ref>
    var desired: map<Key, string>

    /** Registered connections. */
    function Online(): set<Ref>
      reads this`sockets, this`users
    {
      set r | r in sockets && r in At(users, sockets[r].user)
    }

    ghost predicate UsersMatch()
      reads this`sockets, this`users
    {
      NoEmpty(users) && forall u: Key, r | r in At(users, u) :: r in sockets && sockets[r].user == u
    }

    ghost predicate Valid()
      reads this
    {
      && UsersMatch()
      && NoEmpty(rooms) && Inverse(Online(), follows, rooms)
      && NoEmpty(watchers) && Inverse(Online(), watches, watchers)
    }

    constructor ()
      ensures Valid() && sockets == map[] && users == map[] && desired == map[]
    {
      sockets, users, follows, rooms, watches, watchers, desired := map[], map[], map[], map[], map[], map[], map[];
    }

    method Subscribe(r: Ref, room: Key)
      requires Valid() && r in Online()
      modifies this`follows, this`rooms
      ensures Valid() && Added(old(follows), follows, {r}, room)
    {
      hide Online, UsersMatch;
      if room in At(follows, r) {
        return;
      }
      PutAdds(rooms, room, r);
      PutAdds(follows, r, room);
      AddedBoth(Online(), follows, rooms, Put(follows, r, room), Put(rooms, room, r), r, room);
      follows := follows[r := At(follows, r) + {room}];
      rooms := rooms[room := At(rooms, room) + {r}];
    }

    method SubscribeEach(who: set<Ref>, room: Key)
      requires Valid() && who <= Online()
      modifies this`follows, this`rooms
      ensures Valid() && Added(old(follows), follows, who, room)
    {
      hide Online, UsersMatch, NoEmpty, Added, Valid;
      var todo := who;
      ghost var done: set<Ref> := {};
      AddedNone(follows, room);
      while todo != {}
        invariant who <= Online() && done + todo == who && Valid()
        invariant Added(old(follows), follows, done, room)
        decreases todo
      {
        var r :| r in todo;
        ghost var before := follows;
        Subscribe(r, room);
        AddedMore(old(follows), before, follows, done, r, room);
        todo := todo - {r};
        done := done + {r};
      }
      assert done == who;
    }

    method SubscribeContact(r: Ref, contact: Key)
      requires Valid() && r in Online()
      modifies this`watches, this`watchers
      ensures Valid() && Added(old(watches), watches, {r}, contact)
    {
      hide Online, UsersMatch;
      if contact in At(watches, r) {
        return;
      }
      PutAdds(watchers, contact, r);
      PutAdds(watches, r, contact);
      AddedBoth(Online(), watches, watchers, Put(watches, r, contact), Put(watchers, contact, r), r, contact);
      watches := watches[r := At(watches, r) + {contact}];
      watchers := watchers[contact := At(watchers, contact) + {r}];
    }

    method SubscribeContactEach(who: set<Ref>, contact: Key)
      requires Valid() && who <= Online()
      modifies this`watches, this`watchers
      ensures Valid() && Added(old(watches), watches, who, contact)
    {
      hide Online, UsersMatch, NoEmpty, Added, Valid;
      var todo := who;
      ghost var done: set<Ref> := {};
      AddedNone(watches, contact);
      while todo != {}
        invariant who <= Online() && done + todo == who && Valid()
        invariant Added(old(watches), watches, done, contact)
        decreases todo
      {
        var r :| r in todo;
        ghost var before := watches;
        SubscribeContact(r, contact);
        AddedMore(old(watches), before, watches, done, r, contact);
        todo := todo - {r};
        done := done + {r};
      }
      assert done == who;
    }

    lemma UsersAreOnline(user: Key)
      requires Valid()
      ensures At(users, user) <= Online()
    {
      hide Inverse;
    }

    method SubscribeUser(room: Key, user: Key)
      requires Valid()
      modifies this`follows, this`rooms
      ensures Valid() && Added(old(follows), follows, At(users, user), room)
    {
      UsersAreOnline(user);
      SubscribeEach(At(users, user), room);
    }

    method SubscribeContacts(left: Key, right: Key)
      requires Valid()
      modifies this`watches, this`watchers
      ensures Valid()
      ensures forall r: Ref ::
        At(watches, r) == At(old(watches), r)
          + (if r in At(users, left) then {right} else {}) + (if r in At(users, right) then {left} else {})
    {
      UsersAreOnline(left);
      UsersAreOnline(right);
      hide Online, UsersMatch, NoEmpty, Inverse;
      SubscribeContactEach(At(users, left), right);
      SubscribeContactEach(At(users, right), left);
    }

    /** The loop of `unsubscribeUser`; the room's set may end up empty. */
    method UnfollowEach(who: set<Ref>, room: Key)
      modifies this`follows, this`rooms
      ensures Taken(old(follows), follows, who, room) && TakenAt(old(rooms), rooms, room, who)
      ensures forall k | k in rooms && k != room :: k in old(rooms) && rooms[k] == old(rooms)[k]
    {
      hide Taken, TakenAt;
      var todo := who;
      ghost var done: set<Ref> := {};
      TakenNone(follows, 0, room);
      TakenNone(rooms, room, 0);
      while todo != {}
        invariant done + todo == who
        invariant Taken(old(follows), follows, done, room) && TakenAt(old(rooms), rooms, room, done)
        invariant forall k | k in rooms && k != room :: k in old(rooms) && rooms[k] == old(rooms)[k]
        decreases todo
      {
        var r :| r in todo;
        TakenMore(old(follows), follows, done, r, room);
        TakenAtMore(old(rooms), rooms, room, done, {r});
        follows := follows[r := At(follows, r) - {room}];
        if room in rooms {
          rooms := rooms[room := rooms[room] - {r}];
        }
        todo := todo - {r};
        done := done + {r};
      }
      assert done == who;
    }

    method UnsubscribeUser(room: Key, user: Key)
      requires Valid()
      modifies this`follows, this`rooms
      ensures Valid() && Taken(old(follows), follows, At(users, user), room)
    {
      hide Online, UsersMatch;
      UnfollowEach(At(users, user), room);
      PruneKeeps(rooms, room);
      TakenBoth(Online(), old(follows), old(rooms), follows, Prune(rooms, room), At(users, user), room);
      if At(rooms, room) == {} {
        rooms := rooms - {room};
      }
    }

    method UnsubscribeRoom(room: Key)
      requires Valid()
      modifies this`follows, this`rooms
      ensures Valid() && Taken(old(follows), follows, At(old(rooms), room), room) && room !in rooms
    {
      hide Online, UsersMatch, Taken;
      var todo := At(rooms, room);
      ghost var who := todo;
      ghost var done: set<Ref> := {};
      TakenNone(follows, 0, room);
      while todo != {}
        invariant done + todo == who && rooms == old(rooms)
        invariant Taken(old(follows), follows, done, room)
        decreases todo
      {
        var r :| r in todo;
        TakenMore(old(follows), follows, done, r, room);
        follows := follows[r := At(follows, r) - {room}];
        todo := todo - {r};
        done := done + {r};
      }
      assert done == who;
      TakenBoth(Online(), old(follows), rooms, follows, rooms - {room}, who, room);
      rooms := rooms - {room};
    }

    /** One loop of `unsubscribeContacts`. */
    method UnwatchEach(who: set<Ref>, contact: Key)
      modifies this`watches, this`watchers
      ensures Taken(old(watches), watches, who, contact) && TakenAt(old(watchers), watchers, contact, who)
      ensures forall k | k in watchers && k != contact :: k in old(watchers) && watchers[k] == old(watchers)[k]
    {
      hide Taken, TakenAt;
      var todo := who;
      ghost var done: set<Ref> := {};
      TakenNone(watches, 0, contact);
      TakenNone(watchers, contact, 0);
      while todo != {}
        invariant done + todo == who
        invariant Taken(old(watches), watches, done, contact) && TakenAt(old(watchers), watchers, contact, done)
        invariant forall k | k in watchers && k != contact :: k in old(watchers) && watchers[k] == old(watchers)[k]
        decreases todo
      {
        var r :| r in todo;
        TakenMore(old(watches), watches, done, r, contact);
        TakenAtMore(old(watchers), watchers, contact, done, {r});
        watches := watches[r := At(watches, r) - {contact}];
        if contact in watchers {
          watchers := watchers[contact := watchers[contact] - {r}];
        }
        todo := todo - {r};
        done := done + {r};
      }
      assert done == who;
    }

    /** One direction; the contact's set may end up empty. */
    method UnwatchOne(who: set<Ref>, contact: Key, ghost online: set<Ref>)
      requires Inverse(online, watches, watchers)
      modifies this`watches, this`watchers
      ensures Inverse(online, watches, watchers) && Taken(old(watches), watches, who, contact)
      ensures forall k | k in watchers && k != contact :: k in old(watchers) && watchers[k] == old(watchers)[k]
    {
      hide Inverse, Taken, TakenAt;
      ghost var f, b := watches, watchers;
      UnwatchEach(who, contact);
      TakenBoth(online, f, b, watches, watchers, who, contact);
    }

    /** Entries that became empty go. */
    method PruneWatchers(left: Key, right: Key, ghost online: set<Ref>)
      requires Inverse(online, watches, watchers) && forall k | k in watchers && k != left && k != right :: watchers[k] != {}
      modifies this`watchers
      ensures Inverse(online, watches, watchers) && NoEmpty(watchers)
    {
      hide Inverse;
      ghost var b := watchers;
      if At(watchers, left) == {} {
        watchers := watchers - {left};
      }
      if At(watchers, right) == {} {
        watchers := watchers - {right};
      }
      PrunedPair(b, left, right);
      SameInverse(online, watches, b, watchers);
    }

    /** Both directions are undone before either entry is dropped. */
    method UnsubscribeContacts(left: Key, right: Key)
      requires Valid()
      modifies this`watches, this`watchers
      ensures Valid()
      ensures forall r: Ref ::
        At(watches, r) == At(old(watches), r)
          - (if r in At(users, left) then {right} else {}) - (if r in At(users, right) then {left} else {})
    {
      hide Online, UsersMatch, Taken, Inverse;
      ghost var f0 := watches;
      UnwatchOne(At(users, left), right, Online());
      ghost var f1 := watches;
      UnwatchOne(At(users, right), left, Online());
      TakenPair(f0, f1, watches, At(users, left), At(users, right), left, right);
      PruneWatchers(left, right, Online());
    }

    method Register(r: Ref, session: string, user: Key) returns (becameOnline: bool)
      requires Valid() && r !in sockets && r !in follows && r !in watches
      modifies this
      ensures Valid() && becameOnline == (At(old(users), user) == {})
      ensures sockets == old(sockets)[r := Socket(session, user, false)] && Added(old(users), users, {user}, r)
      ensures follows == old(follows) && watches == old(watches) && desired == old(desired)
      ensures Online() == old(Online()) + {r}
    {
      becameOnline := At(users, user) == {};
      PutAdds(users, user, r);
      ghost var before := Online();
      sockets := sockets[r := Socket(session, user, false)];
      users := users[user := At(users, user) + {r}];
      OneMoreOnline(old(sockets), old(users), r, session, user);
      assert Online() == before + {r};
      hide Online;
      Unsubscribed(before, follows, rooms, r);
      Unsubscribed(before, watches, watchers, r);
    }

    /** A new connection with the rooms and friends read from the store. */
    method Add(r: Ref, session: string, user: Key, roomIds: seq<Key>, friends: seq<Key>) returns (becameOnline: bool)
      requires Valid() && r !in sockets && r !in follows && r !in watches
      modifies this
      ensures Valid() && r in Online() && becameOnline == (At(old(users), user) == {}) && desired == old(desired)
      ensures sockets == old(sockets)[r := Socket(session, user, false)] && Added(old(users), users, {user}, r)
      ensures At(follows, r) == SetOf(roomIds) && At(watches, r) == SetOf(friends)
      ensures forall x: Ref | x != r :: At(follows, x) == At(old(follows), x) && At(watches, x) == At(old(watches), x)
    {
      becameOnline := Register(r, session, user);
      SubscribeAll(r, roomIds);
      SubscribeAllContacts(r, friends);
    }

    method SubscribeAll(r: Ref, roomIds: seq<Key>)
      requires Valid() && r in Online()
      modifies this`follows, this`rooms
      ensures Valid() && At(follows, r) == At(old(follows), r) + SetOf(roomIds)
      ensures forall x: Ref | x != r :: At(follows, x) == At(old(follows), x)
    {
      hide Valid, Online;
      var i := 0;
      while i < |roomIds|
        invariant 0 <= i <= |roomIds| && Valid() && r in Online()
        invariant At(follows, r) == At(old(follows), r) + SetOf(roomIds[..i])
        invariant forall x: Ref | x != r :: At(follows, x) == At(old(follows), x)
      {
        SetOfNext(roomIds, i);
        Subscribe(r, roomIds[i]);
        i := i + 1;
      }
      assert roomIds[..i] == roomIds;
    }

    method SubscribeAllContacts(r: Ref, friends: seq<Key>)
      requires Valid() && r in Online()
      modifies this`watches, this`watchers
      ensures Valid() && At(watches, r) == At(old(watches), r) + SetOf(friends)
      ensures forall x: Ref | x != r :: At(watches, x) == At(old(watches), x)
    {
      hide Valid, Online;
      var i := 0;
      while i < |friends|
        invariant 0 <= i <= |friends| && Valid() && r in Online()
        invariant At(watches, r) == At(old(watches), r) + SetOf(friends[..i])
        invariant forall x: Ref | x != r :: At(watches, x) == At(old(watches), x)
      {
        SetOfNext(friends, i);
        SubscribeContact(r, friends[i]);
        i := i + 1;
      }
      assert friends[..i] == friends;
    }

    /** Out of every index it is in; a desired status that nobody needs goes. */
    method Remove(r: Ref) returns (becameOffline: bool)
      requires Valid() && r in sockets
      modifies this`users, this`rooms, this`watchers, this`desired
      ensures Valid() && Online() == old(Online()) - {r}
      ensures Taken(old(users), users, {sockets[r].user}, r) && becameOffline == (At(users, sockets[r].user) == {})
      ensures forall k | k in desired :: k in old(desired) && desired[k] == old(desired)[k]
      ensures forall k | k in old(desired) ::
        k in desired <==> !((k in At(watches, r) || k == sockets[r].user) && At(users, k) == {} && At(watchers, k) == {})
    {
      var user := sockets[r].user;
      Deregister(r);
      becameOffline := At(users, user) == {};
      RemoveRooms(r, old(Online()));
      RemoveContacts(r, old(Online()));
      if At(users, user) == {} && At(watchers, user) == {} {
        desired := desired - {user};
      }
    }

    method Deregister(r: Ref)
      requires UsersMatch() && r in sockets
      modifies this`users
      ensures UsersMatch() && Online() == old(Online()) - {r} && Taken(old(users), users, {sockets[r].user}, r)
    {
      DropPrune(users, users, {}, sockets[r].user, r);
      users := Prune(Drop(users, sockets[r].user, {r}), sockets[r].user);
    }

    method RemoveRooms(r: Ref, ghost online: set<Ref>)
      requires NoEmpty(rooms) && Inverse(online, follows, rooms)
      modifies this`rooms
      ensures NoEmpty(rooms) && Inverse(online - {r}, follows, rooms)
    {
      ghost var start, all := rooms, At(follows, r);
      hide NoEmpty, Taken, Inverse, Drop, Prune;
      var todo := At(follows, r);
      ghost var done: set<Key> := {};
      TakenNone(rooms, "", r);
      while todo != {}
        invariant done + todo == all && NoEmpty(rooms) && Taken(start, rooms, done, r)
        decreases todo
      {
        var room :| room in todo;
        DropPrune(start, rooms, done, room, r);
        rooms := Prune(Drop(rooms, room, {r}), room);
        todo := todo - {room};
        done := done + {room};
      }
      assert done == all;
      AllTaken(online, follows, start, rooms, r);
    }

    method RemoveContacts(r: Ref, ghost online: set<Ref>)
      requires NoEmpty(watchers) && Inverse(online, watches, watchers)
      modifies this`watchers, this`desired
      ensures NoEmpty(watchers) && Inverse(online - {r}, watches, watchers)
      ensures desired == WithoutIdle(old(desired), At(watches, r), users, watchers)
    {
      ghost var start, all, wanted := watchers, At(watches, r), desired;
      hide NoEmpty, Taken, Inverse, Drop, Prune, WithoutIdle;
      var todo := At(watches, r);
      ghost var done: set<Key> := {};
      TakenNone(watchers, "", r);
      NobodyIdle(desired, users, watchers);
      while todo != {}
        invariant done + todo == all && done !! todo && NoEmpty(watchers) && Taken(start, watchers, done, r)
        invariant desired == WithoutIdle(wanted, done, users, watchers)
        decreases todo
      {
        var contact :| contact in todo;
        DropPrune(start, watchers, done, contact, r);
        OneMoreIdle(wanted, done, users, watchers, contact, r);
        watchers := Prune(Drop(watchers, contact, {r}), contact);
        if At(watchers, contact) == {} && At(users, contact) == {} {
          desired := desired - {contact};
        }
        todo := todo - {contact};
        done := done + {contact};
      }
      assert done == all;
      AllTaken(online, watches, start, watchers, r);
    }

    /** Each of the user's connections is flagged and then removed. */
    method DisconnectEach(targets: set<Ref>)
      requires Valid() && targets <= sockets.Keys
      modifies this`sockets, this`users, this`rooms, this`watchers, this`desired
      ensures Valid() && Online() == old(Online()) - targets
      ensures Revoked(old(sockets), sockets, targets)
    {
      hide UsersMatch, Inverse, NoEmpty, Taken;
      var todo := targets;
      ghost var done: set<Ref> := {};
      while todo != {}
        invariant done + todo == targets && targets <= old(sockets).Keys && Valid() && Online() == old(Online()) - done
        invariant Revoked(old(sockets), sockets, done)
        decreases todo
      {
        var r :| r in todo;
        MarkRevoked(r);
        var offline := Remove(r);
        todo := todo - {r};
        done := done + {r};
      }
      assert done == targets;
    }

    method MarkRevoked(r: Ref)
      requires Valid() && r in sockets
      modifies this`sockets
      ensures Valid() && Online() == old(Online()) && sockets == old(sockets)[r := old(sockets)[r].(revoked := true)]
    {
      sockets := sockets[r := sockets[r].(revoked := true)];
      assert Online() == old(Online());
    }

    method DisconnectUser(user: Key)
      requires Valid()
      modifies this`sockets, this`users, this`rooms, this`watchers, this`desired
      ensures Valid() && Online() == old(Online()) - old(At(users, user)) && At(users, user) == {}
      ensures Revoked(old(sockets), sockets, old(At(users, user)))
    {
      assert At(users, user) <= sockets.Keys;
      DisconnectEach(At(users, user));
      NobodyAt(sockets, users, user, Online());
    }

    method DisconnectSession(session: string)
      requires Valid()
      modifies this`sockets, this`users, this`rooms, this`watchers, this`desired
      ensures Valid() && forall r | r in Online() :: r in old(Online()) && sockets[r].session != session
      ensures forall r | r in old(Online()) && old(sockets)[r].session != session :: r in Online()
      ensures Revoked(old(sockets), sockets, old(Online()) - Online())
    {
      var targets := set u, r | u in users && r in users[u] && r in sockets && sockets[r].session == session :: r;
      assert forall r | r in Online() && sockets[r].session == session :: r in targets by {
        forall r | r in Online() && sockets[r].session == session ensures r in targets {
          assert sockets[r].user in users && r in users[sockets[r].user];
        }
      }
      assert targets <= Online() by {
        forall u, r | u in users && r in users[u] ensures r in At(users, u) && r in sockets && sockets[r].user == u {}
      }
      ghost var before := Online();
      hide UsersMatch, Inverse, NoEmpty;
      DisconnectEach(targets);
      assert before - Online() == targets;
    }
  }

  lemma DropPrune<A(!new), B>(m: Table<A, B>, n: Table<A, B>, done: set<A>, k: A, v: B)
    requires Taken(m, n, done, v) && NoEmpty(n)
    ensures Taken(m, Prune(Drop(n, k, {v}), k), done + {k}, v) && NoEmpty(Prune(Drop(n, k, {v}), k))
  {}

  lemma AllTaken(online: set<Ref>, f: Table<Ref, Key>, b: Table<Key, Ref>, b': Table<Key, Ref>, r: Ref)
    requires Inverse(online, f, b) && Taken(b, b', At(f, r), r)
    ensures Inverse(online - {r}, f, b')
  {}

  /** Statuses of the given users go when nobody is or watches them. */
  function WithoutIdle(desired: map<Key, string>, who: set<Key>, users: Table<Key, Ref>, watchers: Table<Key, Ref>): map<Key, string> {
    map k | k in desired && !(k in who && At(users, k) == {} && At(watchers, k) == {}) :: desired[k]
  }

  lemma NobodyIdle(desired: map<Key, string>, users: Table<Key, Ref>, watchers: Table<Key, Ref>)
    ensures WithoutIdle(desired, {}, users, watchers) == desired
  {}

  lemma OneMoreIdle(desired: map<Key, string>, done: set<Key>, users: Table<Key, Ref>, watchers: Table<Key, Ref>, k: Key, r: Ref)
    requires k !in done
    ensures var now := Prune(Drop(watchers, k, {r}), k); var d := WithoutIdle(desired, done, users, watchers);
      (if At(now, k) == {} && At(users, k) == {} then d - {k} else d) == WithoutIdle(desired, done + {k}, users, now)
  {}

  lemma NobodyAt(sockets: map<Ref, Socket>, users: Table<Key, Ref>, user: Key, online: set<Ref>)
    requires forall u: Key, r: Ref | r in At(users, u) :: r in online && r in sockets && sockets[r].user == u
    requires forall r: Ref | r in online :: r in sockets && sockets[r].user != user
    ensures At(users, user) == {}
  {
    forall r: Ref ensures r !in At(users, user) {
      assert r in At(users, user) ==> r in online;
    }
  }

  function SetOf(s: seq<Key>): set<Key> { set k | k in s }

  lemma SetOfNext(s: seq<Key>, i: nat)
    requires i < |s|
    ensures SetOf(s[..i + 1]) == SetOf(s[..i]) + {s[i]}
  {}

  lemma OneMoreOnline(sockets: map<Ref, Socket>, users: Table<Key, Ref>, r: Ref, session: string, user: Key)
    requires r !in sockets && forall u: Key, x | x in At(users, u) :: x in sockets && sockets[x].user == u
    ensures var s, u := sockets[r := Socket(session, user, false)], Put(users, user, r);
      forall x :: x in s && x in At(u, s[x].user) <==> (x in sockets && x in At(users, sockets[x].user)) || x == r
  {}

  /** A connection nobody knows is in no reverse index. */
  lemma Unsubscribed(online: set<Ref>, f: Table<Ref, Key>, b: Table<Key, Ref>, r: Ref)
    requires Inverse(online, f, b) && r !in f
    ensures Inverse(online + {r}, f, b)
  {}

  lemma PrunedPair(b: Table<Key, Ref>, left: Key, right: Key)
    requires forall k | k in b && k != left && k != right :: b[k] != {}
    ensures var p := Prune(Prune(b, left), right); NoEmpty(p) && forall k: Key :: At(p, k) == At(b, k)
  {}

  lemma SameInverse(online: set<Ref>, f: Table<Ref, Key>, b: Table<Key, Ref>, b': Table<Key, Ref>)
    requires Inverse(online, f, b) && forall k: Key :: At(b', k) == At(b, k)
    ensures Inverse(online, f, b')
  {}

  lemma TakenPair(f0: Table<Ref, Key>, f1: Table<Ref, Key>, f2: Table<Ref, Key>, a: set<Ref>, b: set<Ref>, left: Key, right: Key)
    requires Taken(f0, f1, a, right) && Taken(f1, f2, b, left)
    ensures forall r: Ref :: At(f2, r) == At(f0, r) - (if r in a then {right} else {}) - (if r in b then {left} else {})
  {}
}
