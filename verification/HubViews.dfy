/** What each participant believes about its room: the peers it was told on
    joining, corrected by the peer.joined and peer.left events it was sent. */
module HubViews {
  import opened HubIndexes
  import opened HubModel

  function Heard(start: set<Peer>, log: seq<Event>): set<Peer> {
    if log == [] then start
    else
      match log[|log| - 1]
      case Joined(p) => Heard(start, log[..|log| - 1]) + {p}
      case Left(p) => Heard(start, log[..|log| - 1]) - {p}
  }

  function View(c: Client): set<Peer> { Heard(c.snapshot, c.log) }

  predicate Clean(c: Client) { !c.revoked && !c.overflowed }

  /** Departures taken under the lock whose announcement is still to be made. */
  type Leaving = multiset<(Room, Peer)>

  ghost predicate IsOther(s: State, room: Room, e: Ref, p: Peer) {
    exists d :: d in Members(s, room) && d != e && d in s.clients && s.clients[d].peer == p
  }

  /** Apart from departures still to be announced, a view is the other peers. */
  ghost predicate SeesRight(s: State, leaving: Leaving, room: Room, e: Ref)
    requires e in s.clients
  {
    forall p: Peer | (room, p) !in leaving :: p in View(s.clients[e]) <==> IsOther(s, room, e, p)
  }

  ghost predicate Consistent(s: State, leaving: Leaving) {
    forall room: Room, e | e in Members(s, room) && e in s.clients && Clean(s.clients[e]) :: SeesRight(s, leaving, room, e)
  }

  // ---- Queues and views ------------------------------------------------------------

  lemma {:induction false} HeardAppend(start: set<Peer>, a: seq<Event>, b: seq<Event>)
    ensures Heard(start, a + b) == Heard(Heard(start, a), b)
  {
    if b == [] {
      assert a + b == a;
    } else {
      HeardAppend(start, a, b[..|b| - 1]);
      assert (a + b)[..|a + b| - 1] == a + b[..|b| - 1];
    }
  }

  /** A client that is still clean afterwards was sent everything. */
  lemma {:induction false} CleanHeardAll(c: Client, ms: seq<Event>)
    requires Clean(DeliverAll(c, ms))
    ensures Clean(c) && DeliverAll(c, ms).log == c.log + ms && DeliverAll(c, ms).snapshot == c.snapshot
    ensures View(DeliverAll(c, ms)) == Heard(View(c), ms)
  {
    if ms == [] {
      assert c.log + ms == c.log;
    } else {
      CleanHeardAll(c, ms[..|ms| - 1]);
      assert c.log + ms == c.log + ms[..|ms| - 1] + [ms[|ms| - 1]];
    }
    HeardAppend(c.snapshot, c.log, ms);
  }

  // ---- Joining ------------------------------------------------------------------------

  lemma {:induction false} HeardFarewells(v: set<Peer>, clients: map<Ref, Client>, c: Client, replaceUser: bool, order: seq<Ref>, p: Peer)
    requires forall i | 0 <= i < |order| :: order[i] in clients
    ensures p in Heard(v, Farewells(clients, c, replaceUser, order)) <==>
      p in v && (p == c.peer || forall i | 0 <= i < |order| :: Gives(clients[order[i]], c, replaceUser) ==> clients[order[i]].peer != p)
  {
    hide Gives;
    if order != [] {
      var last := |order| - 1;
      var before, e := order[..last], clients[order[last]];
      HeardFarewells(v, clients, c, replaceUser, before, p);
      var f := Farewells(clients, c, replaceUser, before);
      if Gives(e, c, replaceUser) && e.peer != c.peer {
        HeardAppend(v, f, [Left(e.peer)]);
        assert [Left(e.peer)][..0] == [];
      } else {
        assert f + [] == f;
      }
      assert forall i | 0 <= i < last :: order[i] == before[i];
    }
  }

  /** After the news of a join, a peer is in a stayer's view if it is the new
      one's, or was there and is not among those given up. */
  lemma HeardNews(v: set<Peer>, clients: map<Ref, Client>, c: Client, replaceUser: bool, order: seq<Ref>, p: Peer)
    requires forall i | 0 <= i < |order| :: order[i] in clients
    ensures p in Heard(v, News(clients, c, replaceUser, order)) <==>
      if p == c.peer then p in v || !Holds(clients, order, p)
      else p in v && forall i | 0 <= i < |order| :: Gives(clients[order[i]], c, replaceUser) ==> clients[order[i]].peer != p
  {
    hide Farewells, Gives;
    HeardFarewells(v, clients, c, replaceUser, order, p);
    var f := Farewells(clients, c, replaceUser, order);
    if Holds(clients, order, c.peer) {
      assert f + [] == f;
    } else {
      HeardAppend(v, f, [Joined(c.peer)]);
      assert [Joined(c.peer)][..0] == [];
    }
  }

  /** The setting of a join that goes through. */
  ghost predicate Joins(s: State, room: Room, r: Ref, c: Client, replaceUser: bool, order: seq<Ref>) {
    && Indexed(s) && Enumerates(order, Members(s, room)) && r !in s.clients && c.room == room && Clean(c)
    && (forall i | 0 <= i < |order| :: order[i] in s.clients)
    && !Refused(s.clients, c, order)
  }

  lemma Stayers(s: State, room: Room, r: Ref, c: Client, replaceUser: bool, order: seq<Ref>, d: Ref)
    requires Joins(s, room, r, c, replaceUser, order)
    ensures Join(s, room, r, c, replaceUser, order).clients.Keys == s.clients.Keys + {r}
    ensures d in Members(Join(s, room, r, c, replaceUser, order), room) <==>
      d == r || (d in Members(s, room) && !Gives(s.clients[d], c, replaceUser))
    ensures forall e | e in s.clients ::
      SameIdentity(Join(s, room, r, c, replaceUser, order).clients[e], s.clients[e])
    ensures Join(s, room, r, c, replaceUser, order).clients[r].peer == c.peer
  {
    ScanShrinks(s, room, c, replaceUser, order);
    var scanned := Scan(s, room, c, replaceUser, order);
    TellSame(scanned.clients, Members(scanned, room), News(s.clients, c, replaceUser, order));
    assert RoomIndexed(s.clients, room, Members(s, room), Voices(s, room));
    hide Scan, Tell, News, Gives, FirstConflict, Indexed, PeersOf;
  }

  /** A stayer hears exactly the news. */
  lemma StayerHears(s: State, room: Room, r: Ref, c: Client, replaceUser: bool, order: seq<Ref>, e: Ref)
    requires Joins(s, room, r, c, replaceUser, order) && e in Members(s, room) && !Gives(s.clients[e], c, replaceUser)
    ensures e in Join(s, room, r, c, replaceUser, order).clients
    ensures Join(s, room, r, c, replaceUser, order).clients[e]
         == DeliverAll(s.clients[e], News(s.clients, c, replaceUser, order))
  {
    ScanShrinks(s, room, c, replaceUser, order);
    ScanLeavesStayers(s, room, c, replaceUser, order, e);
    assert RoomIndexed(s.clients, room, Members(s, room), Voices(s, room));
    hide Scan, News, Gives, FirstConflict, Indexed, PeersOf, DeliverAll;
  }

  lemma {:induction false} ScanLeavesStayers(s: State, room: Room, c: Client, replaceUser: bool, order: seq<Ref>, e: Ref)
    requires (forall i | 0 <= i < |order| :: order[i] in s.clients) && e in s.clients && !Gives(s.clients[e], c, replaceUser)
    ensures Scan(s, room, c, replaceUser, order).clients[e] == s.clients[e]
  {
    hide Gives, DropVoice;
    if order != [] { ScanLeavesStayers(s, room, c, replaceUser, order[..|order| - 1], e); }
  }

  lemma NewsMatchesRoom(s: State, leaving: Leaving, room: Room, r: Ref, c: Client, replaceUser: bool, order: seq<Ref>, e: Ref, p: Peer)
    requires Joins(s, room, r, c, replaceUser, order) && e in Members(s, room) && !Gives(s.clients[e], c, replaceUser)
    requires p in View(s.clients[e]) <==> IsOther(s, room, e, p)
    ensures p in Heard(View(s.clients[e]), News(s.clients, c, replaceUser, order))
       <==> p == c.peer || exists d :: d in Members(s, room) && d != e && !Gives(s.clients[d], c, replaceUser) && s.clients[d].peer == p
  {
    HeardNews(View(s.clients[e]), s.clients, c, replaceUser, order, p);
    assert RoomIndexed(s.clients, room, Members(s, room), Voices(s, room));
    hide News, Heard, FirstConflict, Indexed, View;
    if p == c.peer {
      if Holds(s.clients, order, p) {
        var i :| 0 <= i < |order| && s.clients[order[i]].peer == p;
        assert order[i] in Members(s, room) && order[i] != e;
        assert IsOther(s, room, e, p);
      }
    } else if IsOther(s, room, e, p) {
      var d :| d in Members(s, room) && d != e && d in s.clients && s.clients[d].peer == p;
      assert d in order;
      assert forall i | 0 <= i < |order| :: s.clients[order[i]].peer == p ==> order[i] == d;
    }
  }

  lemma StayerSeesRight(s: State, leaving: Leaving, room: Room, r: Ref, c: Client, replaceUser: bool, order: seq<Ref>, e: Ref)
    requires Joins(s, room, r, c, replaceUser, order) && e in Members(s, room) && !Gives(s.clients[e], c, replaceUser)
    requires Consistent(s, leaving)
    ensures e in Join(s, room, r, c, replaceUser, order).clients
    ensures Clean(Join(s, room, r, c, replaceUser, order).clients[e]) ==>
      SeesRight(Join(s, room, r, c, replaceUser, order), leaving, room, e)
  {
    StayerHears(s, room, r, c, replaceUser, order, e);
    var t := Join(s, room, r, c, replaceUser, order);
    Stayers(s, room, r, c, replaceUser, order, r);
    if Clean(t.clients[e]) {
      CleanHeardAll(s.clients[e], News(s.clients, c, replaceUser, order));
      forall p: Peer | (room, p) !in leaving ensures p in View(t.clients[e]) <==> IsOther(t, room, e, p) {
        assert SeesRight(s, leaving, room, e);
        NewsMatchesRoom(s, leaving, room, r, c, replaceUser, order, e, p);
        hide Join, Heard, View, News, Indexed, DeliverAll, FirstConflict, Consistent, SeesRight;
        JoinedOther(s, room, r, c, replaceUser, order, e, p);
      }
    }
  }

  lemma JoinedOther(s: State, room: Room, r: Ref, c: Client, replaceUser: bool, order: seq<Ref>, e: Ref, p: Peer)
    requires Joins(s, room, r, c, replaceUser, order) && e in s.clients
    ensures IsOther(Join(s, room, r, c, replaceUser, order), room, e, p)
       <==> p == c.peer || exists d :: d in Members(s, room) && d != e && !Gives(s.clients[d], c, replaceUser) && s.clients[d].peer == p
  {
    var t := Join(s, room, r, c, replaceUser, order);
    assert RoomIndexed(s.clients, room, Members(s, room), Voices(s, room));
    Stayers(s, room, r, c, replaceUser, order, r);
    hide Join, Gives, FirstConflict, Indexed;
    if IsOther(t, room, e, p) {
      var d :| d in Members(t, room) && d != e && d in t.clients && t.clients[d].peer == p;
      Stayers(s, room, r, c, replaceUser, order, d);
    }
    if p == c.peer {
      assert r in Members(t, room) && r != e;
    }
    forall d | d in Members(s, room) && d != e && !Gives(s.clients[d], c, replaceUser) && s.clients[d].peer == p
      ensures IsOther(t, room, e, p)
    {
      Stayers(s, room, r, c, replaceUser, order, d);
      assert d in Members(t, room) && d != e && d in t.clients && t.clients[d].peer == p;
    }
  }

  lemma NewcomerSnapshot(s: State, room: Room, r: Ref, c: Client, replaceUser: bool, order: seq<Ref>, p: Peer)
    requires Joins(s, room, r, c, replaceUser, order)
    ensures r in Join(s, room, r, c, replaceUser, order).clients
    ensures p in View(Join(s, room, r, c, replaceUser, order).clients[r])
       <==> exists d :: d in Members(s, room) && !Gives(s.clients[d], c, replaceUser) && s.clients[d].peer == p
  {
    ScanShrinks(s, room, c, replaceUser, order);
    assert RoomIndexed(s.clients, room, Members(s, room), Voices(s, room));
    hide Scan, Tell, News, Gives, FirstConflict, Indexed;
    var scanned := Scan(s, room, c, replaceUser, order);
    var others := Members(scanned, room);
    assert View(Join(s, room, r, c, replaceUser, order).clients[r]) == PeersOf(scanned.clients, others);
  }

  lemma NewcomerSeesRight(s: State, leaving: Leaving, room: Room, r: Ref, c: Client, replaceUser: bool, order: seq<Ref>)
    requires Joins(s, room, r, c, replaceUser, order)
    ensures r in Join(s, room, r, c, replaceUser, order).clients
    ensures SeesRight(Join(s, room, r, c, replaceUser, order), leaving, room, r)
  {
    var t := Join(s, room, r, c, replaceUser, order);
    assert RoomIndexed(s.clients, room, Members(s, room), Voices(s, room));
    Stayers(s, room, r, c, replaceUser, order, r);
    forall p: Peer ensures p in View(t.clients[r]) <==> IsOther(t, room, r, p) {
      NewcomerSnapshot(s, room, r, c, replaceUser, order, p);
      hide Join, Gives, FirstConflict, Indexed, View;
      if IsOther(t, room, r, p) {
        var d :| d in Members(t, room) && d != r && d in t.clients && t.clients[d].peer == p;
        Stayers(s, room, r, c, replaceUser, order, d);
      }
      forall d | d in Members(s, room) && !Gives(s.clients[d], c, replaceUser) && s.clients[d].peer == p
        ensures IsOther(t, room, r, p)
      {
        Stayers(s, room, r, c, replaceUser, order, d);
      }
    }
  }

  /** Nothing changed for this room's members. */
  ghost predicate SameRoom(s: State, t: State, room: Room) {
    && Members(t, room) == Members(s, room)
    && (forall d | d in Members(s, room) && d in s.clients :: d in t.clients && t.clients[d].peer == s.clients[d].peer)
    && (forall d | d in Members(s, room) :: d in t.clients ==> d in s.clients)
  }

  lemma SameRoomSameOthers(s: State, t: State, room: Room, e: Ref, p: Peer)
    requires SameRoom(s, t, room)
    ensures IsOther(s, room, e, p) <==> IsOther(t, room, e, p)
  {
    if IsOther(s, room, e, p) {
      var d :| d in Members(s, room) && d != e && d in s.clients && s.clients[d].peer == p;
      assert d in Members(t, room) && d in t.clients && t.clients[d].peer == p;
    }
  }

  lemma Elsewhere(s: State, room: Room, other: Room, order: seq<Ref>)
    requires Indexed(s) && Enumerates(order, Members(s, room)) && other != room
    ensures forall e | e in Members(s, other) :: e in s.clients && e !in Members(s, room) && e !in order
  {
    assert RoomIndexed(s.clients, room, Members(s, room), Voices(s, room));
    assert RoomIndexed(s.clients, other, Members(s, other), Voices(s, other));
  }

  lemma UnmovedClient(s: State, room: Room, r: Ref, c: Client, replaceUser: bool, order: seq<Ref>, e: Ref)
    requires Joins(s, room, r, c, replaceUser, order) && e in s.clients && e !in Members(s, room) && e !in order
    ensures e in Join(s, room, r, c, replaceUser, order).clients && Join(s, room, r, c, replaceUser, order).clients[e] == s.clients[e]
  {
    OtherRoomsSame(s, room, c, replaceUser, order);
    ScanShrinks(s, room, c, replaceUser, order);
    assert e !in Members(Scan(s, room, c, replaceUser, order), room);
    hide Scan, News, Gives, FirstConflict, Indexed, PeersOf, DeliverAll, Enumerates, SameIdentities;
  }

  lemma UnmovedMembers(s: State, room: Room, r: Ref, c: Client, replaceUser: bool, order: seq<Ref>, other: Room)
    requires Joins(s, room, r, c, replaceUser, order) && other != room
    ensures Members(Join(s, room, r, c, replaceUser, order), other) == Members(s, other)
  {
    OtherRoomsSame(s, room, c, replaceUser, order);
    hide Scan, News, Gives, FirstConflict, Indexed, PeersOf, Tell, Enumerates;
  }

  lemma OtherRoomsUnmoved(s: State, room: Room, r: Ref, c: Client, replaceUser: bool, order: seq<Ref>, other: Room)
    requires Joins(s, room, r, c, replaceUser, order) && other != room
    ensures SameRoom(s, Join(s, room, r, c, replaceUser, order), other)
    ensures forall e | e in Members(s, other) ::
      e in Join(s, room, r, c, replaceUser, order).clients && Join(s, room, r, c, replaceUser, order).clients[e] == s.clients[e]
  {
    Elsewhere(s, room, other, order);
    UnmovedMembers(s, room, r, c, replaceUser, order, other);
    hide Join, Indexed, FirstConflict, Enumerates;
    forall e | e in Members(s, other)
      ensures e in Join(s, room, r, c, replaceUser, order).clients && Join(s, room, r, c, replaceUser, order).clients[e] == s.clients[e]
    {
      UnmovedClient(s, room, r, c, replaceUser, order, e);
    }
  }

  /** A join that goes through keeps every view right. */
  lemma JoinKeepsViews(s: State, leaving: Leaving, room: Room, r: Ref, c: Client, replaceUser: bool, order: seq<Ref>)
    requires Joins(s, room, r, c, replaceUser, order) && Consistent(s, leaving)
    ensures Consistent(Join(s, room, r, c, replaceUser, order), leaving)
  {
    var t := Join(s, room, r, c, replaceUser, order);
    forall other: Room, e | e in Members(t, other) && e in t.clients && Clean(t.clients[e]) ensures SeesRight(t, leaving, other, e) {
      hide Join, Gives, FirstConflict, Joins, Clean;
      if other != room {
        OtherRoomsUnmoved(s, room, r, c, replaceUser, order, other);
        assert e in s.clients && SeesRight(s, leaving, other, e);
        forall p: Peer ensures IsOther(s, other, e, p) <==> IsOther(t, other, e, p) {
          SameRoomSameOthers(s, t, other, e, p);
        }
      } else if e == r {
        NewcomerSeesRight(s, leaving, room, r, c, replaceUser, order);
      } else {
        Stayers(s, room, r, c, replaceUser, order, e);
        StayerSeesRight(s, leaving, room, r, c, replaceUser, order, e);
      }
    }
  }
}
