/** Runs of the signaling hub: when every participant's view is its room. */
module HubRuns {
  import opened HubIndexes
  import opened HubModel
  import opened HubViews

  // ---- Leaving ---------------------------------------------------------------------

  ghost predicate HasPeer(s: State, room: Room, p: Peer) {
    exists d :: d in Members(s, room) && d in s.clients && s.clients[d].peer == p
  }

  /** Once detached, a peer's departure is owed to the rest of its room. */
  lemma DetachKeepsViews(s: State, leaving: Leaving, room: Room, r: Ref)
    requires Indexed(s) && Consistent(s, leaving) && r in Members(s, room) && r in s.clients
    ensures Consistent(Detach(s, room, r), leaving + multiset{(room, s.clients[r].peer)})
  {
    var t, owed := Detach(s, room, r), leaving + multiset{(room, s.clients[r].peer)};
    assert forall other: Room :: Members(t, other) == if other == room then Members(s, room) - {r} else Members(s, other);
    assert t.clients == s.clients;
    hide Detach, Indexed;
    forall other: Room, e | e in Members(t, other) && e in t.clients && Clean(t.clients[e]) ensures SeesRight(t, owed, other, e) {
      assert SeesRight(s, leaving, other, e);
      forall p: Peer | (other, p) !in owed ensures IsOther(s, other, e, p) <==> IsOther(t, other, e, p) {
        assert (other, p) !in leaving;
        if IsOther(s, other, e, p) {
          var d :| d in Members(s, other) && d != e && d in s.clients && s.clients[d].peer == p;
          assert d in Members(t, other);
        }
      }
    }
  }

  lemma ToldOne(c: Client, m: Event)
    ensures DeliverAll(c, [m]) == Deliver(c, m)
  {
    assert [m][..0] == [];
    assert DeliverAll(c, []) == c;
  }

  lemma HearsLeft(c: Client, p: Peer)
    requires Clean(DeliverAll(c, [Left(p)]))
    ensures Clean(c) && View(DeliverAll(c, [Left(p)])) == View(c) - {p}
  {
    CleanHeardAll(c, [Left(p)]);
    assert [Left(p)][..0] == [];
  }

  lemma AnnounceIdentities(s: State, room: Room, p: Peer)
    ensures var t := Broadcast(s, room, Left(p));
      && SameIdentities(s.clients, t.clients) && (forall other: Room :: Members(t, other) == Members(s, other))
      && (forall e | e in s.clients :: t.clients[e] == if e in Members(s, room) then DeliverAll(s.clients[e], [Left(p)]) else s.clients[e])
  {
    TellSame(s.clients, Members(s, room), [Left(p)]);
  }

  lemma SameOthers(s: State, t: State, room: Room, e: Ref, p: Peer)
    requires SameIdentities(s.clients, t.clients) && Members(t, room) == Members(s, room)
    ensures IsOther(s, room, e, p) <==> IsOther(t, room, e, p)
  {
    if IsOther(s, room, e, p) {
      var d :| d in Members(s, room) && d != e && d in s.clients && s.clients[d].peer == p;
      assert d in Members(t, room) && d in t.clients && t.clients[d].peer == p;
    }
    if IsOther(t, room, e, p) {
      var d :| d in Members(t, room) && d != e && d in t.clients && t.clients[d].peer == p;
      assert d in Members(s, room) && d in s.clients && s.clients[d].peer == p;
    }
  }

  /** Announcing a departure while nobody has taken the peer over. */
  lemma AnnounceKeepsViews(s: State, leaving: Leaving, room: Room, p: Peer)
    requires Indexed(s) && Consistent(s, leaving) && !HasPeer(s, room, p)
    ensures Consistent(Broadcast(s, room, Left(p)), leaving - multiset{(room, p)})
  {
    var t, owed := Broadcast(s, room, Left(p)), leaving - multiset{(room, p)};
    AnnounceIdentities(s, room, p);
    hide Broadcast, DeliverAll;
    forall other: Room, e | e in Members(t, other) && e in t.clients && Clean(t.clients[e]) ensures SeesRight(t, owed, other, e) {
      assert RoomIndexed(s.clients, other, Members(s, other), Voices(s, other));
      if e in Members(s, room) {
        assert RoomIndexed(s.clients, room, Members(s, room), Voices(s, room));
        HearsLeft(s.clients[e], p);
      }
      hide Indexed, Clean, View;
      assert SeesRight(s, leaving, other, e);
      forall q: Peer | (other, q) !in owed ensures q in View(t.clients[e]) <==> IsOther(t, other, e, q) {
        SameOthers(s, t, other, e, q);
        if other == room && q == p {
          assert !IsOther(s, room, e, p);
        } else {
          assert (other, q) !in leaving;
        }
      }
    }
  }

  /** `remove` unlocks before it announces. Whenever that announcement finds the
      peer taken over by another connection, every other clean participant it
      reaches loses that peer from its view. */
  lemma AnnounceExactly(s: State, leaving: Leaving, room: Room, p: Peer)
    requires Indexed(s) && Consistent(s, leaving) && leaving[(room, p)] == 1
    ensures Consistent(Broadcast(s, room, Left(p)), leaving - multiset{(room, p)}) <==>
      forall d, e | d in Members(s, room) && e in Members(s, room) && d != e && d in s.clients && e in s.clients ::
        s.clients[d].peer == p ==> !Clean(Deliver(s.clients[e], Left(p)))
  {
    var t, owed := Broadcast(s, room, Left(p)), leaving - multiset{(room, p)};
    if !forall d, e | d in Members(s, room) && e in Members(s, room) && d != e && d in s.clients && e in s.clients ::
        s.clients[d].peer == p ==> !Clean(Deliver(s.clients[e], Left(p)))
    {
      var d, e :| d in Members(s, room) && e in Members(s, room) && d != e && d in s.clients && e in s.clients
        && s.clients[d].peer == p && Clean(Deliver(s.clients[e], Left(p)));
      AnnounceIdentities(s, room, p);
      ToldOne(s.clients[e], Left(p));
      hide Broadcast, Deliver, Indexed, View;
      HearsLeft(s.clients[e], p);
      assert IsOther(s, room, e, p);
      SameOthers(s, t, room, e, p);
      assert !SeesRight(t, owed, room, e) by { assert (room, p) !in owed; }
    } else {
      AnnounceKeepsDeaf(s, leaving, room, p);
    }
  }

  lemma AnnounceKeepsDeaf(s: State, leaving: Leaving, room: Room, p: Peer)
    requires Indexed(s) && Consistent(s, leaving)
    requires forall d, e | d in Members(s, room) && e in Members(s, room) && d != e && d in s.clients && e in s.clients ::
        s.clients[d].peer == p ==> !Clean(Deliver(s.clients[e], Left(p)))
    ensures Consistent(Broadcast(s, room, Left(p)), leaving - multiset{(room, p)})
  {
    var t, owed := Broadcast(s, room, Left(p)), leaving - multiset{(room, p)};
    AnnounceIdentities(s, room, p);
    hide Broadcast, DeliverAll;
    forall other: Room, e | e in Members(t, other) && e in t.clients && Clean(t.clients[e]) ensures SeesRight(t, owed, other, e) {
      assert RoomIndexed(s.clients, other, Members(s, other), Voices(s, other));
      if e in Members(s, room) {
        assert RoomIndexed(s.clients, room, Members(s, room), Voices(s, room));
        HearsLeft(s.clients[e], p);
        ToldOne(s.clients[e], Left(p));
        assert !IsOther(s, room, e, p);
      }
      hide Indexed, Clean, View, Deliver;
      assert SeesRight(s, leaving, other, e);
      forall q: Peer | (other, q) !in owed ensures q in View(t.clients[e]) <==> IsOther(t, other, e, q) {
        SameOthers(s, t, other, e, q);
        if !(other == room && q == p) { assert (other, q) !in leaving; }
      }
    }
  }

  /** Under one lock the two halves of `remove` are harmless. */
  lemma WholeRemoveKeepsViews(s: State, leaving: Leaving, room: Room, r: Ref)
    requires Indexed(s) && Consistent(s, leaving) && r in s.clients
    ensures Consistent(Remove(s, room, r), leaving)
  {
    if r in Members(s, room) {
      var p, t := s.clients[r].peer, Detach(s, room, r);
      assert RoomIndexed(s.clients, room, Members(s, room), Voices(s, room));
      assert Members(t, room) == Members(s, room) - {r} && t.clients == s.clients;
      hide Detach, Indexed, Broadcast, Consistent;
      DetachKeepsViews(s, leaving, room, r);
      DetachNarrows(s, room, r);
      AnnounceKeepsViews(t, leaving + multiset{(room, p)}, room, p);
      assert leaving + multiset{(room, p)} - multiset{(room, p)} == leaving;
    }
  }

  lemma {:induction false} RemovedFromRoom(s: State, room: Room, refs: seq<Ref>)
    requires forall i | 0 <= i < |refs| :: refs[i] in s.clients
    ensures var t := RemoveAll(s, room, refs);
      && SameIdentities(s.clients, t.clients)
      && (forall other: Room :: Members(t, other) == if other == room then Members(s, room) - (set r | r in refs) else Members(s, other))
  {
    if refs == [] {
      assert (set r | r in refs) == {};
    } else {
      var init, r := refs[..|refs| - 1], refs[|refs| - 1];
      RemovedFromRoom(s, room, init);
      assert (set x | x in refs) == (set x | x in init) + {r};
      RemovedOne(RemoveAll(s, room, init), room, r);
      hide Remove;
    }
  }

  lemma RemovedOne(s: State, room: Room, r: Ref)
    requires r in s.clients
    ensures SameIdentities(s.clients, Remove(s, room, r).clients)
    ensures forall other: Room :: Members(Remove(s, room, r), other) == if other == room then Members(s, room) - {r} else Members(s, other)
  {
    AnnounceIdentities(Detach(s, room, r), room, s.clients[r].peer);
    hide DeliverAll;
  }

  lemma {:induction false} RemoveAllKeepsViews(s: State, leaving: Leaving, room: Room, refs: seq<Ref>)
    requires Indexed(s) && Consistent(s, leaving) && forall i | 0 <= i < |refs| :: refs[i] in s.clients
    ensures Consistent(RemoveAll(s, room, refs), leaving)
  {
    hide Indexed, Consistent, Remove;
    if refs != [] {
      RemoveAllKeepsViews(s, leaving, room, refs[..|refs| - 1]);
      RemoveAllKeeps(s, room, refs[..|refs| - 1]);
      WholeRemoveKeepsViews(RemoveAll(s, room, refs[..|refs| - 1]), leaving, room, refs[|refs| - 1]);
    }
  }

  lemma SetOfOrder(order: seq<Ref>, refs: set<Ref>)
    requires Enumerates(order, refs)
    ensures (set r | r in order) == refs
  {}

  /** Revoking a member removes all of that user's connections and relays from the
      room, nobody else's, and everyone who stays knows. */
  lemma UserIsGone(s: State, leaving: Leaving, room: Room, user: User, order: seq<Ref>)
    requires Indexed(s) && Consistent(s, leaving) && Enumerates(order, OfUser(s.clients, Members(s, room), user))
    requires forall i | 0 <= i < |order| :: order[i] in s.clients
    ensures var t := RemoveAll(RevokeRoomUser(s, room, user), room, order);
      && Indexed(t) && Consistent(t, leaving)
      && Members(t, room) == Members(s, room) - OfUser(s.clients, Members(s, room), user)
      && (forall r | r in Members(t, room) && r in t.clients :: t.clients[r].user != user)
      && (forall p | p in Voices(t, room) :: Voices(t, room)[p].user != user)
  {
    hide Indexed, Consistent, RevokeRoomUser, RemoveAll, Enumerates, SameIdentities, OfUser;
    var revoked := RevokeRoomUser(s, room, user);
    RoomUserRevoked(s, leaving, room, user);
    var t := RemoveAll(revoked, room, order);
    RemoveAllKeepsViews(revoked, leaving, room, order);
    RemoveAllKeeps(revoked, room, order);
    RemovedFromRoom(revoked, room, order);
    SetOfOrder(order, OfUser(s.clients, Members(s, room), user));
    NobodyLeft(s, revoked, t, room, user);
  }

  lemma RoomUserRevoked(s: State, leaving: Leaving, room: Room, user: User)
    requires Indexed(s) && Consistent(s, leaving)
    ensures var t := RevokeRoomUser(s, room, user);
      Indexed(t) && Consistent(t, leaving) && SameIdentities(s.clients, t.clients) && Members(t, room) == Members(s, room)
    ensures RevokeRoomUser(s, room, user).clients.Keys == s.clients.Keys
  {
    RevokeRoomUserKeeps(s, room, user);
    RevocationIsQuiet(s, RevokeRoomUser(s, room, user), OfUser(s.clients, Members(s, room), user), leaving);
    hide Indexed, Consistent;
  }

  lemma NobodyLeft(s: State, revoked: State, t: State, room: Room, user: User)
    requires Indexed(s) && Indexed(t) && SameIdentities(s.clients, revoked.clients) && SameIdentities(revoked.clients, t.clients)
    requires Members(t, room) == Members(s, room) - OfUser(s.clients, Members(s, room), user)
    ensures forall r | r in Members(t, room) && r in t.clients :: t.clients[r].user != user
    ensures forall p | p in Voices(t, room) :: Voices(t, room)[p].user != user
  {
    assert RoomIndexed(t.clients, room, Members(t, room), Voices(t, room));
  }

  // ---- Everything else leaves views alone ------------------------------------------------

  /** Fewer clean clients, whole rooms gone, nothing else. */
  ghost predicate Quieter(s: State, t: State) {
    && SameIdentities(s.clients, t.clients)
    && (forall room: Room :: Members(t, room) == Members(s, room) || Members(t, room) == {})
    && (forall e | e in s.clients && Clean(t.clients[e]) :: Clean(s.clients[e]) && View(t.clients[e]) == View(s.clients[e]))
  }

  lemma QuieterKeepsViews(s: State, t: State, leaving: Leaving)
    requires Quieter(s, t) && Consistent(s, leaving)
    ensures Consistent(t, leaving)
  {
    hide View;
    forall room: Room, e | e in Members(t, room) && e in t.clients && Clean(t.clients[e]) ensures SeesRight(t, leaving, room, e) {
      assert SeesRight(s, leaving, room, e);
      forall p: Peer ensures IsOther(s, room, e, p) <==> IsOther(t, room, e, p) {
        SameOthers(s, t, room, e, p);
      }
    }
  }

  function Drain(s: State, r: Ref): State
    requires r in s.clients
  {
    var c := s.clients[r];
    s.(clients := s.clients[r := c.(waiting := if c.waiting > 0 then c.waiting - 1 else 0)])
  }

  // ---- Runs --------------------------------------------------------------------------------

  datatype World = World(hub: State, leaving: Leaving)

  datatype Action =
    | Enters(room: Room, r: Ref, c: Client, replaceUser: bool, order: seq<Ref>)
    | Detaches(room: Room, r: Ref)
    | Announces(room: Room, peer: Peer)
    | Expires(r: Ref)
    | RoomUserRevoked(room: Room, user: User)
    | RoomDeleted(room: Room)
    | UserRevoked(user: User)
    | VoiceAdded(room: Room, peer: Peer, v: Voice)
    | VoiceRemoved(room: Room, peer: Peer, v: Voice)
    | Writes(r: Ref)

  ghost predicate Enabled(w: World, a: Action) {
    match a
    case Enters(room, r, c, replaceUser, order) =>
      Indexed(w.hub) && Enumerates(order, Members(w.hub, room)) && r !in w.hub.clients && c.room == room && Clean(c)
    case Detaches(room, r) => r in Members(w.hub, room) && r in w.hub.clients
    case Announces(room, p) => (room, p) in w.leaving
    case Expires(r) => r in w.hub.clients
    case VoiceAdded(room, p, v) => MayRelay(w.hub, room, p, v) ==> w.hub.clients[v.owner].user == v.user
    case Writes(r) => r in w.hub.clients
    case _ => true
  }

  ghost function After(w: World, a: Action): World
    requires Enabled(w, a)
  {
    match a
    case Enters(room, r, c, replaceUser, order) => World(Join(w.hub, room, r, c, replaceUser, order), w.leaving)
    case Detaches(room, r) => World(Detach(w.hub, room, r), w.leaving + multiset{(room, w.hub.clients[r].peer)})
    case Announces(room, p) => World(Broadcast(w.hub, room, Left(p)), w.leaving - multiset{(room, p)})
    case Expires(r) => World(Revoke(w.hub, {r}), w.leaving)
    case RoomUserRevoked(room, user) => World(RevokeRoomUser(w.hub, room, user), w.leaving)
    case RoomDeleted(room) => World(DropRoom(w.hub, room), w.leaving)
    case UserRevoked(user) => World(RevokeUser(w.hub, user), w.leaving)
    case VoiceAdded(room, p, v) => World(AddVoice(w.hub, room, p, v), w.leaving)
    case VoiceRemoved(room, p, v) => World(RemoveVoice(w.hub, room, p, v), w.leaving)
    case Writes(r) => World(Drain(w.hub, r), w.leaving)
  }

  /** The two hypotheses: a departure is announced before its peer returns, and no
      refused join has already thrown somebody out. */
  ghost predicate Orderly(w: World, a: Action)
    requires Enabled(w, a)
  {
    match a
    case Enters(room, r, c, replaceUser, order) =>
      OrderIsKnown(w.hub, room, order);
      Refused(w.hub.clients, c, order) ==> ThrowsNobody(w.hub.clients, c, replaceUser, order)
    case Announces(room, p) => !HasPeer(w.hub, room, p)
    case _ => true
  }

  /** The scan removes nobody before it meets the conflict. */
  predicate ThrowsNobody(clients: map<Ref, Client>, c: Client, replaceUser: bool, order: seq<Ref>)
    requires forall i | 0 <= i < |order| :: order[i] in clients
  {
    forall i | 0 <= i < FirstConflict(clients, c, order) :: !Gives(clients[order[i]], c, replaceUser)
  }

  ghost predicate Good(w: World) { Indexed(w.hub) && NoEmptyRooms(w.hub) }

  /** A run lists the worlds passed through. */
  ghost predicate Run(worlds: seq<World>, actions: seq<Action>) {
    && |worlds| == |actions| + 1
    && worlds[0] == World(State(map[], map[], map[]), multiset{})
    && forall i | 0 <= i < |actions| :: Enabled(worlds[i], actions[i]) && worlds[i + 1] == After(worlds[i], actions[i])
  }

  ghost predicate OrderlyRun(worlds: seq<World>, actions: seq<Action>) {
    Run(worlds, actions) && forall i | 0 <= i < |actions| :: Orderly(worlds[i], actions[i])
  }

  lemma RevokeSame(s: State, who: set<Ref>)
    ensures SameIdentities(s.clients, Revoke(s, who).clients)
    ensures forall e | e in s.clients && Clean(Revoke(s, who).clients[e]) ::
      Clean(s.clients[e]) && View(Revoke(s, who).clients[e]) == View(s.clients[e])
  {
    hide View;
  }

  lemma FlagsKeep(s: State, t: State)
    requires Indexed(s) && NoEmptyRooms(s) && SameIdentities(s.clients, t.clients) && t.rooms == s.rooms && t.voices == s.voices
    ensures Indexed(t) && NoEmptyRooms(t)
  {
    RevokeNarrows(s, t);
    NarrowerKeeps(s, t);
  }

  /** Every action keeps the indexes, the refused joins and the split removals too. */
  lemma GoodStep(w: World, a: Action)
    requires Good(w) && Enabled(w, a)
    ensures Good(After(w, a))
  {
    hide Indexed, Join, Detach, Broadcast, RevokeRoomUser, RevokeUser, DropRoom, AddVoice, RemoveVoice, NoEmptyRooms, Narrower, MayRelay;
    hide Enumerates;
    match a
    case Enters(room, r, c, replaceUser, order) => JoinKeeps(w.hub, room, r, c, replaceUser, order);
    case Detaches(room, r) => DetachNarrows(w.hub, room, r);
    case Announces(room, p) => BroadcastKeeps(w.hub, room, Left(p));
    case Expires(r) => FlagsKeep(w.hub, Revoke(w.hub, {r}));
    case RoomUserRevoked(room, user) => RevokeRoomUserKeeps(w.hub, room, user);
    case RoomDeleted(room) => DropRoomKeeps(w.hub, room);
    case UserRevoked(user) => RevokeUserKeeps(w.hub, user);
    case VoiceAdded(room, p, v) => VoicesKeep(w.hub, room, p, v);
    case VoiceRemoved(room, p, v) => RemoveVoiceKeeps(w.hub, room, p, v);
    case Writes(r) => FlagsKeep(w.hub, Drain(w.hub, r));
  }

  /** In every run, at most one connection per peer in a room, every relay owned by
      a current connection with its peer, and no room without connections. */
  lemma {:induction false} IndexesAgree(worlds: seq<World>, actions: seq<Action>, i: nat)
    requires Run(worlds, actions) && i <= |actions|
    ensures Good(worlds[i])
  {
    hide After, Enabled;
    if i == 0 {
    } else {
      hide Good;
      IndexesAgree(worlds, actions, i - 1);
      GoodStep(worlds[i - 1], actions[i - 1]);
    }
  }

  lemma RefusedQuietly(s: State, room: Room, r: Ref, c: Client, replaceUser: bool, order: seq<Ref>)
    requires Indexed(s) && Enumerates(order, Members(s, room)) && (forall i | 0 <= i < |order| :: order[i] in s.clients)
    requires Refused(s.clients, c, order) && ThrowsNobody(s.clients, c, replaceUser, order)
    ensures Join(s, room, r, c, replaceUser, order) == s
  {
    var k := FirstConflict(s.clients, c, order);
    ScanOfNobody(s, room, c, replaceUser, order[..k]);
    hide Indexed, Gives, FirstConflict, Scan;
  }

  lemma {:induction false} ScanOfNobody(s: State, room: Room, c: Client, replaceUser: bool, order: seq<Ref>)
    requires forall i | 0 <= i < |order| :: order[i] in s.clients && !Gives(s.clients[order[i]], c, replaceUser)
    ensures Scan(s, room, c, replaceUser, order) == s
  {
    hide Gives;
    if order != [] { ScanOfNobody(s, room, c, replaceUser, order[..|order| - 1]); }
  }

  lemma EntersKeepsViews(s: State, leaving: Leaving, room: Room, r: Ref, c: Client, replaceUser: bool, order: seq<Ref>)
    requires Indexed(s) && Consistent(s, leaving) && Enumerates(order, Members(s, room)) && r !in s.clients && c.room == room && Clean(c)
    requires forall i | 0 <= i < |order| :: order[i] in s.clients
    requires Refused(s.clients, c, order) ==> ThrowsNobody(s.clients, c, replaceUser, order)
    ensures Consistent(Join(s, room, r, c, replaceUser, order), leaving)
  {
    hide Consistent, Indexed, Join, ThrowsNobody, FirstConflict, Clean;
    if Refused(s.clients, c, order) {
      RefusedQuietly(s, room, r, c, replaceUser, order);
    } else {
      JoinKeepsViews(s, leaving, room, r, c, replaceUser, order);
    }
  }

  lemma RevocationIsQuiet(s: State, t: State, who: set<Ref>, leaving: Leaving)
    requires Consistent(s, leaving) && t.clients == Revoke(s, who).clients
    requires forall room: Room :: Members(t, room) == Members(s, room) || Members(t, room) == {}
    ensures Consistent(t, leaving)
  {
    RevokeSame(s, who);
    hide Revoke, View, Consistent, Clean;
    QuieterKeepsViews(s, t, leaving);
  }

  lemma OrderlyStep(w: World, a: Action)
    requires Good(w) && Consistent(w.hub, w.leaving) && Enabled(w, a) && Orderly(w, a)
    ensures Consistent(After(w, a).hub, After(w, a).leaving)
  {
    hide Indexed, Consistent, Join, Detach, Broadcast, Enumerates, NoEmptyRooms, HasPeer, Clean, View, SameIdentities;
    match a
    case Enters(room, r, c, replaceUser, order) =>
      OrderIsKnown(w.hub, room, order);
      EntersKeepsViews(w.hub, w.leaving, room, r, c, replaceUser, order);
    case Detaches(room, r) => DetachKeepsViews(w.hub, w.leaving, room, r);
    case Announces(room, p) => AnnounceKeepsViews(w.hub, w.leaving, room, p);
    case Expires(r) => RevocationIsQuiet(w.hub, Revoke(w.hub, {r}), {r}, w.leaving);
    case RoomUserRevoked(room, user) =>
      RevocationIsQuiet(w.hub, RevokeRoomUser(w.hub, room, user), OfUser(w.hub.clients, Members(w.hub, room), user), w.leaving);
    case RoomDeleted(room) => RevocationIsQuiet(w.hub, DropRoom(w.hub, room), Members(w.hub, room), w.leaving);
    case UserRevoked(user) =>
      RevocationIsQuiet(w.hub, RevokeUser(w.hub, user), OfUser(w.hub.clients, InRooms(w.hub, w.hub.rooms.Keys), user), w.leaving);
    case VoiceAdded(room, p, v) => VoicesAreQuiet(w.hub, AddVoice(w.hub, room, p, v), w.leaving);
    case VoiceRemoved(room, p, v) => VoicesAreQuiet(w.hub, RemoveVoice(w.hub, room, p, v), w.leaving);
    case Writes(r) => DrainIsQuiet(w.hub, r, w.leaving);
  }

  lemma VoicesAreQuiet(s: State, t: State, leaving: Leaving)
    requires Consistent(s, leaving) && t.clients == s.clients && t.rooms == s.rooms
    ensures Consistent(t, leaving)
  {
    hide View, Consistent, Clean;
    QuieterKeepsViews(s, t, leaving);
  }

  lemma DrainIsQuiet(s: State, r: Ref, leaving: Leaving)
    requires Consistent(s, leaving) && r in s.clients
    ensures Consistent(Drain(s, r), leaving)
  {
    hide Consistent, Heard;
    QuieterKeepsViews(s, Drain(s, r), leaving);
  }

  lemma {:induction false} ConsistentThroughout(worlds: seq<World>, actions: seq<Action>, i: nat)
    requires OrderlyRun(worlds, actions) && i <= |actions|
    ensures Consistent(worlds[i].hub, worlds[i].leaving)
  {
    hide After, Enabled, Orderly, View, Clean;
    if i == 0 {
    } else {
      hide Consistent, Good;
      ConsistentThroughout(worlds, actions, i - 1);
      IndexesAgree(worlds, actions, i - 1);
      OrderlyStep(worlds[i - 1], actions[i - 1]);
    }
  }

  /** Through joins, replacements, same-peer resumptions and disconnects, a client
      whose queue never overflowed believes exactly the other peers of its room. */
  lemma ViewsAreRooms(worlds: seq<World>, actions: seq<Action>, i: nat, room: Room, e: Ref)
    requires OrderlyRun(worlds, actions) && i <= |actions| && worlds[i].leaving == multiset{}
    requires e in Members(worlds[i].hub, room)
    ensures var s := worlds[i].hub; Members(s, room) <= s.clients.Keys
    ensures var s := worlds[i].hub; Clean(s.clients[e]) ==> View(s.clients[e]) == PeersOf(s.clients, Members(s, room) - {e})
  {
    ConsistentThroughout(worlds, actions, i);
    IndexesAgree(worlds, actions, i);
    var s := worlds[i].hub;
    assert RoomIndexed(s.clients, room, Members(s, room), Voices(s, room));
    hide Indexed, View, OrderlyRun, Clean;
    if Clean(s.clients[e]) {
      forall p: Peer ensures p in View(s.clients[e]) <==> p in PeersOf(s.clients, Members(s, room) - {e}) {
        assert SeesRight(s, worlds[i].leaving, room, e);
      }
    }
  }

  // ---- Why the two hypotheses are needed -----------------------------------------------

  lemma DetachedMembers(s: State, room: Room, r: Ref)
    requires r in s.clients && r in Members(s, room)
    ensures Members(Detach(s, room, r), room) == Members(s, room) - {r} && Detach(s, room, r).clients == s.clients
  {}

  /** A same-peer connection that arrives between the two halves of `remove` is
      taken for the one that left: with any third participant still listening, that
      participant ends up without a peer that is in the room. */
  lemma SplitRemoveBreaks(s: State, room: Room, first: Ref, other: Ref, r: Ref, c: Client, order: seq<Ref>)
    requires Indexed(s) && first in Members(s, room) && other in Members(s, room)
    requires first in s.clients && other in s.clients && first != other
    requires r !in s.clients && c.room == room && Clean(c) && c.peer == s.clients[first].peer
    requires Enumerates(order, Members(Detach(s, room, first), room))
    requires Clean(s.clients[other]) && s.clients[other].waiting + 2 <= SIGNAL_QUEUE
    ensures Indexed(Detach(s, room, first))
    ensures var late := Broadcast(Join(Detach(s, room, first), room, r, c, false, order), room, Left(c.peer));
      && other in Members(late, room) && other in late.clients && Clean(late.clients[other])
      && IsOther(late, room, other, c.peer) && c.peer !in View(late.clients[other])
  {
    hide Detach, FirstConflict, View, Join, Broadcast;
    var gone := Detach(s, room, first);
    DetachNarrows(s, room, first);
    assert RoomIndexed(s.clients, room, Members(s, room), Voices(s, room));
    DetachedMembers(s, room, first);
    OrderIsKnown(gone, room, order);
    assert !Refused(gone.clients, c, order);
    var back := Join(gone, room, r, c, false, order);
    Stayers(gone, room, r, c, false, order, other);
    Stayers(gone, room, r, c, false, order, r);
    StayerHears(gone, room, r, c, false, order, other);
    PlainNews(gone.clients, c, order);
    AnnounceIdentities(back, room, c.peer);
    ToldOne(s.clients[other], Joined(c.peer));
    ToldOne(back.clients[other], Left(c.peer));
    HearsLeft(back.clients[other], c.peer);
    var late := Broadcast(back, room, Left(c.peer));
    assert r in Members(late, room) && r in late.clients && late.clients[r].peer == c.peer;
  }

  /** An additional join by a new peer is one event. */
  lemma {:induction false} PlainNews(clients: map<Ref, Client>, c: Client, order: seq<Ref>)
    requires forall i | 0 <= i < |order| :: order[i] in clients && clients[order[i]].peer != c.peer
    ensures News(clients, c, false, order) == [Joined(c.peer)]
  {
    NoFarewells(clients, c, order);
  }

  lemma {:induction false} NoFarewells(clients: map<Ref, Client>, c: Client, order: seq<Ref>)
    requires forall i | 0 <= i < |order| :: order[i] in clients && clients[order[i]].peer != c.peer
    ensures Farewells(clients, c, false, order) == []
  {
    if order != [] { NoFarewells(clients, c, order[..|order| - 1]); }
  }

  /** A refused join changes nothing in any scan order, exactly when it was not
      also out to replace a connection of the joining user. */
  lemma RefusalIsNoOpExactly(s: State, room: Room, r: Ref, c: Client, replaceUser: bool, x: Ref)
    requires Indexed(s) && x in Members(s, room) && x in s.clients && Conflicts(s.clients[x], c)
    ensures (forall order | Enumerates(order, Members(s, room)) :: Join(s, room, r, c, replaceUser, order) == s)
       <==> !(replaceUser && exists d :: d in Members(s, room) && d in s.clients && s.clients[d].user == c.user)
  {
    assert RoomIndexed(s.clients, room, Members(s, room), Voices(s, room));
    if replaceUser && exists d :: d in Members(s, room) && d in s.clients && s.clients[d].user == c.user {
      var d :| d in Members(s, room) && d in s.clients && s.clients[d].user == c.user;
      var order := Listed(Members(s, room) - {d});
      ThrownFirst(s, room, r, c, x, d, [d] + order);
    } else {
      forall order | Enumerates(order, Members(s, room)) ensures Join(s, room, r, c, replaceUser, order) == s {
        OrderIsKnown(s, room, order);
        RefusedSomewhere(s.clients, c, order, x);
        NobodyThrown(s, room, c, replaceUser, order);
        RefusedQuietly(s, room, r, c, replaceUser, order);
      }
    }
  }

  lemma RefusedSomewhere(clients: map<Ref, Client>, c: Client, order: seq<Ref>, x: Ref)
    requires (forall i | 0 <= i < |order| :: order[i] in clients) && x in order && x in clients && Conflicts(clients[x], c)
    ensures Refused(clients, c, order)
  {
    var i :| 0 <= i < |order| && order[i] == x;
  }

  lemma NobodyThrown(s: State, room: Room, c: Client, replaceUser: bool, order: seq<Ref>)
    requires Indexed(s) && Enumerates(order, Members(s, room)) && (forall i | 0 <= i < |order| :: order[i] in s.clients)
    requires Refused(s.clients, c, order)
    requires !(replaceUser && exists d :: d in Members(s, room) && d in s.clients && s.clients[d].user == c.user)
    ensures ThrowsNobody(s.clients, c, replaceUser, order)
  {
    var k := FirstConflict(s.clients, c, order);
    assert RoomIndexed(s.clients, room, Members(s, room), Voices(s, room));
    hide FirstConflict, Indexed;
    forall i | 0 <= i < k ensures !Gives(s.clients[order[i]], c, replaceUser) {
      assert order[i] in Members(s, room) && order[i] != order[k];
    }
  }

  /** Scanned first, the joining user's other connection is gone although the join
      is refused. */
  lemma ThrownFirst(s: State, room: Room, r: Ref, c: Client, x: Ref, d: Ref, order: seq<Ref>)
    requires Indexed(s) && Enumerates(order, Members(s, room)) && order != [] && order[0] == d
    requires d in s.clients && x in s.clients && x in Members(s, room) && Conflicts(s.clients[x], c) && s.clients[d].user == c.user
    ensures Join(s, room, r, c, true, order) != s
  {
    OrderIsKnown(s, room, order);
    RefusedSomewhere(s.clients, c, order, x);
    var k := FirstConflict(s.clients, c, order);
    assert k > 0 && order[..k][0] == d;
    ScanShrinks(s, room, c, true, order[..k]);
    hide Indexed, FirstConflict, Scan;
    assert d in order[..k];
    assert d in Members(s, room) && d !in Members(Join(s, room, r, c, true, order), room);
  }

  ghost function Listed(members: set<Ref>): (order: seq<Ref>)
    ensures Enumerates(order, members)
  {
    if members == {} then []
    else
      var m :| m in members;
      [m] + Listed(members - {m})
  }
}
