/** Every operation of the signaling hub keeps its two indexes consistent. */
module HubIndexes {
  import opened HubModel

  /** Nothing but removals and changes of flags and queues. */
  ghost predicate Narrower(s: State, t: State) {
    && SameIdentities(s.clients, t.clients)
    && (forall room: Room :: Members(t, room) <= Members(s, room))
    && (forall room: Room, p | p in Voices(t, room) ::
          p in Voices(s, room) && Voices(t, room)[p] == Voices(s, room)[p] && Voices(t, room)[p].owner in Members(t, room))
  }

  lemma NarrowerKeeps(s: State, t: State)
    requires Indexed(s) && Narrower(s, t)
    ensures Indexed(t)
  {
    forall room: Room ensures RoomIndexed(t.clients, room, Members(t, room), Voices(t, room)) {
      assert RoomIndexed(s.clients, room, Members(s, room), Voices(s, room));
    }
  }

  lemma DroppedVoices(s: State, room: Room, r: Ref)
    requires Indexed(s) && r in s.clients
    ensures var t := s.(voices := DropVoice(s, room, r));
      && (forall other: Room | other != room :: Voices(t, other) == Voices(s, other))
      && (forall p :: p in Voices(t, room) <==> p in Voices(s, room) && Voices(s, room)[p].owner != r)
      && (forall p | p in Voices(t, room) :: Voices(t, room)[p] == Voices(s, room)[p])
  {
    assert RoomIndexed(s.clients, room, Members(s, room), Voices(s, room));
  }

  lemma EvictNarrows(s: State, room: Room, r: Ref)
    requires Indexed(s) && r in s.clients
    ensures Narrower(s, Evict(s, room, r)) && Indexed(Evict(s, room, r))
  {
    DroppedVoices(s, room, r);
    var t := Evict(s, room, r);
    forall other: Room, p | p in Voices(t, other)
      ensures p in Voices(s, other) && Voices(t, other)[p] == Voices(s, other)[p] && Voices(t, other)[p].owner in Members(t, other)
    {
      assert RoomIndexed(s.clients, other, Members(s, other), Voices(s, other));
      assert Voices(t, other) == Voices(s.(voices := DropVoice(s, room, r)), other);
    }
    hide DropVoice, Indexed;
    NarrowerKeeps(s, t);
  }

  lemma {:induction false} ScanKeeps(s: State, room: Room, c: Client, replaceUser: bool, order: seq<Ref>)
    requires Indexed(s) && forall i | 0 <= i < |order| :: order[i] in s.clients
    ensures Indexed(Scan(s, room, c, replaceUser, order))
  {
    hide Indexed, Gives, Evict, Narrower;
    if order != [] {
      ScanKeeps(s, room, c, replaceUser, order[..|order| - 1]);
      EvictNarrows(Scan(s, room, c, replaceUser, order[..|order| - 1]), room, order[|order| - 1]);
    }
  }

  lemma {:induction false} DeliverAllSame(c: Client, ms: seq<Event>)
    ensures SameIdentity(DeliverAll(c, ms), c) && DeliverAll(c, ms).revoked == c.revoked
    ensures DeliverAll(c, ms).snapshot == c.snapshot && (c.overflowed ==> DeliverAll(c, ms).overflowed)
  {
    if ms != [] { DeliverAllSame(c, ms[..|ms| - 1]); }
  }

  lemma TellSame(clients: map<Ref, Client>, who: set<Ref>, ms: seq<Event>)
    ensures SameIdentities(clients, Tell(clients, who, ms))
    ensures forall r | r in clients :: Tell(clients, who, ms)[r].revoked == clients[r].revoked
  {
    hide DeliverAll;
    forall r | r in clients
      ensures SameIdentity(Tell(clients, who, ms)[r], clients[r]) && Tell(clients, who, ms)[r].revoked == clients[r].revoked
    {
      DeliverAllSame(clients[r], ms);
    }
  }

  /** Adding a connection whose peer nobody left in the room has. */
  lemma InsertKeeps(s: State, t: State, room: Room, r: Ref, c: Client)
    requires Indexed(s) && r !in s.clients && c.room == room
    requires forall e | e in Members(s, room) :: e in s.clients && s.clients[e].peer != c.peer
    requires t.clients.Keys == s.clients.Keys + {r} && t.voices == s.voices && t.rooms == s.rooms[room := Members(s, room) + {r}]
    requires SameIdentity(t.clients[r], c) && forall e | e in s.clients :: SameIdentity(s.clients[e], t.clients[e])
    ensures Indexed(t)
  {
    forall other: Room ensures RoomIndexed(t.clients, other, Members(t, other), Voices(t, other)) {
      assert RoomIndexed(s.clients, other, Members(s, other), Voices(s, other));
    }
  }

  lemma StayersDiffer(s: State, room: Room, c: Client, replaceUser: bool, order: seq<Ref>)
    requires Indexed(s) && Enumerates(order, Members(s, room)) && forall i | 0 <= i < |order| :: order[i] in s.clients
    ensures var t := Scan(s, room, c, replaceUser, order);
      forall e | e in Members(t, room) :: e in t.clients && t.clients[e].peer != c.peer
  {
    ScanShrinks(s, room, c, replaceUser, order);
    hide Scan, Indexed;
  }

  lemma EnterKeeps(s: State, room: Room, r: Ref, c: Client, replaceUser: bool, order: seq<Ref>)
    requires Indexed(s) && Enumerates(order, Members(s, room)) && r !in s.clients && c.room == room
    requires (forall i | 0 <= i < |order| :: order[i] in s.clients) && Members(Scan(s, room, c, replaceUser, order), room) <= s.clients.Keys
    ensures Indexed(Enter(s, room, r, c, replaceUser, order))
  {
    var scanned := Scan(s, room, c, replaceUser, order);
    ScanKeeps(s, room, c, replaceUser, order);
    StayersDiffer(s, room, c, replaceUser, order);
    hide Indexed, Scan, DeliverAll, News, PeersOf;
    var t := Enter(s, room, r, c, replaceUser, order);
    TellSame(scanned.clients, Members(scanned, room), News(s.clients, c, replaceUser, order));
    InsertKeeps(scanned, t, room, r, c);
  }

  /** Joins keep the indexes, refused ones too. */
  lemma JoinKeeps(s: State, room: Room, r: Ref, c: Client, replaceUser: bool, order: seq<Ref>)
    requires Indexed(s) && NoEmptyRooms(s) && Enumerates(order, Members(s, room)) && r !in s.clients && c.room == room
    ensures Indexed(Join(s, room, r, c, replaceUser, order)) && NoEmptyRooms(Join(s, room, r, c, replaceUser, order))
  {
    OrderIsKnown(s, room, order);
    if Refused(s.clients, c, order) {
      var k := FirstConflict(s.clients, c, order);
      ScanKeeps(s, room, c, replaceUser, order[..k]);
      ScanShrinks(s, room, c, replaceUser, order[..k]);
      ConflictStays(s, room, c, replaceUser, order);
      hide Indexed, FirstConflict;
      OtherRoomsSame(s, room, c, replaceUser, order[..k]);
    } else {
      ScanShrinks(s, room, c, replaceUser, order);
      EnterKeeps(s, room, r, c, replaceUser, order);
      hide Indexed, FirstConflict;
      OtherRoomsSame(s, room, c, replaceUser, order);
    }
  }

  lemma {:induction false} OtherRoomsSame(s: State, room: Room, c: Client, replaceUser: bool, order: seq<Ref>)
    requires forall i | 0 <= i < |order| :: order[i] in s.clients
    ensures var t := Scan(s, room, c, replaceUser, order);
      && (forall other | other in t.rooms && other != room :: other in s.rooms && t.rooms[other] == s.rooms[other])
      && (forall other | other in s.rooms && other != room :: other in t.rooms)
      && (forall r | r in s.clients && r !in order :: t.clients[r] == s.clients[r])
  {
    hide Gives, DropVoice;
    if order != [] { OtherRoomsSame(s, room, c, replaceUser, order[..|order| - 1]); }
  }

  /** The connection that refuses a join is still there afterwards. */
  lemma ConflictStays(s: State, room: Room, c: Client, replaceUser: bool, order: seq<Ref>)
    requires Indexed(s) && Enumerates(order, Members(s, room)) && (forall i | 0 <= i < |order| :: order[i] in s.clients)
    requires Refused(s.clients, c, order)
    ensures var k := FirstConflict(s.clients, c, order); order[k] in Members(Scan(s, room, c, replaceUser, order[..k]), room)
  {
    var k := FirstConflict(s.clients, c, order);
    ScanShrinks(s, room, c, replaceUser, order[..k]);
    hide Indexed, Scan;
  }

  lemma DetachNarrows(s: State, room: Room, r: Ref)
    requires Indexed(s) && r in s.clients
    ensures Narrower(s, Detach(s, room, r)) && Indexed(Detach(s, room, r))
    ensures NoEmptyRooms(s) ==> NoEmptyRooms(Detach(s, room, r))
  {
    var t := Detach(s, room, r);
    DroppedVoices(s, room, r);
    forall other: Room, p | p in Voices(t, other)
      ensures p in Voices(s, other) && Voices(t, other)[p] == Voices(s, other)[p] && Voices(t, other)[p].owner in Members(t, other)
    {
      assert RoomIndexed(s.clients, other, Members(s, other), Voices(s, other));
      if r in Members(s, room) && Members(s, room) != {r} {
        assert Voices(t, other) == Voices(s.(voices := DropVoice(s, room, r)), other);
      }
    }
    if r in Members(s, room) && Members(s, room) != {r} {
      assert Members(s, room) - {r} != {} by {
        var e :| e in Members(s, room) && e != r;
        assert e in Members(s, room) - {r};
      }
    }
    hide DropVoice, Indexed;
    NarrowerKeeps(s, t);
  }

  lemma BroadcastKeeps(s: State, room: Room, m: Event)
    requires Indexed(s)
    ensures Indexed(Broadcast(s, room, m)) && (NoEmptyRooms(s) ==> NoEmptyRooms(Broadcast(s, room, m)))
  {
    TellSame(s.clients, Members(s, room), [m]);
    RevokeNarrows(s, Broadcast(s, room, m));
    NarrowerKeeps(s, Broadcast(s, room, m));
  }

  lemma RemoveKeeps(s: State, room: Room, r: Ref)
    requires Indexed(s) && r in s.clients
    ensures Indexed(Remove(s, room, r)) && (NoEmptyRooms(s) ==> NoEmptyRooms(Remove(s, room, r)))
  {
    hide Indexed, Detach, Broadcast, Narrower;
    DetachNarrows(s, room, r);
    BroadcastKeeps(Detach(s, room, r), room, Left(s.clients[r].peer));
  }

  lemma {:induction false} RemoveAllKeeps(s: State, room: Room, refs: seq<Ref>)
    requires Indexed(s) && forall i | 0 <= i < |refs| :: refs[i] in s.clients
    ensures Indexed(RemoveAll(s, room, refs)) && (NoEmptyRooms(s) ==> NoEmptyRooms(RemoveAll(s, room, refs)))
  {
    hide Indexed, Remove, NoEmptyRooms;
    if refs != [] {
      RemoveAllKeeps(s, room, refs[..|refs| - 1]);
      RemoveKeeps(RemoveAll(s, room, refs[..|refs| - 1]), room, refs[|refs| - 1]);
    }
  }

  lemma RevokeRoomUserKeeps(s: State, room: Room, user: User)
    requires Indexed(s)
    ensures Indexed(RevokeRoomUser(s, room, user)) && (NoEmptyRooms(s) ==> NoEmptyRooms(RevokeRoomUser(s, room, user)))
  {
    RevokeNarrows(s, RevokeRoomUser(s, room, user));
    NarrowerKeeps(s, RevokeRoomUser(s, room, user));
  }

  lemma DropRoomKeeps(s: State, room: Room)
    requires Indexed(s)
    ensures Indexed(DropRoom(s, room)) && (NoEmptyRooms(s) ==> NoEmptyRooms(DropRoom(s, room)))
  {
    RevokeNarrows(s, DropRoom(s, room));
    NarrowerKeeps(s, DropRoom(s, room));
  }

  lemma RevokeUserKeeps(s: State, user: User)
    requires Indexed(s)
    ensures Indexed(RevokeUser(s, user)) && (NoEmptyRooms(s) ==> NoEmptyRooms(RevokeUser(s, user)))
  {
    RevokeNarrows(s, RevokeUser(s, user));
    NarrowerKeeps(s, RevokeUser(s, user));
  }

  lemma RevokeNarrows(s: State, t: State)
    requires Indexed(s) && SameIdentities(s.clients, t.clients)
    requires forall room: Room :: Members(t, room) == Members(s, room) || (Members(t, room) == {} && Voices(t, room) == map[])
    requires forall room: Room, p | p in Voices(t, room) :: p in Voices(s, room) && Voices(t, room)[p] == Voices(s, room)[p]
    ensures Narrower(s, t)
  {
    forall room: Room, p | p in Voices(t, room) ensures Voices(t, room)[p].owner in Members(t, room) {
      assert RoomIndexed(s.clients, room, Members(s, room), Voices(s, room));
    }
  }

  lemma VoicesKeep(s: State, room: Room, peer: Peer, v: Voice)
    requires Indexed(s) && NoEmptyRooms(s)
    requires MayRelay(s, room, peer, v) ==> s.clients[v.owner].user == v.user
    ensures Indexed(AddVoice(s, room, peer, v)) && NoEmptyRooms(AddVoice(s, room, peer, v))
  {
    forall other: Room ensures RoomIndexed(s.clients, other, Members(s, other), Voices(AddVoice(s, room, peer, v), other)) {
      assert RoomIndexed(s.clients, other, Members(s, other), Voices(s, other));
    }
  }

  lemma RemoveVoiceKeeps(s: State, room: Room, peer: Peer, v: Voice)
    requires Indexed(s) && NoEmptyRooms(s)
    ensures Indexed(RemoveVoice(s, room, peer, v)) && NoEmptyRooms(RemoveVoice(s, room, peer, v))
  {
    RevokeNarrows(s, RemoveVoice(s, room, peer, v));
    NarrowerKeeps(s, RemoveVoice(s, room, peer, v));
  }

  /** The relay's own membership checks add nothing while the indexes agree. */
  lemma RelayNeedsOnlyFlags(s: State, room: Room, sender: Peer, v: Voice, to: Peer)
    requires Indexed(s)
    ensures Relays(s, room, sender, v, to) <==>
      && sender in Voices(s, room) && Voices(s, room)[sender] == v && to in Voices(s, room)
      && v.owner in s.clients && !s.clients[v.owner].revoked
      && Voices(s, room)[to].owner in s.clients && !s.clients[Voices(s, room)[to].owner].revoked
  {
    assert RoomIndexed(s.clients, room, Members(s, room), Voices(s, room));
  }
}
