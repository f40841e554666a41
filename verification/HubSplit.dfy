/** Runs of the hub in which one of the two hypotheses of HubRuns fails. */
module HubSplit {
  import opened HubIndexes
  import opened HubModel
  import opened HubRuns
  import opened HubViews

  const EMPTY: World := World(State(map[], map[], map[]), multiset{})

  lemma Grow(worlds: seq<World>, actions: seq<Action>, a: Action) returns (worlds': seq<World>, actions': seq<Action>)
    requires Run(worlds, actions) && |worlds| == |actions| + 1 && Enabled(worlds[|actions|], a)
    ensures Run(worlds', actions') && |worlds'| == |actions'| + 1 && actions' == actions + [a]
    ensures worlds'[|actions'|] == After(worlds[|actions|], a)
  {
    hide Enabled, After;
    worlds', actions' := worlds + [After(worlds[|actions|], a)], actions + [a];
  }

  function Newcomer(room: Room, peer: Peer): Client { Client(room, peer, peer, peer, false, false, {}, [], 0) }

  /** A joining client starts with an empty queue. */
  lemma StartsEmpty(s: State, room: Room, r: Ref, c: Client, replaceUser: bool, order: seq<Ref>)
    requires Joins(s, room, r, c, replaceUser, order) && Clean(c)
    ensures var t := Join(s, room, r, c, replaceUser, order); r in t.clients && Clean(t.clients[r]) && t.clients[r].waiting == 0
  {
    hide Scan, Tell, News, PeersOf, FirstConflict, Indexed;
  }

  lemma OneInRoom(room: Room, p: Peer) returns (worlds: seq<World>, actions: seq<Action>)
    ensures Run(worlds, actions) && |worlds| == |actions| + 1 && |actions| == 1
    ensures var w := worlds[|actions|];
      w.leaving == multiset{} && w.hub.clients.Keys == Members(w.hub, room) == {0} && w.hub.clients[0].peer == p
  {
    var a := Newcomer(room, p);
    IndexesAgree([EMPTY], [], 0);
    worlds, actions := Grow([EMPTY], [], Enters(room, 0, a, false, []));
    hide Run, Indexed, Join;
    assert Joins(EMPTY.hub, room, 0, a, false, []);
    Stayers(EMPTY.hub, room, 0, a, false, [], 0);
    forall d ensures d in Members(worlds[|actions|].hub, room) <==> d == 0 { Stayers(EMPTY.hub, room, 0, a, false, [], d); }
  }

  lemma NoConflict(clients: map<Ref, Client>, c: Client, r: Ref)
    requires r in clients && clients[r].peer != c.peer
    ensures !Refused(clients, c, [r])
  {
    assert [r][..0] == [];
  }

  /** Two clients with different peers in one room, the second without anything queued. */
  lemma TwoInRoom(room: Room, p: Peer, q: Peer) returns (worlds: seq<World>, actions: seq<Action>)
    requires p != q
    ensures Run(worlds, actions) && |worlds| == |actions| + 1 && |actions| == 2
    ensures var w := worlds[|actions|];
      && w.leaving == multiset{} && w.hub.clients.Keys == Members(w.hub, room) == {0, 1}
      && w.hub.clients[0].peer == p && w.hub.clients[1].peer == q && Clean(w.hub.clients[1]) && w.hub.clients[1].waiting == 0
  {
    hide Run, Indexed, Join;
    worlds, actions := OneInRoom(room, p);
    var s, b := worlds[|actions|].hub, Newcomer(room, q);
    IndexesAgree(worlds, actions, |actions|);
    NoConflict(s.clients, b, 0);
    assert Enumerates([0], Members(s, room));
    assert Joins(s, room, 1, b, false, [0]);
    worlds, actions := Grow(worlds, actions, Enters(room, 1, b, false, [0]));
    forall d ensures d in Members(worlds[|actions|].hub, room) <==> d == 0 || d == 1 { Stayers(s, room, 1, b, false, [0], d); }
    StartsEmpty(s, room, 1, b, false, [0]);
    Stayers(s, room, 1, b, false, [0], 1);
    assert SameIdentity(worlds[|actions|].hub.clients[0], s.clients[0]);
  }

  /** `remove` takes a client out and announces it later; its peer comes back in
      between. At the end nothing is left to announce, and the client that never
      stopped listening does not see a peer that is in the room. */
  lemma SplitRemoveRun(room: Room, p: Peer, q: Peer) returns (worlds: seq<World>, actions: seq<Action>)
    requires p != q
    ensures Run(worlds, actions) && |worlds| == |actions| + 1 && |actions| == 5
    ensures actions[2] == Detaches(room, 0) && actions[3].Enters? && actions[3].c.peer == p && actions[4] == Announces(room, p)
    ensures var w := worlds[|actions|];
      && w.leaving == multiset{} && 1 in Members(w.hub, room) && 1 in w.hub.clients && Clean(w.hub.clients[1])
      && IsOther(w.hub, room, 1, p) && p !in View(w.hub.clients[1])
  {
    hide Run, Indexed, Join, Detach, Broadcast, View;
    worlds, actions := TwoInRoom(room, p, q);
    var s, c := worlds[|actions|].hub, Newcomer(room, p);
    IndexesAgree(worlds, actions, |actions|);
    worlds, actions := Grow(worlds, actions, Detaches(room, 0));
    var gone := worlds[|actions|].hub;
    IndexesAgree(worlds, actions, |actions|);
    DetachedMembers(s, room, 0);
    assert Enumerates([1], Members(gone, room));
    worlds, actions := Grow(worlds, actions, Enters(room, 2, c, false, [1]));
    worlds, actions := Grow(worlds, actions, Announces(room, p));
    SplitRemoveBreaks(s, room, 0, 1, 2, c, [1]);
  }
}
