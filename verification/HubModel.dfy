/** The signaling hub of server/internal/api/hub.go as values: connections, the
    room and voice indexes, and what each operation does to them. */
module HubModel {
  type Ref = nat
  type Room = string
  type Peer = string
  type User = string

  const SIGNAL_QUEUE: nat := 256

  datatype Event = Joined(peer: Peer) | Left(peer: Peer)

  /** One signaling connection. `log` is every event it was ever sent, `waiting`
      how many of them are still queued, `snapshot` the peers it was told on
      joining. */
  datatype Client = Client(room: Room, session: string, peer: Peer, user: User, revoked: bool, overflowed: bool,
                           snapshot: set<Peer>, log: seq<Event>, waiting: nat)

  datatype Voice = Voice(id: nat, owner: Ref, user: User)

  datatype State = State(clients: map<Ref, Client>, rooms: map<Room, set<Ref>>, voices: map<Room, map<Peer, Voice>>)

  function Members(s: State, room: Room): set<Ref> { if room in s.rooms then s.rooms[room] else {} }

  function Voices(s: State, room: Room): map<Peer, Voice> { if room in s.voices then s.voices[room] else map[] }

  // ---- Queues ------------------------------------------------------------------

  /** A full queue loses the message and marks the client; a revoked one hears
      nothing more. */
  function Deliver(c: Client, m: Event): Client {
    if c.revoked then c
    else if c.waiting < SIGNAL_QUEUE then c.(log := c.log + [m], waiting := c.waiting + 1)
    else c.(overflowed := true)
  }

  function DeliverAll(c: Client, ms: seq<Event>): Client {
    if ms == [] then c else Deliver(DeliverAll(c, ms[..|ms| - 1]), ms[|ms| - 1])
  }

  function Tell(clients: map<Ref, Client>, who: set<Ref>, ms: seq<Event>): (told: map<Ref, Client>)
    ensures told.Keys == clients.Keys
  {
    map r | r in clients :: if r in who then DeliverAll(clients[r], ms) else clients[r]
  }

  // ---- Joining -------------------------------------------------------------------

  predicate Conflicts(e: Client, c: Client) { e.peer == c.peer && e.user != c.user }

  predicate Gives(e: Client, c: Client, replaceUser: bool) { e.peer == c.peer || (replaceUser && e.user == c.user) }

  function DropVoice(s: State, room: Room, r: Ref): map<Room, map<Peer, Voice>>
    requires r in s.clients
  {
    var p := s.clients[r].peer;
    if p in Voices(s, room) && Voices(s, room)[p].owner == r then s.voices[room := Voices(s, room) - {p}] else s.voices
  }

  /** A replaced connection: revoked, and gone from both indexes. */
  function Evict(s: State, room: Room, r: Ref): (t: State)
    requires r in s.clients
    ensures t.clients.Keys == s.clients.Keys
  {
    State(s.clients[r := s.clients[r].(revoked := true)], s.rooms[room := Members(s, room) - {r}], DropVoice(s, room, r))
  }

  /** The scan over a room in some order. */
  function Scan(s: State, room: Room, c: Client, replaceUser: bool, order: seq<Ref>): (t: State)
    requires forall i | 0 <= i < |order| :: order[i] in s.clients
    ensures t.clients.Keys == s.clients.Keys
  {
    if order == [] then s
    else
      var before, r := Scan(s, room, c, replaceUser, order[..|order| - 1]), order[|order| - 1];
      if Gives(s.clients[r], c, replaceUser) then Evict(before, room, r) else before
  }

  /** The events a join causes for those who stay. */
  function Farewells(clients: map<Ref, Client>, c: Client, replaceUser: bool, order: seq<Ref>): seq<Event>
    requires forall i | 0 <= i < |order| :: order[i] in clients
  {
    if order == [] then []
    else
      var e := clients[order[|order| - 1]];
      Farewells(clients, c, replaceUser, order[..|order| - 1])
        + if Gives(e, c, replaceUser) && e.peer != c.peer then [Left(e.peer)] else []
  }

  predicate Holds(clients: map<Ref, Client>, order: seq<Ref>, p: Peer)
    requires forall i | 0 <= i < |order| :: order[i] in clients
  {
    exists i | 0 <= i < |order| :: clients[order[i]].peer == p
  }

  function News(clients: map<Ref, Client>, c: Client, replaceUser: bool, order: seq<Ref>): seq<Event>
    requires forall i | 0 <= i < |order| :: order[i] in clients
  {
    Farewells(clients, c, replaceUser, order) + if Holds(clients, order, c.peer) then [] else [Joined(c.peer)]
  }

  function PeersOf(clients: map<Ref, Client>, refs: set<Ref>): set<Peer>
    requires refs <= clients.Keys
  {
    set r | r in refs :: clients[r].peer
  }

  predicate Enumerates(order: seq<Ref>, members: set<Ref>) {
    && (forall r | r in members :: r in order)
    && (forall i | 0 <= i < |order| :: order[i] in members)
    && (forall i, j | 0 <= i < j < |order| :: order[i] != order[j])
  }

  /** The first connection in the order whose peer belongs to someone else. */
  function FirstConflict(clients: map<Ref, Client>, c: Client, order: seq<Ref>): (k: nat)
    requires forall i | 0 <= i < |order| :: order[i] in clients
    ensures k <= |order| && (forall i | 0 <= i < k :: !Conflicts(clients[order[i]], c))
    ensures k < |order| ==> Conflicts(clients[order[k]], c)
  {
    if order == [] then 0
    else
      var last := |order| - 1;
      var k := FirstConflict(clients, c, order[..last]);
      if k < last || Conflicts(clients[order[last]], c) then k else |order|
  }

  predicate Refused(clients: map<Ref, Client>, c: Client, order: seq<Ref>)
    requires forall i | 0 <= i < |order| :: order[i] in clients
  {
    FirstConflict(clients, c, order) < |order|
  }

  function Enter(s: State, room: Room, r: Ref, c: Client, replaceUser: bool, order: seq<Ref>): State
    requires (forall i | 0 <= i < |order| :: order[i] in s.clients) && Members(Scan(s, room, c, replaceUser, order), room) <= s.clients.Keys
  {
    var scanned := Scan(s, room, c, replaceUser, order);
    var others := Members(scanned, room);
    var told := Tell(scanned.clients, others, News(s.clients, c, replaceUser, order));
    State(told[r := c.(snapshot := PeersOf(scanned.clients, others), log := [], waiting := 0)],
          scanned.rooms[room := others + {r}], scanned.voices)
  }

  /** A refused join stops where it is: what the scan already removed stays gone. */
  ghost function Join(s: State, room: Room, r: Ref, c: Client, replaceUser: bool, order: seq<Ref>): State
    requires Indexed(s) && Enumerates(order, Members(s, room))
  {
    OrderIsKnown(s, room, order);
    if Refused(s.clients, c, order) then Scan(s, room, c, replaceUser, order[..FirstConflict(s.clients, c, order)])
    else
      ScanShrinks(s, room, c, replaceUser, order);
      Enter(s, room, r, c, replaceUser, order)
  }

  // ---- Leaving -------------------------------------------------------------------

  /** What `remove` does under the lock. */
  function Detach(s: State, room: Room, r: Ref): State
    requires r in s.clients
  {
    if r !in Members(s, room) then s
    else if Members(s, room) == {r} then State(s.clients, s.rooms - {room}, s.voices - {room})
    else State(s.clients, s.rooms[room := Members(s, room) - {r}], DropVoice(s, room, r))
  }

  /** What it does after unlocking. */
  function Broadcast(s: State, room: Room, m: Event): State {
    s.(clients := Tell(s.clients, Members(s, room), [m]))
  }

  function Remove(s: State, room: Room, r: Ref): State
    requires r in s.clients
  {
    if r in Members(s, room) then Broadcast(Detach(s, room, r), room, Left(s.clients[r].peer)) else s
  }

  function Revoke(s: State, who: set<Ref>): State {
    s.(clients := map r | r in s.clients :: if r in who then s.clients[r].(revoked := true) else s.clients[r])
  }

  function RemoveAll(s: State, room: Room, refs: seq<Ref>): (t: State)
    requires forall i | 0 <= i < |refs| :: refs[i] in s.clients
    ensures t.clients.Keys == s.clients.Keys
  {
    if refs == [] then s else Remove(RemoveAll(s, room, refs[..|refs| - 1]), room, refs[|refs| - 1])
  }

  // ---- Revocation ------------------------------------------------------------------

  function OfUser(clients: map<Ref, Client>, members: set<Ref>, user: User): set<Ref> {
    set r | r in members && r in clients && clients[r].user == user
  }

  function WithoutUser(voices: map<Peer, Voice>, user: User): map<Peer, Voice> {
    map p | p in voices && voices[p].user != user :: voices[p]
  }

  /** The locked part of `disconnectRoomUser`. */
  function RevokeRoomUser(s: State, room: Room, user: User): State {
    Revoke(s, OfUser(s.clients, Members(s, room), user))
      .(voices := if room in s.voices then s.voices[room := WithoutUser(s.voices[room], user)] else s.voices)
  }

  function DropRoom(s: State, room: Room): State {
    Revoke(s, Members(s, room)).(rooms := s.rooms - {room}, voices := s.voices - {room})
  }

  function InRooms(s: State, where: set<Room>): set<Ref> {
    set room, r | room in where && room in s.rooms && r in s.rooms[room] :: r
  }

  /** A room's relays without the user's; an index left without relays goes. */
  function RelaysWithout(s: State, where: set<Room>, user: User): map<Room, map<Peer, Voice>> {
    map room | room in s.voices && (room in where ==> WithoutUser(s.voices[room], user) != map[])
      :: if room in where then WithoutUser(s.voices[room], user) else s.voices[room]
  }

  /** The locked part of `disconnectUser`, as far as it has visited the rooms. */
  function RevokeUserIn(s: State, where: set<Room>, user: User): State {
    Revoke(s, OfUser(s.clients, InRooms(s, where), user)).(voices := RelaysWithout(s, where, user))
  }

  /** One visited room. */
  function RevokeHere(s: State, room: Room, user: User): State {
    Revoke(s, OfUser(s.clients, Members(s, room), user))
      .(voices := if room !in s.voices then s.voices
                  else if WithoutUser(s.voices[room], user) == map[] then s.voices - {room}
                  else s.voices[room := WithoutUser(s.voices[room], user)])
  }

  function RevokeUser(s: State, user: User): State { RevokeUserIn(s, s.rooms.Keys, user) }

  /** Each connection from its own room. */
  function RemoveWherever(s: State, refs: seq<Ref>): (t: State)
    requires forall i | 0 <= i < |refs| :: refs[i] in s.clients
    ensures t.clients.Keys == s.clients.Keys
  {
    if refs == [] then s
    else
      var r := refs[|refs| - 1];
      Remove(RemoveWherever(s, refs[..|refs| - 1]), s.clients[r].room, r)
  }

  /** `disconnectSession` flags and removes one connection after the other. */
  function DropEach(s: State, refs: seq<Ref>): (t: State)
    requires forall i | 0 <= i < |refs| :: refs[i] in s.clients
    ensures t.clients.Keys == s.clients.Keys
  {
    if refs == [] then s
    else
      var r := refs[|refs| - 1];
      Remove(Revoke(DropEach(s, refs[..|refs| - 1]), {r}), s.clients[r].room, r)
  }

  function OfSession(clients: map<Ref, Client>, members: set<Ref>, session: string): set<Ref> {
    set r | r in members && r in clients && clients[r].session == session
  }

  // ---- Voice relays ----------------------------------------------------------------

  predicate MayRelay(s: State, room: Room, peer: Peer, v: Voice) {
    v.owner in Members(s, room) && v.owner in s.clients && s.clients[v.owner].peer == peer && !s.clients[v.owner].revoked
  }

  function AddVoice(s: State, room: Room, peer: Peer, v: Voice): State {
    if MayRelay(s, room, peer, v) then s.(voices := s.voices[room := Voices(s, room)[peer := v]]) else s
  }

  function RemoveVoice(s: State, room: Room, peer: Peer, v: Voice): State {
    var left := if peer in Voices(s, room) && Voices(s, room)[peer] == v then Voices(s, room) - {peer} else Voices(s, room);
    s.(voices := if left == map[] then s.voices - {room} else s.voices[room := left])
  }

  /** A packet passes between two current relays whose owners are current. */
  predicate Relays(s: State, room: Room, sender: Peer, v: Voice, to: Peer) {
    && sender in Voices(s, room) && Voices(s, room)[sender] == v && to in Voices(s, room)
    && var target := Voices(s, room)[to].owner;
    && v.owner in Members(s, room) && target in Members(s, room)
    && v.owner in s.clients && !s.clients[v.owner].revoked && target in s.clients && !s.clients[target].revoked
  }

  // ---- The indexes agree ----------------------------------------------------------

  /** Members are known connections of this room with distinct peers; a voice
      relay belongs to the member with its peer and user. */
  predicate RoomIndexed(clients: map<Ref, Client>, room: Room, members: set<Ref>, voices: map<Peer, Voice>) {
    && (forall r | r in members :: r in clients && clients[r].room == room)
    && (forall a, b | a in members && b in members && a != b :: clients[a].peer != clients[b].peer)
    && (forall p | p in voices ::
          voices[p].owner in members && clients[voices[p].owner].peer == p && clients[voices[p].owner].user == voices[p].user)
  }

  ghost predicate Indexed(s: State) {
    forall room: Room :: RoomIndexed(s.clients, room, Members(s, room), Voices(s, room))
  }

  predicate NoEmptyRooms(s: State) { forall room | room in s.rooms :: s.rooms[room] != {} }

  predicate SameIdentity(a: Client, b: Client) { a.room == b.room && a.session == b.session && a.peer == b.peer && a.user == b.user }

  predicate SameIdentities(a: map<Ref, Client>, b: map<Ref, Client>) {
    a.Keys == b.Keys && forall r | r in a :: SameIdentity(a[r], b[r])
  }

  lemma OrderIsKnown(s: State, room: Room, order: seq<Ref>)
    requires Indexed(s) && Enumerates(order, Members(s, room))
    ensures forall i | 0 <= i < |order| :: order[i] in s.clients
  {
    assert RoomIndexed(s.clients, room, Members(s, room), Voices(s, room));
    forall i | 0 <= i < |order| ensures order[i] in s.clients {
      assert order[i] in order;
    }
  }

  lemma {:induction false} ScanShrinks(s: State, room: Room, c: Client, replaceUser: bool, order: seq<Ref>)
    requires forall i | 0 <= i < |order| :: order[i] in s.clients
    ensures var t := Scan(s, room, c, replaceUser, order);
      && (forall r :: r in Members(t, room) <==> r in Members(s, room) && (r in order ==> !Gives(s.clients[r], c, replaceUser)))
      && SameIdentities(s.clients, t.clients)
    ensures Members(s, room) <= s.clients.Keys ==> Members(Scan(s, room, c, replaceUser, order), room) <= s.clients.Keys
  {
    hide Gives, DropVoice;
    if order != [] {
      var last := |order| - 1;
      ScanShrinks(s, room, c, replaceUser, order[..last]);
      assert forall r :: r in order <==> r in order[..last] || r == order[last];
    }
  }
}
