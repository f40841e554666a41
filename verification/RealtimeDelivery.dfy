/** When a room event may still reach a connection: writers, publishers and
    membership mutations interleaved, with the `accessMu` boundary of
    server/internal/api/api.go between them. */
module RealtimeDelivery {
  import opened Options

  type Ref = nat
  type Room = string

  /** `room` is None for events that are not meant for a room's audience. */
  datatype Message = Message(room: Option<Room>, id: nat)

  /** Where one connection's writer goroutine is. */
  datatype Writer =
    | Idle
    | Popped(m: Message)
    | Admitted(m: Message)
    | Cleared(m: Message)

  /** `locked` is the exclusive side of accessMu; the shared side is held by the
      writers that are Admitted or Cleared and by the `readers` of other requests. */
  datatype State = State(subscribed: set<(Ref, Room)>, queues: map<Ref, seq<Message>>, writers: map<Ref, Writer>,
                         revoked: set<Ref>, closed: set<Ref>, locked: bool, readers: nat)

  datatype Step =
    | Lock | Unlock | ReadLock | ReadUnlock
    | Connect(c: Ref, rooms: set<Room>)
    | Subscribe(c: Ref, r: Room)
    | Unsubscribe(c: Ref, r: Room)
    | Publish(r: Room, id: nat)
    | Enqueue(c: Ref, m: Message)
    | Pop(c: Ref)
    | Admit(c: Ref)
    | Check(c: Ref)
    | Write(c: Ref)
    | Revoke(c: Ref)
    | Close(c: Ref)

  const REALTIME_QUEUE: nat := 128

  predicate Shares(w: Writer) { w.Admitted? || w.Cleared? }

  predicate SharedHeld(s: State) { s.readers > 0 || exists c | c in s.writers :: Shares(s.writers[c]) }

  function Queue(s: State, c: Ref): seq<Message> { if c in s.queues then s.queues[c] else [] }

  function At(s: State, c: Ref): Writer { if c in s.writers then s.writers[c] else Idle }

  function Pushed(q: seq<Message>, m: Message): seq<Message> { if |q| < REALTIME_QUEUE then q + [m] else q }

  predicate Allowed(s: State, c: Ref, m: Message) { c !in s.revoked && (m.room.None? || (c, m.room.value) in s.subscribed) }

  /** Mutations subscribe under the exclusive lock; a new connection subscribes under
      the shared one; closing takes neither. */
  predicate Possible(s: State, t: Step) {
    match t
    case Lock => !s.locked && !SharedHeld(s)
    case Unlock => s.locked
    case ReadLock => !s.locked
    case ReadUnlock => s.readers > 0
    case Connect(c, rooms) => s.readers > 0 && c !in s.queues
    case Subscribe(c, r) => s.locked && c in s.queues && c !in s.closed
    case Unsubscribe(c, r) => true
    case Publish(r, id) => true
    case Enqueue(c, m) => m.room.None? && c in s.queues
    case Pop(c) => c in s.writers && At(s, c).Idle? && Queue(s, c) != []
    case Admit(c) => At(s, c).Popped? && !s.locked
    case Check(c) => At(s, c).Admitted?
    case Write(c) => At(s, c).Cleared?
    case Revoke(c) => true
    case Close(c) => c in s.queues
  }

  /** With the boundary, mutations unsubscribe under the exclusive lock too. */
  predicate Enabled(guarded: bool, s: State, t: Step) { Possible(s, t) && (guarded && t.Unsubscribe? ==> s.locked) }

  function After(s: State, t: Step): State
    requires Possible(s, t)
  {
    match t
    case Lock => s.(locked := true)
    case Unlock => s.(locked := false)
    case ReadLock => s.(readers := s.readers + 1)
    case ReadUnlock => s.(readers := s.readers - 1)
    case Connect(c, rooms) =>
      s.(queues := s.queues[c := []], writers := s.writers[c := Idle], subscribed := s.subscribed + set r | r in rooms :: (c, r))
    case Subscribe(c, r) => s.(subscribed := s.subscribed + {(c, r)})
    case Unsubscribe(c, r) => s.(subscribed := s.subscribed - {(c, r)})
    case Publish(r, id) =>
      s.(queues := map c | c in s.queues ::
           if (c, r) in s.subscribed then Pushed(s.queues[c], Message(Some(r), id)) else s.queues[c])
    case Enqueue(c, m) => s.(queues := s.queues[c := Pushed(s.queues[c], m)])
    case Pop(c) => s.(writers := s.writers[c := Popped(Queue(s, c)[0])], queues := s.queues[c := Queue(s, c)[1..]])
    case Admit(c) => s.(writers := s.writers[c := Admitted(At(s, c).m)])
    case Check(c) => s.(writers := s.writers[c := if Allowed(s, c, At(s, c).m) then Cleared(At(s, c).m) else Idle])
    case Write(c) => s.(writers := s.writers[c := Idle])
    case Revoke(c) => s.(revoked := s.revoked + {c})
    case Close(c) => s.(closed := s.closed + {c}, subscribed := set x | x in s.subscribed && x.0 != c)
  }

  const START: State := State({}, map[], map[], {}, {}, false, 0)

  ghost predicate Run(guarded: bool, states: seq<State>, steps: seq<Step>) {
    && |states| == |steps| + 1 && states[0] == START
    && forall i | 0 <= i < |steps| :: Enabled(guarded, states[i], steps[i]) && states[i + 1] == After(states[i], steps[i])
  }

  /** The lock excludes, and a cleared writer's audience is current: nobody can
      unsubscribe it while it holds the shared side, short of closing it. */
  predicate Inv(s: State) {
    && (s.locked ==> !SharedHeld(s))
    && forall c | c in s.writers && s.writers[c].Cleared? ::
         s.writers[c].m.room.Some? ==> (c, s.writers[c].m.room.value) in s.subscribed || c in s.closed
  }

  lemma InvStep(s: State, t: Step)
    requires Inv(s) && Enabled(true, s, t)
    ensures Inv(After(s, t))
  {}

  lemma {:induction false} InvRun(states: seq<State>, steps: seq<Step>, i: nat)
    requires Run(true, states, steps) && i <= |steps|
    ensures Inv(states[i])
  {
    hide After, Possible;
    if i == 0 {
    } else {
      hide Inv;
      InvRun(states, steps, i - 1);
      InvStep(states[i - 1], steps[i - 1]);
    }
  }

  predicate RoomWrite(s: State, t: Step, c: Ref, r: Room) {
    t == Write(c) && At(s, c).Cleared? && At(s, c).m.room == Some(r)
  }

  /** Whenever a room event is written, its connection is subscribed to the room
      at that moment, or is already closing. */
  lemma WritesAreSubscribed(states: seq<State>, steps: seq<Step>, i: nat, c: Ref, r: Room)
    requires Run(true, states, steps) && i < |steps| && RoomWrite(states[i], steps[i], c, r)
    ensures (c, r) in states[i].subscribed || c in states[i].closed
  {
    InvRun(states, steps, i);
  }

  /** Connected, not subscribed, and no room event on its way past the check. */
  predicate Dry(s: State, c: Ref, r: Room) {
    c in s.queues && (c, r) !in s.subscribed && !(At(s, c).Cleared? && At(s, c).m.room == Some(r))
  }

  lemma DryStep(s: State, t: Step, c: Ref, r: Room)
    requires Possible(s, t) && Dry(s, c, r) && t != Subscribe(c, r)
    ensures Dry(After(s, t), c, r) && !RoomWrite(s, t, c, r)
  {}

  lemma {:induction false} StaysDry(states: seq<State>, steps: seq<Step>, i: nat, j: nat, c: Ref, r: Room)
    requires Run(true, states, steps) && i <= j <= |steps| && Dry(states[i], c, r)
    requires forall k | i <= k < j :: steps[k] != Subscribe(c, r)
    ensures Dry(states[j], c, r)
  {
    hide After, Possible, Dry;
    if i < j {
      StaysDry(states, steps, i, j - 1, c, r);
      DryStep(states[j - 1], steps[j - 1], c, r);
    }
  }

  /** From the moment a mutation that left a connection unsubscribed releases the
      lock, no event for that room is written to it, queued before or after, until
      it is subscribed again. */
  lemma NothingAfterUnsubscribing(states: seq<State>, steps: seq<Step>, i: nat, j: nat, c: Ref, r: Room)
    requires Run(true, states, steps) && i < j < |steps| && steps[i] == Unlock
    requires c in states[i].queues && (c, r) !in states[i].subscribed
    requires forall k | i < k < j :: steps[k] != Subscribe(c, r)
    ensures !RoomWrite(states[j], steps[j], c, r)
  {
    InvRun(states, steps, i);
    assert Dry(states[i], c, r);
    hide After, Possible, Dry;
    StaysDry(states, steps, i, j, c, r);
    if steps[j] != Subscribe(c, r) {
      DryStep(states[j], steps[j], c, r);
    }
  }

  // ---- Without the boundary --------------------------------------------------------------

  lemma Grow(states: seq<State>, steps: seq<Step>, t: Step) returns (states': seq<State>, steps': seq<Step>)
    requires Run(false, states, steps) && |states| == |steps| + 1 && Enabled(false, states[|steps|], t)
    ensures Run(false, states', steps') && steps' == steps + [t] && |states'| == |steps'| + 1
    ensures states' == states + [After(states[|steps|], t)] && states'[|steps'|] == After(states[|steps|], t)
  {
    states', steps' := states + [After(states[|steps|], t)], steps + [t];
  }

  function Following(subscribed: set<(Ref, Room)>, queue: seq<Message>, w: Writer): State {
    State(subscribed, map[0 := queue], map[0 := w], {}, {}, false, 0)
  }

  lemma PublishOne(r: Room)
    ensures var m, mine := Message(Some(r), 1), {(0, r)};
      After(Following(mine, [], Idle), Publish(r, 1)) == Following(mine, [m], Idle)
  {
    var s, m := Following({(0, r)}, [], Idle), Message(Some(r), 1);
    assert After(s, Publish(r, 1)).queues == map[0 := [m]] by {
      assert (0, r) in s.subscribed && Pushed(s.queues[0], m) == [m];
    }
  }

  /** One subscriber, with one event of its room queued. */
  lemma Published(r: Room) returns (states: seq<State>, steps: seq<Step>)
    ensures Run(false, states, steps) && |states| == |steps| + 1
    ensures states[|steps|] == Following({(0, r)}, [Message(Some(r), 1)], Idle)
  {
    states, steps := Grow([START], [], ReadLock);
    hide Run;
    states, steps := Grow(states, steps, Connect(0, {r}));
    states, steps := Grow(states, steps, ReadUnlock);
    assert states[|steps|] == Following({(0, r)}, [], Idle);
    PublishOne(r);
    states, steps := Grow(states, steps, Publish(r, 1));
  }

  /** Its writer has passed the check. */
  lemma PassedCheck(r: Room) returns (states: seq<State>, steps: seq<Step>)
    ensures Run(false, states, steps) && |states| == |steps| + 1
    ensures states[|steps|] == Following({(0, r)}, [], Cleared(Message(Some(r), 1)))
  {
    hide Run;
    states, steps := Published(r);
    var m, mine := Message(Some(r), 1), {(0, r)};
    states, steps := Grow(states, steps, Pop(0));
    assert states[|steps|] == Following(mine, [], Popped(m));
    states, steps := Grow(states, steps, Admit(0));
    assert states[|steps|] == Following(mine, [], Admitted(m));
    states, steps := Grow(states, steps, Check(0));
  }

  /** A run in which a mutation unsubscribes without the lock: the writer has already
      asked, and writes the room's event afterwards. */
  lemma UnlockedUnsubscribeLeaks(r: Room) returns (states: seq<State>, steps: seq<Step>, i: nat)
    ensures Run(false, states, steps) && i < |steps| < |states| && RoomWrite(states[i], steps[i], 0, r)
    ensures (0, r) !in states[i].subscribed && 0 !in states[i].closed
  {
    hide Run;
    states, steps := PassedCheck(r);
    states, steps := Grow(states, steps, Unsubscribe(0, r));
    i := |steps|;
    states, steps := Grow(states, steps, Write(0));
  }

  /** Room events are written to current subscribers only, short of a closing one. */
  ghost predicate OnlySubscribers(states: seq<State>, steps: seq<Step>)
    requires |states| > |steps|
  {
    forall i: nat, c: Ref, r: Room | i < |steps| && RoomWrite(states[i], steps[i], c, r) ::
      (c, r) in states[i].subscribed || c in states[i].closed
  }

  /** The boundary is what does it: that holds of every run exactly when mutations
      unsubscribe under the exclusive lock. */
  lemma BoundaryExactly(guarded: bool)
    ensures (forall states: seq<State>, steps: seq<Step> | Run(guarded, states, steps) :: OnlySubscribers(states, steps)) <==> guarded
  {
    if guarded {
      forall states: seq<State>, steps: seq<Step> | Run(guarded, states, steps) ensures OnlySubscribers(states, steps) {
        forall i: nat, c: Ref, r: Room | i < |steps| && RoomWrite(states[i], steps[i], c, r)
          ensures (c, r) in states[i].subscribed || c in states[i].closed
        {
          WritesAreSubscribed(states, steps, i, c, r);
        }
      }
    } else {
      var states, steps, i := UnlockedUnsubscribeLeaks("");
      assert RoomWrite(states[i], steps[i], 0, "");
    }
  }
}
