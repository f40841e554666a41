/** Signaling connections of apps/sfu/src/signaling.rs sharing one engine handle
    (apps/sfu/src/engine.rs): any number of them, interleaved step by step. */
module SfuRoutes {
  datatype Key = Key(room: string, client: nat)

  datatype Kind = Join | Sdp | Ice | Leave

  datatype Event = Event(key: Key, kind: Kind)

  /** The routes map and everything ever queued for the engine task; once that task
      is gone events are dropped. */
  datatype Engine = Engine(routes: set<Key>, inbound: seq<Event>, alive: bool)

  function Sent(e: Engine, event: Event): Engine { if e.alive then e.(inbound := e.inbound + [event]) else e }

  class EngineHandle {
    var routes: set<Key>
    var inbound: seq<Event>
    var alive: bool

    ghost function Value(): Engine
      reads this
    {
      Engine(routes, inbound, alive)
    }

    constructor ()
      ensures Value() == Engine({}, [], true)
    {
      routes, inbound, alive := {}, [], true;
    }

    method Send(event: Event)
      modifies this`inbound
      ensures Value() == Sent(old(Value()), event)
    {
      if alive {
        inbound := inbound + [event];
      }
    }

    /** Only a vacant entry is taken; an occupied one is left to its owner. */
    method Register(key: Key) returns (ok: bool)
      modifies this`routes
      ensures ok <==> key !in old(routes)
      ensures routes == old(routes) + {key}
    {
      ok := key !in routes;
      if ok {
        routes := routes + {key};
      }
    }

    method Unregister(key: Key)
      modifies this`routes
      ensures routes == old(routes) - {key}
    {
      routes := routes - {key};
    }
  }

  // ---- Connections ----------------------------------------------------------------

  /** Where one connection's `run` is. */
  datatype Phase = Accepted | Registered | Looping | SaidLeave | Done | Rejected

  datatype Conn = Conn(key: Key, phase: Phase)

  datatype World = World(engine: Engine, conns: map<nat, Conn>)

  datatype Step =
    | Accept(c: nat, key: Key)
    | Register(c: nat)
    | SendJoin(c: nat)
    | Forward(c: nat, kind: Kind)
    | SendLeave(c: nat)
    | Unregister(c: nat)
    | EngineStops

  predicate InPhase(w: World, c: nat, p: Phase) { c in w.conns && w.conns[c].phase == p }

  /** A connection that is dropped halfway simply takes no further step. */
  predicate Enabled(w: World, t: Step) {
    match t
    case Accept(c, _) => c !in w.conns
    case Register(c) => InPhase(w, c, Accepted)
    case SendJoin(c) => InPhase(w, c, Registered)
    case Forward(c, kind) => InPhase(w, c, Looping) && (kind == Sdp || kind == Ice)
    case SendLeave(c) => InPhase(w, c, Looping)
    case Unregister(c) => InPhase(w, c, SaidLeave)
    case EngineStops => true
  }

  function Phased(w: World, c: nat, p: Phase): World
    requires c in w.conns
  {
    w.(conns := w.conns[c := w.conns[c].(phase := p)])
  }

  function After(w: World, t: Step): World
    requires Enabled(w, t)
  {
    match t
    case Accept(c, key) => w.(conns := w.conns[c := Conn(key, Accepted)])
    case Register(c) =>
      var key := w.conns[c].key;
      if key in w.engine.routes then Phased(w, c, Rejected)
      else Phased(w.(engine := w.engine.(routes := w.engine.routes + {key})), c, Registered)
    case SendJoin(c) => Phased(w.(engine := Sent(w.engine, Event(w.conns[c].key, Join))), c, Looping)
    case Forward(c, kind) => w.(engine := Sent(w.engine, Event(w.conns[c].key, kind)))
    case SendLeave(c) => Phased(w.(engine := Sent(w.engine, Event(w.conns[c].key, Leave))), c, SaidLeave)
    case Unregister(c) => Phased(w.(engine := w.engine.(routes := w.engine.routes - {w.conns[c].key})), c, Done)
    case EngineStops => w.(engine := w.engine.(alive := false))
  }

  ghost predicate Run(worlds: seq<World>, steps: seq<Step>) {
    && |worlds| == |steps| + 1 && worlds[0] == World(Engine({}, [], true), map[])
    && forall i | 0 <= i < |steps| :: Enabled(worlds[i], steps[i]) && worlds[i + 1] == After(worlds[i], steps[i])
  }

  // ---- The grammar of one client's events ----------------------------------------------

  function Projection(inbound: seq<Event>, key: Key): seq<Kind> {
    if inbound == [] then []
    else
      var e := inbound[|inbound| - 1];
      Projection(inbound[..|inbound| - 1], key) + if e.key == key then [e.kind] else []
  }

  /** Join, any number of descriptions and candidates, Leave. */
  predicate Session(s: seq<Kind>) {
    |s| >= 2 && s[0] == Join && s[|s| - 1] == Leave && forall i | 1 <= i < |s| - 1 :: s[i] == Sdp || s[i] == Ice
  }

  ghost predicate Sessions(s: seq<Kind>) {
    s == [] || exists k | 0 <= k < |s| :: Sessions(s[..k]) && Session(s[k..])
  }

  /** Everything so far is whole sessions and then an unfinished one. */
  ghost predicate Within(s: seq<Kind>, open: bool) {
    if open then exists k | 0 <= k < |s| :: Sessions(s[..k]) && Session(s[k..] + [Leave]) else Sessions(s)
  }

  lemma Opening(s: seq<Kind>)
    requires Within(s, false)
    ensures Within(s + [Join], true)
  {
    var t, k := s + [Join], |s|;
    assert t[..k] == s && t[k..] + [Leave] == [Join, Leave];
    assert Sessions(t[..k]) && Session(t[k..] + [Leave]);
  }

  lemma Talking(s: seq<Kind>, kind: Kind)
    requires Within(s, true) && (kind == Sdp || kind == Ice)
    ensures Within(s + [kind], true)
  {
    var k :| 0 <= k < |s| && Sessions(s[..k]) && Session(s[k..] + [Leave]);
    var t := s + [kind];
    assert t[..k] == s[..k] && t[k..] == s[k..] + [kind];
    var whole := t[k..] + [Leave];
    forall i | 1 <= i < |whole| - 1 ensures whole[i] == Sdp || whole[i] == Ice {
      if i < |s[k..]| { assert whole[i] == (s[k..] + [Leave])[i]; }
    }
    assert whole[0] == (s[k..] + [Leave])[0];
    assert Session(t[k..] + [Leave]);
  }

  lemma Closing(s: seq<Kind>)
    requires Within(s, true)
    ensures Within(s + [Leave], false)
  {
    var k :| 0 <= k < |s| && Sessions(s[..k]) && Session(s[k..] + [Leave]);
    var t := s + [Leave];
    assert t[..k] == s[..k] && t[k..] == s[k..] + [Leave];
  }

  /** What is within a session, or between two, is a prefix of whole sessions. */
  lemma IsPrefix(s: seq<Kind>, open: bool)
    requires Within(s, open)
    ensures exists rest :: Sessions(s + rest)
  {
    if open {
      Closing(s);
    } else {
      assert s + [] == s;
    }
  }

  // ---- What every step keeps -------------------------------------------------------------

  predicate Owns(w: World, c: nat, key: Key) {
    c in w.conns && w.conns[c].key == key
    && (w.conns[c].phase == Registered || w.conns[c].phase == Looping || w.conns[c].phase == SaidLeave)
  }

  ghost predicate Talks(w: World, key: Key) { exists c :: Owns(w, c, key) && w.conns[c].phase == Looping }

  /** A route is owned by exactly one connection. */
  ghost predicate Routed(w: World) {
    && (forall key :: key in w.engine.routes <==> exists c :: Owns(w, c, key))
    && (forall c, d, key :: Owns(w, c, key) && Owns(w, d, key) ==> c == d)
  }

  /** While the engine runs, a client is inside a session exactly while the owner of
      its route is in its loop; the queue only ever holds sessions. */
  ghost predicate Spoken(w: World, key: Key) {
    exists open: bool :: Within(Projection(w.engine.inbound, key), open) && (w.engine.alive ==> (open <==> Talks(w, key)))
  }

  ghost predicate Inv(w: World) { Routed(w) && forall key :: Spoken(w, key) }

  lemma ProjectionNext(inbound: seq<Event>, e: Event, key: Key)
    ensures Projection(inbound + [e], key) == Projection(inbound, key) + if e.key == key then [e.kind] else []
  {
    assert (inbound + [e])[..|inbound|] == inbound;
  }

  lemma OwnsStep(w: World, t: Step, c: nat, key: Key)
    requires Enabled(w, t)
    ensures Owns(After(w, t), c, key) ==> Owns(w, c, key) || (t == Register(c) && key == w.conns[c].key && key !in w.engine.routes)
    ensures Owns(w, c, key) && t != Unregister(c) ==> Owns(After(w, t), c, key)
    ensures t == Unregister(c) ==> !Owns(After(w, t), c, key)
  {}

  lemma RoutesStep(w: World, t: Step)
    requires Enabled(w, t)
    ensures After(w, t).engine.routes
         == if t.Register? then w.engine.routes + {w.conns[t.c].key}
            else if t.Unregister? then w.engine.routes - {w.conns[t.c].key} else w.engine.routes
    ensures t.Register? && w.conns[t.c].key !in w.engine.routes ==> Owns(After(w, t), t.c, w.conns[t.c].key)
    ensures t.Unregister? ==> Owns(w, t.c, w.conns[t.c].key)
  {}

  lemma RoutedStep(w: World, t: Step)
    requires Routed(w) && Enabled(w, t)
    ensures Routed(After(w, t))
  {
    var u := After(w, t);
    RoutesStep(w, t);
    forall c: nat, key: Key
      ensures Owns(u, c, key) ==> Owns(w, c, key) || (t == Register(c) && key == w.conns[c].key && key !in w.engine.routes)
      ensures Owns(w, c, key) && t != Unregister(c) ==> Owns(u, c, key)
      ensures t == Unregister(c) ==> !Owns(u, c, key)
    {
      OwnsStep(w, t, c, key);
    }
    hide After, Owns;
  }

  /** Nobody else talks for the client of a connection that owns its route. */
  lemma OnlyOwnerTalks(w: World, c: nat)
    requires Routed(w) && c in w.conns && Owns(w, c, w.conns[c].key)
    ensures Talks(w, w.conns[c].key) <==> w.conns[c].phase == Looping
  {}

  lemma SilentQueue(w: World, t: Step, key: Key)
    requires Enabled(w, t) && (t.Accept? || t.Register? || t.Unregister? || t.EngineStops? || w.conns[t.c].key != key)
    ensures Projection(After(w, t).engine.inbound, key) == Projection(w.engine.inbound, key)
  {
    hide Projection;
    if t.SendJoin? || t.SendLeave? || t.Forward? {
      ProjectionNext(w.engine.inbound, Event(w.conns[t.c].key, if t.SendJoin? then Join else if t.SendLeave? then Leave else t.kind), key);
    }
  }

  /** Steps that send nothing for this client leave it talking or not. */
  lemma SilentStep(w: World, t: Step, key: Key)
    requires Enabled(w, t) && (t.Accept? || t.Register? || t.Unregister? || t.EngineStops? || w.conns[t.c].key != key || t.Forward?)
    ensures Talks(After(w, t), key) <==> Talks(w, key)
  {
    hide Projection, Sent;
    var u := After(w, t);
    if c :| Owns(w, c, key) && w.conns[c].phase == Looping {
      assert Owns(u, c, key) && u.conns[c].phase == Looping;
    }
    if c :| Owns(u, c, key) && u.conns[c].phase == Looping {
      assert Owns(w, c, key) && w.conns[c].phase == Looping;
    }
  }

  lemma SpokenStep(w: World, t: Step, key: Key)
    requires Inv(w) && Enabled(w, t)
    ensures Spoken(After(w, t), key)
  {
    var u := After(w, t);
    assert Spoken(w, key);
    var open: bool :| Within(Projection(w.engine.inbound, key), open) && (w.engine.alive ==> (open <==> Talks(w, key)));
    hide Within, Projection, Routed;
    if t.Accept? || t.Register? || t.Unregister? || t.EngineStops? || w.conns[t.c].key != key {
      SilentQueue(w, t, key);
      SilentStep(w, t, key);
      assert Within(Projection(u.engine.inbound, key), open);
    } else {
      OnlyOwnerTalks(w, t.c);
      RoutedStep(w, t);
      OnlyOwnerTalks(u, t.c);
      if w.engine.alive {
        Said(w, t, key);
      } else {
        assert u.engine.inbound == w.engine.inbound;
        assert Within(Projection(u.engine.inbound, key), open);
      }
    }
  }

  /** A connection's own event continues its client's sessions. */
  lemma Said(w: World, t: Step, key: Key)
    requires Enabled(w, t) && w.engine.alive && (t.SendJoin? || t.SendLeave? || t.Forward?) && w.conns[t.c].key == key
    requires Within(Projection(w.engine.inbound, key), w.conns[t.c].phase == Looping)
    ensures Within(Projection(After(w, t).engine.inbound, key), After(w, t).conns[t.c].phase == Looping)
  {
    var before := Projection(w.engine.inbound, key);
    ProjectionNext(w.engine.inbound, Event(key, if t.SendJoin? then Join else if t.SendLeave? then Leave else t.kind), key);
    hide Within, Projection;
    if t.SendJoin? {
      Opening(before);
    } else if t.SendLeave? {
      Closing(before);
    } else {
      Talking(before, t.kind);
    }
  }

  lemma InvStep(w: World, t: Step)
    requires Inv(w) && Enabled(w, t)
    ensures Inv(After(w, t))
  {
    RoutedStep(w, t);
    forall key ensures Spoken(After(w, t), key) {
      SpokenStep(w, t, key);
    }
  }

  lemma InvStart()
    ensures Inv(World(Engine({}, [], true), map[]))
  {
    forall key ensures Spoken(World(Engine({}, [], true), map[]), key) {
      assert Within(Projection([], key), false);
    }
  }

  lemma {:induction false} InvRun(worlds: seq<World>, steps: seq<Step>, i: nat)
    requires Run(worlds, steps) && i <= |steps|
    ensures Inv(worlds[i])
  {
    hide After, Enabled, Inv;
    if i == 0 {
      InvStart();
    } else {
      InvRun(worlds, steps, i - 1);
      InvStep(worlds[i - 1], steps[i - 1]);
    }
  }

  /** Whatever the interleaving, what the engine is told about one client is a
      prefix of whole sessions: Join, descriptions and candidates, Leave. */
  lemma QueueIsSessions(worlds: seq<World>, steps: seq<Step>, i: nat, key: Key)
    requires Run(worlds, steps) && i <= |steps|
    ensures exists rest :: Sessions(Projection(worlds[i].engine.inbound, key) + rest)
  {
    InvRun(worlds, steps, i);
    assert Spoken(worlds[i], key);
    hide Inv, Within, Projection, Sessions, Run;
    var open: bool :| Within(Projection(worlds[i].engine.inbound, key), open);
    IsPrefix(Projection(worlds[i].engine.inbound, key), open);
  }

  /** A refused registration is the connection's last step. */
  lemma {:induction false} RejectedIsSilent(worlds: seq<World>, steps: seq<Step>, i: nat, j: nat, c: nat)
    requires Run(worlds, steps) && i <= j <= |steps| && InPhase(worlds[i], c, Rejected)
    ensures InPhase(worlds[j], c, Rejected)
    ensures j < |steps| ==> steps[j] != SendJoin(c) && steps[j] != SendLeave(c) && !(steps[j].Forward? && steps[j].c == c)
  {
    if i < j {
      RejectedIsSilent(worlds, steps, i, j - 1, c);
    }
  }
}
