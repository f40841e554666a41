/** The grace timer of apps/desktop-wails/ios_broadcast_ios.go: signaling sockets,
    close notices, one restartable timer whose callbacks cannot be recalled, and
    shares being started and closed, interleaved one step at a time. */
module GraceTimer {
  import opened Options

  /** callSignalingGrace, in seconds. */
  const GRACE: int := 30

  type Id = nat

  /** A timer remembers how many sockets had ever opened when it was armed. */
  datatype Timer = Timer(armed: nat, armedAt: int)

  /** How far a fired callback has come. */
  datatype Phase = Fresh | SawClosed | Quiet | Holding(share: Id) | Ending(share: Id)

  datatype Callback = Callback(armed: nat, armedAt: int, phase: Phase)

  /** How far a start has come: `checkAt` is when its signaling check was done. */
  datatype Stage = Picking | Stamped | WillArm | Checked(checkAt: int) | Started

  datatype Share = Share(stage: Stage, startedAt: int, closed: bool)

  /** `opening` sockets are counted in `opens` but not yet in `sockets`; `notices`
      are close notifications not yet delivered. */
  datatype State = State(now: int, sockets: nat, opening: nat, opens: nat, lastOpen: Option<int>, notices: nat,
                         timer: Option<Timer>, callbacks: map<Id, Callback>, shares: map<Id, Share>, current: Option<Id>)

  datatype Step =
    | Wait(seconds: nat)
    | CountOpen | CountSocket | CloseSocket
    | Notice
    | Fire(c: Id)
    | AskOpen(c: Id) | AskOpens(c: Id) | AskCurrent(c: Id) | Judge(c: Id) | End(c: Id)
    | Begin(b: Id) | Stamp(b: Id) | Check(b: Id) | Rearm(b: Id) | Finish(b: Id)
    | Close(b: Id) | Clear(b: Id)

  const START: State := State(0, 0, 0, 0, None, 0, None, map[], map[], None)

  /** armSignalingCheck: stops a pending timer and starts one for a full grace. */
  function Armed(s: State): State { s.(timer := Some(Timer(s.opens, s.now))) }

  predicate At(s: State, c: Id, p: Phase) { c in s.callbacks && s.callbacks[c].phase == p }

  predicate Live(s: State, b: Id) {
    b in s.shares && s.shares[b].stage.Started? && !s.shares[b].closed && s.now - s.shares[b].startedAt >= GRACE
  }

  predicate InStage(s: State, b: Id, stage: Stage) { b in s.shares && s.shares[b].stage == stage }

  /** A callback's own steps in order; a start's own steps in order. */
  predicate Enabled(s: State, t: Step) {
    match t
    case Wait(_) => true
    case CountOpen => true
    case CountSocket => s.opening > 0
    case CloseSocket => s.sockets > 0
    case Notice => s.notices > 0
    case Fire(c) => s.timer.Some? && s.timer.value.armedAt + GRACE <= s.now && c !in s.callbacks
    case AskOpen(c) => At(s, c, Fresh)
    case AskOpens(c) => At(s, c, SawClosed)
    case AskCurrent(c) => At(s, c, Quiet)
    case Judge(c) => c in s.callbacks && s.callbacks[c].phase.Holding?
    case End(c) => c in s.callbacks && s.callbacks[c].phase.Ending?
    case Begin(b) => s.current.None? && b !in s.shares
    case Stamp(b) => InStage(s, b, Picking)
    case Check(b) => InStage(s, b, Stamped)
    case Rearm(b) => InStage(s, b, WillArm)
    case Finish(b) => b in s.shares && s.shares[b].stage.Checked?
    case Close(b) => b in s.shares
    case Clear(b) => b in s.shares && s.shares[b].closed
  }

  function Phased(s: State, c: Id, p: Phase): State
    requires c in s.callbacks
  {
    s.(callbacks := s.callbacks[c := s.callbacks[c].(phase := p)])
  }

  function Gone(s: State, c: Id): State { s.(callbacks := s.callbacks - {c}) }

  function Staged(s: State, b: Id, stage: Stage): State
    requires b in s.shares
  {
    s.(shares := s.shares[b := s.shares[b].(stage := stage)])
  }

  function Closed(s: State, b: Id): State {
    if b in s.shares then s.(shares := s.shares[b := s.shares[b].(closed := true)]) else s
  }

  function After(s: State, t: Step): State
    requires Enabled(s, t)
  {
    match t
    case Wait(d) => s.(now := s.now + d)
    case CountOpen => s.(opens := s.opens + 1, opening := s.opening + 1, lastOpen := Some(s.now))
    case CountSocket => s.(opening := s.opening - 1, sockets := s.sockets + 1)
    case CloseSocket => s.(sockets := s.sockets - 1, notices := if s.sockets == 1 then s.notices + 1 else s.notices)
    case Notice => Armed(s.(notices := s.notices - 1))
    case Fire(c) =>
      s.(timer := None, callbacks := s.callbacks[c := Callback(s.timer.value.armed, s.timer.value.armedAt, Fresh)])
    case AskOpen(c) => if s.sockets > 0 then Gone(s, c) else Phased(s, c, SawClosed)
    case AskOpens(c) => if s.opens != s.callbacks[c].armed then Gone(s, c) else Phased(s, c, Quiet)
    case AskCurrent(c) => if s.current.None? then Gone(s, c) else Phased(s, c, Holding(s.current.value))
    case Judge(c) =>
      if Live(s, s.callbacks[c].phase.share) then Phased(s, c, Ending(s.callbacks[c].phase.share)) else Gone(s, c)
    case End(c) => Closed(Gone(s, c), s.callbacks[c].phase.share)
    case Begin(b) => s.(shares := s.shares[b := Share(Picking, s.now, false)], current := Some(b))
    case Stamp(b) => s.(shares := s.shares[b := s.shares[b].(stage := Stamped, startedAt := s.now)])
    case Check(b) => Staged(s, b, if s.sockets > 0 then Checked(s.now) else WillArm)
    case Rearm(b) => Armed(Staged(s, b, Checked(s.now)))
    case Finish(b) => Staged(s, b, Started)
    case Close(b) => Closed(s, b)
    case Clear(b) => if s.current == Some(b) then s.(current := None) else s
  }

  ghost predicate Run(states: seq<State>, steps: seq<Step>) {
    && |states| == |steps| + 1 && states[0] == START
    && forall i | 0 <= i < |steps| :: Enabled(states[i], steps[i]) && states[i + 1] == After(states[i], steps[i])
  }

  /** The last lines of a start, from its check on, take less than `quick` seconds. */
  predicate Prompt(quick: int, s: State, t: Step) {
    t.Finish? && t.b in s.shares && s.shares[t.b].stage.Checked? ==> s.now < s.shares[t.b].stage.checkAt + quick
  }

  ghost predicate PromptRun(quick: int, states: seq<State>, steps: seq<Step>) {
    Run(states, steps) && forall i | 0 <= i < |steps| :: Prompt(quick, states[i], steps[i])
  }

  // ---- What every step keeps -----------------------------------------------------------------

  /** No opening since: where the counts agree, the last opening was before. */
  predicate Since(s: State, armed: nat, armedAt: int) {
    && armed <= s.opens && armedAt <= s.now
    && (armed == s.opens && s.lastOpen.Some? ==> s.lastOpen.value <= armedAt)
  }

  predicate Clocks(s: State) {
    && (s.lastOpen.Some? ==> s.lastOpen.value <= s.now)
    && (s.timer.Some? ==> Since(s, s.timer.value.armed, s.timer.value.armedAt))
    && (forall c | c in s.callbacks ::
          Since(s, s.callbacks[c].armed, s.callbacks[c].armedAt) && s.callbacks[c].armedAt + GRACE <= s.now)
  }

  /** A share that is not closed is the current one; times are in order. */
  predicate Shares(s: State) {
    forall b | b in s.shares ::
      && (!s.shares[b].closed ==> s.current == Some(b))
      && s.shares[b].startedAt <= s.now
      && (s.shares[b].stage.Checked? ==> s.shares[b].startedAt <= s.shares[b].stage.checkAt <= s.now)
  }

  /** No socket is open or opening, and no close is still to be noticed. */
  predicate Silent(s: State) { s.sockets == 0 && s.opening == 0 && s.notices == 0 }

  predicate TimerGuards(s: State, from: int) {
    s.timer.Some? && s.timer.value.armed == s.opens && s.timer.value.armedAt >= from
  }

  /** A callback that has not given up on this share. */
  predicate CallbackGuards(s: State, b: Id, from: int, c: Id) {
    && c in s.callbacks && s.callbacks[c].armed == s.opens && s.callbacks[c].armedAt >= from
    && (s.callbacks[c].phase.Holding? || s.callbacks[c].phase.Ending? ==> s.callbacks[c].phase.share == b)
  }

  ghost predicate Guarded(s: State, b: Id)
    requires b in s.shares
  {
    TimerGuards(s, s.shares[b].startedAt) || exists c :: CallbackGuards(s, b, s.shares[b].startedAt, c)
  }

  ghost predicate Watched(s: State) {
    forall b | b in s.shares && !s.shares[b].closed && Silent(s) ::
      && (s.shares[b].stage.Started? ==> Guarded(s, b))
      && (s.shares[b].stage.Checked? && s.now < s.shares[b].stage.checkAt + GRACE ==> TimerGuards(s, s.shares[b].stage.checkAt))
  }

  ghost predicate Inv(s: State) { Clocks(s) && Shares(s) && Watched(s) }

  lemma ClocksStep(s: State, t: Step)
    requires Clocks(s) && Enabled(s, t)
    ensures Clocks(After(s, t))
  {
    hide Shares, Live, Since;
    SinceKept(s, t);
  }

  /** Counts and times that were in order stay so, and a fresh timer's are. */
  lemma SinceKept(s: State, t: Step)
    requires Enabled(s, t) && (s.lastOpen.Some? ==> s.lastOpen.value <= s.now)
    ensures forall armed, armedAt :: Since(s, armed, armedAt) ==> Since(After(s, t), armed, armedAt)
    ensures Since(s, s.opens, s.now) && s.now <= After(s, t).now
    ensures After(s, t).lastOpen.Some? ==> After(s, t).lastOpen.value <= After(s, t).now
  {}

  lemma SharesStep(s: State, t: Step)
    requires Shares(s) && Enabled(s, t)
    ensures Shares(After(s, t))
  {}

  /** A guarding callback's own next step leaves it guarding, or ends the share. */
  lemma CallbackMoves(s: State, t: Step, b: Id, c: Id)
    requires Clocks(s) && Shares(s) && Silent(s) && Enabled(s, t)
    requires t in {AskOpen(c), AskOpens(c), AskCurrent(c), Judge(c), End(c)}
    requires b in s.shares && s.shares[b].stage.Started? && !s.shares[b].closed && CallbackGuards(s, b, s.shares[b].startedAt, c)
    ensures b in After(s, t).shares && (After(s, t).shares[b].closed || CallbackGuards(After(s, t), b, s.shares[b].startedAt, c))
  {}

  /** A guard survives every step, or becomes another. */
  lemma GuardKept(s: State, t: Step, b: Id)
    requires Clocks(s) && Shares(s) && Silent(s) && Enabled(s, t)
    requires b in s.shares && s.shares[b].stage.Started? && !s.shares[b].closed && Guarded(s, b)
    ensures b in After(s, t).shares
    ensures Silent(After(s, t)) && !After(s, t).shares[b].closed && After(s, t).shares[b].startedAt == s.shares[b].startedAt
      ==> Guarded(After(s, t), b)
  {
    var u, from := After(s, t), s.shares[b].startedAt;
    if TimerGuards(s, from) {
      if t.Fire? { assert CallbackGuards(u, b, from, t.c); }
    } else {
      var c :| CallbackGuards(s, b, from, c);
      if t in {AskOpen(c), AskOpens(c), AskCurrent(c), Judge(c), End(c)} {
        CallbackMoves(s, t, b, c);
      } else if Silent(u) {
        assert t.Rearm? || CallbackGuards(u, b, from, c);
      }
    }
  }

  lemma StartedAtKept(s: State, t: Step, b: Id)
    requires Enabled(s, t) && b in s.shares && (s.shares[b].stage.Started? || s.shares[b].stage.Checked?)
    ensures b in After(s, t).shares && After(s, t).shares[b].startedAt == s.shares[b].startedAt
    ensures s.shares[b].closed ==> After(s, t).shares[b].closed
    ensures s.shares[b].stage.Started? ==> After(s, t).shares[b].stage.Started?
    ensures s.shares[b].stage.Checked? ==> After(s, t).shares[b].stage == s.shares[b].stage || t == Finish(b)
  {}

  /** Signaling can only fall silent through the notice that arms the timer. */
  lemma FallsSilent(s: State, t: Step, from: int)
    requires Enabled(s, t) && !Silent(s) && Silent(After(s, t)) && from <= s.now
    ensures t.Notice? && TimerGuards(After(s, t), from)
  {}

  lemma ShareWatched(s: State, t: Step, b: Id)
    requires Inv(s) && Enabled(s, t) && Prompt(GRACE, s, t) && b in After(s, t).shares && !After(s, t).shares[b].closed && Silent(After(s, t))
    requires After(s, t).shares[b].stage.Started?
    ensures Guarded(After(s, t), b)
  {
    if t != Finish(b) {
      assert b in s.shares && s.shares[b].stage.Started?;
      StartedAtKept(s, t, b);
      if Silent(s) {
        GuardKept(s, t, b);
      } else {
        FallsSilent(s, t, s.shares[b].startedAt);
      }
    }
  }

  lemma CheckWatched(s: State, t: Step, b: Id)
    requires Inv(s) && Enabled(s, t) && Prompt(GRACE, s, t) && b in After(s, t).shares && !After(s, t).shares[b].closed && Silent(After(s, t))
    requires After(s, t).shares[b].stage.Checked? && After(s, t).now < After(s, t).shares[b].stage.checkAt + GRACE
    ensures TimerGuards(After(s, t), After(s, t).shares[b].stage.checkAt)
  {
    if t != Check(b) && t != Rearm(b) {
      assert b in s.shares && s.shares[b].stage == After(s, t).shares[b].stage;
      StartedAtKept(s, t, b);
      if !Silent(s) {
        FallsSilent(s, t, s.shares[b].stage.checkAt);
      }
    }
  }

  lemma InvStep(s: State, t: Step)
    requires Inv(s) && Enabled(s, t) && Prompt(GRACE, s, t)
    ensures Inv(After(s, t))
  {
    ClocksStep(s, t);
    SharesStep(s, t);
    var u := After(s, t);
    forall b | b in u.shares && !u.shares[b].closed && Silent(u)
      ensures u.shares[b].stage.Started? ==> Guarded(u, b)
      ensures u.shares[b].stage.Checked? && u.now < u.shares[b].stage.checkAt + GRACE ==> TimerGuards(u, u.shares[b].stage.checkAt)
    {
      if u.shares[b].stage.Started? { ShareWatched(s, t, b); }
      if u.shares[b].stage.Checked? && u.now < u.shares[b].stage.checkAt + GRACE { CheckWatched(s, t, b); }
    }
  }

  /** The clocks are right in every run, however slow a start is. */
  lemma {:induction false} ClocksRun(states: seq<State>, steps: seq<Step>, i: nat)
    requires Run(states, steps) && i <= |steps|
    ensures Clocks(states[i]) && Shares(states[i])
  {
    if i > 0 {
      ClocksRun(states, steps, i - 1);
      ClocksStep(states[i - 1], steps[i - 1]);
      SharesStep(states[i - 1], steps[i - 1]);
    }
    hide After, Enabled, Clocks, Shares;
  }

  lemma {:induction false} InvRun(states: seq<State>, steps: seq<Step>, i: nat)
    requires PromptRun(GRACE, states, steps) && i <= |steps|
    ensures Inv(states[i])
  {
    hide After, Enabled;
    if i == 0 {
    } else {
      hide Inv;
      InvRun(states, steps, i - 1);
      InvStep(states[i - 1], steps[i - 1]);
    }
  }

  /** No share is forgotten: while a started share has no socket and no close to be
      noticed, a timer with the current count is pending with a deadline at least a
      grace after its start, or has fired and its callback has not let go of it. */
  ghost predicate NoneForgotten(s: State) {
    forall b | b in s.shares && s.shares[b].stage.Started? && !s.shares[b].closed && Silent(s) :: Guarded(s, b)
  }

  lemma PromptSharesAreGuarded(quick: int, states: seq<State>, steps: seq<Step>, i: nat)
    requires quick <= GRACE && PromptRun(quick, states, steps) && i <= |steps|
    ensures NoneForgotten(states[i])
  {
    assert PromptRun(GRACE, states, steps);
    InvRun(states, steps, i);
  }

  /** Every run keeps every share guarded exactly when the last lines of a start take
      no longer than the grace. */
  lemma SharesAreGuardedExactly(quick: int)
    ensures (forall states, steps, i: nat | PromptRun(quick, states, steps) && i <= |steps| :: NoneForgotten(states[i]))
       <==> quick <= GRACE
  {
    if quick <= GRACE {
      forall states, steps, i: nat | PromptRun(quick, states, steps) && i <= |steps| ensures NoneForgotten(states[i]) {
        PromptSharesAreGuarded(quick, states, steps, i);
      }
    } else {
      var states, steps := SlowStartIsForgotten(quick);
      assert !NoneForgotten(states[|steps|]);
    }
  }

  // ---- Building runs ---------------------------------------------------------------------------

  lemma Grow(quick: int, states: seq<State>, steps: seq<Step>, t: Step) returns (states': seq<State>, steps': seq<Step>)
    requires PromptRun(quick, states, steps) && |states| == |steps| + 1 && Enabled(states[|steps|], t) && Prompt(quick, states[|steps|], t)
    ensures PromptRun(quick, states', steps') && steps' == steps + [t]
    ensures states' == states + [After(states[|steps|], t)] && states'[|steps'|] == After(states[|steps|], t)
  {
    states', steps' := states + [After(states[|steps|], t)], steps + [t];
  }

  // ---- What the timer may end ------------------------------------------------------------------

  predicate QuietSince(s: State) { s.lastOpen.Some? ==> s.lastOpen.value + GRACE <= s.now }

  /** One firing up to where it is now: it fired at f, asked at i whether a socket is
      open and at j whether any opened, and judged at k; indexes of what it has not
      done yet are not meant. */
  predicate Firing(states: seq<State>, steps: seq<Step>, n: nat, c: Id, f: nat, i: nat, j: nat, k: nat)
    requires n <= |steps| < |states| && c in states[n].callbacks
  {
    var phase := states[n].callbacks[c].phase;
    && f < n && steps[f] == Fire(c) && (forall m | f < m < n :: steps[m] != Fire(c))
    && (!phase.Fresh? ==> f < i < n && steps[i] == AskOpen(c) && states[i].sockets == 0)
    && (!phase.Fresh? && !phase.SawClosed? ==> i < j < n && steps[j] == AskOpens(c) && QuietSince(states[j]))
    && (phase.Ending? ==> j < k < n && steps[k] == Judge(c) && Live(states[k], phase.share))
  }

  lemma CallbackStep(s: State, t: Step, c: Id)
    requires Enabled(s, t) && Clocks(s) && c in After(s, t).callbacks
    ensures t == Fire(c) ==> After(s, t).callbacks[c].phase.Fresh?
    ensures t != Fire(c) ==>
      && c in s.callbacks
      && var before, after := s.callbacks[c].phase, After(s, t).callbacks[c].phase;
         && (t == AskOpen(c) ==> before.Fresh? && after.SawClosed? && s.sockets == 0)
         && (t == AskOpens(c) ==> before.SawClosed? && after.Quiet? && QuietSince(s))
         && (t == AskCurrent(c) ==> before.Quiet? && after.Holding?)
         && (t == Judge(c) ==> before.Holding? && after.Ending? && Live(s, after.share))
         && (t !in {AskOpen(c), AskOpens(c), AskCurrent(c), Judge(c)} ==> after == before)
  {}

  lemma {:induction false} Asked(states: seq<State>, steps: seq<Step>, n: nat, c: Id) returns (f: nat, i: nat, j: nat, k: nat)
    requires Run(states, steps) && n <= |steps| && c in states[n].callbacks
    ensures Firing(states, steps, n, c, f, i, j, k)
  {
    hide After, Enabled, Clocks, Shares, Live, QuietSince;
    if n > 0 {
      var s, t := states[n - 1], steps[n - 1];
      ClocksRun(states, steps, n - 1);
      CallbackStep(s, t, c);
      if t == Fire(c) {
        f, i, j, k := n - 1, n, n, n;
      } else {
        f, i, j, k := Asked(states, steps, n - 1, c);
        if t == AskOpen(c) { i := n - 1; }
        if t == AskOpens(c) { j := n - 1; }
        if t == Judge(c) { k := n - 1; }
      }
    }
  }

  /** The timer ends a share only after one firing asked in order, and found no socket
      open, none opened for 30 s, and the share started for 30 s. */
  lemma EndsOnlyAfterGrace(states: seq<State>, steps: seq<Step>, n: nat, c: Id) returns (f: nat, i: nat, j: nat, k: nat)
    requires Run(states, steps) && n < |steps| && steps[n] == End(c)
    ensures c in states[n].callbacks && states[n].callbacks[c].phase.Ending?
    ensures f < i < j < k < n && forall m | f < m < n :: steps[m] != Fire(c)
    ensures steps[f] == Fire(c) && steps[i] == AskOpen(c) && steps[j] == AskOpens(c) && steps[k] == Judge(c)
    ensures states[i].sockets == 0 && QuietSince(states[j]) && Live(states[k], states[n].callbacks[c].phase.share)
  {
    hide After, Live;
    assert Enabled(states[n], steps[n]);
    f, i, j, k := Asked(states, steps, n, c);
  }

  /** Sockets counted and closed in steps [from, to). */
  function Counted(steps: seq<Step>, t: Step, from: nat, to: nat): nat
    requires from <= to <= |steps|
  {
    if to == from then 0 else Counted(steps, t, from, to - 1) + if steps[to - 1] == t then 1 else 0
  }

  lemma SocketStep(s: State, t: Step)
    requires Enabled(s, t)
    ensures After(s, t).sockets + (if t == CloseSocket then 1 else 0) == s.sockets + if t == CountSocket then 1 else 0
  {}

  lemma {:induction false} SocketsBalance(states: seq<State>, steps: seq<Step>, i: nat, n: nat)
    requires Run(states, steps) && i <= n <= |steps|
    ensures states[n].sockets + Counted(steps, CloseSocket, i, n) == states[i].sockets + Counted(steps, CountSocket, i, n)
  {
    hide After, Enabled;
    if i < n {
      SocketsBalance(states, steps, i, n - 1);
      SocketStep(states[n - 1], steps[n - 1]);
    }
  }

  lemma OpeningStep(s: State, t: Step)
    requires Enabled(s, t)
    ensures s.now <= After(s, t).now
    ensures After(s, t).lastOpen == if t == CountOpen then Some(s.now) else s.lastOpen
  {}

  lemma {:induction false} LastOpening(states: seq<State>, steps: seq<Step>, j: nat, n: nat)
    requires Run(states, steps) && j <= n <= |steps|
    ensures states[j].now <= states[n].now
    ensures states[n].lastOpen == states[j].lastOpen
         || exists m :: j <= m < n && steps[m] == CountOpen && states[n].lastOpen == Some(states[m].now)
    ensures forall m | j <= m < n && steps[m] == CountOpen :: states[n].lastOpen.Some? && states[m].now <= states[n].lastOpen.value
    ensures forall m | j <= m < n :: states[m].now <= states[n].now
  {
    hide After, Enabled;
    if j < n {
      LastOpening(states, steps, j, n - 1);
      OpeningStep(states[n - 1], steps[n - 1]);
    }
  }

  /** What holds when the share ends, exactly: no socket is open if and only if every
      one counted since the first question has closed again; none has opened for a
      grace if and only if none did since the second question within the last 30 s. */
  lemma AtTheEndExactly(states: seq<State>, steps: seq<Step>, i: nat, j: nat, n: nat)
    requires Run(states, steps) && i <= j <= n <= |steps| && states[i].sockets == 0 && QuietSince(states[j])
    ensures states[n].sockets == 0 <==> Counted(steps, CountSocket, i, n) == Counted(steps, CloseSocket, i, n)
    ensures QuietSince(states[n]) <==>
      forall m | j <= m < n && steps[m] == CountOpen :: states[m].now + GRACE <= states[n].now
  {
    SocketsBalance(states, steps, i, n);
    LastOpening(states, steps, j, n);
  }

  lemma {:induction false} NoneCounted(steps: seq<Step>, t: Step, from: nat, to: nat)
    requires from <= to <= |steps| && forall m | from <= m < to :: steps[m] != t
    ensures Counted(steps, t, from, to) == 0
  {
    if from < to { NoneCounted(steps, t, from, to - 1); }
  }

  /** A firing during which no socket opens ends its share in silence. */
  lemma EndsInSilence(states: seq<State>, steps: seq<Step>, n: nat, c: Id) returns (i: nat)
    requires Run(states, steps) && n < |steps| && steps[n] == End(c)
    ensures i < n && steps[i] == AskOpen(c) && forall m | i < m < n :: steps[m] != Fire(c)
    ensures (forall m | i < m < n :: !steps[m].CountOpen? && !steps[m].CountSocket?) ==> states[n].sockets == 0 && QuietSince(states[n])
  {
    hide After, Enabled, Live;
    var f, j, k;
    f, i, j, k := EndsOnlyAfterGrace(states, steps, n, c);
    if forall m | i < m < n :: !steps[m].CountOpen? && !steps[m].CountSocket? {
      NoneCounted(steps, CountSocket, i, n);
      SocketsBalance(states, steps, i, n);
      AtTheEndExactly(states, steps, i, j, n);
    }
  }

  // ---- Where it fails ------------------------------------------------------------------------

  function Shared(now: int, stage: Stage, timer: Option<Timer>): State {
    State(now, 0, 0, 0, None, 0, timer, map[], map[0 := Share(stage, 0, false)], Some(0))
  }

  /** A share armed a full grace at its start, and 30 s later. */
  lemma Armed30(quick: int, prompt: bool) returns (states: seq<State>, steps: seq<Step>)
    requires prompt ==> quick > 0
    ensures PromptRun(quick, states, steps) && |states| == |steps| + 1
    ensures states[|steps|] == Shared(GRACE, if prompt then Started else Checked(0), Some(Timer(0, 0)))
  {
    hide PromptRun;
    states, steps := CheckedAtOnce(quick);
    if prompt {
      states, steps := Grow(quick, states, steps, Finish(0));
    }
    states, steps := Grow(quick, states, steps, Wait(GRACE));
  }

  lemma StartsRun(quick: int)
    ensures PromptRun(quick, [START], [])
  {}

  lemma StampedAtOnce(quick: int) returns (states: seq<State>, steps: seq<Step>)
    ensures PromptRun(quick, states, steps) && |states| == |steps| + 1
    ensures states[|steps|] == Shared(0, Stamped, None)
  {
    hide PromptRun;
    StartsRun(quick);
    states, steps := Grow(quick, [START], [], Begin(0));
    assert states[|steps|] == Shared(0, Picking, None);
    states, steps := Grow(quick, states, steps, Stamp(0));
  }

  lemma CheckedAtOnce(quick: int) returns (states: seq<State>, steps: seq<Step>)
    ensures PromptRun(quick, states, steps) && |states| == |steps| + 1
    ensures states[|steps|] == Shared(0, Checked(0), Some(Timer(0, 0)))
  {
    hide PromptRun;
    states, steps := StampedAtOnce(quick);
    states, steps := Grow(quick, states, steps, Check(0));
    assert states[|steps|] == Shared(0, WillArm, None);
    states, steps := Grow(quick, states, steps, Rearm(0));
  }

  /** An undisturbed firing over one share: its first two questions, and all of them. */
  lemma AskSockets(quick: int, before: seq<State>, earlier: seq<Step>, stage: Stage) returns (states: seq<State>, steps: seq<Step>)
    requires PromptRun(quick, before, earlier) && |before| == |earlier| + 1 && (stage == Started || stage == Checked(0))
    requires before[|earlier|] == Shared(GRACE, stage, Some(Timer(0, 0)))
    ensures PromptRun(quick, states, steps) && |states| == |steps| + 1
    ensures states[|steps|] == Shared(GRACE, stage, None).(callbacks := map[1 := Callback(0, 0, Quiet)])
  {
    hide PromptRun;
    var idle, c := Shared(GRACE, stage, None), Callback(0, 0, Fresh);
    states, steps := Grow(quick, before, earlier, Fire(1));
    assert states[|steps|] == idle.(callbacks := map[1 := c]);
    states, steps := Grow(quick, states, steps, AskOpen(1));
    assert states[|steps|] == idle.(callbacks := map[1 := c.(phase := SawClosed)]);
    states, steps := Grow(quick, states, steps, AskOpens(1));
  }

  lemma AskAll(quick: int, before: seq<State>, earlier: seq<Step>, stage: Stage) returns (states: seq<State>, steps: seq<Step>)
    requires PromptRun(quick, before, earlier) && |before| == |earlier| + 1 && (stage == Started || stage == Checked(0))
    requires before[|earlier|] == Shared(GRACE, stage, Some(Timer(0, 0)))
    ensures PromptRun(quick, states, steps) && |states| == |steps| + 1
    ensures states[|steps|] == Shared(GRACE, stage, None).(callbacks := if stage == Started then map[1 := Callback(0, 0, Ending(0))] else map[])
  {
    hide PromptRun;
    var idle, c := Shared(GRACE, stage, None), Callback(0, 0, Fresh);
    states, steps := AskSockets(quick, before, earlier, stage);
    states, steps := Grow(quick, states, steps, AskCurrent(1));
    assert states[|steps|] == idle.(callbacks := map[1 := c.(phase := Holding(0))]);
    states, steps := Grow(quick, states, steps, Judge(1));
  }

  /** The questions are not asked under one lock: a run in which a socket opens after
      them and the share ends all the same, with a socket open. */
  lemma LateOpeningIsNotSeen(quick: int) returns (states: seq<State>, steps: seq<Step>, n: nat)
    requires quick > 0
    ensures PromptRun(quick, states, steps) && |states| == |steps| + 1 && n < |steps| && steps[n] == End(1)
    ensures states[n].sockets > 0 && !QuietSince(states[n])
    ensures 0 in states[n].shares && !states[n].shares[0].closed
    ensures 0 in states[n + 1].shares && states[n + 1].shares[0].closed
  {
    hide PromptRun;
    states, steps := Armed30(quick, true);
    states, steps := AskAll(quick, states, steps, Started);
    states, steps := Grow(quick, states, steps, CountOpen);
    states, steps := Grow(quick, states, steps, CountSocket);
    n := |steps|;
    states, steps := Grow(quick, states, steps, End(1));
  }

  /** Why the last lines of a start must be quick: in this run the timer fires before
      the share counts as started and lets it go, and nothing watches the share then. */
  lemma SlowStartIsForgotten(quick: int) returns (states: seq<State>, steps: seq<Step>)
    requires quick > GRACE
    ensures PromptRun(quick, states, steps) && |states| == |steps| + 1 && !NoneForgotten(states[|steps|])
    ensures states[|steps|] == Shared(GRACE, Started, None)
  {
    hide PromptRun;
    states, steps := Armed30(quick, false);
    states, steps := AskAll(quick, states, steps, Checked(0));
    states, steps := Grow(quick, states, steps, Finish(0));
    assert 0 in states[|steps|].shares && !Guarded(states[|steps|], 0);
  }

  /** It is watched again once a socket has closed: every noticed close guards every
      share that streams, forgotten or not. */
  lemma NoticeGuardsAgain(states: seq<State>, steps: seq<Step>, i: nat)
    requires Run(states, steps) && i < |steps| && steps[i] == Notice
    ensures NoneForgotten(states[i + 1])
  {
    ClocksRun(states, steps, i);
  }
}
