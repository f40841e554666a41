/** When a cancelled upload stays cancelled. */
module CancelledUploads {
  import opened Options
  import opened AttachmentProtocol
  import opened AttachmentInvariant
  import opened AttachmentTheorems

  /** S3 still makes the object for this finalizer, or it already holds one. */
  predicate StillStores(cfg: Config, c: Cell, now: nat, f: Proc, list: seq<Listed>)
    requires f.Fin?
  {
    now <= f.began + cfg.work && (Assemblable(c, f.mp, list) || RightSize(c))
  }

  /** The finalizer's own cancel is still to come, whichever way it goes on. */
  ghost predicate MayWithdraw(cfg: Config, c: Cell, now: nat, f: Proc)
    requires f.Fin? && HasUpload(c)
  {
    match f.phase
    case Listing => StillStores(cfg, c, now, f, InOrder(c.row.value.upload.value.parts))
    case Storing(list) => StillStores(cfg, c, now, f, list)
    case _ => true
  }

  /** A request that may still turn a cancelled upload into a rejected one: of an
      infected file, a cancel that saw it before it was tombstoned, or the holder of its
      token on the way to its own cancel; of another, a scan of the whole object under a
      live lease. */
  ghost predicate Turns(cfg: Config, c: Cell, now: nat, p: Pid) {
    && HasUpload(c) && p in c.procs
    && var u, infected := c.row.value.upload.value, c.row.value.scan == Infected;
       match c.procs[p]
       case CancelRead(_) => infected
       case Cancelling(_) => infected && u.token == Some(p)
       case Fin(_, _, phase) =>
         u.token == Some(p) && (if infected then MayWithdraw(cfg, c, now, c.procs[p]) else phase.Scanning? && u.until > now && RightSize(c))
       case _ => false
  }

  /** The stale-upload worker picks a cancelled upload as long as its parts may remain. */
  ghost predicate Rejectable(cfg: Config, c: Cell, now: nat) {
    HasUpload(c) && ((c.row.value.scan == Infected && c.row.value.upload.value.multipart.Some?) || exists p :: Turns(cfg, c, now, p))
  }

  ghost predicate StaysCancelled(cfg: Config, c: Cell, now: nat) {
    c.born && (c.row.Some? ==> HasUpload(c) && State(c) == Cancelled && !Rejectable(cfg, c, now))
  }

  /** A cancelled upload that no request of `p` may still turn. */
  ghost predicate Settled(cfg: Config, c: Cell, now: nat, p: Pid) {
    && c.born && HasUpload(c) && State(c) == Cancelled && c.row.value.deleted && !c.row.value.message
    && !(c.row.value.scan == Infected && c.row.value.upload.value.multipart.Some?) && !Turns(cfg, c, now, p)
    && (p in c.procs ==> !c.procs[p].Legacy?)
    && (Armed(cfg, c, now, p) ==> c.row.value.upload.value.token == Some(p))
  }

  predicate Fewer(a: map<nat, map<nat, Bytes>>, b: map<nat, map<nat, Bytes>>) { forall m | m in b :: m in a && b[m] == a[m] }

  /** Still cancelled or gone, with the same verdict and no new lease, the other requests
      where they were, and nothing new in S3 but by the lease's own holder. */
  ghost predicate Calm(cfg: Config, c: Cell, now: nat, d: Cell, p: Pid)
    requires HasUpload(c)
  {
    && d.born
    && (d.row.Some? ==>
          && HasUpload(d) && State(d) == Cancelled
          && (var r, s, u, v := c.row.value, d.row.value, c.row.value.upload.value, d.row.value.upload.value;
              && s.scan == r.scan && s.size == r.size && v.parts == u.parts && v.until == u.until
              && (v.token.Some? ==> v.token == u.token) && (v.multipart.Some? ==> v.multipart == u.multipart)
              && (u.token == Some(p) || ((d.blob == c.blob || d.blob.None?) && Fewer(c.multiparts, d.multiparts))))
          && (forall q | q != p && q in d.procs :: q in c.procs && d.procs[q] == c.procs[q])
          && !Turns(cfg, d, now, p))
  }

  lemma SettledCell(cfg: Config, c: Cell, now: nat, p: Pid)
    requires Inv(cfg, c, now) && StaysCancelled(cfg, c, now) && c.row.Some?
    ensures Settled(cfg, c, now, p)
  {
    hide Tiled, Stored, InOrder, PartsStored, MayWithdraw;
    if p in c.procs { assert ProcOk(cfg, c, now, p); }
  }

  lemma CalmUpload(cfg: Config, c: Cell, now: nat, p: Pid, op: Op)
    requires Settled(cfg, c, now, p) && UploadOp(op)
    ensures Calm(cfg, c, now, Apply(cfg, now, c, p, op), p)
  {
    hide Advances, Usable, InOrder, Harmless, Join, Completable;
  }

  lemma CalmRead(cfg: Config, c: Cell, now: nat, p: Pid, op: Op)
    requires Settled(cfg, c, now, p) && op.ReadCancel?
    ensures Calm(cfg, c, now, Apply(cfg, now, c, p, op), p)
  {
    hide Advances, Usable, InOrder, Harmless, Join, JudgeChunk, Completable;
  }

  lemma CalmWithdraw(cfg: Config, c: Cell, now: nat, p: Pid, op: Op)
    requires Settled(cfg, c, now, p) && op.CancelUpload?
    ensures Calm(cfg, c, now, Apply(cfg, now, c, p, op), p)
  {
    hide Advances, Usable, InOrder, Harmless, Join, JudgeChunk, Completable;
  }

  lemma DoFencedIsCalm(cfg: Config, c: Cell, now: nat, p: Pid)
    requires Settled(cfg, c, now, p)
    ensures Calm(cfg, c, now, DoFencedCancel(c, p), p)
  {
    hide Advances, Usable, InOrder, Harmless, Join, MayWithdraw;
  }

  lemma CalmFenced(cfg: Config, c: Cell, now: nat, p: Pid, op: Op)
    requires Settled(cfg, c, now, p) && op.FencedCancel?
    ensures Calm(cfg, c, now, Apply(cfg, now, c, p, op), p)
  {
    hide Advances, Usable, Settled, Calm, DoFencedCancel;
    DoFencedIsCalm(cfg, c, now, p);
  }

  lemma SweepingIsDone(cfg: Config, d: Cell, now: nat, p: Pid)
    requires p in d.procs && d.procs[p].Sweeping?
    ensures !Turns(cfg, d, now, p)
  {
    hide MayWithdraw;
  }

  lemma DoAbortIsCalm(cfg: Config, c: Cell, now: nat, p: Pid, effect: bool, reported: bool)
    requires Settled(cfg, c, now, p)
    ensures Calm(cfg, c, now, DoAbort(c, p, effect, reported), p)
  {
    hide Advances, Usable, Turns;
    if p in c.procs && c.procs[p].Aborting? { SweepingIsDone(cfg, DoAbort(c, p, effect, reported), now, p); }
  }

  lemma CalmAbort(cfg: Config, c: Cell, now: nat, p: Pid, op: Op)
    requires Settled(cfg, c, now, p) && op.Abort?
    ensures Calm(cfg, c, now, Apply(cfg, now, c, p, op), p)
  {
    hide Advances, Usable, Settled, Calm, DoAbort;
    DoAbortIsCalm(cfg, c, now, p, op.effect, op.reported);
  }

  lemma DoSweepIsCalm(cfg: Config, c: Cell, now: nat, p: Pid, effect: bool)
    requires Settled(cfg, c, now, p)
    ensures Calm(cfg, c, now, DoSweepObject(c, p, effect), p)
  {
    hide Advances, Usable, InOrder, Harmless, Join, MayWithdraw;
  }

  lemma CalmSweep(cfg: Config, c: Cell, now: nat, p: Pid, op: Op)
    requires Settled(cfg, c, now, p) && op.SweepObject?
    ensures Calm(cfg, c, now, Apply(cfg, now, c, p, op), p)
  {
    hide Advances, Usable, Settled, Calm, DoSweepObject;
    DoSweepIsCalm(cfg, c, now, p, op.effect);
  }

  lemma DoAssemblyIsCalm(cfg: Config, c: Cell, now: nat, p: Pid, op: Op)
    requires Settled(cfg, c, now, p) && op.CompleteMultipart?
    ensures Calm(cfg, c, now, DoCompleteMultipart(cfg, c, now, p, op), p)
  {
    hide Advances, Usable, InOrder, Harmless, Join;
  }

  lemma CalmAssembly(cfg: Config, c: Cell, now: nat, p: Pid, op: Op)
    requires Settled(cfg, c, now, p) && op.CompleteMultipart?
    ensures Calm(cfg, c, now, Apply(cfg, now, c, p, op), p)
  {
    hide Advances, Usable, Settled, Calm, DoCompleteMultipart;
    DoAssemblyIsCalm(cfg, c, now, p, op);
  }

  lemma CalmListing(cfg: Config, c: Cell, now: nat, p: Pid, op: Op)
    requires Settled(cfg, c, now, p) && op.ListParts?
    ensures Calm(cfg, c, now, Apply(cfg, now, c, p, op), p)
  {
    hide Advances, Usable, InOrder, Harmless, Join, JudgeChunk, Completable;
  }

  lemma CalmMarking(cfg: Config, c: Cell, now: nat, p: Pid, op: Op)
    requires Settled(cfg, c, now, p) && op.MarkAssembled?
    ensures Calm(cfg, c, now, Apply(cfg, now, c, p, op), p)
  {
    hide Advances, Usable, InOrder, Harmless, Join, JudgeChunk, Completable;
  }

  lemma SettledFinish(cfg: Config, c: Cell, now: nat, p: Pid)
    requires Settled(cfg, c, now, p)
    ensures Calm(cfg, c, now, Finish(c, p), p)
  {
    hide Advances, Usable, InOrder, Harmless, MayWithdraw;
  }

  /** No verdict of this scan is recorded, and no cancel under the token follows. */
  lemma SettledMove(cfg: Config, c: Cell, now: nat, p: Pid, proc: Proc)
    requires Settled(cfg, c, now, p) && p in c.procs && c.procs[p].Fin? && c.procs[p].phase.Scanning?
    requires proc.Cancelling? || (proc.Fin? && proc.phase.Completing?)
    ensures Calm(cfg, c, now, Move(c, p, proc), p)
  {
    hide Advances, Usable, InOrder, Harmless;
  }

  lemma SettledVerdict(cfg: Config, c: Cell, now: nat, p: Pid, verdict: Verdict)
    requires Settled(cfg, c, now, p) && p in c.procs && c.procs[p].Fin? && c.procs[p].phase.Scanning? && RightSize(c)
    ensures HasUpload(c) && (Fenced(c.row.value.upload.value, p, now) ==> RecordVerdict(c, verdict) == c)
  {
    hide Advances, Usable, InOrder, Harmless;
  }

  lemma CalmScan(cfg: Config, c: Cell, now: nat, p: Pid, op: Op)
    requires Settled(cfg, c, now, p) && op.ScanObject?
    ensures Calm(cfg, c, now, Apply(cfg, now, c, p, op), p)
  {
    hide Advances, Usable, Harmless, Turns, RecordVerdict, Finish;
    if p in c.procs && c.procs[p].Fin? && c.procs[p].phase.Scanning? {
      SettledFinish(cfg, c, now, p);
      if RightSize(c) {
        SettledVerdict(cfg, c, now, p, op.verdict);
        SettledMove(cfg, c, now, p, Cancelling(c.procs[p].mp));
        SettledMove(cfg, c, now, p, c.procs[p].(phase := Completing));
      }
    }
  }

  lemma CalmSkip(cfg: Config, c: Cell, now: nat, p: Pid, op: Op)
    requires Settled(cfg, c, now, p) && op.SkipScan?
    ensures Calm(cfg, c, now, Apply(cfg, now, c, p, op), p)
  {
    hide Advances, Usable, InOrder, Harmless, Join, JudgeChunk, Completable;
  }

  lemma DoCompletionIsCalm(cfg: Config, c: Cell, now: nat, p: Pid, permitted: bool)
    requires Settled(cfg, c, now, p)
    ensures Calm(cfg, c, now, DoCompleteUpload(c, now, p, permitted), p)
  {
    hide Advances, Usable, InOrder, Harmless, Join;
  }

  lemma CalmCompletion(cfg: Config, c: Cell, now: nat, p: Pid, op: Op)
    requires Settled(cfg, c, now, p) && op.CompleteUpload?
    ensures Calm(cfg, c, now, Apply(cfg, now, c, p, op), p)
  {
    hide Advances, Usable, Settled, Calm, DoCompleteUpload;
    DoCompletionIsCalm(cfg, c, now, p, op.permitted);
  }

  lemma CalmLegacy(cfg: Config, c: Cell, now: nat, p: Pid, op: Op)
    requires Settled(cfg, c, now, p) && LegacyOp(op)
    ensures Calm(cfg, c, now, Apply(cfg, now, c, p, op), p)
  {
    hide Advances, Usable, InOrder, Harmless, Join, JudgeChunk, Completable;
  }

  lemma CalmSelect(cfg: Config, c: Cell, now: nat, p: Pid, op: Op)
    requires Settled(cfg, c, now, p) && op.CleanSelect?
    ensures Calm(cfg, c, now, Apply(cfg, now, c, p, op), p)
  {
    hide Advances, Usable, InOrder, Harmless, Join, JudgeChunk, Completable;
  }

  lemma CalmClean(cfg: Config, c: Cell, now: nat, p: Pid, op: Op)
    requires Settled(cfg, c, now, p) && (op.CleanDelete? || op.CleanCommit?)
    ensures Calm(cfg, c, now, Apply(cfg, now, c, p, op), p)
  {
    hide Advances, Usable, InOrder, Harmless, Join, JudgeChunk, Completable;
  }

  lemma CalmEnd(cfg: Config, c: Cell, now: nat, p: Pid, op: Op)
    requires Settled(cfg, c, now, p) && (op.End? || op.Crash?)
    ensures Calm(cfg, c, now, Apply(cfg, now, c, p, op), p)
  {
    hide Advances, Usable, InOrder, Harmless, Join, JudgeChunk, Completable;
  }

  lemma CalmPending(cfg: Config, c: Cell, now: nat, p: Pid, op: Op)
    requires Settled(cfg, c, now, p) && (op.CancelPending? || op.LibraryDelete?)
    ensures Calm(cfg, c, now, Apply(cfg, now, c, p, op), p)
  {
    hide Advances, Usable, InOrder, Harmless, Join, JudgeChunk, Completable;
  }

  lemma CalmDelete(cfg: Config, c: Cell, now: nat, p: Pid, op: Op)
    requires Settled(cfg, c, now, p) && (op.DeleteObject? || op.RemoveRow?)
    ensures Calm(cfg, c, now, Apply(cfg, now, c, p, op), p)
  {
    hide Advances, Usable, InOrder, Harmless, Join, JudgeChunk, Completable;
  }

  lemma CalmClaim(cfg: Config, c: Cell, now: nat, p: Pid, op: Op)
    requires Settled(cfg, c, now, p) && (op.Claim? || op.RegisterAsset?)
    ensures Calm(cfg, c, now, Apply(cfg, now, c, p, op), p)
  {
    hide Advances, Usable, InOrder, Harmless, Join, JudgeChunk, Completable;
  }

  lemma DoSideIsCalm(cfg: Config, c: Cell, now: nat, p: Pid, op: Op)
    requires Settled(cfg, c, now, p)
    ensures Calm(cfg, c, now, DoEnvironment(c, op), p)
  {
    hide Advances, Usable, InOrder, Harmless, Join;
  }

  lemma CalmSide(cfg: Config, c: Cell, now: nat, p: Pid, op: Op)
    requires Settled(cfg, c, now, p) && SideOp(op) && !op.Claim? && !op.RegisterAsset?
    ensures Calm(cfg, c, now, Apply(cfg, now, c, p, op), p)
  {
    hide Advances, Usable, Settled, Calm, DoEnvironment;
    DoSideIsCalm(cfg, c, now, p, op);
  }

  /** What is settled for one request and calm for it is settled for every other. */
  lemma CalmForAll(cfg: Config, c: Cell, now: nat, d: Cell, p: Pid, q: Pid)
    requires HasUpload(c) && Calm(cfg, c, now, d, p) && d.row.Some? && !Turns(cfg, c, now, q)
    ensures !Turns(cfg, d, now, q)
  {
    hide InOrder;
  }

  lemma CancelledStep(cfg: Config, c: Cell, now: nat, p: Pid, op: Op)
    requires Safe(cfg) && Inv(cfg, c, now) && StaysCancelled(cfg, c, now)
    ensures StaysCancelled(cfg, Apply(cfg, now, c, p, op), now)
  {
    hide Inv, Apply, Settled, Turns;
    var d := Apply(cfg, now, c, p, op);
    assert Advances(c, d);
    if c.row.Some? {
      SettledCell(cfg, c, now, p);
      if UploadOp(op) { CalmUpload(cfg, c, now, p, op); }
      else if op.ReadCancel? { CalmRead(cfg, c, now, p, op); }
      else if op.CancelUpload? { CalmWithdraw(cfg, c, now, p, op); }
      else if op.FencedCancel? { CalmFenced(cfg, c, now, p, op); }
      else if op.Abort? { CalmAbort(cfg, c, now, p, op); }
      else if op.SweepObject? { CalmSweep(cfg, c, now, p, op); }
      else if op.CompleteMultipart? { CalmAssembly(cfg, c, now, p, op); }
      else if op.ListParts? { CalmListing(cfg, c, now, p, op); }
      else if op.MarkAssembled? { CalmMarking(cfg, c, now, p, op); }
      else if op.ScanObject? { CalmScan(cfg, c, now, p, op); }
      else if op.SkipScan? { CalmSkip(cfg, c, now, p, op); }
      else if op.CompleteUpload? { CalmCompletion(cfg, c, now, p, op); }
      else if LegacyOp(op) { CalmLegacy(cfg, c, now, p, op); }
      else if op.CleanSelect? { CalmSelect(cfg, c, now, p, op); }
      else if op.CleanDelete? || op.CleanCommit? { CalmClean(cfg, c, now, p, op); }
      else if op.End? || op.Crash? { CalmEnd(cfg, c, now, p, op); }
      else if op.CancelPending? || op.LibraryDelete? { CalmPending(cfg, c, now, p, op); }
      else if op.DeleteObject? || op.RemoveRow? { CalmDelete(cfg, c, now, p, op); }
      else if op.Claim? || op.RegisterAsset? { CalmClaim(cfg, c, now, p, op); }
      else { CalmSide(cfg, c, now, p, op); }
      if d.row.Some? {
        forall q ensures !Turns(cfg, d, now, q) {
          CalmForAll(cfg, c, now, d, p, q);
        }
      }
    }
  }

  lemma CancelledWaits(cfg: Config, c: Cell, now: nat, later: nat)
    requires StaysCancelled(cfg, c, now) && now <= later
    ensures StaysCancelled(cfg, c, later)
  {
    hide InOrder;
    if c.row.Some? {
      forall q ensures !Turns(cfg, c, later, q) { assert !Turns(cfg, c, now, q); }
    }
  }

  lemma {:induction false} CancelledForGood(cfg: Config, w: World, later: seq<Event>, id: Id)
    requires Safe(cfg) && Reachable(cfg, w) && StaysCancelled(cfg, CellOf(w, id), w.now)
    ensures Reachable(cfg, Continue(cfg, w, later))
    ensures StaysCancelled(cfg, CellOf(Continue(cfg, w, later), id), Continue(cfg, w, later).now)
  {
    hide Inv, StaysCancelled, Reachable, Apply;
    if later != [] {
      var front, e := later[..|later| - 1], later[|later| - 1];
      CancelledForGood(cfg, w, front, id);
      var x := Continue(cfg, w, front);
      ReachNext(cfg, x, e);
      match e
      case Tick(seconds) => CancelledWaits(cfg, CellOf(x, id), x.now, x.now + seconds);
      case At(at, pid, op) =>
        if at == id {
          InvReachable(cfg, x, id);
          CancelledStep(cfg, CellOf(x, id), x.now, pid, op);
        }
    }
  }

  // ---- Where it may turn -------------------------------------------------------------------

  lemma {:induction false} FirstThen(cfg: Config, w: World, e: Event, later: seq<Event>)
    ensures Continue(cfg, w, [e] + later) == Continue(cfg, Next(cfg, w, e), later)
  {
    hide Next;
    if later == [] {
      assert [e] + later == [e] && [e][..0] == [] && Continue(cfg, w, []) == w;
    } else {
      FirstThen(cfg, w, e, later[..|later| - 1]);
      assert ([e] + later)[..|[e] + later| - 1] == [e] + later[..|later| - 1];
    }
  }

  lemma {:induction false} FreshPid(used: set<Pid>) returns (p: Pid)
    ensures p !in used && forall q | q in used :: q < p
  {
    if used == {} {
      p := 0;
    } else {
      var q :| q in used;
      p := FreshPid(used - {q});
      assert forall r | r in used :: r == q || r in used - {q};
      if p <= q { p := q + 1; }
    }
  }

  /** Still cancelled, infected, and on nobody's message. */
  predicate Doomed(c: Cell) {
    HasUpload(c) && State(c) == Cancelled && c.row.value.scan == Infected && !c.row.value.message && !c.row.value.asset && c.row.value.deleted
  }

  lemma CancelledIsLoose(cfg: Config, w: World, id: Id)
    requires Safe(cfg) && Reachable(cfg, w) && HasUpload(CellOf(w, id)) && State(CellOf(w, id)) == Cancelled
    ensures !CellOf(w, id).row.value.message && !CellOf(w, id).row.value.asset && CellOf(w, id).row.value.deleted && CellOf(w, id).born
    ensures var c := CellOf(w, id); c.lock.Some? ==> c.row.value.upload.value.until <= w.now && c.lock.value in c.procs && c.procs[c.lock.value].Cleaner?
  {
    InvReachable(cfg, w, id);
    var c := CellOf(w, id);
    if c.lock.Some? { assert ProcOk(cfg, c, w.now, c.lock.value); }
    hide Tiled, Stored, PartsStored, FinOk, DeleterOk, LegacyOk;
  }

  /** How many operations the request is away from its cancel. */
  function Away(c: Cell, p: Pid): nat {
    (if c.lock.Some? then 1 else 0) +
    (if p !in c.procs then 0
     else match c.procs[p]
       case Fin(_, _, Listing) => 4
       case Fin(_, _, Storing(_)) => 3
       case Fin(_, _, Marking) => 2
       case Fin(_, _, Scanning) => 3
       case Fin(_, _, Completing) => 2
       case _ => 1)
  }

  /** The next operation on that way. */
  function Onward(c: Cell, p: Pid): (Pid, Op)
    requires p in c.procs
  {
    if c.lock.Some? then (c.lock.value, Crash)
    else match c.procs[p]
      case Fin(_, _, Listing) => (p, ListParts)
      case Fin(_, _, Storing(_)) => (p, CompleteMultipart(true, true, true))
      case Fin(_, _, Marking) => (p, MarkAssembled(false))
      case Fin(_, _, Scanning) => (p, SkipScan)
      case Fin(_, _, Completing) => (p, CompleteUpload(false))
      case CancelRead(_) => (p, CancelUpload)
      case _ => (p, FencedCancel)
  }

  /** One step nearer, or there. */
  ghost predicate Nearer(cfg: Config, c: Cell, now: nat, d: Cell, p: Pid) {
    (HasUpload(d) && State(d) == Rejected) || (Doomed(d) && Turns(cfg, d, now, p) && Away(d, p) < Away(c, p))
  }

  lemma CrashNearer(cfg: Config, c: Cell, now: nat, p: Pid)
    requires Doomed(c) && Turns(cfg, c, now, p) && c.lock.Some? && c.lock.value in c.procs && c.procs[c.lock.value].Cleaner?
    ensures Nearer(cfg, c, now, Leave(c, c.lock.value), p)
  {
    hide InOrder;
  }

  lemma FinalizerNearer(cfg: Config, c: Cell, now: nat, p: Pid, op: Op)
    requires Doomed(c) && Turns(cfg, c, now, p) && c.lock.None? && c.procs[p].Fin? && Onward(c, p) == (p, op)
    ensures Nearer(cfg, c, now, Apply(cfg, now, c, p, op), p)
  {
    hide InOrder, Advances, Usable, Harmless, Join;
  }

  lemma CancelNearer(cfg: Config, c: Cell, now: nat, p: Pid, op: Op)
    requires Doomed(c) && Turns(cfg, c, now, p) && c.lock.None? && !c.procs[p].Fin? && Onward(c, p) == (p, op)
    ensures Nearer(cfg, c, now, Apply(cfg, now, c, p, op), p)
  {
    hide InOrder, Advances, Usable, Harmless, Join;
  }

  lemma {:induction false} TurnedByIt(cfg: Config, w: World, id: Id, p: Pid) returns (later: seq<Event>)
    requires Safe(cfg) && Reachable(cfg, w) && Doomed(CellOf(w, id)) && Turns(cfg, CellOf(w, id), w.now, p)
    ensures var d := CellOf(Continue(cfg, w, later), id); HasUpload(d) && State(d) == Rejected
    decreases Away(CellOf(w, id), p)
  {
    hide Reachable, Apply, Turns, Inv, Continue, Away, Doomed, Onward;
    var c := CellOf(w, id);
    InProcs(cfg, c, w.now, p);
    var (q, op) := Onward(c, p);
    var e := At(id, q, op);
    var x := Next(cfg, w, e);
    OnwardNearer(cfg, w, id, p);
    ReachNext(cfg, w, e);
    var d := CellOf(x, id);
    if HasUpload(d) && State(d) == Rejected {
      later := [e] + [];
      Nothing(cfg, x);
      FirstThen(cfg, w, e, []);
    } else {
      var rest := TurnedByIt(cfg, x, id, p);
      later := [e] + rest;
      FirstThen(cfg, w, e, rest);
    }
  }

  lemma Nothing(cfg: Config, w: World)
    ensures Continue(cfg, w, []) == w
  {}

  lemma OnwardNearer(cfg: Config, w: World, id: Id, p: Pid)
    requires Safe(cfg) && Reachable(cfg, w) && Doomed(CellOf(w, id)) && Turns(cfg, CellOf(w, id), w.now, p)
    ensures p in CellOf(w, id).procs
    ensures var c := CellOf(w, id); Nearer(cfg, c, w.now, Apply(cfg, w.now, c, Onward(c, p).0, Onward(c, p).1), p)
  {
    hide Reachable, Apply, Turns, Nearer, Inv;
    var c := CellOf(w, id);
    InProcs(cfg, c, w.now, p);
    CancelledIsLoose(cfg, w, id);
    if c.lock.Some? {
      CrashNearer(cfg, c, w.now, p);
      Crashes(cfg, c, w.now, c.lock.value);
    } else if c.procs[p].Fin? {
      FinalizerNearer(cfg, c, w.now, p, Onward(c, p).1);
    } else {
      CancelNearer(cfg, c, w.now, p, Onward(c, p).1);
    }
  }

  lemma Crashes(cfg: Config, c: Cell, now: nat, p: Pid)
    ensures Apply(cfg, now, c, p, Crash) == Leave(c, p)
  {}

  lemma InProcs(cfg: Config, c: Cell, now: nat, p: Pid)
    requires Turns(cfg, c, now, p)
    ensures p in c.procs
  {
    hide MayWithdraw;
  }

  /** While parts may remain, the stale-upload worker can pick the upload. */
  lemma WorkerPicks(cfg: Config, c: Cell, now: nat, p: Pid)
    requires Doomed(c) && c.row.value.upload.value.multipart.Some? && Fresh(c, p)
    ensures var d := Apply(cfg, now, c, p, ReadCancel(true)); Doomed(d) && Turns(cfg, d, now, p)
  {
    hide InOrder, Advances, Usable, Harmless, MayWithdraw;
  }

  /** An infected verdict under the lease, on the way to the cancel that follows it. */
  lemma ScanTurns(cfg: Config, c: Cell, now: nat, p: Pid)
    requires HasUpload(c) && State(c) == Cancelled && c.row.value.scan != Infected && Turns(cfg, c, now, p) && c.lock.None?
    requires !c.row.value.message && !c.row.value.asset && c.row.value.deleted
    ensures var d := Apply(cfg, now, c, p, ScanObject(VerdictInfected)); Doomed(d) && Turns(cfg, d, now, p)
  {
    hide InOrder, Advances, Usable, Harmless, MayWithdraw;
  }

  lemma LiveIsUnlocked(cfg: Config, c: Cell, now: nat, p: Pid)
    requires HasUpload(c) && c.row.value.scan != Infected && Turns(cfg, c, now, p)
    ensures c.row.value.upload.value.until > now
  {
    hide MayWithdraw;
  }

  lemma RejectableTurns(cfg: Config, w: World, id: Id) returns (later: seq<Event>)
    requires Safe(cfg) && Reachable(cfg, w) && HasUpload(CellOf(w, id)) && State(CellOf(w, id)) == Cancelled
    requires Rejectable(cfg, CellOf(w, id), w.now)
    ensures var d := CellOf(Continue(cfg, w, later), id); HasUpload(d) && State(d) == Rejected
  {
    hide Reachable, Apply, Turns, Inv, Continue;
    var c := CellOf(w, id);
    CancelledIsLoose(cfg, w, id);
    var e, p;
    if c.row.value.scan == Infected && c.row.value.upload.value.multipart.Some? {
      p := FreshPid(c.used);
      e := At(id, p, ReadCancel(true));
      WorkerPicks(cfg, c, w.now, p);
    } else {
      p :| Turns(cfg, c, w.now, p);
      if c.row.value.scan == Infected {
        later := TurnedByIt(cfg, w, id, p);
        return;
      }
      LiveIsUnlocked(cfg, c, w.now, p);
      e := At(id, p, ScanObject(VerdictInfected));
      ScanTurns(cfg, c, w.now, p);
    }
    ReachNext(cfg, w, e);
    var rest := TurnedByIt(cfg, Next(cfg, w, e), id, p);
    later := [e] + rest;
    FirstThen(cfg, w, e, rest);
  }

  /** Exactly when a cancelled upload may still become rejected: its file is known to be
      infected and some cancel is still to come (a request that saw it before, the
      finalizer that holds its token, or the stale-upload worker while parts may remain),
      or a finalizer under its live lease is still scanning the whole object. Otherwise it
      stays cancelled for as long as its row exists. */
  lemma CancelledStaysExactly(cfg: Config, w: World, id: Id)
    requires Safe(cfg) && Reachable(cfg, w) && HasUpload(CellOf(w, id)) && State(CellOf(w, id)) == Cancelled
    ensures (forall later :: var d := CellOf(Continue(cfg, w, later), id); d.row.Some? ==> HasUpload(d) && State(d) == Cancelled)
       <==> !Rejectable(cfg, CellOf(w, id), w.now)
  {
    hide Reachable, Inv, Continue, Rejectable;
    var c := CellOf(w, id);
    CancelledIsLoose(cfg, w, id);
    if !Rejectable(cfg, c, w.now) {
      forall later ensures var d := CellOf(Continue(cfg, w, later), id); d.row.Some? ==> HasUpload(d) && State(d) == Cancelled {
        CancelledForGood(cfg, w, later, id);
      }
    } else {
      var later := RejectableTurns(cfg, w, id);
    }
  }
}
