/** What holds of attachments over whole runs: any number of attachments, any
    interleaving of requests, workers, crashes and the clock. */
module AttachmentTheorems {
  import opened Options
  import opened AttachmentProtocol
  import opened AttachmentInvariant

  type Id = nat

  datatype World = World(now: nat, cells: map<Id, Cell>)
  datatype Event = Tick(seconds: nat) | At(id: Id, pid: Pid, op: Op)

  const START := World(0, map[])

  function CellOf(w: World, id: Id): Cell { if id in w.cells then w.cells[id] else UNBORN }

  ghost function Next(cfg: Config, w: World, e: Event): World {
    match e
    case Tick(seconds) => w.(now := w.now + seconds)
    case At(id, pid, op) => w.(cells := w.cells[id := Apply(cfg, w.now, CellOf(w, id), pid, op)])
  }

  ghost function Run(cfg: Config, events: seq<Event>): World {
    if events == [] then START else Next(cfg, Run(cfg, events[..|events| - 1]), events[|events| - 1])
  }

  ghost predicate Reachable(cfg: Config, w: World) { exists events :: Run(cfg, events) == w }

  lemma ReachStart(cfg: Config)
    ensures Reachable(cfg, START)
  {
    assert Run(cfg, []) == START;
  }

  lemma ReachNext(cfg: Config, w: World, e: Event)
    requires Reachable(cfg, w)
    ensures Reachable(cfg, Next(cfg, w, e))
  {
    var events :| Run(cfg, events) == w;
    assert (events + [e])[..|events + [e]| - 1] == events;
    assert Run(cfg, events + [e]) == Next(cfg, w, e);
  }

  // ---- The invariant over runs ----------------------------------------------

  predicate SideOp(op: Op) {
    op.Claim? || op.RegisterAsset? || op.DeleteAsset? || op.DeleteMessage? || op.DeleteAccount? || op.DeleteRoom? || op.Retire?
  }

  predicate WorkerOp(op: Op) { op.CleanSelect? || op.CleanDelete? || op.CleanCommit? || op.End? || op.Crash? }

  predicate DeleterOp(op: Op) { op.CancelPending? || op.LibraryDelete? || op.DeleteObject? || op.RemoveRow? }

  predicate FinalizerOp(op: Op) {
    op.ListParts? || op.CompleteMultipart? || op.MarkAssembled? || op.ScanObject? || op.SkipScan? || op.CompleteUpload?
  }

  predicate UploadOp(op: Op) { op.StartResumable? || op.BeginMultipart? || op.StoreChunk? || op.ReadUpload? || op.TakeLease? }

  predicate CancelOp(op: Op) { op.FencedCancel? || op.ReadCancel? || op.CancelUpload? || op.Abort? || op.SweepObject? }

  predicate LegacyOp(op: Op) { op.LegacySave? || op.LegacyScan? || op.LegacyPut? || op.LegacyComplete? || op.LegacyDiscard? }

  lemma InvLegacyStep(cfg: Config, c: Cell, now: nat, p: Pid, op: Op)
    requires Safe(cfg) && Inv(cfg, c, now) && LegacyOp(op)
    ensures Inv(cfg, Apply(cfg, now, c, p, op), now)
  {
    hide Inv, Advances, Usable;
    match op
    case LegacySave(size, scanned) => InvLegacySave(cfg, c, now, p, size, scanned);
    case LegacyScan(verdict) => InvLegacyScan(cfg, c, now, p, verdict);
    case LegacyPut(_, _, _) => InvLegacyPut(cfg, c, now, p, op);
    case LegacyComplete(permitted) => InvLegacyComplete(cfg, c, now, p, permitted);
    case LegacyDiscard(ran) => InvLegacyDiscard(cfg, c, now, p, ran);
  }

  lemma InvSideStep(cfg: Config, c: Cell, now: nat, p: Pid, op: Op)
    requires Safe(cfg) && Inv(cfg, c, now) && SideOp(op)
    ensures Inv(cfg, Apply(cfg, now, c, p, op), now)
  {
    hide Inv, Advances, Usable, DoClaim, DoRegisterAsset, DoEnvironment, Harmless, JudgeChunk, Completable;
    InvClaim(cfg, c, now);
    InvAsset(cfg, c, now);
    InvEnvironment(cfg, c, now, op);
  }

  lemma InvWorkerStep(cfg: Config, c: Cell, now: nat, p: Pid, op: Op)
    requires Safe(cfg) && Inv(cfg, c, now) && WorkerOp(op)
    ensures Inv(cfg, Apply(cfg, now, c, p, op), now)
  {
    hide Inv, Advances, Usable, DoCleanSelect, DoCleanDelete, DoCleanCommit, Finish, Leave;
    match op
    case CleanSelect => InvCleanSelect(cfg, c, now, p);
    case CleanDelete(effect, reported) => InvCleanDelete(cfg, c, now, p, effect, reported);
    case CleanCommit => InvCleanCommit(cfg, c, now, p);
    case End => InvFinish(cfg, c, now, p);
    case Crash => InvLeave(cfg, c, now, p);
  }

  lemma InvDeleterStep(cfg: Config, c: Cell, now: nat, p: Pid, op: Op)
    requires Safe(cfg) && Inv(cfg, c, now) && DeleterOp(op)
    ensures Inv(cfg, Apply(cfg, now, c, p, op), now)
  {
    hide Inv, Advances, Usable;
    match op
    case CancelPending => InvCancelPending(cfg, c, now, p);
    case LibraryDelete => InvLibrary(cfg, c, now, p);
    case DeleteObject(effect, reported) => InvDelete(cfg, c, now, p, effect, reported);
    case RemoveRow => InvRemove(cfg, c, now, p);
  }

  lemma InvFinalizerStep(cfg: Config, c: Cell, now: nat, p: Pid, op: Op)
    requires Safe(cfg) && Inv(cfg, c, now) && FinalizerOp(op)
    ensures Inv(cfg, Apply(cfg, now, c, p, op), now)
  {
    hide Inv, Advances, Usable;
    match op
    case ListParts => InvList(cfg, c, now, p);
    case CompleteMultipart(_, _, _) => InvComplete(cfg, c, now, p, op);
    case MarkAssembled(visible) => InvMark(cfg, c, now, p, visible);
    case ScanObject(verdict) => InvScan(cfg, c, now, p, verdict);
    case SkipScan => InvSkip(cfg, c, now, p);
    case CompleteUpload(permitted) => InvReady(cfg, c, now, p, permitted);
  }

  lemma InvUploadStep(cfg: Config, c: Cell, now: nat, p: Pid, op: Op)
    requires Safe(cfg) && Inv(cfg, c, now) && UploadOp(op)
    ensures Inv(cfg, Apply(cfg, now, c, p, op), now)
  {
    hide Inv, Advances, Usable;
    match op
    case StartResumable(size, scanned) => InvStart(cfg, c, now, size, scanned);
    case BeginMultipart(_, _, _, _) => InvBegin(cfg, c, now, op);
    case StoreChunk(_, _, _) => InvStore(cfg, c, now, op);
    case ReadUpload => InvRead(cfg, c, now, p);
    case TakeLease => InvLease(cfg, c, now, p);
  }

  lemma InvCancelStep(cfg: Config, c: Cell, now: nat, p: Pid, op: Op)
    requires Safe(cfg) && Inv(cfg, c, now) && CancelOp(op)
    ensures Inv(cfg, Apply(cfg, now, c, p, op), now)
  {
    hide Inv, Advances, Usable;
    match op
    case FencedCancel => InvFencedCancel(cfg, c, now, p);
    case ReadCancel(stale) => InvReadCancel(cfg, c, now, p, stale);
    case CancelUpload => InvCancelUpload(cfg, c, now, p);
    case Abort(effect, reported) => InvAbort(cfg, c, now, p, effect, reported);
    case SweepObject(effect) => InvSweep(cfg, c, now, p, effect);
  }

  lemma InvStep(cfg: Config, c: Cell, now: nat, p: Pid, op: Op)
    requires Safe(cfg) && Inv(cfg, c, now)
    ensures Inv(cfg, Apply(cfg, now, c, p, op), now)
  {
    hide Inv, Apply;
    if UploadOp(op) { InvUploadStep(cfg, c, now, p, op); }
    else if FinalizerOp(op) { InvFinalizerStep(cfg, c, now, p, op); }
    else if CancelOp(op) { InvCancelStep(cfg, c, now, p, op); }
    else if LegacyOp(op) { InvLegacyStep(cfg, c, now, p, op); }
    else if WorkerOp(op) { InvWorkerStep(cfg, c, now, p, op); }
    else if DeleterOp(op) { InvDeleterStep(cfg, c, now, p, op); }
    else { InvSideStep(cfg, c, now, p, op); }
  }

  lemma {:induction false} InvRun(cfg: Config, events: seq<Event>, id: Id)
    requires Safe(cfg)
    ensures var w := Run(cfg, events); Inv(cfg, CellOf(w, id), w.now)
  {
    hide Inv;
    if events == [] {
      InvUnborn(cfg, 0);
    } else {
      var before, e := Run(cfg, events[..|events| - 1]), events[|events| - 1];
      InvRun(cfg, events[..|events| - 1], id);
      match e
      case Tick(seconds) => InvTick(cfg, CellOf(before, id), before.now, before.now + seconds);
      case At(at, pid, op) => if at == id { InvStep(cfg, CellOf(before, id), before.now, pid, op); }
    }
  }

  lemma InvReachable(cfg: Config, w: World, id: Id)
    requires Safe(cfg) && Reachable(cfg, w)
    ensures Inv(cfg, CellOf(w, id), w.now)
  {
    hide Inv;
    var events :| Run(cfg, events) == w;
    InvRun(cfg, events, id);
  }

  // ---- No object without a row -----------------------------------------------

  predicate NoOrphan(w: World) {
    forall id | id in w.cells :: w.cells[id].blob.Some? ==> w.cells[id].row.Some?
  }

  lemma SafeNoOrphan(cfg: Config, w: World)
    requires Safe(cfg) && Reachable(cfg, w)
    ensures NoOrphan(w)
  {
    forall id | id in w.cells ensures w.cells[id].blob.Some? ==> w.cells[id].row.Some? {
      InvReachable(cfg, w, id);
    }
  }

  /** One more operation on attachment 0, followed by a wait. */
  lemma Advance(cfg: Config, w: World, c: Cell, p: Pid, op: Op, wait: nat) returns (x: World, d: Cell)
    requires Reachable(cfg, w) && CellOf(w, 0) == c
    ensures Reachable(cfg, x) && x.now == w.now + wait
    ensures d == CellOf(x, 0) == Apply(cfg, w.now, c, p, op) && 0 in x.cells
  {
    ReachNext(cfg, w, At(0, p, op));
    ReachNext(cfg, Next(cfg, w, At(0, p, op)), Tick(wait));
    x := Next(cfg, Next(cfg, w, At(0, p, op)), Tick(wait));
    d := CellOf(x, 0);
  }

  const BYTE: Bytes := [0 as bv8]

  function OneByteUpload(state: UploadState, token: Option<Pid>, until: nat): Upload {
    Upload(state, Some(7), 1, map[1 := Chunk(0, BYTE)], token, until)
  }

  lemma OnePart(parts: map<nat, Chunk>)
    requires parts == map[1 := Chunk(0, BYTE)]
    ensures InOrder(parts) == [Listed(1, BYTE)]
  {
    assert Highest(parts.Keys) == 1 by { assert 1 in parts.Keys; }
    assert ListUpTo(parts, 0) == [];
  }

  /** A one-byte resumable upload, fully received at time 0. */
  lemma Received(cfg: Config) returns (w: World, c: Cell)
    ensures Reachable(cfg, w) && w.now == 0 && CellOf(w, 0) == c
    ensures c == Cell(true, Some(NewRow(1, 0, false, Some(OneByteUpload(Uploading, None, 0)))), None,
                      map[7 := map[1 := BYTE]], {7}, map[], {}, None, 0, false)
  {
    hide Reachable, Advances, Usable, Harmless, Completable, Stale;
    ReachStart(cfg);
    var w1, c1 := Advance(cfg, START, UNBORN, 0, StartResumable(1, false), 0);
    assert c1 == DoStartResumable(UNBORN, 0, 1, false);
    var w2, c2 := Advance(cfg, w1, c1, 0, BeginMultipart(0, BYTE, 7, true), 0);
    assert c2 == DoBeginMultipart(c1, 0, BeginMultipart(0, BYTE, 7, true));
    w, c := Advance(cfg, w2, c2, 0, StoreChunk(0, BYTE, true), 0);
    assert c == DoStoreChunk(c2, 0, StoreChunk(0, BYTE, true));
  }

  /** Its finalizer holds the lease and has listed the part. */
  lemma AboutToAssemble(cfg: Config) returns (w: World, c: Cell)
    ensures Reachable(cfg, w) && w.now == 0 && CellOf(w, 0) == c
    ensures c == Cell(true, Some(NewRow(1, 0, false, Some(OneByteUpload(Uploading, Some(1), cfg.lease)))), None,
                      map[7 := map[1 := BYTE]], {7}, map[1 := Fin(0, 7, Storing([Listed(1, BYTE)]))], {1}, None, 0, false)
  {
    hide Reachable, Advances, Usable, Harmless, Completable, JudgeChunk, Stale;
    var w0, c0 := Received(cfg);
    var w1, c1 := Advance(cfg, w0, c0, 1, ReadUpload, 0);
    assert c1 == DoReadUpload(c0, 0, 1);
    var w2, c2 := Advance(cfg, w1, c1, 1, TakeLease, 0);
    assert c2 == DoTakeLease(cfg, c1, 0, 1);
    w, c := Advance(cfg, w2, c2, 1, ListParts, 0);
    assert c == DoListParts(c2, 1);
    OnePart(c2.row.value.upload.value.parts);
  }

  /** The cell with the finalizer about to assemble, two more requests in it. */
  function Contested(cfg: Config, deleter: Proc): Cell {
    Cell(true, Some(CancelRow(NewRow(1, 0, false, Some(OneByteUpload(Uploading, Some(1), cfg.lease))))), None,
         map[7 := map[1 := BYTE]], {7},
         map[1 := Fin(0, 7, Storing([Listed(1, BYTE)])), 2 := Aborting(Some(7)), 3 := deleter],
         {1, 2, 3}, None, 0, false)
  }

  /** The owner's cancel has read the upload, and waits until the S3 call is due. */
  lemma AboutToCancel(cfg: Config) returns (w: World, c: Cell)
    ensures Reachable(cfg, w) && w.now == cfg.work && CellOf(w, 0) == c
    ensures c == Cell(true, Some(NewRow(1, 0, false, Some(OneByteUpload(Uploading, Some(1), cfg.lease)))), None,
                      map[7 := map[1 := BYTE]], {7}, map[1 := Fin(0, 7, Storing([Listed(1, BYTE)])), 2 := CancelRead(Some(7))],
                      {1, 2}, None, 0, false)
  {
    hide Reachable, Advances, Usable, Harmless, Completable, JudgeChunk, Stale;
    var w0, c0 := AboutToAssemble(cfg);
    w, c := Advance(cfg, w0, c0, 2, ReadCancel(false), cfg.work);
    assert c == DoReadCancel(c0, 0, 2, false);
  }

  /** It cancels; then the owner deletes the tombstoned attachment. */
  lemma AboutToDelete(cfg: Config) returns (w: World, c: Cell)
    ensures Reachable(cfg, w) && w.now == cfg.work && CellOf(w, 0) == c
    ensures c == Contested(cfg, Deleting(Tombstoned, cfg.work + cfg.cleanup))
  {
    hide Reachable, Advances, Usable, Harmless, Completable, JudgeChunk, Stale;
    var w1, c1 := AboutToCancel(cfg);
    var w2, c2 := Advance(cfg, w1, c1, 2, CancelUpload, 0);
    assert c2 == DoCancelUpload(c1, 2);
    w, c := Advance(cfg, w2, c2, 3, CancelPending, 0);
    assert c == DoCancelPending(cfg, c2, cfg.work, 3);
  }

  /** S3 confirms there is no object, so the request may remove the row. */
  lemma AboutToRemove(cfg: Config) returns (w: World, c: Cell)
    ensures Reachable(cfg, w) && w.now == cfg.work && CellOf(w, 0) == c
    ensures c == Contested(cfg, Removing(Tombstoned, cfg.work + cfg.cleanup))
  {
    hide Reachable, Advances, Usable, Harmless, Completable, JudgeChunk, Stale;
    var w0, c0 := AboutToDelete(cfg);
    w, c := Advance(cfg, w0, c0, 3, DeleteObject(true, true), 0);
    assert c == DoDeleteObject(c0, cfg.work, 3, true, true);
  }

  /** The finalizer reaches S3 after that delete; once the lease has run out
      the row may go, if the delete request is still allowed to act. */
  lemma ShortLeaseOrphans(cfg: Config) returns (w: World)
    requires cfg.work + cfg.cleanup >= cfg.lease
    ensures Reachable(cfg, w) && !NoOrphan(w)
  {
    hide Reachable, Advances, Usable, Harmless, Completable, JudgeChunk, Stale;
    var w0, c0 := AboutToRemove(cfg);
    var op := CompleteMultipart(true, true, false);
    var w1, c1 := Advance(cfg, w0, c0, 1, op, cfg.cleanup);
    assert Assemblable(c0, 7, [Listed(1, BYTE)]);
    assert c1 == DoCompleteMultipart(cfg, c0, cfg.work, 1, op);
    var w2, c2 := Advance(cfg, w1, c1, 3, RemoveRow, 0);
    assert c2 == DoRemoveRow(c1, cfg.work + cfg.cleanup, 3);
    w := w2;
  }

  /** A day-old single-request upload still holding its bytes, and the worker. */
  function Overdue(gone: bool): Cell {
    Cell(true, Some(NewRow(1, 0, false, None)), None, map[], {},
         map[1 := Legacy(0, Putting), 2 := Cleaner(gone)], {1, 2}, Some(2), 1, false)
  }

  lemma SavedADayAgo(cfg: Config) returns (w: World, c: Cell)
    ensures Reachable(cfg, w) && w.now == DAY + 1 && CellOf(w, 0) == c
    ensures c == Cell(true, Some(NewRow(1, 0, false, None)), None, map[], {}, map[1 := Legacy(0, Putting)], {1}, None, 1, false)
  {
    hide Reachable, Advances, Usable, Harmless, Completable, JudgeChunk, Stale;
    ReachStart(cfg);
    w, c := Advance(cfg, START, UNBORN, 1, LegacySave(1, false), DAY + 1);
    assert c == DoLegacySave(UNBORN, 0, 1, 1, false);
  }

  lemma SelectedWhilePutting(cfg: Config) returns (w: World, c: Cell)
    ensures Reachable(cfg, w) && w.now == DAY + 1 && CellOf(w, 0) == c == Overdue(false)
  {
    hide Reachable, Advances, Usable, Harmless, Completable, JudgeChunk, Stale;
    var w0, c0 := SavedADayAgo(cfg);
    w, c := Advance(cfg, w0, c0, 2, CleanSelect, 0);
    assert c == DoCleanSelect(c0, DAY + 1, 2);
  }

  lemma CleanedWhilePutting(cfg: Config) returns (w: World, c: Cell)
    ensures Reachable(cfg, w) && w.now == DAY + 1 && CellOf(w, 0) == c == Overdue(true)
  {
    hide Reachable, Advances, Usable, Harmless, Completable, JudgeChunk, Stale;
    var w0, c0 := SelectedWhilePutting(cfg);
    w, c := Advance(cfg, w0, c0, 2, CleanDelete(true, true), 0);
    assert c == DoCleanDelete(c0, 2, true, true);
  }

  /** A single-request upload still storing its bytes after a day, once the
      cleanup worker has taken its row. */
  lemma SlowPutOrphans(cfg: Config) returns (w: World)
    requires cfg.legacy > DAY
    ensures Reachable(cfg, w) && !NoOrphan(w)
  {
    hide Advances, Usable, Harmless, Completable, JudgeChunk, Stale;
    var w0, c0 := CleanedWhilePutting(cfg);
    var w1, c1 := Advance(cfg, w0, c0, 2, CleanCommit, 0);
    assert c1 == DoCleanCommit(c0, 2);
    var op := LegacyPut(BYTE, true, true);
    var w2, c2 := Advance(cfg, w1, c1, 1, op, 0);
    assert c2 == DoLegacyPut(cfg, c1, DAY + 1, 1, op);
    w := w2;
  }

  /** Every stored object keeps its row in every run exactly when the bounds
      leave room: work plus cleanup inside the lease, single-request uploads
      inside a day. */
  lemma NoOrphanExactly(cfg: Config)
    ensures (forall w | Reachable(cfg, w) :: NoOrphan(w)) <==> Safe(cfg)
  {
    if Safe(cfg) {
      forall w | Reachable(cfg, w) ensures NoOrphan(w) { SafeNoOrphan(cfg, w); }
    } else if cfg.work + cfg.cleanup >= cfg.lease {
      var w := ShortLeaseOrphans(cfg);
    } else {
      var w := SlowPutOrphans(cfg);
    }
  }

  /** Five minutes of work, a six-minute lease, ten seconds to clean up. */
  function Deployed(legacy: nat): Config { Config(300, 360, 10, legacy) }

  lemma DeployedNoOrphan(legacy: nat, w: World)
    requires legacy <= DAY && Reachable(Deployed(legacy), w)
    ensures NoOrphan(w)
  {
    SafeNoOrphan(Deployed(legacy), w);
  }

  // ---- What a ready attachment has been through -------------------------------

  /** Attached or attachable rows are scanned as required and fully received. */
  predicate ReadyOk(r: Row) {
    r.ready && !r.deleted ==>
      && ScanPassed(r)
      && (r.upload.Some? ==> r.upload.value.state == Complete && r.upload.value.offset == r.size)
  }

  lemma ReadyWasChecked(cfg: Config, w: World, id: Id)
    requires Safe(cfg) && Reachable(cfg, w) && id in w.cells && w.cells[id].row.Some?
    ensures ReadyOk(w.cells[id].row.value)
  {
    InvReachable(cfg, w, id);
  }

  /** The attach step and the asset step need no scan check of their own. */
  lemma ClaimNeedsNoScanCheck(cfg: Config, w: World, id: Id)
    requires Safe(cfg) && Reachable(cfg, w) && Claimable(CellOf(w, id), w.now)
    ensures ScanPassed(CellOf(w, id).row.value)
  {
    InvReachable(cfg, w, id);
  }

  /** A resumable attachment becomes usable only through its own finalizer's
      completion, under that finalizer's live token. */
  lemma UsableOnlyUnderLease(cfg: Config, c: Cell, now: nat, p: Pid, op: Op)
    requires Inv(cfg, c, now) && HasUpload(c) && !Usable(c) && Usable(Apply(cfg, now, c, p, op))
    ensures op == CompleteUpload(true)
    ensures p in c.procs && c.procs[p].Fin? && c.procs[p].phase == Completing
    ensures Fenced(c.row.value.upload.value, p, now) && c.row.value.upload.value.state == Assembled
  {
    if p in c.procs { assert ProcOk(cfg, c, now, p); }
    assert op.CompleteUpload?;
    assert Usable(DoCompleteUpload(c, now, p, op.permitted));
  }

  lemma UnfencedScan(c: Cell, now: nat, p: Pid, verdict: Verdict)
    ensures Harmless(c, now, p, DoScanObject(c, now, p, verdict))
  {}

  lemma UnfencedAssembly(cfg: Config, c: Cell, now: nat, p: Pid, op: Op)
    requires op.CompleteMultipart?
    ensures Harmless(c, now, p, DoCompleteMultipart(cfg, c, now, p, op))
  {
    hide Advances, Usable, Assemblable, Join, RightSize;
  }

  /** A finalizer that lost its lease, or whose lease ran out, changes nothing in
      the database but its own token. */
  lemma UnfencedFinalizer(cfg: Config, c: Cell, now: nat, p: Pid, op: Op)
    requires FinalizerOp(op)
    ensures Harmless(c, now, p, Apply(cfg, now, c, p, op))
  {
    match op
    case ScanObject(verdict) => UnfencedScan(c, now, p, verdict);
    case CompleteMultipart(_, _, _) => UnfencedAssembly(cfg, c, now, p, op);
    case _ =>
  }

  /** The one exception is the cancel that ends a failed finalization: it asks
      for the token alone, so a finalizer that timed out without being replaced
      still tombstones its upload. It does so exactly when the token is its own
      and nobody has attached the file. */
  lemma FencedCancelExactly(c: Cell, p: Pid)
    requires p in c.procs && c.procs[p].Cancelling? && c.lock.None? && HasUpload(c) && !c.row.value.deleted
    ensures var d := DoFencedCancel(c, p);
            && d.row.Some?
            && (d.row.value.deleted <==> c.row.value.upload.value.token == Some(p) && !c.row.value.message && !c.row.value.asset)
            && (!d.row.value.deleted ==> SameButToken(c.row.value, d.row.value))
  {}

  // ---- Terminal upload states --------------------------------------------------

  ghost function Continue(cfg: Config, w: World, events: seq<Event>): World {
    if events == [] then w else Next(cfg, Continue(cfg, w, events[..|events| - 1]), events[|events| - 1])
  }

  /** Once cancelled or rejected, an upload is never anything else for as long
      as its row exists, and rejection is final. */
  lemma {:induction false} TerminalIsAbsorbing(cfg: Config, w: World, later: seq<Event>, id: Id)
    requires Safe(cfg) && Reachable(cfg, w) && HasUpload(CellOf(w, id))
    requires CellOf(w, id).row.value.upload.value.state == Cancelled || CellOf(w, id).row.value.upload.value.state == Rejected
    ensures var c, d := CellOf(w, id), CellOf(Continue(cfg, w, later), id);
            && Reachable(cfg, Continue(cfg, w, later))
            && d.born
            && (d.row.Some? ==> HasUpload(d) && Successor(c.row.value.upload.value.state, d.row.value.upload.value.state))
  {
    InvReachable(cfg, w, id);
    if later != [] {
      var front, e := later[..|later| - 1], later[|later| - 1];
      TerminalIsAbsorbing(cfg, w, front, id);
      var x := Continue(cfg, w, front);
      ReachNext(cfg, x, e);
      InvReachable(cfg, x, id);
      if e.At? && e.id == id {
        assert Advances(CellOf(x, id), Apply(cfg, x.now, CellOf(x, id), e.pid, e.op));
      }
    }
  }

  /** A tombstone is never lifted and a key is never used twice. */
  lemma {:induction false} TombstonesStay(cfg: Config, w: World, later: seq<Event>, id: Id)
    requires CellOf(w, id).born && (CellOf(w, id).row.Some? ==> CellOf(w, id).row.value.deleted)
    ensures var d := CellOf(Continue(cfg, w, later), id);
            d.born && (d.row.Some? ==> d.row.value.deleted) && (CellOf(w, id).row.None? ==> d.row.None?)
  {
    if later != [] {
      var front, e := later[..|later| - 1], later[|later| - 1];
      TombstonesStay(cfg, w, front, id);
      var x := Continue(cfg, w, front);
      if e.At? && e.id == id {
        assert Advances(CellOf(x, id), Apply(cfg, x.now, CellOf(x, id), e.pid, e.op));
      }
    }
  }

  // ---- The stored bytes ----------------------------------------------------------

  /** Whatever a member may still open is in storage, whole and in order, unless
      a failed upload's discard missed its tombstone. */
  lemma ServedIsStored(cfg: Config, w: World, id: Id)
    requires Safe(cfg) && Reachable(cfg, w)
    requires var c := CellOf(w, id); c.row.Some? && Served(c.row.value, w.now) && !c.missed
    ensures Stored(CellOf(w, id))
  {
    InvReachable(cfg, w, id);
  }

  /** The deletion that may hit an object someone still sees. */
  predicate StrayDelete(c: Cell, now: nat, p: Pid, op: Op) {
    && op.DeleteObject? && op.effect
    && p in c.procs && c.procs[p].Deleting? && c.procs[p].kind == Discarded(false) && now <= c.procs[p].deadline
  }

  /** Of all operations, exactly a discard whose tombstone missed takes the
      object away from a row that stays in view. */
  lemma LosesObjectExactly(cfg: Config, c: Cell, now: nat, p: Pid, op: Op)
    requires Safe(cfg) && Inv(cfg, c, now)
    requires c.row.Some? && Served(c.row.value, now) && c.blob.Some?
    ensures var d := Apply(cfg, now, c, p, op);
            (d.row.Some? && Served(d.row.value, now) && d.blob.None?) <==> StrayDelete(c, now, p, op)
  {
    if p in c.procs { assert ProcOk(cfg, c, now, p); }
    if Apply(cfg, now, c, p, op).blob.None? { KeepsObject(cfg, c, now, p, op); }
  }

  lemma KeepsObject(cfg: Config, c: Cell, now: nat, p: Pid, op: Op)
    requires c.born && c.blob.Some? && Apply(cfg, now, c, p, op).blob.None?
    ensures p in c.procs
    ensures op.SweepObject? || op.DeleteObject? || op.CleanDelete?
  {
    hide Apply;
    if UploadOp(op) { UploadsKeepObject(cfg, c, now, p, op); }
    else if FinalizerOp(op) { FinalizersKeepObject(cfg, c, now, p, op); }
    else if CancelOp(op) { CancelsKeepObject(cfg, c, now, p, op); }
    else if LegacyOp(op) { SavesKeepObject(cfg, c, now, p, op); }
    else if WorkerOp(op) { WorkersKeepObject(cfg, c, now, p, op); }
    else if DeleterOp(op) { DeletersKeepObject(cfg, c, now, p, op); }
    else { SidesKeepObject(cfg, c, now, p, op); }
  }

  lemma UploadsKeepObject(cfg: Config, c: Cell, now: nat, p: Pid, op: Op)
    requires c.born && c.blob.Some? && UploadOp(op)
    ensures Apply(cfg, now, c, p, op).blob.Some?
  {
    hide Advances, Usable, Harmless, SameButToken, InOrder, JudgeChunk, Completable;
  }

  lemma FinalizersKeepObject(cfg: Config, c: Cell, now: nat, p: Pid, op: Op)
    requires c.born && c.blob.Some? && FinalizerOp(op)
    ensures Apply(cfg, now, c, p, op).blob.Some?
  {
    hide Advances, Usable, Harmless, SameButToken, InOrder, JudgeChunk, Completable;
  }

  lemma CancelsKeepObject(cfg: Config, c: Cell, now: nat, p: Pid, op: Op)
    requires c.born && c.blob.Some? && CancelOp(op)
    ensures Apply(cfg, now, c, p, op).blob.Some? || (p in c.procs && op.SweepObject?)
  {
    hide Advances, Usable, Harmless, SameButToken, InOrder, JudgeChunk, Completable;
  }

  lemma SavesKeepObject(cfg: Config, c: Cell, now: nat, p: Pid, op: Op)
    requires c.born && c.blob.Some? && LegacyOp(op)
    ensures Apply(cfg, now, c, p, op).blob.Some?
  {
    hide Advances, Usable, Harmless, SameButToken, InOrder, JudgeChunk, Completable;
  }

  lemma WorkersKeepObject(cfg: Config, c: Cell, now: nat, p: Pid, op: Op)
    requires c.born && c.blob.Some? && WorkerOp(op)
    ensures Apply(cfg, now, c, p, op).blob.Some? || (p in c.procs && op.CleanDelete?)
  {
    hide Advances, Usable, Harmless, SameButToken, InOrder, JudgeChunk, Completable;
  }

  lemma DeletersKeepObject(cfg: Config, c: Cell, now: nat, p: Pid, op: Op)
    requires c.born && c.blob.Some? && DeleterOp(op)
    ensures Apply(cfg, now, c, p, op).blob.Some? || (p in c.procs && op.DeleteObject?)
  {
    hide Advances, Usable, Harmless, SameButToken, InOrder, JudgeChunk, Completable;
  }

  lemma SidesKeepObject(cfg: Config, c: Cell, now: nat, p: Pid, op: Op)
    requires c.born && c.blob.Some? && SideOp(op)
    ensures Apply(cfg, now, c, p, op).blob.Some?
  {
    hide Advances, Usable, Harmless, SameButToken, InOrder, JudgeChunk, Completable;
  }

  function Claimed(stage: Proc, blob: Option<Bytes>, missed: bool): Cell {
    Cell(true, Some(NewRow(1, 0, false, None).(ready := true, message := true)), blob, map[], {}, map[1 := stage], {1}, None, 1, missed)
  }

  function Single(stage: LegacyPhase, ready: bool, blob: Option<Bytes>): Cell {
    Cell(true, Some(NewRow(1, 0, false, None).(ready := ready)), blob, map[], {}, map[1 := Legacy(0, stage)], {1}, None, 1, false)
  }

  lemma SavedOnce(cfg: Config) returns (w: World, c: Cell)
    ensures Reachable(cfg, w) && w.now == 0 && CellOf(w, 0) == c == Single(Putting, false, None)
  {
    hide Reachable, Advances, Usable, Harmless, Completable, JudgeChunk, Stale;
    ReachStart(cfg);
    w, c := Advance(cfg, START, UNBORN, 1, LegacySave(1, false), 0);
    assert c == DoLegacySave(UNBORN, 0, 1, 1, false);
  }

  lemma UploadedOnce(cfg: Config) returns (w: World, c: Cell)
    ensures Reachable(cfg, w) && w.now == 0 && CellOf(w, 0) == c == Single(Put, false, Some(BYTE))
  {
    hide Reachable, Advances, Usable, Harmless, Completable, JudgeChunk, Stale;
    var w1, c1 := SavedOnce(cfg);
    var put := LegacyPut(BYTE, true, true);
    w, c := Advance(cfg, w1, c1, 1, put, 0);
    assert c == DoLegacyPut(cfg, c1, 0, 1, put);
  }

  lemma CompletedOnce(cfg: Config) returns (w: World, c: Cell)
    ensures Reachable(cfg, w) && w.now == 0 && CellOf(w, 0) == c == Single(Responding, true, Some(BYTE))
  {
    hide Reachable, Advances, Usable, Harmless, Completable, JudgeChunk, Stale;
    var w2, c2 := UploadedOnce(cfg);
    w, c := Advance(cfg, w2, c2, 1, LegacyComplete(true), 0);
    assert c == DoLegacyComplete(c2, 1, true);
  }

  lemma UploadedAndClaimed(cfg: Config) returns (w: World, c: Cell)
    ensures Reachable(cfg, w) && w.now == 0 && CellOf(w, 0) == c == Claimed(Legacy(0, Responding), Some(BYTE), false)
  {
    hide Reachable, Advances, Usable, Harmless, Completable, JudgeChunk, Stale;
    var w3, c3 := CompletedOnce(cfg);
    w, c := Advance(cfg, w3, c3, 1, Claim, 0);
    assert c == DoClaim(c3, 0);
  }

  /** The hypothesis of ServedIsStored is needed: a client that hangs up right after its
      upload was completed makes the handler discard it, and if the tombstone cannot be
      written then, the object goes while the row stays ready, served and attachable. */
  lemma DiscardLosesReadyFile(cfg: Config) returns (w: World)
    ensures Reachable(cfg, w) && 0 in w.cells && w.cells[0].row.Some? && w.cells[0].blob.None?
    ensures Served(w.cells[0].row.value, w.now) && Claimable(w.cells[0], w.now)
  {
    hide Reachable, Advances, Usable, Harmless, Completable, JudgeChunk, Stale;
    var w3, c3 := CompletedOnce(cfg);
    var w4, c4 := Advance(cfg, w3, c3, 1, LegacyDiscard(false), 0);
    assert c4 == DoLegacyDiscard(cfg, c3, 0, 1, false);
    var w5, c5 := Advance(cfg, w4, c4, 1, DeleteObject(true, true), 0);
    assert c5 == DoDeleteObject(c4, 0, 1, true, true);
    w := w5;
  }

  /** The same happens to an attached file, if the response that could not be written
      had reached the client all the same: the tombstone then matches no row. */
  lemma DiscardLosesAttachedFile(cfg: Config) returns (w: World)
    ensures Reachable(cfg, w) && 0 in w.cells && w.cells[0].row.Some? && w.cells[0].blob.None?
    ensures w.cells[0].row.value.message && Served(w.cells[0].row.value, w.now)
  {
    var w0, c0 := UploadedAndClaimed(cfg);
    var w1, c1 := Advance(cfg, w0, c0, 1, LegacyDiscard(true), 0);
    assert c1 == DoLegacyDiscard(cfg, c0, 0, 1, true);
    var w2, c2 := Advance(cfg, w1, c1, 1, DeleteObject(true, true), 0);
    assert c2 == DoDeleteObject(c1, 0, 1, true, true);
    w := w2;
  }

  // ---- Chunks ----------------------------------------------------------------------

  /** In every reachable state the recorded parts are 1..k, tile [0, offset) and
      are full but for a last one that ends the file. */
  lemma ChunksTile(cfg: Config, w: World, id: Id)
    requires Safe(cfg) && Reachable(cfg, w) && HasUpload(CellOf(w, id))
    ensures var r := CellOf(w, id).row.value; Tiled(r.upload.value.parts, r.upload.value.offset, r.size)
  {
    InvReachable(cfg, w, id);
  }

  /** A chunk request that is not exactly the next chunk changes nothing, and one
      that repeats recorded bytes is told so; a recorded chunk is the only one
      that can be repeated. */
  lemma ReplayChangesNothing(cfg: Config, w: World, id: Id, p: Pid, n: nat, data: Bytes, mp: nat, committed: bool)
    requires Safe(cfg) && Reachable(cfg, w)
    requires var c := CellOf(w, id); HasUpload(c) && !c.row.value.deleted && n in c.row.value.upload.value.parts
    requires w.now < CellOf(w, id).row.value.created + DAY && |data| >= 1
    ensures var c := CellOf(w, id); var part := c.row.value.upload.value.parts[n];
            && (JudgeChunk(c, w.now, part.offset, data) == Replayed <==> part.data == data)
            && (JudgeChunk(c, w.now, part.offset, data) == Conflict <==> part.data != data)
            && Apply(cfg, w.now, c, p, StoreChunk(part.offset, data, committed)) == c
            && Apply(cfg, w.now, c, p, BeginMultipart(part.offset, data, mp, committed)) == c
  {
    InvReachable(cfg, w, id);
  }

  lemma JoinNone(parts: map<nat, Chunk>)
    ensures Join(ListUpTo(parts, 0)) == []
  {}

  lemma PartAt(parts: map<nat, Chunk>, offset: nat, size: nat, n: nat)
    requires Tiled(parts, offset, size) && 1 <= n <= PartCount(offset)
    ensures n in parts && parts[n].offset == (n - 1) * CHUNK_BYTES
    ensures parts[n].offset + |parts[n].data| == if n < PartCount(offset) then n * CHUNK_BYTES else offset
  {}

  lemma JoinLast(parts: map<nat, Chunk>, n: nat)
    requires n > 0 && n in parts
    ensures Join(ListUpTo(parts, n)) == Join(ListUpTo(parts, n - 1)) + parts[n].data
  {
    var list := ListUpTo(parts, n);
    assert list[..|list| - 1] == ListUpTo(parts, n - 1);
  }

  lemma PrefixGrows(file: Bytes, from: nat, to: nat)
    requires from <= to <= |file|
    ensures file[..from] + file[from..to] == file[..to]
  {}

  /** Listing the first n parts of a file cut at the recorded offsets gives the
      file back up to the n-th boundary. */
  lemma {:induction false} JoinIsPrefix(parts: map<nat, Chunk>, offset: nat, file: Bytes, n: nat)
    requires Tiled(parts, offset, |file|) && n <= PartCount(offset)
    requires forall i | i in parts :: parts[i].offset + |parts[i].data| <= |file|
                                      && parts[i].data == file[parts[i].offset..parts[i].offset + |parts[i].data|]
    ensures Join(ListUpTo(parts, n)) == file[..if n < PartCount(offset) then n * CHUNK_BYTES else offset]
  {
    hide Join, ListUpTo, Tiled;
    JoinNone(parts);
    if n > 0 {
      JoinIsPrefix(parts, offset, file, n - 1);
      PartAt(parts, offset, |file|, n);
      JoinLast(parts, n);
      PrefixGrows(file, (n - 1) * CHUNK_BYTES, if n < PartCount(offset) then n * CHUNK_BYTES else offset);
    }
  }

  /** If every recorded chunk came from one file at its own offset, the object
      served for a finished upload is that file, whatever was retried, replayed
      or stored without being committed on the way. */
  lemma ServedIsTheFile(cfg: Config, w: World, id: Id, file: Bytes)
    requires Safe(cfg) && Reachable(cfg, w)
    requires var c := CellOf(w, id); HasUpload(c) && c.blob.Some? && c.row.value.size == |file|
    requires var parts := CellOf(w, id).row.value.upload.value.parts;
             forall i | i in parts :: parts[i].offset + |parts[i].data| <= |file|
                                      && parts[i].data == file[parts[i].offset..parts[i].offset + |parts[i].data|]
    ensures CellOf(w, id).blob.value == file
  {
    InvReachable(cfg, w, id);
    var u := CellOf(w, id).row.value.upload.value;
    HighestTiled(u.parts, u.offset, |file|);
    JoinIsPrefix(u.parts, u.offset, file, PartCount(u.offset));
  }

  // ---- Rejection after cancellation ---------------------------------------------------

  function Marked(cfg: Config, phase: FinPhase, state: UploadState): Cell {
    Cell(true, Some(NewRow(1, 0, false, Some(OneByteUpload(state, Some(1), cfg.lease)))), Some(BYTE),
         map[], {7}, map[1 := Fin(0, 7, phase)], {1}, None, 0, false)
  }

  lemma AboutToScan(cfg: Config) returns (w: World, c: Cell)
    requires cfg.work < cfg.lease
    ensures Reachable(cfg, w) && w.now == 0 && CellOf(w, 0) == c == Marked(cfg, Scanning, Assembled)
  {
    hide Reachable, Advances, Usable, Harmless, Completable, JudgeChunk, Stale;
    var w0, c0 := AboutToAssemble(cfg);
    var op := CompleteMultipart(true, true, false);
    var w1, c1 := Advance(cfg, w0, c0, 1, op, 0);
    assert Assemblable(c0, 7, [Listed(1, BYTE)]);
    assert c0.multiparts - {7} == map[];
    assert Join([Listed(1, BYTE)]) == BYTE by { assert [Listed(1, BYTE)][..0] == []; }
    assert c1 == DoCompleteMultipart(cfg, c0, 0, 1, op) == Marked(cfg, Marking, Uploading);
    w, c := Advance(cfg, w1, c1, 1, MarkAssembled(true), 0);
    assert c == DoMarkAssembled(c1, 0, 1, true);
  }

  lemma AboutToScanCancelled(cfg: Config) returns (w: World, c: Cell)
    requires Safe(cfg)
    ensures Reachable(cfg, w) && w.now == 0 && CellOf(w, 0) == c
    ensures HasUpload(c) && State(c) == Cancelled && c.row.value.deleted && !c.row.value.message && !c.row.value.asset
    ensures c.lock.None? && RightSize(c) && c.row.value.upload.value.token == Some(1) && c.row.value.upload.value.until == cfg.lease
    ensures 1 in c.procs && c.procs[1] == Fin(0, 7, Scanning)
  {
    hide Reachable, Advances, Usable, Harmless, JudgeChunk, Stale;
    var w0, c0 := AboutToScan(cfg);
    var w1, c1 := Advance(cfg, w0, c0, 2, ReadCancel(false), 0);
    assert c1 == DoReadCancel(c0, 0, 2, false);
    w, c := Advance(cfg, w1, c1, 2, CancelUpload, 0);
    assert c == DoCancelUpload(c1, 2);
  }

  /** `cancelled` alone is not final: a scan that finishes after the owner
      cancelled still records its verdict and turns it into `rejected`. */
  lemma CancelledMayBecomeRejected(cfg: Config) returns (w: World, later: seq<Event>)
    requires Safe(cfg)
    ensures Reachable(cfg, w)
    ensures HasUpload(CellOf(w, 0)) && CellOf(w, 0).row.value.upload.value.state == Cancelled
    ensures var d := CellOf(Continue(cfg, w, later), 0); HasUpload(d) && d.row.value.upload.value.state == Rejected
  {
    hide Advances, Usable, Harmless, Completable, JudgeChunk, Stale;
    var c1;
    w, c1 := AboutToScanCancelled(cfg);
    var e1, e2 := At(0, 1, ScanObject(VerdictInfected)), At(0, 1, FencedCancel);
    later := [e1, e2];
    assert later[..1] == [e1] && [e1][..0] == [];
    assert Continue(cfg, w, []) == w && Continue(cfg, w, [e1]) == Next(cfg, w, e1);
    assert CellOf(Next(cfg, w, e1), 0) == DoScanObject(c1, 0, 1, VerdictInfected);
    assert CellOf(Continue(cfg, w, later), 0) == DoFencedCancel(CellOf(Next(cfg, w, e1), 0), 1);
  }

  /** A finalizer that waited for its right to complete until its lease was over. */
  lemma LateToComplete(cfg: Config) returns (w: World, c: Cell)
    requires Safe(cfg)
    ensures Reachable(cfg, w) && w.now == cfg.lease && CellOf(w, 0) == c == Marked(cfg, Completing, Assembled)
  {
    hide Reachable, Advances, Usable, Harmless, JudgeChunk, Stale;
    var w0, c0 := AboutToScan(cfg);
    w, c := Advance(cfg, w0, c0, 1, SkipScan, cfg.lease);
    assert c == DoSkipScan(c0, 1);
  }

  /** A run in which a finalizer whose lease has run out still tombstones its upload: it
      waited for its right to complete until after the lease, was refused, and cancels. */
  lemma ExpiredCancelTombstones(cfg: Config) returns (w: World)
    requires Safe(cfg)
    ensures Reachable(cfg, w) && HasUpload(CellOf(w, 0)) && !CellOf(w, 0).row.value.deleted
    ensures CellOf(w, 0).row.value.upload.value.token == Some(1) && CellOf(w, 0).row.value.upload.value.until <= w.now
    ensures var d := CellOf(Next(cfg, w, At(0, 1, FencedCancel)), 0); HasUpload(d) && d.row.value.deleted && State(d) == Cancelled
  {
    hide Reachable, Advances, Usable, Harmless, JudgeChunk, Stale;
    var w1, c1 := LateToComplete(cfg);
    var w2, c2 := Advance(cfg, w1, c1, 1, CompleteUpload(false), 0);
    assert c2 == DoCompleteUpload(c1, cfg.lease, 1, false);
    w := w2;
    assert CellOf(Next(cfg, w, At(0, 1, FencedCancel)), 0) == DoFencedCancel(c2, 1);
  }
}
