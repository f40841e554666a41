/** The handlers of storage_features.go and attachment_store.go run one at a time
    over the attachments they change: their branches and loops, built from the
    single operations of AttachmentProtocol. What other requests may do between
    those operations is AttachmentTheorems' subject. */
module AttachmentServer {
  import opened Options
  import opened AttachmentProtocol
  import opened AttachmentInvariant

  type Id = nat

  // ---- Listing parts -------------------------------------------------------------------

  /** Part rows come back by ascending number. */
  method PartsInOrder(parts: map<nat, Chunk>) returns (list: seq<Listed>)
    requires 0 !in parts
    ensures list == InOrder(parts)
  {
    list := [];
    var n, todo := 0, parts.Keys;
    ghost var last := Highest(parts.Keys);
    while todo != {}
      invariant n <= last && list == ListUpTo(parts, n)
      invariant todo == (set k | k in parts && k > n)
      decreases last - n
    {
      var k :| k in todo;
      assert k <= last;
      n := n + 1;
      if n in parts {
        list := list + [Listed(n, parts[n].data)];
        todo := todo - {n};
      }
    }
    assert n < last ==> last in todo;
  }

  lemma {:induction false} SameList(parts: map<nat, Chunk>, more: map<nat, Chunk>, n: nat)
    requires forall k | k <= n :: (k in parts <==> k in more) && (k in parts ==> parts[k] == more[k])
    ensures ListUpTo(parts, n) == ListUpTo(more, n)
  {
    if n > 0 { SameList(parts, more, n - 1); }
  }

  lemma ListGrows(parts: map<nat, Chunk>, k: nat, part: Chunk)
    ensures var more: map<nat, Chunk> := parts[k + 1 := part];
      ListUpTo(more, k + 1) == ListUpTo(parts, k) + [Listed(k + 1, part.data)]
  {
    SameList(parts, parts[k + 1 := part], k);
  }

  /** Recording the next chunk appends exactly its bytes to the file. */
  lemma FileGrows(parts: map<nat, Chunk>, offset: nat, size: nat, data: Bytes)
    requires Tiled(parts, offset, size) && ChunkBody(data) && offset + |data| <= size && PartCount(offset) < MAX_PARTS
    requires |data| == CHUNK_BYTES || offset + |data| == size
    ensures FileBytes(parts[offset / CHUNK_BYTES + 1 := Chunk(offset, data)]) == FileBytes(parts) + data
  {
    hide Join, ListUpTo, Tiled;
    TiledGrow(parts, offset, size, data);
    var k, part := PartCount(offset), Chunk(offset, data);
    var more: map<nat, Chunk> := parts[k + 1 := part];
    HighestTiled(parts, offset, size);
    HighestTiled(more, offset + |data|, size);
    assert PartCount(offset + |data|) == k + 1 by { assert offset == k * CHUNK_BYTES; }
    ListGrows(parts, k, part);
    JoinNext(ListUpTo(parts, k), Listed(k + 1, data));
  }

  lemma JoinNext(list: seq<Listed>, part: Listed)
    ensures Join(list + [part]) == Join(list) + part.data
  {
    assert (list + [part])[..|list|] == list;
  }

  // ---- One finalization ------------------------------------------------------------------

  datatype Outcome = Refused | Interrupted | Withdrawn | Finished

  /** How one finalization goes outside the database: seconds until the S3 call,
      until the state update, until the scan is over and until the completion; whether the assembly took
      effect, was reported, and whether asking for the object's size works; the
      scanner, if any; whether session and posting rights still hold; and, should it
      come to cancelling, what becomes of the abort and of the object's deletion. */
  datatype Fate = Fate(
    storing: nat, marking: nat, scanning: nat, completing: nat,
    effect: bool, reported: bool, headed: bool,
    scanner: Option<Verdict>, permitted: bool,
    aborted: bool, abortReported: bool, swept: bool)

  /** The two statements before any S3 call let the request through. */
  predicate Openable(c: Cell, now: nat) {
    && HasUpload(c) && !c.row.value.deleted
    && var r, u := c.row.value, c.row.value.upload.value;
       && (u.state == Uploading || u.state == Assembled) && u.multipart.Some?
       && now < r.created + DAY && u.offset == r.size && (u.token.None? || u.until <= now)
  }

  /** S3 ends up with the object and the handler learns of it. */
  predicate Reaches(c: Cell, fate: Fate)
    requires HasUpload(c) && c.row.value.upload.value.multipart.Some?
  {
    || (fate.effect && c.row.value.upload.value.multipart.value in c.multiparts && (fate.reported || fate.headed))
    || (fate.headed && c.blob.Some?)
  }

  /** Seconds from taking the lease to the state update, to the end of the scan and to
      the completion; a retry that finds the parts assembled skips the first two. */
  function Marked(c: Cell, fate: Fate): nat
    requires HasUpload(c)
  {
    if State(c) == Uploading then fate.storing + fate.marking else 0
  }

  /** What it takes for one undisturbed finalization to succeed: everything within the
      five minutes after which the request's context is done. */
  predicate Finishes(cfg: Config, c: Cell, now: nat, fate: Fate) {
    && Openable(c, now)
    && (State(c) == Uploading ==> Reaches(c, fate))
    && Marked(c, fate) + fate.scanning + fate.completing <= cfg.work
    && Passes(c, fate)
  }

  /** When it does not: an error before the completion leaves the upload open for
      another attempt; an infected file and a failed completion withdraw it. */
  function OutcomeOf(cfg: Config, c: Cell, now: nat, fate: Fate): Outcome {
    if !Openable(c, now) then Refused
    else if State(c) == Uploading && !(fate.storing + fate.marking <= cfg.work && Reaches(c, fate)) then Interrupted
    else Concluded(cfg, c, Marked(c, fate) + fate.scanning, fate)
  }

  function Concluded(cfg: Config, c: Cell, scanned: nat, fate: Fate): Outcome
    requires HasUpload(c)
  {
    if fate.scanner.Some? && (scanned > cfg.work || fate.scanner.value == Unavailable) then Interrupted
    else if scanned + fate.completing <= cfg.work && Passes(c, fate) then Finished
    else Withdrawn
  }

  lemma FinishesExactly(cfg: Config, c: Cell, now: nat, fate: Fate)
    ensures OutcomeOf(cfg, c, now, fate) == Finished <==> Finishes(cfg, c, now, fate)
  {}

  /** The scan and the rights on which completion depends. */
  predicate Passes(c: Cell, fate: Fate)
    requires HasUpload(c)
  {
    && (if fate.scanner.Some? then fate.scanner.value == VerdictClean else ScanPassed(c.row.value))
    && fate.permitted && c.row.value.room
  }

  /** How an outcome leaves the upload: untouched, open for another attempt, a
      tombstone, or delivered whole. */
  ghost predicate Ended(outcome: Outcome, c: Cell, d: Cell, p: Pid) {
    match outcome
    case Refused => d.row == c.row && d.blob == c.blob
    case Interrupted => Kin(c, d) && Idle(d, p) && State(d) != Creating && !Terminal(State(d))
    case Withdrawn => Dropped(c, d)
    case Finished => Delivered(c, d)
  }

  /** Equal but for what a finalizer may write before it ends. */
  predicate Kin(c: Cell, d: Cell) {
    && HasUpload(c) && HasUpload(d)
    && var r, s := c.row.value, d.row.value;
       && s == r.(upload := s.upload, scan := s.scan)
       && s.upload.value == r.upload.value.(state := s.upload.value.state, token := s.upload.value.token, until := s.upload.value.until)
  }

  /** `p` finalizes `c`, under the lease it took at `began`. */
  predicate Held(cfg: Config, c: Cell, d: Cell, p: Pid, began: nat, proc: Proc) {
    && Kin(c, d) && d.lock.None? && p in d.procs && d.procs[p] == proc
    && d.row.value.upload.value.token == Some(p) && d.row.value.upload.value.until == began + cfg.lease
  }

  function Stage(c: Cell, began: nat, phase: FinPhase): Proc
    requires HasUpload(c) && c.row.value.upload.value.multipart.Some?
  {
    Fin(began, c.row.value.upload.value.multipart.value, phase)
  }

  lemma LeaseStep(cfg: Config, c: Cell, now: nat, p: Pid)
    requires Openable(c, now) && c.lock.None? && Fresh(c, p)
    ensures var d := DoTakeLease(cfg, DoReadUpload(c, now, p), now, p);
      && Held(cfg, c, d, p, now, Stage(c, now, if State(c) == Assembled then Scanning else Listing))
      && d.row.value.scan == c.row.value.scan && State(d) == State(c) && d.blob == c.blob && d.multiparts == c.multiparts
  {}

  lemma NoLeaseStep(cfg: Config, c: Cell, now: nat, p: Pid)
    requires !Openable(c, now) && c.lock.None? && Fresh(c, p) && p !in c.procs
    ensures var d := DoTakeLease(cfg, DoReadUpload(c, now, p), now, p);
      d.row == c.row && d.blob == c.blob && d.lock == c.lock
  {}
  lemma OpenPartNumbers(cfg: Config, d: Cell, now: nat)
    requires Inv(cfg, d, now) && HasUpload(d)
    ensures 0 !in d.row.value.upload.value.parts
  {
    hide ProcOk, PartsStored, FileBytes, Stored;
  }

  lemma ListingStep(cfg: Config, c: Cell, d: Cell, p: Pid, now: nat)
    requires Openable(c, now) && Held(cfg, c, d, p, now, Stage(c, now, Listing))
    ensures var list := InOrder(c.row.value.upload.value.parts);
      && DoListParts(d, p) == Move(d, p, d.procs[p].(phase := Storing(list)))
      && Held(cfg, c, DoListParts(d, p), p, now, Stage(c, now, Storing(list)))
  {
    hide InOrder;
  }

  lemma StoringStep(cfg: Config, c: Cell, d: Cell, p: Pid, now: nat, later: nat, fate: Fate)
    requires Openable(c, now) && Held(cfg, c, d, p, now, Stage(c, now, Storing(InOrder(c.row.value.upload.value.parts))))
    requires Inv(cfg, d, later) && now <= later <= now + cfg.work && State(d) == Uploading && d.multiparts == c.multiparts && d.blob == c.blob
    ensures var e := DoCompleteMultipart(cfg, d, later, p, CompleteMultipart(fate.effect, fate.reported, fate.headed));
      && d.row.value.scan == e.row.value.scan && State(e) == Uploading
      && (if Reaches(c, fate) then Held(cfg, c, e, p, now, Stage(c, now, Marking)) else Kin(c, e) && Idle(e, p))
  {
    hide InOrder, Join;
    var list := InOrder(c.row.value.upload.value.parts);
    AssemblableExactly(cfg, d, later);
    if d.blob.Some? { assert RightSize(d) by { hide ProcOk, PartsStored; } }
    hide Inv;
  }

  /** While the upload exists in S3 it can be assembled from the recorded parts, to
      the full size. */
  lemma AssemblableExactly(cfg: Config, d: Cell, now: nat)
    requires Inv(cfg, d, now) && HasUpload(d) && d.row.value.upload.value.multipart.Some? && d.row.value.upload.value.offset == d.row.value.size
    ensures var mp, list := d.row.value.upload.value.multipart.value, InOrder(d.row.value.upload.value.parts);
      && (Assemblable(d, mp, list) <==> mp in d.multiparts)
      && RightSize(d.(blob := Some(Join(list))))
  {
    hide ProcOk, Join;
    var u, size := d.row.value.upload.value, d.row.value.size;
    assert Tiled(u.parts, size, size) && PartsStored(d, u) && size >= 1;
    FileLength(u.parts, size, size);
    HighestTiled(u.parts, size, size);
    ListedAre(u.parts, PartCount(size));
    assert PartCount(size) in u.parts;
    hide Inv, Tiled;
  }

  lemma {:induction false} ListedAre(parts: map<nat, Chunk>, n: nat)
    ensures var list := ListUpTo(parts, n);
      && (forall i | 0 <= i < |list| :: list[i].number in parts && list[i].data == parts[list[i].number].data)
      && (n > 0 && n in parts ==> list != [])
  {
    if n > 0 { ListedAre(parts, n - 1); }
  }

  /** The finalizer has gone and its token with it. */
  predicate Idle(d: Cell, p: Pid) {
    HasUpload(d) && d.lock.None? && p !in d.procs && d.row.value.upload.value.token.None?
  }

  lemma ExpiredStep(cfg: Config, c: Cell, d: Cell, p: Pid, began: nat)
    requires exists proc :: Held(cfg, c, d, p, began, proc)
    ensures Kin(c, Finish(d, p)) && Idle(Finish(d, p), p) && State(Finish(d, p)) == State(d)
  {}

  lemma MarkedStep(cfg: Config, c: Cell, d: Cell, p: Pid, now: nat, later: nat)
    requires Openable(c, now) && Held(cfg, c, d, p, now, Stage(c, now, Marking)) && State(d) == Uploading && later < now + cfg.lease
    ensures var e := DoMarkAssembled(d, later, p, false);
      Held(cfg, c, e, p, now, Stage(c, now, Scanning)) && State(e) == Assembled && d.row.value.scan == e.row.value.scan
  {}

  function AfterScan(scanner: Option<Verdict>, before: ScanState): ScanState {
    match scanner
    case None => before
    case Some(VerdictInfected) => Infected
    case Some(VerdictClean) => Clean
    case Some(Unavailable) => before
  }

  predicate AsScanned(c: Cell, d: Cell, scanner: Option<Verdict>) {
    c.row.Some? && d.row.Some? && d.row.value.scan == AfterScan(scanner, c.row.value.scan)
  }

  function DoScan(d: Cell, later: nat, p: Pid, scanner: Option<Verdict>): Cell {
    if scanner.Some? then DoScanObject(d, later, p, scanner.value) else DoSkipScan(d, p)
  }

  /** What is left once the scan is over. */
  function Scanned(c: Cell, now: nat, scanner: Option<Verdict>): Proc
    requires HasUpload(c) && c.row.value.upload.value.multipart.Some?
  {
    if scanner == Some(VerdictInfected) then Cancelling(c.row.value.upload.value.multipart.value) else Stage(c, now, Completing)
  }

  lemma UnscannedStep(cfg: Config, c: Cell, d: Cell, p: Pid, now: nat)
    requires Openable(c, now) && Held(cfg, c, d, p, now, Stage(c, now, Scanning))
    ensures var e := DoSkipScan(d, p);
      Held(cfg, c, e, p, now, Stage(c, now, Completing)) && e.row == d.row && e.blob == d.blob
  {}

  lemma UnavailableStep(cfg: Config, c: Cell, d: Cell, p: Pid, now: nat, later: nat)
    requires Openable(c, now) && Held(cfg, c, d, p, now, Stage(c, now, Scanning))
    ensures var e := DoScanObject(d, later, p, Unavailable);
      Kin(c, e) && Idle(e, p) && State(e) == State(d) && e.blob == d.blob && e.row.value.scan == d.row.value.scan
  {}

  lemma VerdictStep(cfg: Config, c: Cell, d: Cell, p: Pid, now: nat, later: nat, verdict: Verdict)
    requires Openable(c, now) && Held(cfg, c, d, p, now, Stage(c, now, Scanning)) && RightSize(d) && verdict != Unavailable
    ensures var e := DoScanObject(d, later, p, verdict);
      && Held(cfg, c, e, p, now, Scanned(c, now, Some(verdict))) && State(e) == State(d) && e.blob == d.blob
      && e.row.value.scan == (if later < now + cfg.lease then AfterScan(Some(verdict), d.row.value.scan) else d.row.value.scan)
  {}

  lemma ScanningStep(cfg: Config, c: Cell, d: Cell, p: Pid, now: nat, later: nat, scanner: Option<Verdict>)
    requires Openable(c, now) && Held(cfg, c, d, p, now, Stage(c, now, Scanning)) && State(d) == Assembled && RightSize(d)
    ensures var e := DoScan(d, later, p, scanner);
      && HasUpload(e) && State(e) == Assembled && e.blob == d.blob
      && (if scanner == Some(Unavailable) then Kin(c, e) && Idle(e, p)
          else Held(cfg, c, e, p, now, Scanned(c, now, scanner)))
      && e.row.value.scan == (if later < now + cfg.lease then AfterScan(scanner, d.row.value.scan) else d.row.value.scan)
  {
    match scanner
    case None => UnscannedStep(cfg, c, d, p, now);
    case Some(Unavailable) => UnavailableStep(cfg, c, d, p, now, later);
    case Some(verdict) => VerdictStep(cfg, c, d, p, now, later, verdict);
    hide DoScanObject, DoSkipScan;
  }

  /** The whole file is there for those who may see it. */
  ghost predicate Delivered(c: Cell, d: Cell) {
    && HasUpload(c) && HasUpload(d)
    && Kin(c, d.(row := Some(d.row.value.(ready := c.row.value.ready))))
    && Usable(d) && ScanPassed(d.row.value) && State(d) == Complete
    && d.blob == Some(FileBytes(c.row.value.upload.value.parts))
    && |d.blob.value| == c.row.value.size
  }

  lemma CompletingStep(cfg: Config, c: Cell, d: Cell, p: Pid, now: nat, later: nat, permitted: bool)
    requires Openable(c, now) && Held(cfg, c, d, p, now, Stage(c, now, Completing)) && State(d) == Assembled
    requires d.blob == Some(FileBytes(c.row.value.upload.value.parts)) && |d.blob.value| == c.row.value.size
    requires !c.row.value.message && c.row.value.uploader
    ensures var e := DoCompleteUpload(d, later, p, permitted);
      if permitted && later < now + cfg.lease && c.row.value.room && ScanPassed(d.row.value)
      then Delivered(c, e) && p !in e.procs && e.lock.None?
      else Held(cfg, c, e, p, now, Cancelling(c.row.value.upload.value.multipart.value)) && e.row == d.row
  {
    hide FileBytes;
  }

  /** Tombstoned, with the reason on record. */
  predicate Dropped(c: Cell, d: Cell) {
    && HasUpload(c) && HasUpload(d)
    && d.row.value.deleted && State(d) == (if d.row.value.scan == Infected then Rejected else Cancelled)
    && d.row.value.upload.value.parts == c.row.value.upload.value.parts
    && d.row.value.upload.value.offset == c.row.value.upload.value.offset
  }

  lemma TombstoneStep(cfg: Config, c: Cell, d: Cell, p: Pid, now: nat, mp: nat)
    requires Held(cfg, c, d, p, now, Cancelling(mp)) && !c.row.value.message && !c.row.value.asset
    ensures var e := DoFencedCancel(d, p);
      Dropped(c, e) && p in e.procs && e.procs[p].Aborting? && e.lock.None? && e.row.value.scan == d.row.value.scan
  {}

  lemma AbortStep(c: Cell, d: Cell, p: Pid, effect: bool, reported: bool)
    requires Dropped(c, d) && p in d.procs && d.procs[p].Aborting? && d.lock.None?
    ensures var e := DoAbort(d, p, effect, reported);
      Dropped(c, e) && p in e.procs && e.procs[p].Sweeping? && e.lock.None? && e.row.value.scan == d.row.value.scan
  {}

  lemma SweepStep(c: Cell, d: Cell, p: Pid, swept: bool)
    requires Dropped(c, d) && p in d.procs && d.procs[p].Sweeping? && d.lock.None?
    ensures var e := DoSweepObject(d, p, swept);
      Dropped(c, e) && p !in e.procs && e.lock.None? && e.row.value.scan == d.row.value.scan && (swept ==> e.blob.None?)
  {}

  lemma AssembledIsStored(cfg: Config, c: Cell, d: Cell, now: nat)
    requires Inv(cfg, d, now) && Kin(c, d) && State(d) == Assembled && !c.row.value.deleted
    ensures RightSize(d) && d.blob == Some(FileBytes(c.row.value.upload.value.parts)) && |d.blob.value| == c.row.value.size
  {
    hide ProcOk, PartsStored, FileBytes, UploadOk;
  }

  /** An upload that is still open belongs to somebody and to no message. */
  lemma OpenIsLoose(cfg: Config, c: Cell, now: nat)
    requires Inv(cfg, c, now) && Openable(c, now)
    ensures !c.row.value.message && !c.row.value.asset && c.row.value.uploader && !c.row.value.ready
    ensures HasUpload(c) && c.row.value.upload.value.multipart.Some? && (State(c) == Uploading || State(c) == Assembled)
  {
    hide ProcOk, PartsStored, FileBytes, UploadOk, Stored;
  }

  // ---- One item of the cleanup worker ----------------------------------------------------

  /** What S3 does with one delete call. */
  datatype Deletion = Deletion(effect: bool, reported: bool)

  predicate Gone(k: Deletion) { k.effect && k.reported }

  /** Locking the row, asking S3 to delete the object, and the end of the transaction. */
  function CleanOne(c: Cell, now: nat, p: Pid, k: Deletion, committed: bool): Cell {
    var d := DoCleanDelete(DoCleanSelect(c, now, p), p, k.effect, k.reported);
    if committed then DoCleanCommit(d, p) else Leave(d, p)
  }

  /** The row goes only once S3 confirmed that the object is gone. */
  predicate Cleaned(c: Cell, d: Cell, k: Deletion, committed: bool) {
    && d.row == (if Gone(k) && committed then None else c.row)
    && d.blob == (if k.effect then None else c.blob)
    && d.multiparts == c.multiparts
  }

  lemma CleanStep(cfg: Config, c: Cell, now: nat, p: Pid, k: Deletion, committed: bool)
    requires Safe(cfg) && Inv(cfg, c, now) && c.lock.None? && c.row.Some? && Cleanable(c.row.value, now) && Fresh(c, p)
    ensures var d := CleanOne(c, now, p, k, committed);
      Inv(cfg, d, now) && d.lock.None? && Cleaned(c, d, k, committed)
  {
    hide Inv, Cleanable;
    InvCleanSelect(cfg, c, now, p);
    var b := DoCleanSelect(c, now, p);
    InvCleanDelete(cfg, b, now, p, k.effect, k.reported);
    var d := DoCleanDelete(b, p, k.effect, k.reported);
    InvCleanCommit(cfg, d, now, p);
    InvLeave(cfg, d, now, p);
  }

  // ---- The handlers ----------------------------------------------------------------------

  class Server {
    const cfg: Config
    var now: nat
    var cells: map<Id, Cell>

    ghost predicate Valid()
      reads this
    {
      Safe(cfg) && forall id | id in cells :: Inv(cfg, cells[id], now) && cells[id].lock.None?
    }

    constructor (cfg: Config)
      requires Safe(cfg)
      ensures Valid() && now == 0 && cells == map[] && this.cfg == cfg
    {
      this.cfg := cfg;
      now, cells := 0, map[];
    }

    method Wait(seconds: nat)
      requires Valid()
      modifies this`now
      ensures Valid() && now == old(now) + seconds
    {
      forall id | id in cells ensures Inv(cfg, cells[id], now + seconds) { InvTick(cfg, cells[id], now, now + seconds); }
      hide Inv;
      now := now + seconds;
    }

    /** cancelResumable, called by the finalizer `p`. */
    method CancelOwn(id: Id, p: Pid, fate: Fate, ghost c: Cell, ghost began: nat, ghost mp: nat)
      requires Valid() && id in cells && Held(cfg, c, cells[id], p, began, Cancelling(mp)) && !c.row.value.message && !c.row.value.asset
      modifies this`cells
      ensures Valid() && id in cells && cells == old(cells)[id := cells[id]] && Dropped(c, cells[id])
      ensures cells[id].row.Some? && cells[id].row.value.scan == old(cells)[id].row.value.scan && (fate.swept ==> cells[id].blob.None?)
    {
      var d := cells[id];
      TombstoneStep(cfg, c, d, p, began, mp);
      InvFencedCancel(cfg, d, now, p);
      var e := DoFencedCancel(d, p);
      AbortStep(c, e, p, fate.aborted, fate.abortReported);
      InvAbort(cfg, e, now, p, fate.aborted, fate.abortReported);
      var f := DoAbort(e, p, fate.aborted, fate.abortReported);
      SweepStep(c, f, p, fate.swept);
      InvSweep(cfg, f, now, p, fate.swept);
      hide Inv, DoFencedCancel, DoAbort, DoSweepObject, Held, Kin, Dropped;
      cells := cells[id := DoSweepObject(f, p, fate.swept)];
    }

    /** The part rows, read once under the lease. */
    method ListRows(id: Id, p: Pid, ghost c: Cell)
      requires Valid() && id in cells && Ready(c, now, cells[id], p, Listing, Uploading)
      modifies this`cells
      ensures Valid() && id in cells && cells == old(cells)[id := cells[id]]
      ensures HasUpload(c) && Ready(c, now, cells[id], p, Storing(InOrder(c.row.value.upload.value.parts)), Uploading)
      ensures cells[id].blob == old(cells)[id].blob && cells[id].multiparts == old(cells)[id].multiparts
    {
      var d := cells[id];
      OpenPartNumbers(cfg, d, now);
      ListingStep(cfg, c, d, p, now);
      InvList(cfg, d, now, p);
      hide Inv, Held, Kin, Openable, InOrder, DoListParts;
      var list := PartsInOrder(d.row.value.upload.value.parts);
      cells := cells[id := Move(d, p, d.procs[p].(phase := Storing(list)))];
    }

    /** S3's CompleteMultipartUpload, within the request's five minutes. */
    method StoreObject(id: Id, p: Pid, fate: Fate, ghost c: Cell, began: nat) returns (stored: bool)
      requires Valid() && id in cells && began <= now
      requires HasUpload(c) && Ready(c, began, cells[id], p, Storing(InOrder(c.row.value.upload.value.parts)), Uploading)
      requires cells[id].blob == c.blob && cells[id].multiparts == c.multiparts
      modifies this`cells
      ensures Valid() && id in cells && cells == old(cells)[id := cells[id]]
      ensures stored <==> now <= began + cfg.work && Reaches(c, fate)
      ensures if stored then Ready(c, began, cells[id], p, Marking, Uploading)
              else Kin(c, cells[id]) && Idle(cells[id], p) && State(cells[id]) == Uploading
    {
      var d := cells[id];
      hide Inv, Held, Kin, Openable, Reaches, InOrder, DoCompleteMultipart, Finish;
      if now > began + cfg.work {
        ExpiredStep(cfg, c, d, p, began);
        InvFinish(cfg, d, now, p);
        cells := cells[id := Finish(d, p)];
        return false;
      }
      var op := CompleteMultipart(fate.effect, fate.reported, fate.headed);
      StoringStep(cfg, c, d, p, began, now, fate);
      InvComplete(cfg, d, now, p, op);
      cells := cells[id := DoCompleteMultipart(cfg, d, now, p, op)];
      stored := p in cells[id].procs;
      assert Reaches(c, fate) ==> stored by {
        hide *; if Reaches(c, fate) { assert Held(cfg, c, cells[id], p, began, Stage(c, began, Marking)); }
      }
    }

    /** The update to `assembled`; an error leaves the object to the next attempt. */
    method RecordAssembly(id: Id, p: Pid, ghost c: Cell, began: nat) returns (marked: bool)
      requires Valid() && id in cells && Ready(c, began, cells[id], p, Marking, Uploading)
      modifies this`cells
      ensures Valid() && id in cells && cells == old(cells)[id := cells[id]]
      ensures marked <==> now <= began + cfg.work
      ensures if marked then Ready(c, began, cells[id], p, Scanning, Assembled)
              else Kin(c, cells[id]) && Idle(cells[id], p) && State(cells[id]) == Uploading
    {
      var d := cells[id];
      marked := now <= began + cfg.work;
      if marked {
        MarkedStep(cfg, c, d, p, began, now);
        InvMark(cfg, d, now, p, false);
        cells := cells[id := DoMarkAssembled(d, now, p, false)];
      } else {
        ExpiredStep(cfg, c, d, p, began);
        InvFinish(cfg, d, now, p);
        cells := cells[id := Finish(d, p)];
      }
      hide Inv, Kin, Openable, DoMarkAssembled, Finish;
    }

    /** From the part list to the `assembled` state. */
    method AssembleParts(id: Id, p: Pid, fate: Fate, ghost c: Cell) returns (assembled: bool)
      requires Valid() && id in cells && Ready(c, now, cells[id], p, Listing, Uploading)
      requires cells[id].blob == c.blob && cells[id].multiparts == c.multiparts
      modifies this
      ensures Valid() && id in cells && cells == old(cells)[id := cells[id]]
      ensures assembled <==> fate.storing + fate.marking <= cfg.work && Reaches(c, fate)
      ensures assembled ==> now == old(now) + fate.storing + fate.marking && Ready(c, old(now), cells[id], p, Scanning, Assembled)
      ensures !assembled ==> Kin(c, cells[id]) && Idle(cells[id], p) && State(cells[id]) == Uploading
    {
      hide Valid, Ready, Reaches, Openable, Held, Kin, Idle, InOrder;
      var began := now;
      ListRows(id, p, c);
      Wait(fate.storing);
      assembled := StoreObject(id, p, fate, c, began);
      if assembled {
        Wait(fate.marking);
        assembled := RecordAssembly(id, p, c, began);
      }
    }

    /** The scan, unless there is none; one that outlives the request is an error. */
    method ScanStored(id: Id, p: Pid, scanner: Option<Verdict>, ghost c: Cell, began: nat) returns (scanned: bool)
      requires Valid() && id in cells && Ready(c, began, cells[id], p, Scanning, Assembled)
      modifies this`cells
      ensures Valid() && id in cells && cells == old(cells)[id := cells[id]]
      ensures HasUpload(cells[id]) && State(cells[id]) == Assembled
      ensures HasUpload(c) && c.row.value.upload.value.multipart.Some?
      ensures scanned <==> scanner.None? || (now <= began + cfg.work && scanner.value != Unavailable)
      ensures if scanned then Held(cfg, c, cells[id], p, began, Scanned(c, began, scanner)) else Kin(c, cells[id]) && Idle(cells[id], p)
      ensures scanned ==> cells[id].row.value.scan == AfterScan(scanner, c.row.value.scan)
    {
      var d := cells[id];
      var seen := if scanner.Some? && now > began + cfg.work then Some(Unavailable) else scanner;
      AssembledIsStored(cfg, c, d, now);
      ScanningStep(cfg, c, d, p, began, now, seen);
      if seen.Some? { InvScan(cfg, d, now, p, seen.value); } else { InvSkip(cfg, d, now, p); }
      hide Inv, Held, Kin, Openable, DoScanObject, DoSkipScan;
      cells := cells[id := DoScan(d, now, p, seen)];
      scanned := seen != Some(Unavailable);
    }

    /** The completion, whose refusal or failure cancels the upload. */
    method Complete(id: Id, p: Pid, fate: Fate, ghost c: Cell, began: nat) returns (done: bool)
      requires Valid() && id in cells && Openable(c, began) && !c.row.value.message && !c.row.value.asset && c.row.value.uploader
      requires Held(cfg, c, cells[id], p, began, Stage(c, began, Completing)) && State(cells[id]) == Assembled
      modifies this`cells
      ensures Valid() && id in cells && cells == old(cells)[id := cells[id]]
      ensures done <==> fate.permitted && now <= began + cfg.work && c.row.value.room && ScanPassed(old(cells)[id].row.value)
      ensures if done then Delivered(c, cells[id]) else Dropped(c, cells[id])
      ensures !done ==> cells[id].row.Some? && cells[id].row.value.scan == old(cells)[id].row.value.scan
    {
      var d := cells[id];
      var alive := fate.permitted && now <= began + cfg.work;
      AssembledIsStored(cfg, c, d, now);
      CompletingStep(cfg, c, d, p, began, now, alive);
      InvReady(cfg, d, now, p, alive);
      ghost var mp := c.row.value.upload.value.multipart.value;
      hide Inv, DoCompleteUpload, Kin, FileBytes, Delivered, Dropped, Openable;
      var e := DoCompleteUpload(d, now, p, alive);
      cells := cells[id := e];
      done := p !in e.procs;
      if !done {
        CancelOwn(id, p, fate, c, began, mp);
      }
    }

    method Conclude(id: Id, p: Pid, fate: Fate, ghost c: Cell, began: nat) returns (outcome: Outcome)
      requires Valid() && id in cells && Ready(c, began, cells[id], p, Scanning, Assembled) && began <= now
      requires !c.row.value.message && !c.row.value.asset && c.row.value.uploader
      modifies this
      ensures Valid() && id in cells && cells == old(cells)[id := cells[id]]
      ensures HasUpload(c) && outcome == Concluded(cfg, c, old(now) - began, fate)
      ensures Ended(outcome, c, cells[id], p)
      ensures outcome == Withdrawn ==> AsScanned(c, cells[id], fate.scanner)
    {
      hide Valid, Held, Kin, Openable, Delivered, Dropped, DoScan, Idle;
      var scanned := ScanStored(id, p, fate.scanner, c, began);
      if !scanned {
        return Interrupted;
      }
      if fate.scanner == Some(VerdictInfected) {
        CancelOwn(id, p, fate, c, began, c.row.value.upload.value.multipart.value);
        return Withdrawn;
      }
      Wait(fate.completing);
      var done := Complete(id, p, fate, c, began);
      outcome := if done then Finished else Withdrawn;
    }

    /** The statements before any S3 call. */
    method TakeTheLease(id: Id, p: Pid) returns (open: bool)
      requires Valid() && id in cells && Fresh(cells[id], p)
      modifies this`cells
      ensures Valid() && id in cells && cells == old(cells)[id := cells[id]]
      ensures cells[id].blob == old(cells)[id].blob
      ensures var c := old(cells)[id];
        && (open <==> Openable(c, now))
        && (open ==>
              && HasUpload(c) && Ready(c, now, cells[id], p, if State(c) == Assembled then Scanning else Listing, State(c))
              && cells[id].multiparts == c.multiparts
              && (State(c) == Uploading || State(c) == Assembled)
              && !c.row.value.message && !c.row.value.asset && c.row.value.uploader)
        && (!open ==> cells[id].row == c.row)
    {
      var c := cells[id];
      open := Openable(c, now);
      if open { LeaseStep(cfg, c, now, p); OpenIsLoose(cfg, c, now); } else { NoLeaseStep(cfg, c, now, p); }
      var d := DoReadUpload(c, now, p);
      InvRead(cfg, c, now, p);
      InvLease(cfg, d, now, p);
      hide Inv, DoReadUpload, DoTakeLease, Held, Kin;
      cells := cells[id := DoTakeLease(cfg, d, now, p)];
    }

    /** finishResumable, undisturbed: whatever S3, the scanner and the clock do, the
        upload ends as the outcome says, and it is finished exactly when it could be. */
    method FinishResumable(id: Id, p: Pid, fate: Fate) returns (outcome: Outcome)
      requires Valid() && id in cells && Fresh(cells[id], p)
      modifies this
      ensures Valid() && id in cells && cells == old(cells)[id := cells[id]]
      ensures outcome == OutcomeOf(cfg, old(cells)[id], old(now), fate)
      ensures outcome == Finished <==> Finishes(cfg, old(cells)[id], old(now), fate)
      ensures Ended(outcome, old(cells)[id], cells[id], p)
      ensures outcome == Withdrawn ==> AsScanned(old(cells)[id], cells[id], fate.scanner)
    {
      hide Valid, Held, Kin, Reaches, Dropped, Delivered, Openable, Ready, Passes, Idle;
      var c, began := cells[id], now;
      FinishesExactly(cfg, c, now, fate);
      var open := TakeTheLease(id, p);
      if !open {
        return Refused;
      }
      if State(c) == Uploading {
        var assembled := AssembleParts(id, p, fate, c);
        if !assembled {
          return Interrupted;
        }
      }
      Wait(fate.scanning);
      outcome := Conclude(id, p, fate, c, began);
    }

    /** CleanPendingAttachments over the rows its query picked; `did` is what S3
        makes of each delete, `committed` whether the transaction ends well. */
    method CleanPendingAttachments(items: seq<Id>, p: Pid, did: seq<Deletion>, committed: bool) returns (ok: bool)
      requires Valid() && |items| == |did| <= 50
      requires forall i, j | 0 <= i < j < |items| :: items[i] != items[j]
      requires forall id | id in items :: id in cells && Fresh(cells[id], p) && cells[id].row.Some? && Cleanable(cells[id].row.value, now)
      modifies this`cells
      ensures Valid() && cells.Keys == old(cells).Keys
      ensures forall id | id in cells && id !in items :: cells[id] == old(cells)[id]
      ensures forall i | 0 <= i < |items| :: items[i] in cells && Cleaned(old(cells)[items[i]], cells[items[i]], did[i], committed)
      ensures ok <==> committed && forall i | 0 <= i < |items| :: Gone(did[i])
    {
      hide Inv, CleanOne, Cleaned, Cleanable, Advances, Usable;
      ok := committed;
      for i := 0 to |items|
        invariant Valid() && cells.Keys == old(cells).Keys
        invariant forall id | id in cells && id !in items[..i] :: cells[id] == old(cells)[id]
        invariant forall j | 0 <= j < i :: items[j] in cells && Cleaned(old(cells)[items[j]], cells[items[j]], did[j], committed)
        invariant ok <==> committed && forall j | 0 <= j < i :: Gone(did[j])
      {
        var id := items[i];
        assert id !in items[..i];
        CleanStep(cfg, cells[id], now, p, did[i], committed);
        cells := cells[id := CleanOne(cells[id], now, p, did[i], committed)];
        ok := ok && Gone(did[i]);
        assert items[..i + 1] == items[..i] + [id];
      }
      assert items[..|items|] == items;
    }

    /** `p` is at `phase` of finalizing `c`, whose scan state is as it was. */
    ghost predicate Ready(c: Cell, began: nat, d: Cell, p: Pid, phase: FinPhase, state: UploadState) {
      && Openable(c, began)
      && Held(cfg, c, d, p, began, Stage(c, began, phase)) && State(d) == state && d.row.value.scan == c.row.value.scan
    }

    /** uploadChunk. `mp` is the upload S3 would begin; `stored` and `committed` say
        whether PutPart and the closing transaction succeed. */
    method UploadChunk(id: Id, offset: nat, data: Bytes, mp: nat, stored: bool, committed: bool) returns (verdict: ChunkVerdict)
      requires Valid() && id in cells && ChunkBody(data)
      modifies this`cells
      ensures Valid() && id in cells && cells == old(cells)[id := cells[id]]
      ensures verdict == JudgeChunk(old(cells)[id], now, offset, data)
      ensures verdict != Acceptable ==> cells == old(cells)
      ensures Accepts(old(cells)[id], offset, data, mp, verdict) && stored && committed ==> Appended(old(cells)[id], cells[id], data)
    {
      var c := cells[id];
      verdict := JudgeChunk(c, now, offset, data);
      if verdict != Acceptable {
        return;
      }
      hide Inv, JudgeChunk, DoBeginMultipart, DoStoreChunk, Appended, Accepts;
      ChunkStep(cfg, c, now, offset, data, mp, stored, committed);
      var begun := DoBeginMultipart(c, now, BeginMultipart(offset, data, mp, true));
      cells := cells[id := begun];
      if stored {
        cells := cells[id := DoStoreChunk(begun, now, StoreChunk(offset, data, committed))];
      }
    }
  }

  /** The upload is open to this chunk: not locked, its multipart known to S3 or yet
      to be begun, and room for one more part. */
  predicate Accepts(c: Cell, offset: nat, data: Bytes, mp: nat, verdict: ChunkVerdict) {
    && verdict == Acceptable && HasUpload(c) && PartCount(offset) < MAX_PARTS
    && (if c.row.value.upload.value.multipart.Some? then c.row.value.upload.value.multipart.value in c.multiparts else mp !in c.begun)
  }

  /** The offset moves by the chunk, and the file gains exactly its bytes. */
  ghost predicate Appended(c: Cell, d: Cell, data: Bytes) {
    && HasUpload(c) && HasUpload(d)
    && var u, v := c.row.value.upload.value, d.row.value.upload.value;
       && v.offset == u.offset + |data| && FileBytes(v.parts) == FileBytes(u.parts) + data && v.state == Uploading
       && d.row.value.(upload := c.row.value.upload) == c.row.value
  }

  lemma BeginStep(c: Cell, now: nat, offset: nat, data: Bytes, mp: nat)
    requires JudgeChunk(c, now, offset, data) == Acceptable && ChunkBody(data) && Accepts(c, offset, data, mp, Acceptable) && c.lock.None?
    ensures var b := DoBeginMultipart(c, now, BeginMultipart(offset, data, mp, true));
      && HasUpload(b) && b.lock.None? && JudgeChunk(b, now, offset, data) == Acceptable
      && b.row.value.upload.value.multipart.Some? && b.row.value.upload.value.multipart.value in b.multiparts
      && b.row.value.upload.value.parts == c.row.value.upload.value.parts
      && b.row.value.upload.value.offset == c.row.value.upload.value.offset == offset
      && b.row.value.(upload := c.row.value.upload) == c.row.value
  {}

  /** What UploadChunk's closing transaction leaves. */
  lemma StoredUpload(b: Cell, now: nat, offset: nat, data: Bytes)
    requires JudgeChunk(b, now, offset, data) == Acceptable && ChunkBody(data) && b.lock.None?
    requires b.row.value.upload.value.multipart.Some? && b.row.value.upload.value.multipart.value in b.multiparts
    requires offset / CHUNK_BYTES + 1 !in b.row.value.upload.value.parts && offset / CHUNK_BYTES < MAX_PARTS
    ensures HasUpload(b) && b.row.value.upload.value.offset == offset
    ensures DoStoreChunk(b, now, StoreChunk(offset, data, true)).row == Some(b.row.value.(upload := Some(Recorded(b.row.value.upload.value, data))))
  {}

  lemma NextChunkFits(cfg: Config, b: Cell, now: nat, offset: nat, data: Bytes)
    requires Inv(cfg, b, now) && JudgeChunk(b, now, offset, data) == Acceptable
    ensures HasUpload(b)
    ensures var u, size := b.row.value.upload.value, b.row.value.size;
      Tiled(u.parts, offset, size) && offset + |data| <= size && (|data| == CHUNK_BYTES || offset + |data| == size)
  {
    hide ProcOk, PartsStored, FileBytes, Tiled, Stored;
  }

  lemma StoreStep(cfg: Config, b: Cell, now: nat, offset: nat, data: Bytes)
    requires Inv(cfg, b, now) && JudgeChunk(b, now, offset, data) == Acceptable && ChunkBody(data) && b.lock.None?
    requires b.row.value.upload.value.multipart.Some? && b.row.value.upload.value.multipart.value in b.multiparts
    requires PartCount(offset) < MAX_PARTS
    ensures Appended(b, DoStoreChunk(b, now, StoreChunk(offset, data, true)), data)
  {
    hide FileBytes, Tiled, Inv, JudgeChunk, DoStoreChunk;
    NextChunkFits(cfg, b, now, offset, data);
    var u, size := b.row.value.upload.value, b.row.value.size;
    TiledGrow(u.parts, offset, size, data);
    FileGrows(u.parts, offset, size, data);
    StoredUpload(b, now, offset, data);
  }

  lemma ChunkStep(cfg: Config, c: Cell, now: nat, offset: nat, data: Bytes, mp: nat, stored: bool, committed: bool)
    requires Safe(cfg) && Inv(cfg, c, now) && JudgeChunk(c, now, offset, data) == Acceptable && ChunkBody(data) && c.lock.None?
    ensures var b := DoBeginMultipart(c, now, BeginMultipart(offset, data, mp, true));
      && Inv(cfg, b, now) && Inv(cfg, DoStoreChunk(b, now, StoreChunk(offset, data, committed)), now)
      && b.lock.None? && DoStoreChunk(b, now, StoreChunk(offset, data, committed)).lock.None?
      && (Accepts(c, offset, data, mp, Acceptable) && committed ==>
            Appended(c, DoStoreChunk(b, now, StoreChunk(offset, data, committed)), data))
  {
    hide Inv, JudgeChunk, DoBeginMultipart, DoStoreChunk, FileBytes, Advances, Usable, Accepts, Appended;
    var b := DoBeginMultipart(c, now, BeginMultipart(offset, data, mp, true));
    InvBegin(cfg, c, now, BeginMultipart(offset, data, mp, true));
    InvStore(cfg, b, now, StoreChunk(offset, data, committed));
    ChunksLockNothing(c, now, offset, data, mp, committed);
    if Accepts(c, offset, data, mp, Acceptable) && committed {
      AppendedBoth(cfg, c, now, offset, data, mp);
    }
  }

  lemma ChunksLockNothing(c: Cell, now: nat, offset: nat, data: Bytes, mp: nat, committed: bool)
    requires c.lock.None?
    ensures var b := DoBeginMultipart(c, now, BeginMultipart(offset, data, mp, true));
      b.lock.None? && DoStoreChunk(b, now, StoreChunk(offset, data, committed)).lock.None?
  {
    hide JudgeChunk, Advances, Usable;
  }

  lemma AppendedBoth(cfg: Config, c: Cell, now: nat, offset: nat, data: Bytes, mp: nat)
    requires c.lock.None? && JudgeChunk(c, now, offset, data) == Acceptable && ChunkBody(data) && Accepts(c, offset, data, mp, Acceptable)
    requires Inv(cfg, DoBeginMultipart(c, now, BeginMultipart(offset, data, mp, true)), now)
    ensures Appended(c, DoStoreChunk(DoBeginMultipart(c, now, BeginMultipart(offset, data, mp, true)), now, StoreChunk(offset, data, true)), data)
  {
    hide Inv, JudgeChunk, DoBeginMultipart, DoStoreChunk, FileBytes, Advances, Usable;
    BeginStep(c, now, offset, data, mp);
    StoreStep(cfg, DoBeginMultipart(c, now, BeginMultipart(offset, data, mp, true)), now, offset, data);
  }
}
