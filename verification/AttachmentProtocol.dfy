/** The life of one attachment: its database row, the optional resumable-upload
    row beside it, the bytes S3 holds under its key, and every request or worker
    that is part-way through handling it.

    Each operation below is one SQL statement or transaction, or one S3 call, of
    the handlers in storage_features.go, storage_features_store.go,
    attachment_store.go and attachments.go. An operation whose guard fails leaves
    the cell as it was. Requests interleave at that grain and may crash between
    any two of their operations. */
module AttachmentProtocol {
  import opened Options

  type Byte = bv8
  type Bytes = seq<Byte>
  type Pid = nat

  const CHUNK_BYTES: nat := 8388608
  const MAX_PARTS: nat := 10000
  const DAY: nat := 86400

  /** Seconds. `work` bounds a finalizer's S3 calls after it took its lease,
      `lease` is how long cleanup respects that lease, `cleanup` bounds one
      delete request's storage call and row removal, and `legacy` bounds the
      single-request upload from saving its row to storing its bytes. */
  datatype Config = Config(work: nat, lease: nat, cleanup: nat, legacy: nat)

  predicate Safe(cfg: Config) {
    cfg.work + cfg.cleanup < cfg.lease && cfg.legacy <= DAY
  }

  datatype UploadState = Creating | Uploading | Assembled | Complete | Cancelled | Rejected
  datatype ScanState = NotRequired | Pending | Clean | Infected
  datatype Chunk = Chunk(offset: nat, data: Bytes)
  datatype Listed = Listed(number: nat, data: Bytes)

  datatype Upload = Upload(
    state: UploadState,
    multipart: Option<nat>,
    offset: nat,
    parts: map<nat, Chunk>,
    token: Option<Pid>,
    until: nat)

  /** `room`, `uploader`, `message` and `asset` say whether the foreign key is set. */
  datatype Row = Row(
    size: nat,
    created: nat,
    room: bool,
    uploader: bool,
    message: bool,
    asset: bool,
    deleted: bool,
    ready: bool,
    scan: ScanState,
    upload: Option<Upload>)

  datatype FinPhase = Listing | Storing(list: seq<Listed>) | Marking | Scanning | Completing
  datatype LegacyPhase = Screening | Putting | Put | Responding | Failed
  datatype Kind = Tombstoned | Discarded(hit: bool) | Library

  /** What a request still has in hand. */
  datatype Proc =
    | FinRead(mp: nat, assembled: bool)
    | Fin(began: nat, mp: nat, phase: FinPhase)
    | CancelRead(seen: Option<nat>)
    | Cancelling(mp: nat)
    | Aborting(target: Option<nat>)
    | Sweeping
    | Deleting(kind: Kind, deadline: nat)
    | Removing(kind: Kind, deadline: nat)
    | Legacy(saved: nat, stage: LegacyPhase)
    | Cleaner(gone: bool)

  datatype Cell = Cell(
    born: bool,
    row: Option<Row>,
    blob: Option<Bytes>,
    multiparts: map<nat, map<nat, Bytes>>,
    begun: set<nat>,
    procs: map<Pid, Proc>,
    used: set<Pid>,
    lock: Option<Pid>,
    creator: Pid,
    missed: bool)

  const UNBORN := Cell(false, None, None, map[], {}, map[], {}, None, 0, false)

  datatype Verdict = VerdictClean | VerdictInfected | Unavailable

  datatype Op =
    | StartResumable(size: nat, scanned: bool)
    | BeginMultipart(offset: nat, data: Bytes, mp: nat, committed: bool)
    | StoreChunk(offset: nat, data: Bytes, committed: bool)
    | ReadUpload
    | TakeLease
    | ListParts
    | CompleteMultipart(effect: bool, reported: bool, headed: bool)
    | MarkAssembled(visible: bool)
    | ScanObject(verdict: Verdict)
    | SkipScan
    | CompleteUpload(permitted: bool)
    | FencedCancel
    | ReadCancel(stale: bool)
    | CancelUpload
    | Abort(effect: bool, reported: bool)
    | SweepObject(effect: bool)
    | CancelPending
    | LibraryDelete
    | DeleteObject(effect: bool, reported: bool)
    | RemoveRow
    | LegacySave(size: nat, scanned: bool)
    | LegacyScan(verdict: Verdict)
    | LegacyPut(data: Bytes, effect: bool, reported: bool)
    | LegacyComplete(permitted: bool)
    | LegacyDiscard(ran: bool)
    | Claim
    | RegisterAsset
    | DeleteAsset
    | DeleteMessage
    | DeleteAccount
    | DeleteRoom
    | Retire
    | CleanSelect
    | CleanDelete(effect: bool, reported: bool)
    | CleanCommit
    | End
    | Crash

  // ---- Queries -------------------------------------------------------------

  predicate Terminal(s: UploadState) { s == Complete || s == Cancelled || s == Rejected }

  predicate ScanPassed(r: Row) { r.scan == NotRequired || r.scan == Clean }

  /** The upload row's fencing token and expiry both favour `p`. */
  predicate Fenced(u: Upload, p: Pid, now: nat) { u.token == Some(p) && u.until > now }

  predicate LeaseLive(r: Row, now: nat) { r.upload.Some? && r.upload.value.until > now }

  predicate HealthyAsset(r: Row) {
    r.asset && r.room && r.ready && ScanPassed(r) && !r.deleted && r.uploader
  }

  /** The WHERE clause of CleanPendingAttachments. */
  predicate Cleanable(r: Row, now: nat) {
    && !HealthyAsset(r)
    && (r.upload.Some? ==>
          var u := r.upload.value;
          && u.until <= now && Terminal(u.state)
          && (u.state != Complete ==> u.multipart.None?))
    && ((!r.message && now > r.created + DAY) || (r.ready && (!r.room || !r.uploader || r.deleted)))
  }

  /** Rows whose object a member may still be shown: AttachmentForMember. */
  predicate Served(r: Row, now: nat) {
    && r.ready && !r.deleted && r.room && ScanPassed(r)
    && (r.message || r.asset || now < r.created + DAY)
  }

  function ListUpTo(parts: map<nat, Chunk>, n: nat): (s: seq<Listed>) {
    if n == 0 then []
    else ListUpTo(parts, n - 1) + (if n in parts then [Listed(n, parts[n].data)] else [])
  }

  function Join(list: seq<Listed>): Bytes {
    if list == [] then [] else Join(list[..|list| - 1]) + list[|list| - 1].data
  }

  ghost function Highest(numbers: set<nat>): (h: nat)
    ensures forall n | n in numbers :: n <= h
    ensures numbers == {} ==> h == 0
    ensures numbers != {} ==> h in numbers
  {
    if numbers == {} then 0
    else
      var n :| n in numbers;
      var rest := Highest(numbers - {n});
      assert forall m | m in numbers :: m == n || m in numbers - {n};
      if n < rest then rest else n
  }

  /** SELECT … ORDER BY part_number. */
  ghost function InOrder(parts: map<nat, Chunk>): seq<Listed> { ListUpTo(parts, Highest(parts.Keys)) }

  ghost function FileBytes(parts: map<nat, Chunk>): Bytes { Join(InOrder(parts)) }

  // ---- Building blocks -----------------------------------------------------

  predicate Fresh(c: Cell, p: Pid) { p !in c.used }

  function Enter(c: Cell, p: Pid, proc: Proc): Cell {
    c.(procs := c.procs[p := proc], used := c.used + {p})
  }

  function Move(c: Cell, p: Pid, proc: Proc): Cell { c.(procs := c.procs[p := proc]) }

  function Leave(c: Cell, p: Pid): Cell {
    c.(procs := c.procs - {p}, lock := if c.lock == Some(p) then None else c.lock)
  }

  function SetUpload(c: Cell, u: Upload): Cell
    requires c.row.Some?
  {
    c.(row := Some(c.row.value.(upload := Some(u))))
  }

  /** The handler's deferred statement clears the token only if it is its own. */
  function Finish(c: Cell, p: Pid): (d: Cell)
    ensures d.born == c.born && (d.row.Some? <==> c.row.Some?)
    ensures c.row.Some? ==> SameButToken(c.row.value, d.row.value)
  {
    var e := Leave(c, p);
    if e.row.Some? && e.row.value.upload.Some? && e.row.value.upload.value.token == Some(p) then
      SetUpload(e, e.row.value.upload.value.(token := None))
    else e
  }

  predicate HasUpload(c: Cell) { c.row.Some? && c.row.value.upload.Some? }

  function State(c: Cell): UploadState
    requires HasUpload(c)
  {
    c.row.value.upload.value.state
  }

  predicate Usable(c: Cell) { c.row.Some? && c.row.value.ready && !c.row.value.deleted }

  /** What an operation can make of a terminal upload. */
  predicate Successor(before: UploadState, after: UploadState) {
    match before
    case Rejected => after == Rejected
    case Cancelled => after == Cancelled || after == Rejected
    case Complete => after == Complete || after == Cancelled || after == Rejected
    case _ => true
  }

  /** How a row may change while it exists: a tombstone and a forgotten uploader
      are for good, size and birth are fixed, and terminal states only move on. */
  predicate Advances(c: Cell, d: Cell) {
    c.born ==>
      && d.born
      && (c.row.None? ==> d.row.None?)
      && (c.row.Some? && d.row.Some? ==>
            var r, s := c.row.value, d.row.value;
            && s.size == r.size && s.created == r.created
            && (r.deleted ==> s.deleted) && (!r.uploader ==> !s.uploader) && (r.ready ==> s.ready)
            && (s.upload.Some? <==> r.upload.Some?)
            && (r.upload.Some? && (r.upload.value.state == Rejected ==> r.scan == Infected && r.deleted) ==>
                  Successor(r.upload.value.state, s.upload.value.state)))
  }

  /** Equal but for a released token. */
  predicate SameButToken(r: Row, s: Row) {
    && (r.upload.Some? <==> s.upload.Some?)
    && (r.upload.Some? ==> s.upload.value == r.upload.value.(token := s.upload.value.token))
    && s == r.(upload := s.upload)
  }

  /** What a finalizer without a live lease does to the database: nothing. */
  predicate Harmless(c: Cell, now: nat, p: Pid, d: Cell) {
    HasUpload(c) && !Fenced(c.row.value.upload.value, p, now) ==> d.row.Some? && SameButToken(c.row.value, d.row.value)
  }

  // ---- Chunks --------------------------------------------------------------

  datatype ChunkVerdict = NotFound | Replayed | Conflict | Acceptable

  /** The checks uploadChunk makes under the row locks. */
  function JudgeChunk(c: Cell, now: nat, offset: nat, data: Bytes): ChunkVerdict {
    if !HasUpload(c) || c.row.value.deleted then NotFound
    else
      var r, u := c.row.value, c.row.value.upload.value;
      if now >= r.created + DAY && u.state != Complete then NotFound
      else if offset < u.offset then
        if exists n | n in u.parts :: u.parts[n].offset == offset && u.parts[n].data == data then Replayed
        else Conflict
      else if offset != u.offset || (u.state != Creating && u.state != Uploading) then Conflict
      else if offset + |data| > r.size || (|data| != CHUNK_BYTES && offset + |data| != r.size) then Conflict
      else Acceptable
  }

  /** A body over 8 MiB or empty never reaches the transaction. */
  predicate ChunkBody(data: Bytes) { 1 <= |data| <= CHUNK_BYTES }

  function DoBeginMultipart(c: Cell, now: nat, op: Op): (d: Cell)
    requires op.BeginMultipart?
    ensures Advances(c, d)
    ensures Usable(d) ==> Usable(c)
  {
    if c.lock.Some? || !ChunkBody(op.data) || JudgeChunk(c, now, op.offset, op.data) != Acceptable
       || c.row.value.upload.value.multipart.Some? || op.mp in c.begun then c
    else
      var d := c.(multiparts := c.multiparts[op.mp := map[]], begun := c.begun + {op.mp});
      if op.committed then SetUpload(d, c.row.value.upload.value.(multipart := Some(op.mp), state := Uploading)) else d
  }

  function DoStoreChunk(c: Cell, now: nat, op: Op): (d: Cell)
    requires op.StoreChunk?
    ensures Advances(c, d)
    ensures Usable(d) ==> Usable(c)
  {
    if c.lock.Some? || !ChunkBody(op.data) || JudgeChunk(c, now, op.offset, op.data) != Acceptable then c
    else
      var u := c.row.value.upload.value;
      var part: nat := op.offset / CHUNK_BYTES + 1;
      if u.multipart.None? || u.multipart.value !in c.multiparts then c
      else
        var mp := u.multipart.value;
        var stored: map<nat, Bytes> := c.multiparts[mp][part := op.data];
        var d := c.(multiparts := c.multiparts[mp := stored]);
        if !op.committed || part in u.parts || part > MAX_PARTS then d
        else SetUpload(d, u.(parts := u.parts[part := Chunk(op.offset, op.data)], offset := op.offset + |op.data|, state := Uploading))
  }

  // ---- Finalization --------------------------------------------------------

  function DoReadUpload(c: Cell, now: nat, p: Pid): (d: Cell)
    ensures Advances(c, d)
    ensures Usable(d) ==> Usable(c)
  {
    if !Fresh(c, p) || !HasUpload(c) || c.row.value.deleted then c
    else
      var r, u := c.row.value, c.row.value.upload.value;
      if u.state == Complete || now >= r.created + DAY || u.offset != r.size || u.multipart.None? then c
      else Enter(c, p, FinRead(u.multipart.value, u.state == Assembled))
  }

  function DoTakeLease(cfg: Config, c: Cell, now: nat, p: Pid): (d: Cell)
    ensures Advances(c, d)
    ensures Usable(d) ==> Usable(c)
  {
    if p !in c.procs || !c.procs[p].FinRead? then c
    else if !HasUpload(c) then Leave(c, p)
    else
      var r, u, f := c.row.value, c.row.value.upload.value, c.procs[p];
      if r.deleted || (u.state != Uploading && u.state != Assembled) || (u.token.Some? && u.until > now) then Leave(c, p)
      else
        var d := SetUpload(c, u.(token := Some(p), until := now + cfg.lease));
        Move(d, p, Fin(now, f.mp, if f.assembled then Scanning else Listing))
  }

  ghost function DoListParts(c: Cell, p: Pid): (d: Cell)
    ensures Advances(c, d)
    ensures d.row == c.row
    ensures Usable(d) ==> Usable(c)
  {
    if p !in c.procs || !c.procs[p].Fin? || !c.procs[p].phase.Listing? || !HasUpload(c) then c
    else Move(c, p, c.procs[p].(phase := Storing(InOrder(c.row.value.upload.value.parts))))
  }

  /** S3 assembles exactly the listed parts or refuses. */
  predicate Assemblable(c: Cell, mp: nat, list: seq<Listed>) {
    && mp in c.multiparts && list != []
    && forall i | 0 <= i < |list| :: list[i].number in c.multiparts[mp] && c.multiparts[mp][list[i].number] == list[i].data
  }

  /** What the call does inside S3. */
  function AssembleObject(c: Cell, mp: nat, list: seq<Listed>): (d: Cell)
    ensures d.row == c.row && d.born == c.born && d.procs == c.procs
  {
    if Assemblable(c, mp, list) then c.(blob := Some(Join(list)), multiparts := c.multiparts - {mp}) else c
  }

  /** ObjectSize agrees with the row. */
  predicate RightSize(c: Cell) { c.blob.Some? && c.row.Some? && |c.blob.value| == c.row.value.size }

  /** An error may hide a completed assembly, so the handler then asks for the
      object's size before it gives up. */
  function DoCompleteMultipart(cfg: Config, c: Cell, now: nat, p: Pid, op: Op): (d: Cell)
    requires op.CompleteMultipart?
    ensures Advances(c, d)
    ensures Usable(d) ==> Usable(c)
  {
    if p !in c.procs || !c.procs[p].Fin? || !c.procs[p].phase.Storing? || now > c.procs[p].began + cfg.work then c
    else
      var f := c.procs[p];
      var e := if op.effect then AssembleObject(c, f.mp, f.phase.list) else c;
      if (op.effect && op.reported && Assemblable(c, f.mp, f.phase.list)) || (op.headed && RightSize(e))
      then Move(e, p, f.(phase := Marking))
      else Finish(e, p)
  }

  function DoMarkAssembled(c: Cell, now: nat, p: Pid, visible: bool): (d: Cell)
    ensures Advances(c, d)
    ensures Harmless(c, now, p, d)
    ensures Usable(d) ==> Usable(c)
  {
    if p !in c.procs || !c.procs[p].Fin? || !c.procs[p].phase.Marking? then c
    else if HasUpload(c) && !c.row.value.deleted && Fenced(c.row.value.upload.value, p, now)
            && (c.row.value.upload.value.state == Uploading || c.row.value.upload.value.state == Assembled) then
      Move(SetUpload(c, c.row.value.upload.value.(state := Assembled)), p, c.procs[p].(phase := Scanning))
    else if visible && HasUpload(c) && !c.row.value.deleted && c.row.value.upload.value.state == Complete then Finish(c, p)
    else Move(c, p, Cancelling(c.procs[p].mp))
  }

  /** A clean verdict is not recorded on a tombstone; an infected one is. */
  function RecordVerdict(c: Cell, verdict: Verdict): (d: Cell)
    requires c.row.Some?
    ensures Advances(c, d)
    ensures Usable(d) ==> Usable(c)
  {
    if verdict == VerdictInfected then c.(row := Some(c.row.value.(scan := Infected)))
    else if c.row.value.deleted then c
    else c.(row := Some(c.row.value.(scan := Clean)))
  }

  /** An unreadable or resized object counts as an unavailable scanner. */
  function DoScanObject(c: Cell, now: nat, p: Pid, verdict: Verdict): (d: Cell)
    ensures Advances(c, d)
    ensures Usable(d) ==> Usable(c)
  {
    if p !in c.procs || !c.procs[p].Fin? || !c.procs[p].phase.Scanning? || c.lock.Some? then c
    else if verdict == Unavailable || !RightSize(c) then Finish(c, p)
    else
      var e := if HasUpload(c) && Fenced(c.row.value.upload.value, p, now) then RecordVerdict(c, verdict) else c;
      Move(e, p, if verdict == VerdictInfected then Cancelling(c.procs[p].mp) else c.procs[p].(phase := Completing))
  }

  function DoSkipScan(c: Cell, p: Pid): (d: Cell)
    ensures Advances(c, d)
    ensures d.row == c.row
    ensures Usable(d) ==> Usable(c)
  {
    if p !in c.procs || !c.procs[p].Fin? || !c.procs[p].phase.Scanning? then c
    else Move(c, p, c.procs[p].(phase := Completing))
  }

  /** The guards of CompleteResumable. */
  predicate Completable(c: Cell, now: nat, p: Pid) {
    && HasUpload(c)
    && var r, u := c.row.value, c.row.value.upload.value;
       && !r.deleted && r.room && r.uploader && Fenced(u, p, now) && (u.state == Assembled || u.state == Complete)
  }

  function DoCompleteUpload(c: Cell, now: nat, p: Pid, permitted: bool): (d: Cell)
    ensures Advances(c, d)
    ensures Harmless(c, now, p, d)
    ensures Usable(d) && !Usable(c) ==> p in c.procs && c.procs[p].Fin? && c.procs[p].phase == Completing && permitted && Completable(c, now, p)
    ensures c.row.Some? && c.row.value.upload.Some? && Usable(d) && !Usable(c) ==> c.row.value.upload.value.state == Assembled
  {
    if p !in c.procs || !c.procs[p].Fin? || !c.procs[p].phase.Completing? then c
    else if !permitted then Move(c, p, Cancelling(c.procs[p].mp))
    else if c.lock.Some? then c
    else if !Completable(c, now, p) then Move(c, p, Cancelling(c.procs[p].mp))
    else
      var r, u := c.row.value, c.row.value.upload.value;
      if u.state == Complete then Finish(c, p)
      else if r.message || !ScanPassed(r) || u.offset != r.size then Move(c, p, Cancelling(c.procs[p].mp))
      else Finish(c.(row := Some(r.(ready := true, upload := Some(u.(state := Complete))))), p)
  }

  // ---- Cancellation --------------------------------------------------------

  /** The cancelling transaction; `fence` carries a finalizer's own token. */
  predicate CancelMatches(c: Cell, fence: Option<Pid>) {
    && HasUpload(c) && !c.row.value.message && !c.row.value.asset
    && (fence.Some? ==> c.row.value.upload.value.token == fence)
  }

  function CancelRow(r: Row): Row
    requires r.upload.Some?
  {
    r.(deleted := true, ready := true,
       upload := Some(r.upload.value.(state := if r.scan == Infected then Rejected else Cancelled)))
  }

  function DoFencedCancel(c: Cell, p: Pid): (d: Cell)
    ensures Advances(c, d)
    ensures Usable(d) ==> Usable(c)
  {
    if p !in c.procs || !c.procs[p].Cancelling? || c.lock.Some? then c
    else if !CancelMatches(c, Some(p)) then Finish(c, p)
    else Move(c.(row := Some(CancelRow(c.row.value))), p, Aborting(Some(c.procs[p].mp)))
  }

  /** Who may still come to cancel an upload without a token: its owner, and a chunk
      request that lost its rights, saw it before it was tombstoned. */
  predicate OwnerSees(r: Row, now: nat)
    requires r.upload.Some?
  {
    !r.deleted && r.room && r.uploader && (r.upload.value.state == Complete || now < r.created + DAY)
  }

  /** CleanStorageFeatures picks cancelled uploads whose parts may remain in S3, and
      unfinished ones that expired, were tombstoned or lost their session. */
  predicate Stale(u: Upload) {
    if Terminal(u.state) then u.state != Complete && u.multipart.Some? else true
  }

  function DoReadCancel(c: Cell, now: nat, p: Pid, stale: bool): (d: Cell)
    ensures Advances(c, d)
    ensures d.row == c.row
    ensures Usable(d) ==> Usable(c)
  {
    if Fresh(c, p) && HasUpload(c) && (if stale then Stale(c.row.value.upload.value) else OwnerSees(c.row.value, now))
    then Enter(c, p, CancelRead(c.row.value.upload.value.multipart)) else c
  }

  function DoCancelUpload(c: Cell, p: Pid): (d: Cell)
    ensures Advances(c, d)
    ensures Usable(d) ==> Usable(c)
  {
    if p !in c.procs || !c.procs[p].CancelRead? || c.lock.Some? then c
    else if !CancelMatches(c, None) then Leave(c, p)
    else Move(c.(row := Some(CancelRow(c.row.value))), p, Aborting(c.procs[p].seen))
  }

  function DoAbort(c: Cell, p: Pid, effect: bool, reported: bool): (d: Cell)
    ensures Advances(c, d)
    ensures Usable(d) ==> Usable(c)
  {
    if p !in c.procs || !c.procs[p].Aborting? then c
    else if c.procs[p].target.None? then Move(c, p, Sweeping)
    else
      var d := if effect then c.(multiparts := c.multiparts - {c.procs[p].target.value}) else c;
      var e := if reported && effect && HasUpload(d) && (d.row.value.upload.value.state == Cancelled || d.row.value.upload.value.state == Rejected)
               then SetUpload(d, d.row.value.upload.value.(multipart := None)) else d;
      Move(e, p, Sweeping)
  }

  /** The canceller's last call deletes bytes but leaves the tombstone. */
  function DoSweepObject(c: Cell, p: Pid, effect: bool): (d: Cell)
    ensures Advances(c, d)
    ensures Usable(d) ==> Usable(c)
  {
    if p !in c.procs || !c.procs[p].Sweeping? then c
    else Finish(if effect then c.(blob := None) else c, p)
  }

  // ---- Deletion of finished attachments ------------------------------------

  function DoCancelPending(cfg: Config, c: Cell, now: nat, p: Pid): (d: Cell)
    ensures Advances(c, d)
    ensures Usable(d) ==> Usable(c)
  {
    if !Fresh(c, p) || c.lock.Some? || c.row.None? then c
    else
      var r := c.row.value;
      if r.message || !r.ready || r.asset || !r.room || !r.uploader then c
      else Enter(c.(row := Some(r.(deleted := true))), p, Deleting(Tombstoned, now + cfg.cleanup))
  }

  function DoLibraryDelete(cfg: Config, c: Cell, now: nat, p: Pid): (d: Cell)
    ensures Advances(c, d)
    ensures Usable(d) ==> Usable(c)
  {
    if !Fresh(c, p) || c.lock.Some? || c.row.None? then c
    else
      var r := c.row.value;
      if !r.message || !r.ready || r.deleted || r.asset || !r.room then c
      else Enter(c.(row := Some(r.(deleted := true))), p, Deleting(Library, now + cfg.cleanup))
  }

  function DoDeleteObject(c: Cell, now: nat, p: Pid, effect: bool, reported: bool): (d: Cell)
    ensures Advances(c, d)
    ensures Usable(d) ==> Usable(c)
  {
    if p !in c.procs || !c.procs[p].Deleting? then c
    else if now > c.procs[p].deadline then Leave(c, p)
    else
      var d := if effect then c.(blob := None) else c;
      if effect && reported then Move(d, p, Removing(c.procs[p].kind, c.procs[p].deadline)) else Leave(d, p)
  }

  /** removePendingAttachment respects a live lease; the library handler's own
      DELETE asks only for the tombstone. */
  predicate Removable(r: Row, kind: Kind, now: nat) {
    if kind == Library then r.deleted else !r.message && !r.asset && !LeaseLive(r, now)
  }

  function DoRemoveRow(c: Cell, now: nat, p: Pid): (d: Cell)
    ensures Advances(c, d)
    ensures Usable(d) ==> Usable(c)
  {
    if p !in c.procs || !c.procs[p].Removing? || c.lock.Some? then c
    else if now > c.procs[p].deadline || c.row.None? || !Removable(c.row.value, c.procs[p].kind, now) then Leave(c, p)
    else Leave(c.(row := None), p)
  }

  // ---- The single-request upload -------------------------------------------

  function NewRow(size: nat, now: nat, scanned: bool, upload: Option<Upload>): Row {
    Row(size, now, true, true, false, false, false, false, if scanned then Pending else NotRequired, upload)
  }

  function DoStartResumable(c: Cell, now: nat, size: nat, scanned: bool): (d: Cell)
    ensures Advances(c, d)
    ensures Usable(d) ==> Usable(c)
  {
    if c.born || size == 0 then c
    else c.(born := true, row := Some(NewRow(size, now, scanned, Some(Upload(Creating, None, 0, map[], None, 0)))))
  }

  function DoLegacySave(c: Cell, now: nat, p: Pid, size: nat, scanned: bool): (d: Cell)
    ensures Advances(c, d)
    ensures Usable(d) ==> Usable(c)
  {
    if c.born || size == 0 || !Fresh(c, p) then c
    else
      var d := c.(born := true, creator := p, row := Some(NewRow(size, now, scanned, None)));
      Enter(d, p, Legacy(now, if scanned then Screening else Putting))
  }

  function DoLegacyScan(c: Cell, p: Pid, verdict: Verdict): (d: Cell)
    ensures Advances(c, d)
    ensures Usable(d) ==> Usable(c)
  {
    if p !in c.procs || !c.procs[p].Legacy? || !c.procs[p].stage.Screening? || c.row.None? || c.lock.Some? then c
    else match verdict
      case VerdictInfected =>
        Move(c.(row := Some(c.row.value.(scan := Infected))), p, c.procs[p].(stage := Failed))
      case VerdictClean =>
        Move(if c.row.value.deleted then c else c.(row := Some(c.row.value.(scan := Clean))), p, c.procs[p].(stage := Putting))
      case Unavailable => Move(c, p, c.procs[p].(stage := Failed))
  }

  function DoLegacyPut(cfg: Config, c: Cell, now: nat, p: Pid, op: Op): (d: Cell)
    requires op.LegacyPut?
    ensures Advances(c, d)
    ensures Usable(d) ==> Usable(c)
  {
    if p !in c.procs || !c.procs[p].Legacy? || !c.procs[p].stage.Putting? || now > c.procs[p].saved + cfg.legacy
       || (c.row.Some? && |op.data| != c.row.value.size) then c
    else
      var d := if op.effect then c.(blob := Some(op.data)) else c;
      Move(d, p, c.procs[p].(stage := if op.effect && op.reported then Put else Failed))
  }

  function DoLegacyComplete(c: Cell, p: Pid, permitted: bool): (d: Cell)
    ensures Advances(c, d)
    ensures Usable(d) && !Usable(c) ==> p in c.procs && c.procs[p].Legacy?
  {
    if p !in c.procs || !c.procs[p].Legacy? || !c.procs[p].stage.Put? || c.row.None? || c.lock.Some? || !permitted then c
    else
      var r := c.row.value;
      if r.message || r.ready || r.deleted || !r.room || !r.uploader || !ScanPassed(r) then c
      else Move(c.(row := Some(r.(ready := true))), p, c.procs[p].(stage := Responding))
  }

  /** discardFailedAttachment ignores whether its tombstone ran or matched a
      row, and deletes the object all the same. */
  function DoLegacyDiscard(cfg: Config, c: Cell, now: nat, p: Pid, ran: bool): (d: Cell)
    ensures Advances(c, d)
    ensures Usable(d) ==> Usable(c)
  {
    if p !in c.procs || !c.procs[p].Legacy? || (ran && c.lock.Some?) then c
    else
      var hit := ran && c.row.Some? && !c.row.value.message && !c.row.value.asset;
      var d := if hit then c.(row := Some(c.row.value.(ready := true, deleted := true)))
               else c.(missed := c.missed || c.row.Some?);
      Move(d, p, Deleting(Discarded(hit), now + cfg.cleanup))
  }

  // ---- Messages, assets, accounts, rooms, retention -------------------------

  /** writeMessageWithDraft attaches without asking for the scan state. */
  predicate Claimable(c: Cell, now: nat) {
    && c.row.Some? && c.lock.None?
    && var r := c.row.value;
       !r.message && r.ready && !r.deleted && r.room && r.uploader && now < r.created + DAY
  }

  function DoClaim(c: Cell, now: nat): (d: Cell)
    ensures Advances(c, d)
    ensures Usable(d) ==> Usable(c)
  {
    if Claimable(c, now) then c.(row := Some(c.row.value.(message := true))) else c
  }

  function DoRegisterAsset(c: Cell, now: nat): (d: Cell)
    ensures Advances(c, d)
    ensures Usable(d) ==> Usable(c)
  {
    if Claimable(c, now) && ScanPassed(c.row.value) && !c.row.value.asset
    then c.(row := Some(c.row.value.(asset := true))) else c
  }

  function DoEnvironment(c: Cell, op: Op): (d: Cell)
    ensures Advances(c, d)
    ensures Usable(d) ==> Usable(c)
  {
    if c.row.None? || c.lock.Some? then c
    else
      var r := c.row.value;
      match op
      case DeleteAsset =>
        if r.asset then c.(row := Some(r.(asset := false, deleted := r.deleted || !r.message))) else c
      case DeleteMessage => if r.message then c.(row := Some(r.(deleted := true))) else c
      case DeleteAccount => if r.uploader then c.(row := Some(r.(deleted := true, uploader := false))) else c
      case DeleteRoom => c.(row := Some(r.(room := false, message := false, asset := false)))
      case Retire => if r.ready && r.room && !r.asset then c.(row := Some(r.(deleted := true))) else c
      case _ => c
  }

  // ---- The cleanup worker ---------------------------------------------------

  function DoCleanSelect(c: Cell, now: nat, p: Pid): (d: Cell)
    ensures Advances(c, d)
    ensures Usable(d) ==> Usable(c)
  {
    if !Fresh(c, p) || c.lock.Some? || c.row.None? || !Cleanable(c.row.value, now) then c
    else Enter(c, p, Cleaner(false)).(lock := Some(p))
  }

  function DoCleanDelete(c: Cell, p: Pid, effect: bool, reported: bool): (d: Cell)
    ensures Advances(c, d)
    ensures Usable(d) ==> Usable(c)
  {
    if p !in c.procs || !c.procs[p].Cleaner? then c
    else
      var d := if effect then c.(blob := None) else c;
      if effect && reported then Move(d, p, Cleaner(true)) else Leave(d, p)
  }

  function DoCleanCommit(c: Cell, p: Pid): (d: Cell)
    ensures Advances(c, d)
    ensures Usable(d) ==> Usable(c)
  {
    if p !in c.procs || c.procs[p] != Cleaner(true) then c
    else Leave(c.(row := None), p)
  }

  ghost function Apply(cfg: Config, now: nat, c: Cell, p: Pid, op: Op): (d: Cell)
    ensures Advances(c, d)
    ensures Usable(d) && !Usable(c) ==> op.CompleteUpload? || (op.LegacyComplete? && p in c.procs && c.procs[p].Legacy?)
  {
    match op
    case StartResumable(size, scanned) => DoStartResumable(c, now, size, scanned)
    case BeginMultipart(_, _, _, _) => DoBeginMultipart(c, now, op)
    case StoreChunk(_, _, _) => DoStoreChunk(c, now, op)
    case ReadUpload => DoReadUpload(c, now, p)
    case TakeLease => DoTakeLease(cfg, c, now, p)
    case ListParts => DoListParts(c, p)
    case CompleteMultipart(_, _, _) => DoCompleteMultipart(cfg, c, now, p, op)
    case MarkAssembled(visible) => DoMarkAssembled(c, now, p, visible)
    case ScanObject(verdict) => DoScanObject(c, now, p, verdict)
    case SkipScan => DoSkipScan(c, p)
    case CompleteUpload(permitted) => DoCompleteUpload(c, now, p, permitted)
    case FencedCancel => DoFencedCancel(c, p)
    case ReadCancel(stale) => DoReadCancel(c, now, p, stale)
    case CancelUpload => DoCancelUpload(c, p)
    case Abort(effect, reported) => DoAbort(c, p, effect, reported)
    case SweepObject(effect) => DoSweepObject(c, p, effect)
    case CancelPending => DoCancelPending(cfg, c, now, p)
    case LibraryDelete => DoLibraryDelete(cfg, c, now, p)
    case DeleteObject(effect, reported) => DoDeleteObject(c, now, p, effect, reported)
    case RemoveRow => DoRemoveRow(c, now, p)
    case LegacySave(size, scanned) => DoLegacySave(c, now, p, size, scanned)
    case LegacyScan(verdict) => DoLegacyScan(c, p, verdict)
    case LegacyPut(_, _, _) => DoLegacyPut(cfg, c, now, p, op)
    case LegacyComplete(permitted) => DoLegacyComplete(c, p, permitted)
    case LegacyDiscard(ran) => DoLegacyDiscard(cfg, c, now, p, ran)
    case Claim => DoClaim(c, now)
    case RegisterAsset => DoRegisterAsset(c, now)
    case CleanSelect => DoCleanSelect(c, now, p)
    case CleanDelete(effect, reported) => DoCleanDelete(c, p, effect, reported)
    case CleanCommit => DoCleanCommit(c, p)
    case End => if p in c.procs then Finish(c, p) else c
    case Crash => Leave(c, p)
    case DeleteAsset => DoEnvironment(c, op)
    case DeleteMessage => DoEnvironment(c, op)
    case DeleteAccount => DoEnvironment(c, op)
    case DeleteRoom => DoEnvironment(c, op)
    case Retire => DoEnvironment(c, op)
  }
}
