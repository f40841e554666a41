/** What every operation of the attachment protocol keeps true of a cell. */
module AttachmentInvariant {
  import opened Options
  import opened AttachmentProtocol

  function PartCount(offset: nat): nat { (offset + CHUNK_BYTES - 1) / CHUNK_BYTES }

  /** Parts are numbered 1..k and tile [0, offset); only the last may be short,
      and a short last part ends the file. */
  ghost predicate Tiled(parts: map<nat, Chunk>, offset: nat, size: nat) {
    var k := PartCount(offset);
    && offset <= size
    && (forall n :: n in parts <==> 1 <= n <= k)
    && (forall n | n in parts ::
          && parts[n].offset == (n - 1) * CHUNK_BYTES
          && parts[n].offset + |parts[n].data| == (if n < k then n * CHUNK_BYTES else offset)
          && 1 <= |parts[n].data| <= CHUNK_BYTES)
    && (offset % CHUNK_BYTES != 0 ==> offset == size)
    && k <= MAX_PARTS
  }

  ghost predicate UploadOk(u: Upload, size: nat) {
    && Tiled(u.parts, u.offset, size)
    && (u.state == Creating ==> u.offset == 0 && u.multipart.None?)
    && (u.state == Uploading || u.state == Assembled ==> u.multipart.Some?)
    && (u.state == Assembled || u.state == Complete ==> u.offset == size)
  }

  ghost predicate RowOk(r: Row) {
    && r.size >= 1
    && (!r.uploader ==> r.deleted)
    && (r.ready && !r.deleted ==> ScanPassed(r))
    && (r.message || r.asset ==> r.ready)
    && (r.upload.Some? ==>
          var u := r.upload.value;
          && UploadOk(u, r.size)
          && (Terminal(u.state) <==> r.ready)
          && (u.state == Cancelled || u.state == Rejected ==> r.deleted && !r.message && !r.asset)
          && (u.state == Rejected ==> r.scan == Infected))
  }

  /** While this holds the cleanup worker leaves the row alone. */
  predicate Kept(r: Row, now: nat) {
    !r.deleted && r.room && (r.message || r.asset || now <= r.created + DAY)
  }

  /** S3 holds what was uploaded. */
  ghost predicate Stored(c: Cell)
    requires c.row.Some?
  {
    && c.blob.Some?
    && |c.blob.value| == c.row.value.size
    && (c.row.value.upload.Some? ==> c.blob.value == FileBytes(c.row.value.upload.value.parts))
  }

  ghost predicate PartsStored(c: Cell, u: Upload) {
    u.multipart.Some? ==>
      && u.multipart.value in c.begun
      && (u.multipart.value in c.multiparts ==>
            forall n | n in u.parts :: n in c.multiparts[u.multipart.value] && c.multiparts[u.multipart.value][n] == u.parts[n].data)
  }

  ghost predicate BlobOk(c: Cell, now: nat) {
    && (c.blob.Some? ==> c.row.Some?)
    && (c.row.Some? ==>
          var r := c.row.value;
          && RowOk(r)
          && r.created <= now
          && (c.blob.Some? ==> Stored(c) && (r.upload.Some? ==> r.upload.value.offset == r.size))
          && (r.upload.Some? ==>
                && PartsStored(c, r.upload.value)
                && (r.upload.value.state == Assembled && !r.deleted ==> Stored(c))
                && (r.upload.value.state == Complete && Kept(r, now) ==> Stored(c)))
          && (r.upload.None? && r.ready && Kept(r, now) && !c.missed ==> Stored(c)))
  }

  /** A finalizer that may still make S3 write the object. */
  predicate Armed(cfg: Config, c: Cell, now: nat, p: Pid) {
    && p in c.procs && c.procs[p].Fin?
    && (c.procs[p].phase.Listing? || c.procs[p].phase.Storing?)
    && now <= c.procs[p].began + cfg.work
  }

  /** The stored token names a finalizer that may still write the object. */
  predicate Working(cfg: Config, c: Cell, now: nat) {
    HasUpload(c) && c.row.value.upload.value.token.Some? && Armed(cfg, c, now, c.row.value.upload.value.token.value)
  }

  ghost predicate FinOk(cfg: Config, c: Cell, now: nat, p: Pid)
    requires p in c.procs && c.procs[p].Fin?
  {
    var f := c.procs[p];
    && f.began <= now
    && (c.row.Some? ==>
          && c.row.value.upload.Some?
          && c.row.value.upload.value.offset == c.row.value.size
          && (c.row.value.upload.value.token == Some(p) ==> c.row.value.upload.value.state != Complete)
          && (f.phase.Storing? ==> f.phase.list == InOrder(c.row.value.upload.value.parts))
          && (f.phase.Marking? && !c.row.value.deleted && !Terminal(c.row.value.upload.value.state) ==> Stored(c)))
    && (Armed(cfg, c, now, p) ==>
          && HasUpload(c)
          && c.row.value.upload.value.token == Some(p)
          && c.row.value.upload.value.until >= f.began + cfg.lease)
  }

  ghost predicate DeleterOk(cfg: Config, c: Cell, now: nat, p: Pid)
    requires p in c.procs && (c.procs[p].Deleting? || c.procs[p].Removing?)
  {
    var d := c.procs[p];
    && (d.kind.Discarded? ==> p == c.creator && (c.row.Some? ==> c.row.value.upload.None?))
    && (c.row.Some? ==>
          && (c.row.value.ready || d.kind.Discarded?)
          && (c.row.value.deleted || (d.kind == Discarded(false) && c.missed)))
    && d.deadline <= now + cfg.cleanup
    && (d.kind == Library ==> !Working(cfg, c, now))
    && (d.Removing? && c.row.Some? ==>
          && (d.kind == Library ==> c.blob.None?)
          && (c.row.value.upload.None? ==> c.blob.None?)
          && (now <= d.deadline && (c.blob.Some? || Working(cfg, c, now)) ==>
                c.row.value.upload.Some? && c.row.value.upload.value.until > d.deadline))
  }

  ghost predicate LegacyOk(cfg: Config, c: Cell, now: nat, p: Pid)
    requires p in c.procs && c.procs[p].Legacy?
  {
    var l := c.procs[p];
    && p == c.creator
    && (c.row.Some? ==>
          && c.row.value.upload.None?
          && c.row.value.created == l.saved
          && (!l.stage.Responding? ==> !c.row.value.ready)
          && (l.stage.Put? && Kept(c.row.value, now) && !c.missed ==> Stored(c)))
    && (l.stage.Screening? || l.stage.Putting? ==> (now <= l.saved + cfg.legacy ==> c.row.Some?))
  }

  ghost predicate ProcOk(cfg: Config, c: Cell, now: nat, p: Pid)
    requires p in c.procs
  {
    match c.procs[p]
    case FinRead(_, assembled) =>
      c.row.Some? ==>
        && c.row.value.upload.Some?
        && c.row.value.upload.value.offset == c.row.value.size
        && (assembled ==> c.row.value.upload.value.state == Assembled || Terminal(c.row.value.upload.value.state))
    case Fin(_, _, _) => FinOk(cfg, c, now, p)
    case CancelRead(_) => true
    case Cancelling(_) => true
    case Aborting(_) => c.row.Some? ==> c.row.value.deleted
    case Sweeping => c.row.Some? ==> c.row.value.deleted
    case Deleting(_, _) => DeleterOk(cfg, c, now, p)
    case Removing(_, _) => DeleterOk(cfg, c, now, p)
    case Legacy(_, _) => LegacyOk(cfg, c, now, p)
    case Cleaner(gone) => c.lock == Some(p) && c.row.Some? && Cleanable(c.row.value, now) && (gone ==> c.blob.None?)
  }

  ghost predicate Inv(cfg: Config, c: Cell, now: nat) {
    && (!c.born ==> c == UNBORN)
    && (c.lock.Some? ==> c.lock.value in c.procs && c.procs[c.lock.value].Cleaner?)
    && BlobOk(c, now)
    && c.multiparts.Keys <= c.begun
    && forall p | p in c.procs :: p in c.used && ProcOk(cfg, c, now, p)
  }

  /** Listing by part number and joining gives exactly `offset` bytes. */
  lemma {:induction false} JoinTiled(parts: map<nat, Chunk>, offset: nat, size: nat, n: nat)
    requires Tiled(parts, offset, size) && n <= PartCount(offset)
    ensures |Join(ListUpTo(parts, n))| == if n < PartCount(offset) then n * CHUNK_BYTES else offset
  {
    if n > 0 {
      JoinTiled(parts, offset, size, n - 1);
      var list := ListUpTo(parts, n);
      assert list[..|list| - 1] == ListUpTo(parts, n - 1);
    }
  }

  lemma HighestTiled(parts: map<nat, Chunk>, offset: nat, size: nat)
    requires Tiled(parts, offset, size)
    ensures Highest(parts.Keys) == PartCount(offset)
  {
    if PartCount(offset) > 0 { assert PartCount(offset) in parts.Keys; }
  }

  lemma FileLength(parts: map<nat, Chunk>, offset: nat, size: nat)
    requires Tiled(parts, offset, size)
    ensures |FileBytes(parts)| == offset
  {
    HighestTiled(parts, offset, size);
    JoinTiled(parts, offset, size, PartCount(offset));
  }

  /** What holds of a request keeps holding while only others move, and none of them
      comes to write the object. */
  lemma OtherOk(cfg: Config, c: Cell, d: Cell, now: nat, q: Pid)
    requires q in c.procs && ProcOk(cfg, c, now, q) && q in d.procs && d.procs[q] == c.procs[q]
    requires d.row == c.row && d.blob == c.blob && d.creator == c.creator && d.missed == c.missed
    requires (Working(cfg, d, now) ==> Working(cfg, c, now)) && (c.procs[q].Cleaner? ==> d.lock == c.lock)
    ensures ProcOk(cfg, d, now, q)
  {
    hide RowOk, Tiled, UploadOk, FileBytes, InOrder, PartsStored, Cleanable;
  }

  lemma InvUnborn(cfg: Config, now: nat)
    ensures Inv(cfg, UNBORN, now)
  {}

  lemma InvTick(cfg: Config, c: Cell, now: nat, later: nat)
    requires Inv(cfg, c, now) && now <= later
    ensures Inv(cfg, c, later)
  {
    forall p | p in c.procs ensures ProcOk(cfg, c, later, p) {
      assert ProcOk(cfg, c, now, p);
    }
  }

  lemma InvStart(cfg: Config, c: Cell, now: nat, size: nat, scanned: bool)
    requires Safe(cfg) && Inv(cfg, c, now)
    ensures Inv(cfg, DoStartResumable(c, now, size, scanned), now)
  {
    var d := DoStartResumable(c, now, size, scanned);
    forall q | q in d.procs ensures q in d.used && ProcOk(cfg, d, now, q) {
      if q in c.procs { assert ProcOk(cfg, c, now, q); }
    }
  }

  lemma InvBegin(cfg: Config, c: Cell, now: nat, op: Op)
    requires Safe(cfg) && Inv(cfg, c, now) && op.BeginMultipart?
    ensures Inv(cfg, DoBeginMultipart(c, now, op), now)
  {
    hide FileBytes;
    var d := DoBeginMultipart(c, now, op);
    forall q | q in d.procs ensures q in d.used && ProcOk(cfg, d, now, q) {
      if q in c.procs { assert ProcOk(cfg, c, now, q); }
    }
  }

  /** The next chunk's part number is one past the recorded ones. */
  lemma TiledGrow(parts: map<nat, Chunk>, offset: nat, size: nat, data: Bytes)
    requires Tiled(parts, offset, size) && ChunkBody(data) && offset + |data| <= size
    requires |data| == CHUNK_BYTES || offset + |data| == size
    ensures offset / CHUNK_BYTES + 1 == PartCount(offset) + 1 && PartCount(offset) + 1 !in parts
    ensures PartCount(offset) < MAX_PARTS ==>
      Tiled(parts[offset / CHUNK_BYTES + 1 := Chunk(offset, data)], offset + |data|, size)
  {
    assert offset % CHUNK_BYTES == 0;
    var k := PartCount(offset);
    assert offset == k * CHUNK_BYTES;
    assert PartCount(offset + |data|) == k + 1;
  }

  lemma InvPutPart(cfg: Config, c: Cell, now: nat, mp: nat, part: nat, data: Bytes)
    requires Safe(cfg) && Inv(cfg, c, now) && HasUpload(c) && mp in c.multiparts
    requires part !in c.row.value.upload.value.parts
    ensures var stored: map<nat, Bytes> := c.multiparts[mp][part := data];
            Inv(cfg, c.(multiparts := c.multiparts[mp := stored]), now)
  {
    var stored: map<nat, Bytes> := c.multiparts[mp][part := data];
    var d := c.(multiparts := c.multiparts[mp := stored]);
    forall q | q in d.procs ensures q in d.used && ProcOk(cfg, d, now, q) {
      if q in c.procs { assert ProcOk(cfg, c, now, q); }
    }
  }

  function Recorded(u: Upload, data: Bytes): Upload {
    u.(parts := u.parts[u.offset / CHUNK_BYTES + 1 := Chunk(u.offset, data)], offset := u.offset + |data|, state := Uploading)
  }

  lemma InvRecord(cfg: Config, c: Cell, now: nat, v: Upload)
    requires Safe(cfg) && Inv(cfg, c, now) && HasUpload(c) && c.lock.None?
    requires var r, u := c.row.value, c.row.value.upload.value;
             && !r.deleted && !Terminal(u.state) && u.state != Assembled && u.offset != r.size
             && UploadOk(v, r.size) && PartsStored(c, v)
             && v.state == Uploading && v.token == u.token && v.until == u.until
    ensures Inv(cfg, SetUpload(c, v), now)
  {
    var d := SetUpload(c, v);
    forall q | q in d.procs ensures q in d.used && ProcOk(cfg, d, now, q) {
      if q in c.procs { assert ProcOk(cfg, c, now, q); }
    }
  }

  lemma InvStore(cfg: Config, c: Cell, now: nat, op: Op)
    requires Safe(cfg) && Inv(cfg, c, now) && op.StoreChunk?
    ensures Inv(cfg, DoStoreChunk(c, now, op), now)
  {
    hide ProcOk, FileBytes, Tiled;
    if c.lock.None? && ChunkBody(op.data) && JudgeChunk(c, now, op.offset, op.data) == Acceptable {
      var u, size := c.row.value.upload.value, c.row.value.size;
      if u.multipart.Some? && u.multipart.value in c.multiparts {
        assert u.offset == op.offset && u.offset + |op.data| <= size && !c.row.value.deleted;
        assert u.state == Creating || u.state == Uploading;
        TiledGrow(u.parts, u.offset, size, op.data);
        var part: nat := op.offset / CHUNK_BYTES + 1;
        var stored: map<nat, Bytes> := c.multiparts[u.multipart.value][part := op.data];
        var b := c.(multiparts := c.multiparts[u.multipart.value := stored]);
        InvPutPart(cfg, c, now, u.multipart.value, part, op.data);
        if op.committed && part <= MAX_PARTS {
          var v := Recorded(u, op.data);
          assert PartsStored(b, v);
          InvRecord(cfg, b, now, v);
          assert DoStoreChunk(c, now, op) == SetUpload(b, v);
        }
      }
    }
  }

  lemma InvRead(cfg: Config, c: Cell, now: nat, p: Pid)
    requires Safe(cfg) && Inv(cfg, c, now)
    ensures Inv(cfg, DoReadUpload(c, now, p), now)
  {
    var d := DoReadUpload(c, now, p);
    if p in c.procs { assert ProcOk(cfg, c, now, p); }
    forall q | q in d.procs ensures q in d.used && ProcOk(cfg, d, now, q) {
      if q in c.procs { assert ProcOk(cfg, c, now, q); }
    }
  }

  lemma InvList(cfg: Config, c: Cell, now: nat, p: Pid)
    requires Safe(cfg) && Inv(cfg, c, now)
    ensures Inv(cfg, DoListParts(c, p), now)
  {
    hide RowOk, Tiled, UploadOk, FileBytes, InOrder, DeleterOk, LegacyOk;
    var d := DoListParts(c, p);
    if p in c.procs { assert ProcOk(cfg, c, now, p); }
    forall q | q in d.procs ensures q in d.used && ProcOk(cfg, d, now, q) {
      assert ProcOk(cfg, c, now, q);
      if q != p { OtherOk(cfg, c, d, now, q); }
    }
  }

  lemma InvLibrary(cfg: Config, c: Cell, now: nat, p: Pid)
    requires Safe(cfg) && Inv(cfg, c, now)
    ensures Inv(cfg, DoLibraryDelete(cfg, c, now, p), now)
  {
    hide Tiled, FileBytes;
    var d := DoLibraryDelete(cfg, c, now, p);
    if p in c.procs { assert ProcOk(cfg, c, now, p); }
    forall q | q in d.procs ensures q in d.used && ProcOk(cfg, d, now, q) {
      if q in c.procs { assert ProcOk(cfg, c, now, q); }
    }
  }

  lemma InvLegacySave(cfg: Config, c: Cell, now: nat, p: Pid, size: nat, scanned: bool)
    requires Safe(cfg) && Inv(cfg, c, now)
    ensures Inv(cfg, DoLegacySave(c, now, p, size, scanned), now)
  {
    var d := DoLegacySave(c, now, p, size, scanned);
    if p in c.procs { assert ProcOk(cfg, c, now, p); }
    forall q | q in d.procs ensures q in d.used && ProcOk(cfg, d, now, q) {
      if q in c.procs { assert ProcOk(cfg, c, now, q); }
    }
  }

  lemma InvLegacyScan(cfg: Config, c: Cell, now: nat, p: Pid, verdict: Verdict)
    requires Safe(cfg) && Inv(cfg, c, now)
    ensures Inv(cfg, DoLegacyScan(c, p, verdict), now)
  {
    hide Tiled, FileBytes;
    var d := DoLegacyScan(c, p, verdict);
    if p in c.procs { assert ProcOk(cfg, c, now, p); }
    forall q | q in d.procs ensures q in d.used && ProcOk(cfg, d, now, q) {
      if q in c.procs { assert ProcOk(cfg, c, now, q); }
    }
  }

  lemma InvLegacyPut(cfg: Config, c: Cell, now: nat, p: Pid, op: Op)
    requires Safe(cfg) && Inv(cfg, c, now) && op.LegacyPut?
    ensures Inv(cfg, DoLegacyPut(cfg, c, now, p, op), now)
  {
    hide Tiled, UploadOk, FileBytes, InOrder;
    var d := DoLegacyPut(cfg, c, now, p, op);
    if p in c.procs { assert ProcOk(cfg, c, now, p); }
    forall q | q in d.procs ensures q in d.used && ProcOk(cfg, d, now, q) {
      if q in c.procs { assert ProcOk(cfg, c, now, q); }
    }
  }

  lemma InvLegacyComplete(cfg: Config, c: Cell, now: nat, p: Pid, permitted: bool)
    requires Safe(cfg) && Inv(cfg, c, now)
    ensures Inv(cfg, DoLegacyComplete(c, p, permitted), now)
  {
    var d := DoLegacyComplete(c, p, permitted);
    if p in c.procs { assert ProcOk(cfg, c, now, p); }
    forall q | q in d.procs ensures q in d.used && ProcOk(cfg, d, now, q) {
      if q in c.procs { assert ProcOk(cfg, c, now, q); }
    }
  }

  lemma InvLegacyDiscard(cfg: Config, c: Cell, now: nat, p: Pid, ran: bool)
    requires Safe(cfg) && Inv(cfg, c, now)
    ensures Inv(cfg, DoLegacyDiscard(cfg, c, now, p, ran), now)
  {
    hide Tiled, FileBytes;
    var d := DoLegacyDiscard(cfg, c, now, p, ran);
    if p in c.procs { assert ProcOk(cfg, c, now, p); }
    forall q | q in d.procs ensures q in d.used && ProcOk(cfg, d, now, q) {
      if q in c.procs { assert ProcOk(cfg, c, now, q); }
    }
  }

  lemma InvClaim(cfg: Config, c: Cell, now: nat)
    requires Safe(cfg) && Inv(cfg, c, now)
    ensures Inv(cfg, DoClaim(c, now), now)
  {
    var d := DoClaim(c, now);
    forall q | q in d.procs ensures q in d.used && ProcOk(cfg, d, now, q) {
      if q in c.procs { assert ProcOk(cfg, c, now, q); }
    }
  }

  lemma InvAsset(cfg: Config, c: Cell, now: nat)
    requires Safe(cfg) && Inv(cfg, c, now)
    ensures Inv(cfg, DoRegisterAsset(c, now), now)
  {
    var d := DoRegisterAsset(c, now);
    forall q | q in d.procs ensures q in d.used && ProcOk(cfg, d, now, q) {
      if q in c.procs { assert ProcOk(cfg, c, now, q); }
    }
  }

  lemma InvTombstone(cfg: Config, c: Cell, now: nat, uploader: bool)
    requires Safe(cfg) && Inv(cfg, c, now) && c.row.Some? && c.lock.None?
    ensures Inv(cfg, c.(row := Some(c.row.value.(deleted := true, uploader := uploader))), now)
  {
    hide Tiled, FileBytes;
    var d := c.(row := Some(c.row.value.(deleted := true, uploader := uploader)));
    forall q | q in d.procs ensures q in d.used && ProcOk(cfg, d, now, q) {
      if q in c.procs { assert ProcOk(cfg, c, now, q); }
    }
  }

  lemma InvDetach(cfg: Config, c: Cell, now: nat, room: bool, message: bool)
    requires Safe(cfg) && Inv(cfg, c, now) && c.row.Some? && c.lock.None?
    requires (room ==> c.row.value.room && c.row.value.deleted) && (message ==> c.row.value.message)
    ensures Inv(cfg, c.(row := Some(c.row.value.(room := room, message := message, asset := false))), now)
  {
    hide Tiled, FileBytes;
    var d := c.(row := Some(c.row.value.(room := room, message := message, asset := false)));
    forall q | q in d.procs ensures q in d.used && ProcOk(cfg, d, now, q) {
      if q in c.procs { assert ProcOk(cfg, c, now, q); }
    }
  }

  lemma InvUnregister(cfg: Config, c: Cell, now: nat)
    requires Safe(cfg) && Inv(cfg, c, now) && c.row.Some? && c.lock.None? && c.row.value.message
    ensures Inv(cfg, c.(row := Some(c.row.value.(asset := false))), now)
  {
    hide Tiled, FileBytes;
    var d := c.(row := Some(c.row.value.(asset := false)));
    forall q | q in d.procs ensures q in d.used && ProcOk(cfg, d, now, q) {
      if q in c.procs { assert ProcOk(cfg, c, now, q); }
    }
  }

  lemma InvEnvironment(cfg: Config, c: Cell, now: nat, op: Op)
    requires Safe(cfg) && Inv(cfg, c, now)
    ensures Inv(cfg, DoEnvironment(c, op), now)
  {
    hide Inv;
    if c.row.Some? && c.lock.None? {
      var r := c.row.value;
      InvTombstone(cfg, c, now, r.uploader);
      InvTombstone(cfg, c, now, false);
      if op == DeleteRoom {
        InvDetach(cfg, c, now, false, false);
      } else if op == DeleteAsset && r.message {
        InvUnregister(cfg, c, now);
      } else if op == DeleteAsset {
        var d := c.(row := Some(r.(deleted := true)));
        assert d == c.(row := Some(r.(deleted := true, uploader := r.uploader)));
        InvDetach(cfg, d, now, r.room, false);
        assert DoEnvironment(c, op) == if r.asset then d.(row := Some(d.row.value.(room := r.room, message := false, asset := false))) else c;
      }
    }
  }

  lemma InvCleanSelect(cfg: Config, c: Cell, now: nat, p: Pid)
    requires Safe(cfg) && Inv(cfg, c, now)
    ensures Inv(cfg, DoCleanSelect(c, now, p), now)
  {
    hide RowOk, Tiled, UploadOk, FileBytes, InOrder, DeleterOk, LegacyOk, FinOk, Cleanable;
    var d := DoCleanSelect(c, now, p);
    forall q | q in d.procs ensures q in d.used && ProcOk(cfg, d, now, q) {
      if q in c.procs {
        assert ProcOk(cfg, c, now, q);
        OtherOk(cfg, c, d, now, q);
      }
    }
  }

  lemma InvCleanCommit(cfg: Config, c: Cell, now: nat, p: Pid)
    requires Safe(cfg) && Inv(cfg, c, now)
    ensures Inv(cfg, DoCleanCommit(c, p), now)
  {
    var d := DoCleanCommit(c, p);
    if p in c.procs { assert ProcOk(cfg, c, now, p); }
    forall q | q in d.procs ensures q in d.used && ProcOk(cfg, d, now, q) {
      if q in c.procs { assert ProcOk(cfg, c, now, q); }
    }
  }

  lemma InvLeave(cfg: Config, c: Cell, now: nat, p: Pid)
    requires Safe(cfg) && Inv(cfg, c, now)
    ensures Inv(cfg, Leave(c, p), now)
  {
    hide Tiled, FileBytes;
    var d := Leave(c, p);
    if p in c.procs { assert ProcOk(cfg, c, now, p); }
    forall q | q in d.procs ensures q in d.used && ProcOk(cfg, d, now, q) {
      if q in c.procs { assert ProcOk(cfg, c, now, q); }
    }
  }

  function Release(c: Cell, p: Pid): Cell {
    if HasUpload(c) && c.row.value.upload.value.token == Some(p)
    then SetUpload(c, c.row.value.upload.value.(token := None)) else c
  }

  lemma InvRelease(cfg: Config, c: Cell, now: nat, p: Pid)
    requires Safe(cfg) && Inv(cfg, c, now) && p !in c.procs
    ensures Inv(cfg, Release(c, p), now)
  {
    hide Tiled, FileBytes;
    var d := Release(c, p);
    forall q | q in d.procs ensures q in d.used && ProcOk(cfg, d, now, q) {
      if q in c.procs { assert ProcOk(cfg, c, now, q); }
    }
  }

  lemma InvFinish(cfg: Config, c: Cell, now: nat, p: Pid)
    requires Safe(cfg) && Inv(cfg, c, now)
    ensures Inv(cfg, Finish(c, p), now)
  {
    InvLeave(cfg, c, now, p);
    InvRelease(cfg, Leave(c, p), now, p);
  }

  /** No promise to anyone rests on the object any more. */
  ghost predicate Disposable(c: Cell, now: nat) {
    c.row.Some? ==>
      var r := c.row.value;
      || r.deleted
      || (r.upload.None? && c.missed)
      || (!Kept(r, now) && (r.upload.Some? ==> Terminal(r.upload.value.state)))
  }

  lemma InvDispose(cfg: Config, c: Cell, now: nat)
    requires Safe(cfg) && Inv(cfg, c, now) && Disposable(c, now)
    ensures Inv(cfg, c.(blob := None), now)
  {
    var d := c.(blob := None);
    forall q | q in d.procs ensures q in d.used && ProcOk(cfg, d, now, q) {
      if q in c.procs { assert ProcOk(cfg, c, now, q); }
    }
  }

  lemma InvSweep(cfg: Config, c: Cell, now: nat, p: Pid, effect: bool)
    requires Safe(cfg) && Inv(cfg, c, now)
    ensures Inv(cfg, DoSweepObject(c, p, effect), now)
  {
    if p in c.procs && c.procs[p].Sweeping? {
      assert ProcOk(cfg, c, now, p);
      InvDispose(cfg, c, now);
      InvFinish(cfg, if effect then c.(blob := None) else c, now, p);
    }
  }

  lemma InvToRemoving(cfg: Config, c: Cell, now: nat, p: Pid)
    requires Safe(cfg) && Inv(cfg, c, now) && p in c.procs && c.procs[p].Deleting? && c.blob.None?
    requires c.procs[p].deadline <= now + cfg.cleanup
    ensures Inv(cfg, Move(c, p, Removing(c.procs[p].kind, c.procs[p].deadline)), now)
  {
    hide Tiled, FileBytes;
    var d := Move(c, p, Removing(c.procs[p].kind, c.procs[p].deadline));
    assert ProcOk(cfg, c, now, p);
    if Working(cfg, c, now) { assert ProcOk(cfg, c, now, c.row.value.upload.value.token.value); }
    forall q | q in d.procs ensures q in d.used && ProcOk(cfg, d, now, q) {
      if q in c.procs { assert ProcOk(cfg, c, now, q); }
    }
  }

  lemma InvDelete(cfg: Config, c: Cell, now: nat, p: Pid, effect: bool, reported: bool)
    requires Safe(cfg) && Inv(cfg, c, now)
    ensures Inv(cfg, DoDeleteObject(c, now, p, effect, reported), now)
  {
    if p in c.procs && c.procs[p].Deleting? {
      assert ProcOk(cfg, c, now, p);
      InvDispose(cfg, c, now);
      var d := if effect then c.(blob := None) else c;
      InvLeave(cfg, c, now, p);
      InvLeave(cfg, d, now, p);
      if now <= c.procs[p].deadline && effect && reported { InvToRemoving(cfg, d, now, p); }
    }
  }

  lemma InvCleanDelete(cfg: Config, c: Cell, now: nat, p: Pid, effect: bool, reported: bool)
    requires Safe(cfg) && Inv(cfg, c, now)
    ensures Inv(cfg, DoCleanDelete(c, p, effect, reported), now)
  {
    hide Tiled, FileBytes;
    if p in c.procs && c.procs[p].Cleaner? {
      assert ProcOk(cfg, c, now, p);
      InvDispose(cfg, c, now);
      var b := if effect then c.(blob := None) else c;
      if effect && reported {
        var d := Move(b, p, Cleaner(true));
        forall q | q in d.procs ensures q in d.used && ProcOk(cfg, d, now, q) {
          assert ProcOk(cfg, b, now, q);
        }
      } else {
        InvLeave(cfg, b, now, p);
      }
    }
  }

  lemma InvRemove(cfg: Config, c: Cell, now: nat, p: Pid)
    requires Safe(cfg) && Inv(cfg, c, now)
    ensures Inv(cfg, DoRemoveRow(c, now, p), now)
  {
    if p in c.procs && c.procs[p].Removing? && c.lock.None? {
      assert ProcOk(cfg, c, now, p);
      InvLeave(cfg, c, now, p);
      if now <= c.procs[p].deadline && c.row.Some? && Removable(c.row.value, c.procs[p].kind, now) {
        var b := c.(row := None);
        forall q | q in b.procs ensures q in b.used && ProcOk(cfg, b, now, q) {
          assert ProcOk(cfg, c, now, q);
        }
        InvLeave(cfg, b, now, p);
      }
    }
  }

  lemma InvMove(cfg: Config, c: Cell, now: nat, p: Pid, proc: Proc)
    requires Safe(cfg) && Inv(cfg, c, now) && p in c.procs && (c.procs[p].Fin? || c.procs[p].Aborting?)
    requires match proc {
      case Fin(began, _, phase) => c.procs[p].Fin? && began == c.procs[p].began && !phase.Listing? && !phase.Storing?
                                   && (phase.Marking? && c.row.Some? ==> Stored(c))
      case Cancelling(_) => true
      case Sweeping => c.procs[p].Aborting?
      case _ => false
    }
    ensures Inv(cfg, Move(c, p, proc), now)
  {
    hide RowOk, Tiled, UploadOk, FileBytes, InOrder;
    var d := Move(c, p, proc);
    assert ProcOk(cfg, c, now, p);
    forall q | q in d.procs ensures q in d.used && ProcOk(cfg, d, now, q) {
      if q in c.procs { assert ProcOk(cfg, c, now, q); }
    }
  }

  lemma InvSkip(cfg: Config, c: Cell, now: nat, p: Pid)
    requires Safe(cfg) && Inv(cfg, c, now)
    ensures Inv(cfg, DoSkipScan(c, p), now)
  {
    hide Inv;
    if p in c.procs && c.procs[p].Fin? && c.procs[p].phase.Scanning? {
      InvMove(cfg, c, now, p, c.procs[p].(phase := Completing));
    }
  }

  lemma InvForgetParts(cfg: Config, c: Cell, now: nat, mp: nat)
    requires Safe(cfg) && Inv(cfg, c, now)
    ensures Inv(cfg, c.(multiparts := c.multiparts - {mp}), now)
  {
    hide Tiled, FileBytes;
    var d := c.(multiparts := c.multiparts - {mp});
    forall q | q in d.procs ensures q in d.used && ProcOk(cfg, d, now, q) {
      if q in c.procs { assert ProcOk(cfg, c, now, q); }
    }
  }

  lemma InvClearMultipart(cfg: Config, c: Cell, now: nat)
    requires Safe(cfg) && Inv(cfg, c, now) && HasUpload(c)
    requires c.row.value.upload.value.state == Cancelled || c.row.value.upload.value.state == Rejected
    ensures Inv(cfg, SetUpload(c, c.row.value.upload.value.(multipart := None)), now)
  {
    var d := SetUpload(c, c.row.value.upload.value.(multipart := None));
    forall q | q in d.procs ensures q in d.used && ProcOk(cfg, d, now, q) {
      if q in c.procs { assert ProcOk(cfg, c, now, q); }
    }
  }

  lemma InvAbort(cfg: Config, c: Cell, now: nat, p: Pid, effect: bool, reported: bool)
    requires Safe(cfg) && Inv(cfg, c, now)
    ensures Inv(cfg, DoAbort(c, p, effect, reported), now)
  {
    if p in c.procs && c.procs[p].Aborting? {
      InvMove(cfg, c, now, p, Sweeping);
      if c.procs[p].target.Some? && effect {
        var d := c.(multiparts := c.multiparts - {c.procs[p].target.value});
        InvForgetParts(cfg, c, now, c.procs[p].target.value);
        InvMove(cfg, d, now, p, Sweeping);
        if HasUpload(d) && (d.row.value.upload.value.state == Cancelled || d.row.value.upload.value.state == Rejected) {
          InvClearMultipart(cfg, d, now);
          InvMove(cfg, SetUpload(d, d.row.value.upload.value.(multipart := None)), now, p, Sweeping);
        }
      }
    }
  }

  lemma InvCancelRow(cfg: Config, c: Cell, now: nat)
    requires Safe(cfg) && Inv(cfg, c, now) && CancelMatches(c, None) && c.lock.None?
    ensures Inv(cfg, c.(row := Some(CancelRow(c.row.value))), now)
  {
    var d := c.(row := Some(CancelRow(c.row.value)));
    forall q | q in d.procs ensures q in d.used && ProcOk(cfg, d, now, q) {
      if q in c.procs { assert ProcOk(cfg, c, now, q); }
    }
  }

  /** A tombstone may be in any number of hands. */
  lemma InvEnter(cfg: Config, c: Cell, now: nat, p: Pid, proc: Proc)
    requires Inv(cfg, c, now) && Fresh(c, p) && c.row.Some? && c.row.value.deleted && c.row.value.ready
    requires proc.Aborting? || proc == Deleting(Tombstoned, now + cfg.cleanup)
    ensures Inv(cfg, Enter(c, p, proc), now)
  {
    hide RowOk, Tiled, UploadOk, FileBytes, InOrder;
    var d := Enter(c, p, proc);
    forall q | q in d.procs ensures q in d.used && ProcOk(cfg, d, now, q) {
      if q in c.procs { assert ProcOk(cfg, c, now, q); }
    }
  }

  lemma InvReadCancel(cfg: Config, c: Cell, now: nat, p: Pid, stale: bool)
    requires Safe(cfg) && Inv(cfg, c, now)
    ensures Inv(cfg, DoReadCancel(c, now, p, stale), now)
  {
    hide RowOk, Tiled, UploadOk, FileBytes, InOrder;
    var d := DoReadCancel(c, now, p, stale);
    if p in c.procs { assert ProcOk(cfg, c, now, p); }
    forall q | q in d.procs ensures q in d.used && ProcOk(cfg, d, now, q) {
      if q in c.procs { assert ProcOk(cfg, c, now, q); }
    }
  }

  lemma InvTakeOver(cfg: Config, c: Cell, now: nat, p: Pid, target: Option<nat>)
    requires Inv(cfg, c, now) && p in c.procs && c.procs[p].CancelRead? && c.row.Some? && c.row.value.deleted
    ensures Inv(cfg, Move(c, p, Aborting(target)), now)
  {
    hide RowOk, Tiled, UploadOk, FileBytes, InOrder;
    var d := Move(c, p, Aborting(target));
    forall q | q in d.procs ensures q in d.used && ProcOk(cfg, d, now, q) {
      assert ProcOk(cfg, c, now, q);
    }
  }

  lemma InvCancelUpload(cfg: Config, c: Cell, now: nat, p: Pid)
    requires Safe(cfg) && Inv(cfg, c, now)
    ensures Inv(cfg, DoCancelUpload(c, p), now)
  {
    hide Inv;
    if p in c.procs && c.procs[p].CancelRead? && c.lock.None? {
      InvLeave(cfg, c, now, p);
      if CancelMatches(c, None) {
        InvCancelRow(cfg, c, now);
        InvTakeOver(cfg, c.(row := Some(CancelRow(c.row.value))), now, p, c.procs[p].seen);
      }
    }
  }

  lemma InvCancelPending(cfg: Config, c: Cell, now: nat, p: Pid)
    requires Safe(cfg) && Inv(cfg, c, now)
    ensures Inv(cfg, DoCancelPending(cfg, c, now, p), now)
  {
    hide Inv;
    var d := DoCancelPending(cfg, c, now, p);
    if d != c {
      InvTombstone(cfg, c, now, true);
      InvEnter(cfg, c.(row := Some(c.row.value.(deleted := true))), now, p, Deleting(Tombstoned, now + cfg.cleanup));
    }
  }

  lemma InvFencedCancel(cfg: Config, c: Cell, now: nat, p: Pid)
    requires Safe(cfg) && Inv(cfg, c, now)
    ensures Inv(cfg, DoFencedCancel(c, p), now)
  {
    if p in c.procs && c.procs[p].Cancelling? && c.lock.None? {
      InvFinish(cfg, c, now, p);
      if CancelMatches(c, Some(p)) {
        InvCancelRow(cfg, c, now);
        var d := c.(row := Some(CancelRow(c.row.value)));
        var e := Move(d, p, Aborting(Some(c.procs[p].mp)));
        forall q | q in e.procs ensures q in e.used && ProcOk(cfg, e, now, q) {
          assert ProcOk(cfg, d, now, q);
        }
      }
    }
  }

  lemma InvVerdict(cfg: Config, c: Cell, now: nat, p: Pid, scan: ScanState)
    requires Safe(cfg) && Inv(cfg, c, now) && p in c.procs && c.procs[p].Fin? && c.lock.None?
    requires HasUpload(c) && c.row.value.upload.value.token == Some(p)
    requires scan == Infected || (scan == Clean && !c.row.value.deleted)
    ensures Inv(cfg, c.(row := Some(c.row.value.(scan := scan))), now)
  {
    assert ProcOk(cfg, c, now, p);
    var d := c.(row := Some(c.row.value.(scan := scan)));
    forall q | q in d.procs ensures q in d.used && ProcOk(cfg, d, now, q) {
      if q in c.procs { assert ProcOk(cfg, c, now, q); }
    }
  }

  lemma InvScan(cfg: Config, c: Cell, now: nat, p: Pid, verdict: Verdict)
    requires Safe(cfg) && Inv(cfg, c, now)
    ensures Inv(cfg, DoScanObject(c, now, p, verdict), now)
  {
    hide Inv, Advances, Usable, Harmless;
    if p in c.procs && c.procs[p].Fin? && c.procs[p].phase.Scanning? && c.lock.None? {
      InvFinish(cfg, c, now, p);
      InvMove(cfg, c, now, p, Cancelling(c.procs[p].mp));
      InvMove(cfg, c, now, p, c.procs[p].(phase := Completing));
      if HasUpload(c) && Fenced(c.row.value.upload.value, p, now) {
        InvVerdict(cfg, c, now, p, Infected);
        InvMove(cfg, c.(row := Some(c.row.value.(scan := Infected))), now, p, Cancelling(c.procs[p].mp));
        if !c.row.value.deleted {
          InvVerdict(cfg, c, now, p, Clean);
          InvMove(cfg, c.(row := Some(c.row.value.(scan := Clean))), now, p, c.procs[p].(phase := Completing));
        }
      }
    }
  }

  lemma InvSetAssembled(cfg: Config, c: Cell, now: nat)
    requires Safe(cfg) && Inv(cfg, c, now) && HasUpload(c) && Stored(c)
    requires c.row.value.upload.value.state == Uploading || c.row.value.upload.value.state == Assembled
    ensures Inv(cfg, SetUpload(c, c.row.value.upload.value.(state := Assembled)), now)
  {
    var d := SetUpload(c, c.row.value.upload.value.(state := Assembled));
    forall q | q in d.procs ensures q in d.used && ProcOk(cfg, d, now, q) {
      if q in c.procs { assert ProcOk(cfg, c, now, q); }
    }
  }

  lemma InvMark(cfg: Config, c: Cell, now: nat, p: Pid, visible: bool)
    requires Safe(cfg) && Inv(cfg, c, now)
    ensures Inv(cfg, DoMarkAssembled(c, now, p, visible), now)
  {
    if p in c.procs && c.procs[p].Fin? && c.procs[p].phase.Marking? {
      assert ProcOk(cfg, c, now, p);
      InvFinish(cfg, c, now, p);
      InvMove(cfg, c, now, p, Cancelling(c.procs[p].mp));
      if HasUpload(c) && !c.row.value.deleted && (c.row.value.upload.value.state == Uploading || c.row.value.upload.value.state == Assembled) {
        InvSetAssembled(cfg, c, now);
        InvMove(cfg, SetUpload(c, c.row.value.upload.value.(state := Assembled)), now, p, c.procs[p].(phase := Scanning));
      }
    }
  }

  lemma InvSetReady(cfg: Config, c: Cell, now: nat, p: Pid)
    requires Safe(cfg) && Inv(cfg, c, now) && p !in c.procs && c.lock.None? && Completable(c, now, p)
    requires c.row.value.upload.value.state == Assembled && ScanPassed(c.row.value)
    ensures Inv(cfg, c.(row := Some(c.row.value.(ready := true, upload := Some(c.row.value.upload.value.(state := Complete))))), now)
  {
    var r, u := c.row.value, c.row.value.upload.value;
    var d := c.(row := Some(r.(ready := true, upload := Some(u.(state := Complete)))));
    forall q | q in d.procs ensures q in d.used && ProcOk(cfg, d, now, q) {
      if q in c.procs { assert ProcOk(cfg, c, now, q); }
    }
  }

  lemma InvReady(cfg: Config, c: Cell, now: nat, p: Pid, permitted: bool)
    requires Safe(cfg) && Inv(cfg, c, now)
    ensures Inv(cfg, DoCompleteUpload(c, now, p, permitted), now)
  {
    hide Inv, Advances, Usable, Harmless;
    if p in c.procs && c.procs[p].Fin? && c.procs[p].phase.Completing? {
      InvFinish(cfg, c, now, p);
      InvMove(cfg, c, now, p, Cancelling(c.procs[p].mp));
      if c.lock.None? && Completable(c, now, p) && c.row.value.upload.value.state == Assembled && ScanPassed(c.row.value) {
        var r, u := c.row.value, c.row.value.upload.value;
        InvLeave(cfg, c, now, p);
        var b := Leave(c, p);
        InvSetReady(cfg, b, now, p);
        InvRelease(cfg, b.(row := Some(r.(ready := true, upload := Some(u.(state := Complete))))), now, p);
      }
    }
  }

  lemma InvAssemble(cfg: Config, c: Cell, now: nat, p: Pid)
    requires Safe(cfg) && Inv(cfg, c, now) && Armed(cfg, c, now, p) && c.procs[p].phase.Storing?
    requires Assemblable(c, c.procs[p].mp, c.procs[p].phase.list)
    ensures var d := c.(blob := Some(Join(c.procs[p].phase.list)));
            Inv(cfg, d, now) && d.row.Some? && Stored(d)
  {
    assert ProcOk(cfg, c, now, p);
    var d := c.(blob := Some(Join(c.procs[p].phase.list)));
    FileLength(c.row.value.upload.value.parts, c.row.value.upload.value.offset, c.row.value.size);
    forall q | q in d.procs ensures q in d.used && ProcOk(cfg, d, now, q) {
      if q in c.procs { assert ProcOk(cfg, c, now, q); }
    }
  }

  lemma InvComplete(cfg: Config, c: Cell, now: nat, p: Pid, op: Op)
    requires Safe(cfg) && Inv(cfg, c, now) && op.CompleteMultipart?
    ensures Inv(cfg, DoCompleteMultipart(cfg, c, now, p, op), now)
  {
    if p in c.procs && c.procs[p].Fin? && c.procs[p].phase.Storing? && now <= c.procs[p].began + cfg.work {
      var f := c.procs[p];
      var b := c;
      if op.effect && Assemblable(c, f.mp, f.phase.list) {
        InvAssemble(cfg, c, now, p);
        b := c.(blob := Some(Join(f.phase.list)));
        InvForgetParts(cfg, b, now, f.mp);
        b := b.(multiparts := b.multiparts - {f.mp});
      }
      InvFinish(cfg, b, now, p);
      if b.blob.Some? { InvMove(cfg, b, now, p, f.(phase := Marking)); }
    }
  }

  lemma InvGrant(cfg: Config, c: Cell, now: nat, p: Pid)
    requires Safe(cfg) && Inv(cfg, c, now) && HasUpload(c) && p in c.procs && c.procs[p].FinRead?
    requires var u := c.row.value.upload.value; (u.token.None? || u.until <= now) && (u.state == Uploading || u.state == Assembled)
    ensures Inv(cfg, SetUpload(c, c.row.value.upload.value.(token := Some(p), until := now + cfg.lease)), now)
  {
    var u := c.row.value.upload.value;
    forall q | q in c.procs ensures !Armed(cfg, c, now, q) {
      assert ProcOk(cfg, c, now, q);
    }
    var d := SetUpload(c, u.(token := Some(p), until := now + cfg.lease));
    forall q | q in d.procs ensures q in d.used && ProcOk(cfg, d, now, q) {
      if q in c.procs { assert ProcOk(cfg, c, now, q); }
    }
  }

  /** Nobody deletes under a live resumable row. */
  lemma LiveRowProcs(cfg: Config, c: Cell, now: nat, q: Pid)
    requires Inv(cfg, c, now) && HasUpload(c) && !c.row.value.deleted && q in c.procs
    ensures !c.procs[q].Deleting? && !c.procs[q].Removing? && !c.procs[q].Legacy?
  {
    assert ProcOk(cfg, c, now, q);
  }

  lemma InvArm(cfg: Config, c: Cell, now: nat, p: Pid, mp: nat, phase: FinPhase)
    requires Safe(cfg) && Inv(cfg, c, now) && HasUpload(c) && p in c.procs && c.procs[p].FinRead?
    requires phase == Listing || phase == Scanning
    requires var u := c.row.value.upload.value;
             u.token == Some(p) && u.until == now + cfg.lease && !c.row.value.deleted && u.state != Complete
    ensures Inv(cfg, Move(c, p, Fin(now, mp, phase)), now)
  {
    assert ProcOk(cfg, c, now, p);
    var d := Move(c, p, Fin(now, mp, phase));
    assert FinOk(cfg, d, now, p);
    forall q | q in d.procs ensures q in d.used && ProcOk(cfg, d, now, q) {
      assert ProcOk(cfg, c, now, q);
      LiveRowProcs(cfg, c, now, q);
      if q != p { assert d.procs[q] == c.procs[q] && d.lock == c.lock && d.row == c.row && d.blob == c.blob; }
    }
  }

  lemma InvLease(cfg: Config, c: Cell, now: nat, p: Pid)
    requires Safe(cfg) && Inv(cfg, c, now)
    ensures Inv(cfg, DoTakeLease(cfg, c, now, p), now)
  {
    hide Inv;
    if p in c.procs && c.procs[p].FinRead? {
      if !HasUpload(c) {
        InvLeave(cfg, c, now, p);
      } else {
        var r, u := c.row.value, c.row.value.upload.value;
        if r.deleted || (u.state != Uploading && u.state != Assembled) || (u.token.Some? && u.until > now) {
          InvLeave(cfg, c, now, p);
        } else {
          InvGrant(cfg, c, now, p);
          var b := SetUpload(c, u.(token := Some(p), until := now + cfg.lease));
          InvArm(cfg, b, now, p, c.procs[p].mp, if c.procs[p].assembled then Scanning else Listing);
        }
      }
    }
  }
}
