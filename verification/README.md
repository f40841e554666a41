# Verified models of BetterComms

Dafny models of the stateful and transforming parts of BetterComms, each with the
properties its callers rely on, proved for all inputs, all runs and all
interleavings.

- **Attachments** (`AttachmentProtocol`, `AttachmentInvariant`, `AttachmentTheorems`,
  `CancelledUploads`, `AttachmentServer`). One attachment is a cell: its row, its resumable-upload row,
  the bytes under its key, S3's multipart uploads, and every request or worker part
  way through handling it. Each SQL statement, transaction or S3 call is one guarded
  operation; runs interleave them over any number of attachments with crashes and a
  clock. `AttachmentServer` runs the handlers themselves, branches and loops, on top
  of the same operations.
- **ONNX passes** (`Tensors`, `GruCell`, `Graphs`, `GruPass`, `GruSsa`, `GruMeaning`,
  `GruPreserves`, `GruGraph`, `GruText`, `GruClash`, `FusedConvPass`). Graphs are node lists evaluated over
  real matrices, with sigmoid, tanh, convolution and all other operators
  uninterpreted.
- **Signaling hub** (`HubModel`, `HubIndexes`, `HubViews`, `HubRuns`, `HubSplit`,
  `HubServer`) and
  **realtime hub** (`RealtimeServer`, `RealtimeDelivery`, `AccessRoutes`).
- **Voice notes** (`Ebml`, `Walks`, `VoiceWebm`, `VoiceMp4`, `VoiceNote`): the WebM and
  MP4 walks over arbitrary bytes.
- **Quiet hours** (`QuietHours`, `QuietChanges`), **iOS share grace timer** (`GraceTimer`), **SFU routes**
  (`SfuRoutes`), **voice jitter buffer** (`JitterBuffer`), **message search**
  (`SearchPages`, `SearchCursor`, `SearchLinks`), **groups and blocks** (`Groups`).

Code that updates objects in place is a class with the same fields and methods;
interleavings of several such objects are state machines over immutable states that
use the same operations.

## Where the code does less than one may expect

- An attachment's row can be removed under a stored object if a delete request is
  slower than the minute between work bound and lease, or if a single-request upload
  stores its bytes a day after saving its row. `AttachmentTheorems.NoOrphanExactly` is
  the exact condition.
- `discardFailedAttachment` deletes the object even when its tombstone matched no row.
  A client that hangs up right after completion can so leave a ready, attachable row
  without its object (`AttachmentTheorems.DiscardLosesReadyFile`);
  `AttachmentTheorems.LosesObjectExactly` says that nothing else does.
- `cancelled` is not final: a scan that ends after the cancel, or a further cancel of a file
  then on record as infected, may turn it into `rejected`.
  `CancelledUploads.CancelledStaysExactly` says exactly when.
- The six minutes of the lease outlast the request by one: what is left to do after five
  minutes fails although the lease is live. A late scan or update leaves the upload open for
  another attempt, a late completion withdraws it (`AttachmentServer.Server.FinishResumable`).
- The cancel that ends a failed finalization asks for the token but not for its
  expiry, so an expired finalizer that nobody replaced still tombstones its upload
  (`AttachmentTheorems.ExpiredCancelTombstones`; `AttachmentTheorems.FencedCancelExactly`
  says when it does).
- `expand_gru` is right exactly for GRUs that see one frame and name their bias, first
  state and last state; it reads no activation or clip attribute, so the theorem is
  about GRUs without them. Both passes need their made-up names to be free, which
  neither checks (`GruClash.TakenNameIsLost`, `FusedConvPass.StaleNameChanges`). A
  FusedConv with a fourth operand becomes a convolution that cannot run.
- `remove` announces after unlocking and `addWithMode` replaces while still scanning;
  `HubRuns.AnnounceExactly`, `HubSplit.SplitRemoveRun` and
  `HubRuns.RefusalIsNoOpExactly` say when that shows.
- After a nested cluster ends, the WebM walk keeps that cluster's time
  for what follows; block stamps are stated with the time then in force.
- `clockMinute` accepts a sign in place of a digit, as in `+1:-0`
  (`QuietHours.ProperClockExactly`).
- Where the clock skips a midnight, the instant returned as the end of quiet hours may still
  be quiet, and the one returned as their start may not be quiet at all
  (`QuietChanges.QuietGoesOn`, `QuietChanges.NothingBegins`).
- The grace timer's callback asks its questions under separate locks, so a socket
  that opens after the last one does not save the share; a start whose last lines take
  longer than 30 s can end up unwatched until a socket has opened and closed again.

## Model

| member | source | states |
|---|---|---|
| AttachmentTheorems.NoOrphanExactly | server/internal/api/storage_features.go:442-474 | In every run (any interleaving of finalizers, cancels, deletes, cleanup, crashes and the clock) each stored object has its row, if and only if the work bound plus the bound on one delete fits inside the lease and a single-request upload stores its bytes within a day |
| AttachmentTheorems.SafeNoOrphan | server/internal/api/attachment_store.go:41-122 | Under those bounds no reachable state holds an object without a row |
| AttachmentTheorems.DeployedNoOrphan | server/internal/api/storage_features.go:442-450 | The deployed five minutes, six minutes and ten seconds satisfy the bounds |
| AttachmentTheorems.ShortLeaseOrphans | server/internal/api/attachment_store.go:41-44 | With a lease no longer than work plus one delete, a concrete run removes the row under an object that a late finalizer then writes |
| AttachmentTheorems.SlowPutOrphans | server/internal/api/attachments.go:340-532 | A single-request upload still storing bytes after a day loses its row to the cleanup worker and leaves an orphan |
| AttachmentTheorems.InvStep | server/internal/api/storage_features.go:293-594 | Every one of the thirty-seven operations keeps the invariant of an attachment: tiling, lease, scan, storage and what every request in flight may rely on |
| AttachmentTheorems.InvReachable | server/internal/api/storage_features.go:293-594 | The invariant holds of every attachment in every reachable state |
| AttachmentTheorems.ReadyWasChecked | server/internal/api/storage_features_store.go:88-119 | A ready row that is not deleted passed its scan and, if resumable, is complete with offset equal to size |
| AttachmentTheorems.ClaimNeedsNoScanCheck | server/internal/api/messaging_store.go:280-300 | Whatever the attach step accepts has scan state not_required or clean, although it does not ask |
| AttachmentTheorems.UsableOnlyUnderLease | server/internal/api/storage_features_store.go:88-119 | A resumable attachment becomes usable by no operation but its own finalizer's permitted completion, under a live token, from the assembled state |
| AttachmentTheorems.UnfencedFinalizer | server/internal/api/storage_features.go:504-541 | A finalizer whose token was replaced or has expired changes nothing in the database but its own token |
| AttachmentTheorems.FencedCancelExactly | server/internal/api/storage_features.go:564-585 | The cancel that ends a failed finalization tombstones the upload exactly when the token is still its own and nobody attached the file |
| AttachmentTheorems.ExpiredCancelTombstones | server/internal/api/storage_features.go:543-585 | A run in which a finalizer whose lease has run out, and whom nobody replaced, is refused its completion and still tombstones the upload |
| AttachmentTheorems.TerminalIsAbsorbing | server/internal/api/storage_features.go:574-585 | While its row exists a rejected upload stays rejected, and a cancelled one is never anything but cancelled or rejected; CancelledUploads says when it is which |
| CancelledUploads.CancelledStaysExactly | server/internal/api/storage_features.go:504-594 | In every reachable state a cancelled upload stays cancelled in all continuations for as long as its row exists, if and only if: with its file on record as infected, its multipart upload is done away with, no cancel request that read the upload before its tombstone is still under way, and no finalizer holding the token can still reach its own cancel; otherwise, no finalizer under a live token is scanning the whole object |
| AttachmentTheorems.CancelledMayBecomeRejected | server/internal/api/storage_features.go:504-541 | A run in which cancelled is not final: the scan under way at the cancel turns it into rejected |
| AttachmentTheorems.TombstonesStay | server/internal/api/attachment_store.go:46-55 | A tombstone is never lifted and a removed row never comes back |
| AttachmentTheorems.ServedIsStored | server/internal/api/attachment_store.go:57-62 | What a member may still open is stored, whole and at its size, unless a failed upload's discard missed its tombstone |
| AttachmentTheorems.LosesObjectExactly | server/internal/api/attachments.go:523-532 | Of all operations, exactly a discard whose tombstone missed takes the object from a row that stays visible |
| AttachmentTheorems.DiscardLosesReadyFile | server/internal/api/attachments.go:507-532 | A run in which a client hangs up after completion, the tombstone cannot be written, and the object goes while the row stays ready, served and attachable |
| AttachmentTheorems.DiscardLosesAttachedFile | server/internal/api/attachments.go:523-532 | The same for a file already attached, if the response that counted as unwritten had arrived |
| AttachmentTheorems.ChunksTile | server/internal/api/storage_features.go:293-402 | In every reachable state the recorded parts are 1..k, tile [0, offset), are 8 MiB each but for a last one that ends the file, and offset is at most size |
| AttachmentTheorems.ReplayChangesNothing | server/internal/api/storage_features.go:293-340 | A chunk at a recorded offset is a replay exactly when its bytes are the recorded ones, a conflict otherwise, and changes nothing either way |
| AttachmentTheorems.JoinIsPrefix | server/internal/api/storage_features.go:475-497 | Listing the first n parts in order and joining them gives the file's prefix up to the n-th boundary |
| AttachmentTheorems.ServedIsTheFile | server/internal/api/storage_features.go:475-502 | If the recorded chunks came from one file, the assembled object is that file, whatever was retried or replayed |
| AttachmentInvariant.TiledGrow | server/internal/api/storage_features.go:293-402 | The part number computed from the offset is the next one, and recording the chunk keeps the tiling |
| AttachmentInvariant.InvStore | server/internal/api/storage_features.go:341-402 | A part stored in S3 whose transaction fails to commit, and one that commits, both keep the invariant |
| AttachmentInvariant.InvComplete | server/internal/api/storage_features.go:496-502 | CompleteMultipart keeps it, also when S3 did the work and the answer was lost |
| AttachmentInvariant.InvRemove | server/internal/api/attachment_store.go:41-44 | Removing the row after a confirmed delete keeps it: the lease check rules out a finalizer that may still write |
| AttachmentProtocol.DoMarkAssembled | server/internal/api/storage_features.go:504-516 | Marking assembled by a finalizer without a live token changes nothing but its token |
| AttachmentProtocol.DoCompleteUpload | server/internal/api/storage_features_store.go:88-119 | Becomes usable only under the listed guards |
| AttachmentServer.Server.UploadChunk | server/internal/api/storage_features.go:254-402 | The verdict is the row checks' verdict; anything but acceptance changes no row; an accepted, stored and committed chunk moves the offset by its length and appends exactly its bytes to the file |
| AttachmentServer.FileGrows | server/internal/api/storage_features.go:341-402 | Recording the next chunk appends its bytes to the joined file |
| AttachmentServer.PartsInOrder | server/internal/api/storage_features.go:475-494 | The part rows come out by ascending number, all of them |
| AttachmentServer.Server.FinishResumable | server/internal/api/storage_features.go:420-563 | Run undisturbed it finishes exactly when the row was open to it, S3 produced the object, storing, marking, scanning and completing all ended within the five minutes of the request, the scan passed and the rights held. Otherwise: refused with the row untouched; an error of S3, of the update or of the scan, lateness included, leaves the upload retryable without a token; an infected file and a completion refused or late leave a tombstone with its reason. A finished row has exactly the recorded bytes |
| AttachmentServer.Server.TakeTheLease | server/internal/api/storage_features.go:438-474 | The lease is taken exactly when the row is open, and otherwise the row is untouched |
| AttachmentServer.Server.AssembleParts | server/internal/api/storage_features.go:475-516 | Reaches assembled exactly when S3 produced the object and the row was updated within the five minutes of the request; otherwise the upload is still uploading, without a token |
| AttachmentServer.Server.Conclude | server/internal/api/storage_features.go:518-563 | Finishes exactly when scan and completion ended within the five minutes of the request, the scan passed and the rights held; a scan that is late or unavailable leaves the upload retryable, an infected file and a completion refused or late withdraw it |
| AttachmentServer.Server.CancelOwn | server/internal/api/storage_features.go:564-594 | Tombstones the upload as rejected if the file is infected, else as cancelled, whatever becomes of the abort and of the deletion; a deletion that takes effect leaves no object |
| AttachmentServer.Server.CleanPendingAttachments | server/internal/api/attachment_store.go:64-122 | Per item, the row goes exactly when S3 confirmed the delete and the transaction committed; other rows are untouched; success is reported exactly when all went |
| AttachmentServer.AssemblableExactly | server/internal/api/storage_features.go:475-502 | While the multipart upload exists, the recorded parts can be assembled, to the row's size |
| GruCell.NewStateIsStep | scripts/prepare-deepfilter-webgpu.py:43-68 | Products split by column blocks, gates, candidate and mix in matrix form equal the element-wise GRU step with linear_before_reset=1 |
| GruMeaning.SplitColumns | scripts/prepare-deepfilter-webgpu.py:49-51 | Split along axis 1 yields the three gate blocks of a product |
| GruMeaning.SplitBias | scripts/prepare-deepfilter-webgpu.py:52 | Split along axis 0 yields the six bias blocks |
| GruMeaning.EmittedHolds | scripts/prepare-deepfilter-webgpu.py:38-71 | Each of the 31 emitted nodes computes what its outputs stand for |
| GruSsa.ExpansionIsSsa | scripts/prepare-deepfilter-webgpu.py:20-72 | The emitted list reads only what is known or earlier, defines every name once, and defines exactly the made-up names and the GRU's outputs |
| GruPreserves.ExpansionIsGru | scripts/prepare-deepfilter-webgpu.py:20-72 | The expansion evaluates exactly when the GRU sees one frame and names its bias, first state and last state; it then gives the operator's own values and leaves every other name alone |
| GruText.TextPreserves | scripts/prepare-deepfilter-webgpu.py:20-93 | On graphs of text: if no name of the graph is spelled like a made-up one, the rewritten graph runs exactly when the original does and every GRU is of that kind, and every other name keeps its value |
| GruText.SpelledNameChanges | scripts/prepare-deepfilter-webgpu.py:28-43 | That hypothesis is needed: where a name of the environment is spelled like the first made-up one, the operator keeps its value and the expansion replaces it |
| GruText.TextKeepsSsa | scripts/prepare-deepfilter-webgpu.py:75-93 | Under the same hypothesis the rewritten graph of text is in single-assignment form |
| GruClash.TextSsaExactly | scripts/prepare-deepfilter-webgpu.py:75-93 | The rewritten graph of text is in single-assignment form, its initializers apart from the known names, if and only if no name that the graph knows, reads or defines is spelled like a made-up one |
| GruClash.TakenNameIsLost | scripts/prepare-deepfilter-webgpu.py:28-43 | A graph of one GRU over named operands in which such a name holds a value: the operator keeps the value, the expansion runs and replaces it |
| GruText.RunCarried | scripts/prepare-deepfilter-webgpu.py:75-93 | A graph means the same under any renaming that makes no two of its names one |
| GruGraph.ExpandingPreserves | scripts/prepare-deepfilter-webgpu.py:75-93 | The same with made-up names kept apart by construction: the rewritten graph runs exactly when the original does and every GRU is of that kind; every original name then has its original value |
| GruGraph.ExpandingKeepsSsa | scripts/prepare-deepfilter-webgpu.py:75-93 | With made-up names kept apart by construction the pass keeps single-assignment form across all expansions |
| GruText.SpelledApart | scripts/prepare-deepfilter-webgpu.py:28-36 | Two made-up names are spelled alike only if they are the same name |
| GruPass.Graph.ExpandGru | scripts/prepare-deepfilter-webgpu.py:20-72 | Emits the specified nodes in order and the initializers, or fails with the first failing check |
| GruPass.Graph.ExpandGrus | scripts/prepare-deepfilter-webgpu.py:75-93 | Rewrites the node list exactly when every GRU is expandable and there are as many as expected; otherwise the list is untouched |
| Graphs.SolutionIsRun | scripts/prepare-deepfilter-webgpu.py:75-93 | A single-assignment list whose equations a valuation satisfies evaluates to that valuation |
| FusedConvPass.DecomposeFusedConvs | scripts/prepare-deepfilter-model.py:58-91 | Succeeds exactly when every fused node is splittable and the count is as expected; otherwise reports the first fault |
| FusedConvPass.SplittingPreserves | scripts/prepare-deepfilter-model.py:58-91 | With fresh intermediate names the split graph evaluates exactly when the original does and no fused node has a fourth operand; every original name then keeps its value |
| FusedConvPass.StaleNameChanges | scripts/prepare-deepfilter-model.py:66-84 | Freshness is needed: where the made-up name is taken, its value changes |
| HubServer.Hub.Deliver | server/internal/api/hub.go:101-120 | Queues the message exactly when the client is neither revoked nor full; a full queue loses it and marks the client |
| HubServer.Hub.ScanRoom | server/internal/api/hub.go:134-170 | Stops at the first identity conflict with what it replaced so far already gone |
| HubServer.Hub.AddWithMode | server/internal/api/hub.go:134-198 | The whole new hub state of a join in any scan order; the answer is the new client's snapshot; the indexes stay consistent |
| HubServer.Hub.Unlink | server/internal/api/hub.go:199-214 | The locked half of remove |
| HubServer.Hub.Broadcast | server/internal/api/hub.go:298-306 | Delivers to every client of the room and changes nothing else |
| HubServer.Hub.Remove | server/internal/api/hub.go:199-220 | Both halves of remove, one after the other |
| HubServer.Hub.DisconnectRoomUser | server/internal/api/hub.go:333-361 | Exactly that user's connections in that room are flagged and then removed |
| HubServer.Hub.DisconnectRoom | server/internal/api/hub.go:362-386 | The room, its connections and its relays go, nothing else |
| HubServer.Hub.DisconnectUser | server/internal/api/hub.go:387-424 | Exactly that user's connections, in every room |
| HubServer.Hub.DisconnectSession | server/internal/api/session_revocation.go:31-51 | Exactly that session's connections, in every room |
| HubServer.Hub.AddVoice | server/internal/api/voice_relay.go:72-97 | Accepts exactly when the owner is a current, unrevoked client of that room with that peer |
| HubServer.Hub.RemoveVoice | server/internal/api/voice_relay.go:98-108 | Removes a relay entry only if it is still the caller's |
| HubServer.Hub.RelayVoice | server/internal/api/voice_relay.go:120-134 | Valid exactly when both ends' entries are current; then the packet joins the target's queue, a full one losing its oldest, and nothing else changes |
| HubServer.Hub.EnqueueVoice | server/internal/api/voice_relay.go:55-70 | The three channel operations leave the newest ten packets |
| HubServer.NewestTen | server/internal/api/voice_relay.go:55-70 | However many packets arrive unread, the queue is the newest ten of all, in order |
| HubIndexes.JoinKeeps | server/internal/api/hub.go:134-198 | Joins, refused ones too, keep at most one client per peer, every relay owned by a current client with its peer, and no empty room |
| HubIndexes.RemoveKeeps | server/internal/api/hub.go:199-220 | So does removal |
| HubIndexes.RevokeRoomUserKeeps | server/internal/api/hub.go:333-361 | So does revoking a room member |
| HubIndexes.DropRoomKeeps | server/internal/api/hub.go:362-386 | So does dropping a room |
| HubIndexes.RevokeUserKeeps | server/internal/api/hub.go:387-424 | So does revoking a user |
| HubIndexes.VoicesKeep | server/internal/api/voice_relay.go:72-97 | So does adding a relay |
| HubIndexes.RemoveVoiceKeeps | server/internal/api/voice_relay.go:98-108 | So does removing one |
| HubIndexes.RelayNeedsOnlyFlags | server/internal/api/voice_relay.go:109-134 | While the indexes agree, the relay's membership checks add nothing to the entries and the revoked flags |
| HubViews.JoinKeepsViews | server/internal/api/hub.go:134-198 | A join that goes through leaves every clean client's view equal to its room |
| HubRuns.IndexesAgree | server/internal/api/hub.go:134-424 | The index invariant holds at every point of every run |
| HubRuns.ViewsAreRooms | server/internal/api/hub.go:134-220 | In every run without split removals left open or mid-scan refusals, snapshot plus peer.joined and peer.left give exactly the other peers, for each client whose queue never overflowed |
| HubRuns.AnnounceExactly | server/internal/api/hub.go:215-219 | The late announcement of a split remove keeps all views right if and only if no clean listener remains in a room whose peer was taken over |
| HubSplit.SplitRemoveRun | server/internal/api/hub.go:199-220 | A run from the empty hub: a client is taken out, its peer comes back before the announcement, and at the end a third client that never stopped listening misses a peer that is in the room |
| HubRuns.SplitRemoveBreaks | server/internal/api/hub.go:199-220 | The same from any consistent state: a same-peer join between the halves of remove costs any third listener a peer that is in the room |
| HubRuns.WholeRemoveKeepsViews | server/internal/api/hub.go:199-220 | Under one lock the two halves are harmless |
| HubRuns.RefusalIsNoOpExactly | server/internal/api/hub.go:146-161 | A refused join changes nothing in any scan order if and only if it was not also replacing a connection of the joining user |
| HubRuns.UserIsGone | server/internal/api/hub.go:333-361 | Revoking a room member removes all of that user's connections and relays from the room, nobody else's, and everyone who stays knows |
| RealtimeServer.RealtimeHub.Add | server/internal/api/realtime.go:44-88 | Registers with exactly the given rooms and contacts, reports whether the user came online, touches no other subscription |
| RealtimeServer.RealtimeHub.Subscribe | server/internal/api/realtime.go:61-74 | One room is added on both sides of the index |
| RealtimeServer.RealtimeHub.SubscribeUser | server/internal/api/realtime.go:118-125 | Exactly that user's connections gain the room |
| RealtimeServer.RealtimeHub.UnsubscribeUser | server/internal/api/realtime.go:126-137 | Exactly that user's connections lose the room |
| RealtimeServer.RealtimeHub.UnsubscribeRoom | server/internal/api/realtime.go:138-146 | Every follower loses the room and its entry goes |
| RealtimeServer.RealtimeHub.SubscribeContacts | server/internal/api/realtime.go:147-157 | Each side's connections gain the other as a contact, nobody else gains any |
| RealtimeServer.RealtimeHub.UnsubscribeContacts | server/internal/api/realtime.go:158-175 | Both directions end, nothing else does |
| RealtimeServer.RealtimeHub.Remove | server/internal/api/realtime.go:89-117 | The connection leaves every index, both sides stay exact inverses without empty sets, desired statuses go exactly when nobody is or watches that user |
| RealtimeServer.RealtimeHub.DisconnectUser | server/internal/api/realtime.go:326-339 | Exactly that user's connections are flagged and removed |
| RealtimeServer.RealtimeHub.DisconnectSession | server/internal/api/session_revocation.go:5-21 | Exactly that session's connections are flagged and removed |
| RealtimeDelivery.WritesAreSubscribed | server/internal/api/realtime.go:436-452 | Whenever a room event is written, its connection is subscribed at that moment or already closing |
| RealtimeDelivery.NothingAfterUnsubscribing | server/internal/api/realtime.go:279-299 | Once a mutation releases accessMu with a connection unsubscribed, no event for that room, queued before or after, is written to it until it subscribes again |
| RealtimeDelivery.BoundaryExactly | server/internal/api/api.go:265-271 | In all runs room events are written to current subscribers only, short of a closing connection, if and only if mutations unsubscribe under the exclusive lock |
| RealtimeDelivery.UnlockedUnsubscribeLeaks | server/internal/api/realtime.go:436-452 | A run without that lock in which a writer past its check writes to a connection just unsubscribed |
| AccessRoutes.UnsubscribingIsExclusive | server/internal/api/api.go:265-271 | Every request dispatched by `authed` whose handler may unsubscribe or disconnect somebody takes accessMu exclusively (logging out, which disconnects too, is routed elsewhere and takes it in its own handler): room deletion, member changes, ownership transfer, bans and timeouts, unfriending, blocking, joining by invite, community changes, session and account removal |
| Ebml.EbmlVInt | server/internal/api/voice_notes.go:32-53 | The mask loop reads the variable-length integer of RFC 8794 section 4, refusing what that reading refuses |
| Ebml.SizeRoundTrip | server/internal/api/voice_notes.go:32-53 | Every size written in any length that holds it is read back, whatever follows |
| Ebml.EbmlUint | server/internal/api/voice_notes.go:54-63 | The big-endian value, never above 64 bits |
| Ebml.UnknownClusterSize | server/internal/api/voice_notes.go:199-231 | p is returned exactly when the bytes before p are complete elements and p is the end or a top-level identifier; refusal means no such p |
| Ebml.OneEnd | server/internal/api/voice_notes.go:199-231 | Such a p is unique |
| VoiceWebm.Walker.Walk | server/internal/api/voice_notes.go:64-198 | Accepts and ends in the state that folding the document's element events gives, for every byte string, in bounds |
| VoiceWebm.FoldGathers | server/internal/api/voice_notes.go:64-198 | The walk's variables are the last declared scale, duration and cluster time and the latest block |
| VoiceWebm.VoiceWebM | server/internal/api/voice_notes.go:64-198 | A duration is returned exactly when the bytes are a note, and is that note's length |
| VoiceWebm.ResultIsLatest | server/internal/api/voice_notes.go:171-197 | The length is the maximum of the declared duration and every block's stamp |
| VoiceMp4.ReadSamples | server/internal/api/voice_notes.go:413-428 | Accepts exactly the good sample tables and returns the sum of durations |
| VoiceMp4.NeverWraps | server/internal/api/voice_notes.go:414-419 | The guarded 64-bit addition equals the unbounded one within the sample cap |
| VoiceMp4.Walker.Walk | server/internal/api/voice_notes.go:232-433 | Accepts and ends in the state that folding the box events gives, for every byte string, in bounds |
| VoiceMp4.AddRuns | server/internal/api/voice_notes.go:451-468 | Fails exactly when a duration is missing or the total leaves 64 bits, else returns the unbounded total |
| VoiceMp4.Total | server/internal/api/voice_notes.go:440-481 | Fails exactly when a fragment does not fit or nothing plays, else returns the latest end |
| VoiceMp4.VoiceMP4 | server/internal/api/voice_notes.go:232-482 | A duration is returned exactly when the bytes are a note |
| VoiceMp4.ResultIsLatest | server/internal/api/voice_notes.go:440-481 | The result is the maximum of the media header's duration and every fragment's end, a fragment without tfdt starting where the previous ended |
| VoiceNote.ValidateVoiceNote | server/internal/api/voice_notes.go:13-31 | Accepts exactly notes of the sniffed container within size and duration bounds whose length is close to the claimed one |
| VoiceNote.NoLateBlock | server/internal/api/voice_notes.go:13-31 | No block of an accepted WebM note plays after 120250 ms at the declared scale |
| VoiceNote.NoLateFragment | server/internal/api/voice_notes.go:13-31 | No fragment of an accepted MP4 note ends after 120250 ms |
| QuietHours.ClockRoundTrip | server/internal/api/daily_notification_policy.go:15-22 | Every minute of the day survives being written as HH:MM and parsed |
| QuietHours.ProperClockExactly | server/internal/api/daily_notification_policy.go:15-22 | Of all strings the parser accepts, exactly those with four digits are the ones it would show again as they are; the others have a sign in place of a digit |
| QuietHours.SignedClockIsAccepted | server/internal/api/daily_notification_policy.go:15-22 | Such strings exist |
| QuietHours.QuietWallBoundary | server/internal/api/daily_notification_policy.go:45-78 | The loop with its fast path computes the specified boundary |
| QuietHours.BoundaryMeans | server/internal/api/daily_notification_policy.go:45-78 | For any zone: the first or last exact minute of the scan, else the first occurrence of the smallest later minute of that day, else the candidate |
| QuietHours.FastPathExactly | server/internal/api/daily_notification_policy.go:45-56 | The fast path returns the search's answer if and only if no earlier instant of the search, or no later one when the last is wanted, shows the same local time |
| QuietHours.FastPathIsSearch | server/internal/api/daily_notification_policy.go:45-56 | So it does wherever the offset is constant over the scan |
| QuietHours.QuietHoursAt | server/internal/api/daily_notification_policy.go:79-118 | Off or unreadable zone: inactive and no instant; otherwise the earliest anchor day whose interval holds now, or else the earliest start still ahead |
| QuietHours.ActiveIsQuiet | server/internal/api/daily_notification_policy.go:79-118 | With a fixed offset, active exactly when the instant is quiet under the policy |
| QuietHours.QuietUntilExactly | server/internal/api/daily_notification_policy.go:79-118 | While active it stays so until the returned instant, and is not at it |
| QuietHours.QuietFromExactly | server/internal/api/daily_notification_policy.go:79-118 | While inactive a next instant exists, it is quiet at it, and nothing before it is |
| QuietChanges.QuietUntilAnyZone | server/internal/api/daily_notification_policy.go:79-118 | In any zone, while active: it stays quiet until the returned instant wherever the interval's day is still looked at, and is still quiet at it if and only if another day's interval holds then |
| QuietChanges.QuietFromAnyZone | server/internal/api/daily_notification_policy.go:79-118 | In any zone, while inactive: no day looked at is quiet before the returned instant, and the interval that starts there holds at it if and only if it has not ended by then |
| QuietChanges.QuietGoesOn | server/internal/api/daily_notification_policy.go:79-118 | Around a skipped midnight one interval ends where the next begins: the instant returned as the end is quiet |
| QuietChanges.NothingBegins | server/internal/api/daily_notification_policy.go:79-118 | An interval that was skipped altogether: the instant returned as the next start is not quiet |
| GraceTimer.InvStep | apps/desktop-wails/ios_broadcast_ios.go:71-124 | Every step of sockets, notices, timer callbacks, prompt starts and closes keeps the invariant |
| GraceTimer.SharesAreGuardedExactly | apps/desktop-wails/ios_broadcast_ios.go:78-124 | In every run each started share without a socket and without a close notice pending has a timer pending with the current open count and a deadline at least 30 s after its start, or a fired callback still holding it, if and only if the last lines of a start take at most 30 s |
| GraceTimer.EndsOnlyAfterGrace | apps/desktop-wails/ios_broadcast_ios.go:86-113 | When the timer ends a share, one and the same firing asked, in this order, and found no socket open, none opened for 30 s, and the share started for 30 s |
| GraceTimer.AtTheEndExactly | apps/desktop-wails/ios_broadcast_ios.go:86-113 | At the moment of ending no socket is open if and only if those counted since the first question have closed again, and none opened for 30 s if and only if none did since the second question within the last 30 s |
| GraceTimer.EndsInSilence | apps/desktop-wails/ios_broadcast_ios.go:86-113 | A firing during which no socket is opened or counted ends its share with no socket open and none opened for 30 s |
| GraceTimer.LateOpeningIsNotSeen | apps/desktop-wails/ios_broadcast_ios.go:86-113 | A run in which a socket opens after the questions and the share ends all the same |
| GraceTimer.SlowStartIsForgotten | apps/desktop-wails/ios_broadcast_ios.go:376-386 | A run in which a start whose last lines take longer than 30 s ends up started and unwatched |
| GraceTimer.NoticeGuardsAgain | apps/desktop-wails/ios_broadcast_ios.go:71-85 | Every close that is noticed guards every started share again |
| SfuRoutes.EngineHandle.Send | apps/sfu/src/engine.rs:45-56 | The event is queued, or dropped when the engine task is gone |
| SfuRoutes.EngineHandle.Register | apps/sfu/src/engine.rs:58-75 | Succeeds exactly on a vacant entry and takes only that |
| SfuRoutes.EngineHandle.Unregister | apps/sfu/src/engine.rs:76-81 | Frees that entry only |
| SfuRoutes.InvStep | apps/sfu/src/signaling.rs:137-200 | Every step of every connection keeps the invariant between routes, phases and queue |
| SfuRoutes.QueueIsSessions | apps/sfu/src/signaling.rs:137-200 | For any number of connections and any interleaving, the queue projected on one client is a prefix of (Join (Sdp or Ice)* Leave)* |
| SfuRoutes.RejectedIsSilent | apps/sfu/src/signaling.rs:137-140 | A rejected registration sends nothing, ever |
| JitterBuffer.VoicePlayback.Audio | apps/web/public/voicePlayback.worklet.js:8-27 | Drops exactly the fewest whole oldest remainders that make room, then appends the packet unless it is oversized; over any sequence of calls what was played is what was received, in order, without what was lost, and the three counts add up |
| JitterBuffer.VoicePlayback.Process | apps/web/public/voicePlayback.worklet.js:29-51 | Output is the pending prefix in order, zero-padded; playback starts with at least 1920 pending, stops when it runs dry and restarts only with as much |
| JitterBuffer.VoicePlayback.Play | apps/web/public/voicePlayback.worklet.js:36-48 | Copies exactly the prefix that fits and keeps the rest |
| JitterBuffer.VoicePlayback.DropOldest | apps/web/public/voicePlayback.worklet.js:18-22 | Drops one whole remainder and its count |
| JitterBuffer.Skips | apps/web/public/voicePlayback.worklet.js:18-22 | Dropping keeps what was played an in-order part of what was received, and the counts |
| JitterBuffer.Plays | apps/web/public/voicePlayback.worklet.js:36-48 | So does playing |
| JitterBuffer.Stale | apps/web/public/voicePlayback.worklet.js:18-22 | The number of dropped remainders is the least that makes room |
| SearchPages.Search | server/internal/api/search_filters.go:126-205 | A page holds the matching rows of the scanned stretch in order and a cursor exactly when more may follow |
| SearchPages.NoGapNoRepeat | server/internal/api/search_filters.go:143-204 | At every point of following cursors, what was shown and what remains are together exactly the matching messages in descending sequence, without gap or repeat, despite the scan cap |
| SearchPages.FewPages | server/internal/api/search_filters.go:143-204 | A chain of pages that all carry a cursor is no longer than the rows it has passed, so following cursors ends |
| SearchPages.SearchMessages | server/internal/api/search_filters.go:126-142 | Not found exactly when the cursor or message named cannot be resolved; else the page from there, its cursor as text |
| SearchPages.CursorContinues | server/internal/api/search_filters.go:92-112 | The text of a page's cursor starts the next request right below the page |
| SearchPages.FollowCursors | server/internal/api/search_filters.go:126-204 | Repeating the request with each reply's cursor ends, and has then shown exactly the matching messages |
| SearchCursor.Base64RoundTrip | server/internal/api/search_filters.go:92-112 | Unpadded URL-safe Base64 (section 5 of RFC 4648) decodes to the encoded bytes |
| SearchCursor.CursorRoundTrip | server/internal/api/search_filters.go:92-112 | A cursor carries every 64-bit sequence from 1 up back and is refused for every other |
| SearchLinks.PrefilterKeepsLinks | server/internal/api/search_filters.go:114-124 | Every message with a visible link passes the SQL link prefilter |
| Groups.Heir | server/internal/api/social_store.go:247-258 | The successor is the earliest to have joined, ties by identifier |
| Groups.LeftIsOne | server/internal/api/social_store.go:233-264 | A departure has one possible result |
| Groups.LeavingKeeps | server/internal/api/social_store.go:233-264 | What is left of a group after a departure is again a proper group without the leaver |
| Groups.CreatedIsOk | server/internal/api/social_store.go:75-127 | A permitted creation makes a proper group: at most ten living members, one owner, no blocks inside |
| Groups.AddedIsOk | server/internal/api/social_store.go:157-230 | An accepted addition keeps the group proper |
| Groups.BlockKeeps | server/internal/api/privacy_store.go:99-119 | Once the blocker has left every shared group, no group contains the new block |
| Groups.DeletionKeeps | server/internal/api/account_store.go:149-159 | Once the account has left every group, all groups are proper among the living |
| Groups.Store.CreateGroup | server/internal/api/social_store.go:75-127 | The outcome per the checks in order; success adds exactly the roster, refusal changes nothing |
| Groups.Store.AddMember | server/internal/api/social_store.go:129-231 | The outcome per the checks in order; success adds exactly that member |
| Groups.Store.RemoveMember | server/internal/api/social_store.go:233-288 | Only the owner or the member may; the target leaves with succession, other groups are untouched |
| Groups.Store.BlockUser | server/internal/api/privacy_store.go:61-124 | The block is added, the friendship ends, the blocker leaves every shared group and no other, and all groups stay proper |
| Groups.Store.UnblockUser | server/internal/api/privacy_store.go:125-129 | Exactly that block ends |
| Groups.Store.DeleteAccount | server/internal/api/account_store.go:111-200 | Refused while owning channels; else the account leaves every group with succession and its blocks and friendships end |
| Groups.Store.DeleteGroup | server/internal/api/postgres.go:155-173 | Only the owner deletes, and only that group |
| Groups.Store.SignUp | server/internal/api/postgres.go:53-58 | A new account, in no group |
| Groups.Store.RequestFriend | server/internal/api/postgres.go:272-297 | Refused between people with a block, and as a conflict for oneself, unknown accounts and pairs already related |
| Groups.Store.AcceptFriend | server/internal/api/postgres.go:298-321 | A waiting request without a block becomes a friendship |
| Groups.Store.Unfriend | server/internal/api/postgres.go:322-342 | Ends request and friendship, leaves groups alone |
| Groups.Inherited | server/internal/api/account_store.go:111-159 | Two new accounts become friends and form a group; deleting its owner leaves the friend as owner |

## Left out

- AttachmentServer.Server.FinishResumable: one handler at a time; what other requests may do between its statements is the subject of AttachmentTheorems. The owner's cancel, the single-request upload and the library delete are operations of AttachmentProtocol without a handler method of their own.
- AttachmentServer.Server.CleanPendingAttachments: takes the rows its query picked as given; their order and `cleanup_attempted_at` are not modelled.
- AttachmentTheorems.NoOrphanExactly: S3 calls take effect at one moment before the caller's deadline or not at all; a call that lands after its caller gave up is not modelled. Nor is a multipart upload begun in S3 whose transaction never commits: it costs storage, not an object.
- AttachmentTheorems.InvStep: permissions, sessions, quotas and content sniffing are unconstrained booleans; checksums stand for the bytes they are taken of.
- Library cursors, PDF previews, storage policies and retention settings: easy members beside the protocol.
- GruPreserves.ExpansionIsGru: reals in place of floating point; the rewriting of negative axes, model hashes and the onnxruntime comparison are not modelled.
- HubServer.Hub.EnqueueVoice: nobody reads the queue between its three operations.
- HubRuns.ViewsAreRooms: for runs in which `remove` is one step and no join is refused after replacing somebody, the two cases the counterexamples are about.
- HubServer.Hub.AddWithMode: clients are records in a table named by number, each in one room, so sharing of client pointers is not captured. Mute and deafen flags, call presence, direct relays and token buckets are left out.
- RealtimeServer.RealtimeHub.Add: presence and profile payloads are left out; closing the socket is the environment's step.
- RealtimeDelivery.NothingAfterUnsubscribing: about the moment the lock is released; an event written earlier may still be on the wire.
- VoiceWebm.VoiceWebM: floating-point element values are read by a given function; durations are reals.
- VoiceMp4.VoiceMP4: durations are reals.
- QuietHours.QuietUntilExactly: for a fixed offset, as are QuietHours.ActiveIsQuiet and QuietHours.QuietFromExactly; QuietChanges says what is left of them where offsets change. Validation of zone names and the calendar function are parameters.
- QuietHours.FastPathIsSearch: the candidate is at most a day from the wanted day, as every caller's is.
- SfuRoutes.QueueIsSessions: the media engine, socket contents and authorization lease are environment steps.
- SearchPages.NoGapNoRepeat: a fixed set of rows; the SQL filter is whatever predicate chose them.
- SearchLinks.PrefilterKeepsLinks: the URL checks are an arbitrary predicate; case folding is ASCII.
- GraceTimer.SharesAreGuardedExactly: the functions that watch signaling are installed.
- Groups.Store.AddMember: group rooms only; channels and communities have their own membership. Identifiers are already lower-case and valid; two racing transactions are serialised by the membership lock.
- Token buckets, drafts, preferences, reminders, invites, desktop pairing and updates: independent members that would only add easy claims.
- HTTP, JSON, cookies, WebSocket, S3, ClamAV and cryptography: plumbing around the modelled steps.
