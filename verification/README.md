# ArtifactFS in Dafny

ArtifactFS mounts a Git tree (the *base*, one snapshot generation at a time) merged with local edits
(the *overlay*). This project models the parts of it whose correctness rests on more than one function
and proves what they promise:

* **The copy-on-write union filesystem.** `Model`, `Overlays` and `Reconciles` give the overlay table as a
  value: rows by path, backing objects by id, and what each operation makes of them. `Resolve` is the
  merged view. `OverlayStore.Store` and `Engines.Engine` are the same operations in place, proved against
  these functions. On top stand the tree-level theorems: directory renames are exact, exactly when a
  reconcile changes what a user sees, exactly when an edit survives HEAD changes and when the view over the
  new HEAD is still a tree, every live row owns its backing object.
* **The hydrator.** `TaskQueue.Queue` is the array heap with its dedupe map and active set; `Hydrator` is
  the protocol of callers, workers and `Stop` as interleaved critical sections, and
  `HydratorService.Service` the critical sections in place, each proved to refine its step.
* **Inodes and open handles.** `Inodes` keeps the two maps of the FUSE inode table inverse over every run;
  `Fuse` ties them to the view across every call; `Sessions` runs whole sequences of calls and generation
  switches; `HandleCache` is the invalidation protocol of cached files, with the bytes they serve, and
  `OpenFiles` what handles read after their file was unlinked, replaced or moved.
* **Git plumbing.** `BatchPool` is the bounded process pool, `CatFile` the framed stream of one process and
  the requests that share processes, `ErrorScan` the chunked scanner, `ShellFields` the splitter and quoter,
  `Snapshots` the generations and their implied directories.

Paths are sequences of components; `PathText` proves that the program's string operations on cleaned paths
(prefix tests, prefix replacement, child names, `filepath.Dir`) agree with the operations on components.
A blob id is its content, so hashing is injective by construction. One SQL transaction is one update of a
map. I/O failures are nondeterministic choices (`if *`) that every contract allows for; a store whose
constant `reliable` is set never makes them, and its contracts say exactly which calls then succeed. An SQL
prefix query may return any superset of the rows it should.

## What differs from what one would expect

The code is modelled as it is; where a promise fails, the exact condition is proved.

* Reconcile drops a whiteout whose target path is neither empty nor its own path even when the base still
  tracks that path. `mv a b; mv b c` produces one, and after the next reconcile `b` shows its base content
  again (`OverlayRuns.RenameChainReappears`).
* Reconcile compares a file row with the base by content and permission bits only. A regular file without
  any permission bit that holds the text of a tracked link is dropped as if it were that link
  (`OverlayRuns.LockedFileBecomesLink`). An edit stays on show until it is committed **if and only if** this
  never happens to it (`Reconciles.NoEditLostIff`).
* These are the only two ways: the merged view survives a reconcile **if and only if** no such whiteout sits
  over a base node and no file is taken for a link (`Reconciles.ReconcileKeepsViewIff`).
* Renaming a created file, or a link without a recorded source, writes no whiteout. The rename is exact
  **if and only if** the base has no node at the old path (`RenameViews.RenameExactIff`,
  `Engines.Engine.RenameLeaf`); delete, create and rename at one path brings the base file back
  (`RenameViews.DeleteCreateRenameReappears`). Reconcile heals this for created files but not for links
  over a tracked file (`Provenance.NormalFormUncoversOnlyByLinks`, `Provenance.ReconciledLinkUncovers`).
* A directory rename marks nothing that it carries as changed from the tracked paths it lands on. A tracked
  directory is removed, another with a file of the same name takes its place, and that file is renamed on: the
  old one is back (`Sessions.CarriedFileUncovers`). After a directory rename a file renamed on leaves the base
  node behind **if and only if** its path is tracked and its row was bare, that is a creation or a link without
  recorded source, or it was a tracked link (`Sessions.CarriedThenRenamed`). Renaming a single file or link does
  mark it, so a file saved by way of a temporary one moves away without trace (`Sessions.SavedFileMovesAway`).
* Making a file, link or directory over a row leaves the row's backing object behind; no other operation leaves
  one (`OverlayRuns.KeepsTidyIff`).
* A row renamed twice leaves the normal form unless it moves from where the base has its source; writing to
  a renamed row, removing what is untracked and creating over what is tracked leave it too
  (`Provenance.RenamingRenamedIsNormalIff`, `Provenance.WriteIsNormalIff`, `Provenance.RemoveIsNormalIff`,
  `Provenance.CreateIsNormalIff`).
* A generation switch can leave a view that is no tree: an edit outlives the directory it was made in
  (`Sessions.SwitchOrphans`). The view over the new generation is a tree **if and only if** everything that
  stays visible has a directory above it (`SwitchViews.SwitchKeepsTreeIff`), which can be looked up before the
  switch; the program does not look.
* So can a call within a generation. The program carries out a call on whatever its paths show by then: a
  write through a handle whose file and directory a switch has taken away creates the file anew, with no
  directory above it (`Sessions.OldHandleOrphans`), and a create, link or mkdir below such a directory does
  the same. After any call on a tree the view is a tree **if and only if** the call changed nothing or fits,
  which can be looked up before it: a directory is above, and, for what is no directory, nothing below
  (`Sessions.Serve`, `Sessions.DoneKeepsTreeIff`; over whole sessions `Sessions.SessionIsTreeIff`). A call
  whose paths have just been looked up fits (`Sessions.LookedUpFits`). The theorems about directory renames
  therefore name the hypothesis `TreeShaped`. Of a tree, what it shows and which rows are bare decide what every
  successful call makes of it (`Sessions.AlikeStaysAlike`).
* A listing shows a directory for a name that has only deeper rows, although looking that name up fails;
  such names are called orphans, and listing and lookup agree exactly up to them. They arise without any
  switch (`Sessions.GhostDirectory`), and a directory that lists one can be neither renamed nor removed.
* Writing through the engine to a path that names a base directory without a row and without an object id
  replaces the directory by a file (`Engines.Engine.Write`). A handle opened on a file can ask for it after a
  HEAD switch has made the path a directory; a tracked tree carries an object id, so there copy-up fails.
* A handle opened on an overlay row keeps reading that row's file after a switch has dropped the row: once the
  path changes again such a handle serves what the path no longer holds (`HandleCache.DroppedBackingIsStale`).
  A handle is stale if it keeps the file of a dropped row and the path holds other bytes. Between writes, a
  read returns what the path holds **if and only if** its handle is not stale when the read begins, or the
  next write closes the handle before it is checked (`HandleCache.ReadsNowIffNotStale`). On a handle that is
  not stale then, a read returns something the path held while it ran, whatever else happens
  (`HandleCache.ReadsWhatWasThere`). A stale handle stays so across unlink and rename
  (`OpenFiles.UnlinkedReadsIff`, `OpenFiles.RenamedReadsIff`, `OpenFiles.ReplacedReadsIff`).
* A process that an acquire popped before the pool was closed can be handed out after it
  (`BatchPool.HandedOutAfterClose`); it is **if and only if** it is then found alive, and none else is
  (`BatchPool.HandedOutAfterCloseIff`).
* Splitting after quoting is the identity **if and only if** no field is empty (`ShellFields.RoundTripIff`).

## Model

| member | source | states |
|---|---|---|
| Model.SplicedReads | internal/overlay/store.go:276-304 | a write at an offset leaves the data there, the old bytes elsewhere, and zeros in any gap |
| Model.BaseHoldsAncestors | internal/gitstore/gitstore.go:2395-2415 | in a parent-closed generation every ancestor of a tracked path is a tracked directory |
| PathText.RenderInjective | internal/model/types.go:157-170 | distinct cleaned paths have distinct texts |
| PathText.DescendantText | internal/fusefs/fuse_unix.go:207-209 | the string test for "same path or descendant" is exactly the prefix order on components |
| PathText.RebaseText | internal/overlay/store.go:468-623 | replacing the old path's text by the new path's moves a descendant to the same place below the new path |
| PathText.ChildNameText | internal/fusefs/merged.go:19-35 | the text cut out as child name is the component just below the parent |
| PathText.DirText | internal/snapshot/store.go:241-250 | the directory part of a path's text is the text of its parent |
| OverlayEffects.CreateFileShows | internal/overlay/store.go:227-251 | afterwards the path shows an empty file with the given permissions, every other layer is untouched, ownership holds |
| OverlayEffects.CreateSymlinkShows | internal/overlay/store.go:253-274 | a link of at most 4096 bytes shows its text and changes no other path; a longer one fails |
| OverlayEffects.MkdirShows | internal/overlay/store.go:690-710 | the path shows a directory and nothing else changes; its row has permission bits even where Git gives none |
| OverlayEffects.RemoveHides | internal/overlay/store.go:364-381 | the path is hidden, whatever the base holds, and nothing else changes |
| OverlayEffects.CopyUpShows | internal/overlay/store.go:144-225 | copying a base file or link up shows exactly what the base showed; it fails only for links, and then changes nothing |
| OverlayEffects.WriteFileShows | internal/overlay/store.go:276-304 | exactly the live regular files can be written, with the spliced content and the same permissions; other nodes fail and stay |
| OverlayEffects.TruncateShows | internal/overlay/store.go:341-362 | as for writes, with the content cut or zero-extended to the size |
| OverlayEffects.SetModeShows | internal/overlay/store.go:742-761 | a file's permission bits become those given, its content, its type bits and the rest of its row stay, other kinds of node look the same |
| OverlayEffects.RenameRowMoves | internal/overlay/store.go:383-460 | a row rename shows the node at the new path and hides the old path, except for creates and source-less links, which let the base show through |
| OverlayEffects.RenameOntoBaseMoves | internal/overlay/store.go:630-688 | the same for renames that land on a tracked path; only links with a recorded source leave a whiteout |
| OverlayEffects.TreeKeepsFiles | internal/overlay/store.go:468-623 | every row that survives a tree rename still names the backing object it named, with the same bytes |
| OverlayEffects.TreeMoves | internal/overlay/store.go:468-623 | a tree rename shows each live row at its new path, hides all tracked sources and the tracked destinations nothing landed on, leaves the rest, and keeps ownership |
| OverlayRuns.ApplyKeepsOwned | internal/overlay/store.go:144-274 | every operation keeps backing-file ownership |
| OverlayRuns.OwnershipOverRuns | internal/overlay/store.go:364-710 | after any sequence of operations each live non-link row names one existing object of its own, whiteouts and links none |
| OverlayRuns.KeepsTidyIff | internal/overlay/store.go:227-710 | an operation leaves a backing object without row if and only if it makes something over a row that has one |
| OverlayRuns.RenameChainReappears | internal/overlay/store.go:798-924 | on every well-formed base two file renames in a row, with the copy-ups FUSE makes, after which reconcile makes a renamed-away path reappear |
| OverlayRuns.LockedFileBecomesLink | internal/overlay/store.go:985-993 | on every well-formed base a file written over a link, locked to mode 000, turns into the link at the next reconcile |
| Reconciles.ReconcileKeepsOwned | internal/overlay/store.go:925-970 | reconcile deletes no backing object that a surviving row names |
| Reconciles.DroppedRowIsInBase | internal/overlay/store.go:985-993 | a live row is dropped only where the base has a node: the very same one, if and only if the row is not a mode-000 file over a link with its text |
| Reconciles.DroppedIffCommitted | internal/overlay/store.go:803-921 | committed edits leave the overlay: a file row is dropped exactly if its recorded source moved and the base shows the file, or shows the link it is taken for |
| Reconciles.DroppedLinkIffCommitted | internal/overlay/store.go:903-917 | a link row is dropped exactly if it has no permission bits, its recorded source moved and the base shows that very link |
| Reconciles.DroppedDirectoryIffTracked | internal/overlay/store.go:899-902 | a directory row is dropped exactly if the base shows a directory |
| Reconciles.CommittedFollowsBase | internal/overlay/store.go:803-921 | a committed file, link or directory has no row after any later switches, and its path shows what the generation tracks, if anything |
| Reconciles.ReconcileViewAt | internal/overlay/store.go:798-924 | path by path: what is seen changes exactly where a foreign whiteout hides a base node or a file is taken for a link |
| Reconciles.ReconcileKeepsViewIff | internal/overlay/store.go:781-970 | the merged view over the new base is unchanged if and only if neither happens anywhere |
| Reconciles.ReconcileNormalizes | internal/overlay/store.go:798-924 | afterwards every modify, rename, create, delete, mkdir and link row is in normal form against the base |
| Reconciles.NormalFormIffFixpoint | internal/overlay/store.go:798-924 | the tables in normal form are exactly those a reconcile leaves as they are |
| Reconciles.ReconcileIdempotent | internal/overlay/store.go:781-970 | a second reconcile against the same base changes nothing |
| Reconciles.NormalFormHasNoForeignWhiteouts | internal/overlay/store.go:875-884 | after one reconcile no foreign whiteout is left, whatever base comes next |
| Reconciles.NoEditLostIff | internal/overlay/store.go:803-921 | over any sequence of generation switches a live row shows its node after each, until and including the switch that drops it, if and only if it is never taken for a link |
| Reconciles.NoEditLost | internal/overlay/store.go:803-921 | in the end the row still shows its type, bytes and permissions, or was dropped at a generation whose base shows the same node, or was taken for a link |
| SwitchViews.SwitchShows | internal/overlay/store.go:798-924 | which paths a switch leaves visible and which as directories, read off the rows and the new base alone |
| SwitchViews.SwitchKeepsTreeIff | internal/overlay/store.go:798-924 | the view over a new generation is a tree if and only if every path that stays visible has a directory above it |
| OverlayStore.NoKeyInsertedTwice | internal/overlay/store.go:468-623 | the inserts of a tree rename never meet a primary key that is already there |
| OverlayStore.Store.CreateFile | internal/overlay/store.go:227-251 | fails on I/O unchanged, or does exactly what the function on overlay values says |
| OverlayStore.Store.CreateSymlink | internal/overlay/store.go:253-274 | likewise |
| OverlayStore.Store.Mkdir | internal/overlay/store.go:690-717 | likewise, normalizing Git's directory mode |
| OverlayStore.Store.EnsureCopyOnWrite | internal/overlay/store.go:144-225 | likewise; a live row is left alone |
| OverlayStore.Store.WriteFile | internal/overlay/store.go:276-304 | likewise; anything but a create becomes a modify |
| OverlayStore.Store.Truncate | internal/overlay/store.go:341-362 | likewise |
| OverlayStore.Store.SetMode | internal/overlay/store.go:742-761 | likewise |
| OverlayStore.Store.Remove | internal/overlay/store.go:364-381 | likewise; the row becomes a whiteout and its backing object goes |
| OverlayStore.Store.Rename | internal/overlay/store.go:383-460 | likewise; directories go through the tree rename |
| OverlayStore.Store.RenameAndMarkModifiedFromBase | internal/overlay/store.go:630-688 | likewise, for a row of any kind; only a directory row leaves a table without ownership |
| OverlayStore.Store.RenameTree | internal/overlay/store.go:468-623 | likewise, for every list of tracked source and destination paths, with each rejected case |
| OverlayStore.Store.ReconcileChecked | internal/overlay/store.go:781-970 | the two passes with their work lists compute exactly the reconciled table, or fail and change nothing |
| OverlayStore.Store.ModifiesAndRenames | internal/overlay/store.go:798-874 | the first pass settles exactly the modify and rename rows and finds exactly the stale rename sources |
| OverlayStore.Store.OtherRows | internal/overlay/store.go:875-921 | the second pass settles all other rows, given those sources |
| OverlayStore.Store.CommitReconcile | internal/overlay/store.go:925-970 | the transaction and the removals after it turn settled work lists into the reconciled table |
| RenameViews.NothingBelow | internal/fusefs/merged.go:75-91 | in a tree-shaped view nothing is visible below what is not a visible directory |
| RenameViews.TreeMoveExact | internal/overlay/store.go:468-623 | once every visible path below the old root has its own row, the rename moves the whole tree, leaves nothing behind, reveals nothing at the destination and changes nothing else |
| RenameViews.TreeMovedKeepsShape | internal/fusefs/ops.go:189-243 | the moved view is again a tree when the new parent is a visible directory |
| RenameViews.RenameExactIff | internal/overlay/store.go:413-424 | either row rename of a file or link is exact if and only if the moved row uncovers no base node |
| RenameViews.RowMoveLeaves | internal/overlay/store.go:383-460 | what exactly is left at the old path of a row rename |
| RenameViews.DeleteCreateRenameReappears | internal/overlay/store.go:413-424 | on every well-formed base: delete, create and rename at one path brings the base file back |
| Provenance.CopyUpRecordsSource | internal/overlay/store.go:144-225 | a copied-up row records exactly the base node it came from |
| Provenance.WriteIsNormalIff | internal/overlay/store.go:276-304 | writing to a file keeps normal form if and only if a renamed row already names the base node at its new path |
| Provenance.RemoveIsNormalIff | internal/overlay/store.go:364-381 | removing keeps normal form if and only if the path is tracked |
| Provenance.CreateIsNormalIff | internal/overlay/store.go:227-251 | creating keeps normal form if and only if the path is untracked |
| Provenance.RenamingModifiedKeepsNormal | internal/overlay/store.go:383-460 | renaming a modified file keeps normal form |
| Provenance.RenamingRenamedIsNormalIff | internal/overlay/store.go:402-436 | a renamed file moved again still names its recorded source, and keeps normal form if and only if it moves from that source |
| Provenance.RenamingCreatedIsNormalIff | internal/overlay/store.go:413-416 | renaming a created file keeps normal form if and only if the new path is untracked |
| Provenance.MarkingCreatedKeepsNormal | internal/overlay/store.go:630-688 | which is why a created file that lands on a tracked path is marked as modified from it |
| Provenance.CarryingRecordsSource | internal/overlay/store.go:468-623 | a modified file carried along by a tree rename records the tracked path it left |
| Provenance.CarriedDirectoryHasPermissions | internal/overlay/store.go:555-564 | a carried directory has permission bits, even if its row still had Git's mode |
| Provenance.LostRenameForgetsSource | internal/overlay/store.go:820-874 | a renamed file whose source the base no longer has becomes a creation, or a modification of what is tracked where it is |
| Provenance.LinkPassesThrough | internal/overlay/store.go:417-424 | a link renamed twice leaves no row at the path in between |
| Provenance.CarriedLinkPassesThrough | internal/overlay/store.go:468-623 | nor does a tracked link that a tree rename carried and a row rename moved on |
| Provenance.NormalFormUncoversOnlyByLinks | internal/overlay/store.go:798-924 | after a reconcile only a link standing over a tracked path can uncover it |
| Provenance.ReconciledLinkUncovers | internal/overlay/store.go:417-424 | and, on every well-formed base with a tracked file, a case where it does |
| Listing.ListedIffResolves | internal/fusefs/merged.go:75-91 | a name is listed exactly when its path resolves or it is an orphan, with the type it resolves to |
| Listing.ReaddirTyped | internal/fusefs/merged.go:174-244 | for every over-approximating prefix query the listing is strictly sorted, holds exactly the listed names, and says of each where it comes from |
| Listing.BaseNames | internal/snapshot/store.go:153-169 | the children a listing starts from are exactly the tracked ones |
| Names.BeforeIff | internal/fusefs/merged.go:174-244 | the order of a listing is that of the first differing character, a prefix before its extensions |
| TreeWalks.MergedTree | internal/fusefs/ops.go:250-277 | the walk reports each path with what it resolves to and, in a tree-shaped view, every visible path below the root; there it fails without a fault exactly where nothing is shown or a listing shows an orphan |
| TreeWalks.SnapshotTreePaths | internal/fusefs/ops.go:279-307 | the walk returns exactly the tracked paths at or below the root |
| Engines.CheckDestination | internal/fusefs/ops.go:189-243 | a destination is accepted only if absent or an empty directory; each refusal has its reason |
| Engines.PromotedMove | internal/fusefs/ops.go:189-243 | the store's tree rename after copy-up, seen from before copy-up, is exact or changes nothing |
| Engines.Engine.EnsureOverlay | internal/fusefs/ops.go:29-50 | giving a base file or link a row of its own is invisible, and the row names the base node as its source; without faults it succeeds exactly where there is a row or a node that can be copied up |
| Engines.Engine.Promote | internal/fusefs/ops.go:189-243 | after the copy-up phase every visited path has a live row and nobody sees a change |
| Engines.Engine.RenameDirectory | internal/fusefs/ops.go:189-243 | a successful directory rename moves exactly the tree onto an absent or empty destination, and exactly what was bare or a tracked link arrives bare; a failure at any stage changes nothing that is seen; without faults it succeeds exactly if POSIX allows it, all nodes can be copied up and no listing shows an orphan |
| Engines.Engine.RenameLeaf | internal/fusefs/ops.go:141-180 | a file or link moves, and the move is exact if and only if its row uncovers no base node; a creation or link with a row that lands on a tracked path is marked as changed from it, and exactly which rows are bare afterwards; failures are invisible; which are due to no fault |
| Engines.Engine.Rename | internal/fusefs/ops.go:141-180 | both cases dispatched on what the old path shows |
| Engines.Engine.Create | internal/fusefs/ops.go:121-126 | exactly the one path shows a new empty file, or nothing changes |
| Engines.Engine.Symlink | internal/fusefs/ops.go:128-133 | exactly the one path shows the link, or nothing changes |
| Engines.Engine.Mkdir | internal/fusefs/ops.go:309-313 | exactly the one path shows a directory, or nothing changes |
| Engines.Engine.Unlink | internal/fusefs/ops.go:135-139 | exactly the one path shows nothing any more, or nothing changes |
| Engines.Engine.Write | internal/fusefs/ops.go:102-115 | a write splices into the file shown, into a new empty one, or into one that replaces a directory without object id; no other path changes, and no row but a new file's becomes bare; without faults it succeeds exactly in these cases |
| Engines.Engine.Rmdir | internal/fusefs/ops.go:315-327 | only directories without visible or orphan children go; the view stays a tree |
| Engines.Engine.Transition | internal/fusefs/merged.go:50-54 | a generation switch leaves exactly the reconciled overlay, in normal form; if and only if each: the view is kept, the view is a tree |
| TaskHeaps.RootIsBest | internal/hydrator/hydrator.go:667-672 | the root of a heap is a task of highest priority, oldest among its equals |
| TaskQueue.Queue.HeapPush | internal/hydrator/hydrator.go:677-681 | push keeps heap order and stored positions, and adds exactly the item |
| TaskQueue.Queue.HeapPop | internal/hydrator/hydrator.go:682-689 | pop removes exactly the root and keeps order and stored positions |
| TaskQueue.Queue.HeapFix | internal/hydrator/hydrator.go:151-168 | fixing one changed position restores heap order and keeps every item's position right |
| TaskQueue.Queue.EnqueueLocked | internal/hydrator/hydrator.go:151-168 | active keys are refused; a queued key takes the higher of the two priorities and no key loses any; a worker is to be woken exactly if the key is new or rose; heap, dedupe map and active set keep agreeing |
| TaskQueue.Queue.TakeNext | internal/hydrator/hydrator.go:508-526 | a task of highest priority, oldest among its equals, moves from the queue to the active set, and "more" tells whether any remains |
| TaskQueue.Queue.FinishLocked | internal/hydrator/hydrator.go:594-600 | the key leaves the active set |
| TaskQueue.Queue.Clear | internal/hydrator/hydrator.go:103-115 | stop drops heap and map together |
| Inflight.WithoutSpec | internal/hydrator/inflight.go:14-31 | removing a channel removes it and no other |
| Inflight.NotifyWaiters | internal/hydrator/inflight.go:45-50 | every listed waiter gets the value, nobody else anything, and no send meets a full buffer |
| Inflight.Table.Add | internal/hydrator/inflight.go:9-12 | the caller is told exactly whether it is first |
| Inflight.Table.Remove | internal/hydrator/inflight.go:14-31 | the channel leaves its list, and an emptied list leaves the map |
| Inflight.Table.Take | internal/hydrator/inflight.go:33-37 | all waiters of the key are handed out and its list is gone |
| Inflight.Table.CloseAll | internal/hydrator/inflight.go:39-43 | every registered waiter gets the value and no list remains |
| Hydrator.InvStep | internal/hydrator/hydrator.go:151-232 | every step keeps single flight, one place per waiter channel, no forgotten key, answers at stop, and no lost wake-up |
| Hydrator.InvOverRuns | internal/hydrator/hydrator.go:487-573 | so does every interleaving |
| Hydrator.PopTakesBest | internal/hydrator/hydrator.go:667-672 | a worker takes a task of highest priority, oldest among its equals |
| Hydrator.EnqueueAllBatches | internal/hydrator/hydrator.go:117-168 | after a batch every key queued before or risen has a task of the highest priority seen for it, each such task is an old one or an entry that rose in its turn, and one signal is due for each that rose |
| Hydrator.SentAtMostOnce | internal/hydrator/inflight.go:45-50 | what a channel received is never overwritten |
| Hydrator.NotifyNeverBlocks | internal/hydrator/inflight.go:45-50 | the next send of a notifying worker always finds an empty buffer |
| Hydrator.FinishTakesAllWaiters | internal/hydrator/hydrator.go:594-600 | finishing a key hands exactly its waiters to the worker |
| Hydrator.NotifyingAnswersAll | internal/hydrator/hydrator.go:594-600 | whose sends then answer every one of them with the outcome |
| Hydrator.HeldUntilAnswered | internal/hydrator/hydrator.go:594-600 | no step of any thread takes a waiter from a worker's hands except by answering it |
| Hydrator.NoWaiterLost | internal/hydrator/hydrator.go:170-232 | in every interleaving a waiting key is queued or active before stop, and no waiter registered before stop is still waiting after it |
| Hydrator.OneFetchPerKey | internal/hydrator/hydrator.go:508-573 | no key is ever fetched by two workers at once |
| Hydrator.WakeupsNeverLost | internal/hydrator/hydrator.go:79-149 | whenever work is queued, a token is there, a thread is about to send one, or a worker is about to pop |
| HydratorService.Service.EnqueueBatch | internal/hydrator/hydrator.go:117-149 | the locked loop refines the protocol's enqueue step: unless stopped, every entry is active or queued at least at its priority, nothing else is added, and the signals due are the entries that rose |
| HydratorService.Service.JoinInflight | internal/hydrator/hydrator.go:209-218 | refines the join step: attached exactly if the key is active or waited for |
| HydratorService.Service.RegisterWaiter | internal/hydrator/hydrator.go:170-207 | refines the register step with all its outcomes: refused exactly after stop, else attached last in its list; alone with its key, it also enqueues the task, raising a queued one, and reports whether that rose |
| HydratorService.Service.GiveUpWaiting | internal/hydrator/hydrator.go:220-232 | refines the step of a caller whose context ends |
| HydratorService.Service.StepLocked | internal/hydrator/hydrator.go:508-526 | refines the pop step: a best task moves from the queue to the active set |
| HydratorService.Service.FinishHydration | internal/hydrator/hydrator.go:594-600 | refines the finish step up to the sends |
| HydratorService.Service.FetchSucceeded | internal/hydrator/hydrator.go:555-573 | refines the step after a successful fetch, stopped meanwhile or not |
| HydratorService.Service.Halt | internal/hydrator/hydrator.go:103-115 | refines the stop step, and sends exactly what the protocol says it sends |
| HydratorService.PlacedIsDistinct | internal/hydrator/inflight.go:39-43 | the protocol's invariant gives closing all lists what it needs: no channel twice, none already answered |
| Inodes.AllocKeepsInverse | internal/fusefs/fuse_unix.go:120-134 | looking a path up returns its inode or a fresh id and keeps the maps inverse |
| Inodes.ForgetKeepsInverse | internal/fusefs/fuse_unix.go:590-604 | forgetting, of any count, keeps the maps inverse and never unmaps another inode's path |
| Inodes.MoveKeepsInverse | internal/fusefs/fuse_unix.go:163-205 | so does moving a subtree |
| Inodes.IdentityFollowsRename | internal/fusefs/fuse_unix.go:954-1019 | after a directory rename every inode below the old path names the node it named before, replaced inodes are stale, all others unchanged |
| Inodes.StepKeepsCounts | internal/fusefs/fuse_unix.go:120-161 | reference counts are exactly the kernel's references |
| Inodes.TableOverRuns | internal/fusefs/fuse_unix.go:120-205 | over every run the maps stay inverse, a referenced inode stays, and no id is handed out twice |
| Inodes.InodeTable.AllocInode | internal/fusefs/fuse_unix.go:120-134 | the in-place maps become exactly what the function says |
| Inodes.InodeTable.ForgetInode | internal/fusefs/fuse_unix.go:590-604 | likewise |
| Inodes.InodeTable.MoveInodePath | internal/fusefs/fuse_unix.go:163-205 | the loops over both maps compute the moved table whatever order they visit entries in, and open directory handles move along |
| Inodes.RetiredThenRehomed | internal/fusefs/fuse_unix.go:163-205 | retiring the replaced and then rehoming the moving inodes is the move |
| Inodes.IdentityFollowsLeaf | internal/fusefs/fuse_unix.go:954-1019 | the same after the rename of a file or link, where nothing lies below either end |
| Fuse.IdentityAfterRename | internal/fusefs/fuse_unix.go:954-1019 | whatever was renamed, every inode in use is accounted for: moved, replaced, or naming what it named |
| Fuse.CheckEnds | internal/fusefs/fuse_unix.go:954-1019 | the checks pass exactly for a visible source and a destination of its own sort, or none, not below a moving directory |
| Fuse.RenamedTwiceLeavesNothing | internal/fusefs/fuse_unix.go:954-1019 | a file renamed onto any path, tracked or not, and then renamed away leaves nothing there |
| Fuse.ArtifactFuse.CreateFile | internal/fusefs/fuse_unix.go:847-871 | the path shows a new empty file and has an inode; nothing else changes |
| Fuse.ArtifactFuse.CreateSymlink | internal/fusefs/fuse_unix.go:873-895 | the path shows the link and has an inode; too long a text is refused; nothing else changes |
| Fuse.ArtifactFuse.MkDir | internal/fusefs/fuse_unix.go:897-916 | the path shows a directory, with the mode asked for in its row, and has an inode; nothing else changes |
| Fuse.ArtifactFuse.Unlink | internal/fusefs/fuse_unix.go:934-952 | the path shows nothing, after a copy-up that nobody notices; which unlinks succeed without faults |
| Fuse.ArtifactFuse.Rename | internal/fusefs/fuse_unix.go:954-1019 | view and inode table move together, every inode keeps its node, or neither changes; without faults it succeeds if and only if the rename is possible |
| Sessions.CleanMountIsTree | internal/gitstore/gitstore.go:2395-2415 | a fresh mount shows a tree |
| Sessions.NewDirectoryIsEmpty | internal/fusefs/fuse_unix.go:897-916 | a new directory is empty, even where one with tracked contents was removed |
| Sessions.LeafKeepsTreeIff | internal/fusefs/ops.go:102-133 | a file or link that a write, create or symlink puts at a path keeps the view a tree if and only if a directory is above it and nothing below |
| Sessions.DirectoryKeepsTreeIff | internal/fusefs/ops.go:309-313 | a directory put at a path does if and only if a directory is above it |
| Sessions.RemovalKeepsTreeIff | internal/fusefs/ops.go:135-139 | removing what a path shows does if and only if nothing is below it |
| Sessions.RenameKeepsTreeIff | internal/fusefs/fuse_unix.go:954-1019 | a rename does if and only if it lands in a directory, which may be one that the moved file uncovers |
| Sessions.DoneKeepsTreeIff | internal/fusefs/fuse_unix.go:814-1019 | whatever call is carried out on a tree, completely or halfway, the view is a tree afterwards if and only if the call fits or nothing shows |
| Sessions.LookedUpFits | internal/fusefs/fuse_unix.go:847-1019 | a call whose paths were looked up in the same state fits |
| Sessions.Serve | internal/fusefs/fuse_unix.go:814-1019 | every call and switch, on whatever its paths show, does what it promises on view, inode table and bare rows, changes none of them, or leaves one of two named halfway states; from a tree the view stays one if and only if the call fits or nothing shows; without faults exactly the feasible calls succeed |
| Sessions.Session | internal/fusefs/fuse_unix.go:814-1019 | over every sequence of calls and switches the record holds one such entry per call |
| Sessions.SessionIsTreeIff | internal/fusefs/fuse_unix.go:814-1019 | the view was a tree throughout such a record if and only if it was one at the start and every call fitted or did not show |
| Sessions.AlikeStaysAlike | internal/fusefs/fuse_unix.go:814-1019 | two mounts that show the same tree with the same bare rows still do after the same successful call |
| Sessions.SavedFileMovesAway | internal/fusefs/ops.go:141-180 | create a temporary file, rename it onto another, rename that away: nothing of it is left, whatever the base tracks |
| Sessions.SwitchOrphans | internal/overlay/store.go:798-811 | on every base, an edit outlives its directory when the next generation has none |
| Sessions.OldHandleOrphans | internal/fusefs/fuse_unix.go:814-845 | on every base, a write through a handle whose file and directory a switch has removed makes a file visible below no directory |
| Sessions.GhostDirectory | internal/fusefs/merged.go:174-244 | a whiteout that outlives the row above it: the name is listed as a directory and cannot be looked up |
| Sessions.CarriedThenRenamed | internal/overlay/store.go:535-565 | after a directory rename, a file or link renamed on leaves the base node behind exactly if its path is tracked and it arrived bare |
| Sessions.CarriedFileUncovers | internal/overlay/store.go:535-565 | on every base, replacing a tracked directory and renaming a file out of it brings the tracked file back |
| HandleCache.InvStep | internal/fusefs/fuse_unix.go:333-400 | every step of readers, writers and generation switches keeps the invariant of sequence numbers, row and bytes |
| HandleCache.ReadsSinceLastWrite | internal/fusefs/fuse_unix.go:779-845 | in every interleaving, switches included, a read returns something the path has held since the data of the last write that returned before it began |
| HandleCache.ReadsWhatWasThere | internal/fusefs/fuse_unix.go:333-384 | a read on a handle that is not stale when it begins returns, over every run, something the path held during it, or, if it began while a write was returning, since the write before |
| HandleCache.DanglingServesItsFile | internal/fusefs/fuse_unix.go:333-384 | over every run a read on a handle that keeps a dropped row's file returns that file's bytes, unless a write closes the handle before the check |
| HandleCache.WritersLeaveNoneStale | internal/fusefs/fuse_unix.go:833-844 | in every interleaving, from the moment a write has closed a handle until it returns, that handle is not stale |
| HandleCache.ReadsNowIffNotStale | internal/fusefs/fuse_unix.go:333-400 | between writes and while the path goes on holding what it holds, a read returns that if and only if its handle is not stale at the start or is closed before the check |
| HandleCache.QuietHandlesOfferNow | internal/fusefs/fuse_unix.go:239-254 | between writes no handle, and no reader about to install a base file, offers base bytes other than what the path holds |
| HandleCache.SwitchKeepsNowIff | internal/daemon/daemon.go:1517-1524 | a switch changes what the path holds exactly if no row covers it and the new base differs |
| HandleCache.HandlesReadTheirWrites | internal/fusefs/fuse_unix.go:814-845 | after a write returned, every later read returns the written content for as long as the path holds it, also across the switch that drops its committed row |
| HandleCache.DroppedBackingIsStale | internal/fusefs/fuse_unix.go:333-384 | a concrete run of two switches after which a handle is stale and serves a dropped row's bytes |
| HandleCache.UndisturbedReadCaches | internal/fusefs/fuse_unix.go:333-384 | a read with nobody in its way opens the base file, returns its bytes and leaves it in the handle |
| HandleCache.CachedFileServes | internal/fusefs/fuse_unix.go:333-345 | from where the next read of the generation is served |
| HandleCache.FileHandle.CloseCachedFile | internal/fusefs/fuse_unix.go:386-400 | does to the handle what the protocol's close step does, unless the handle is detached |
| HandleCache.FileHandle.CheckCache | internal/fusefs/fuse_unix.go:333-384 | refines the check step: hit, drop or capture, with the reader sent where the protocol sends it |
| HandleCache.FileHandle.InstallBase | internal/fusefs/fuse_unix.go:333-384 | refines the install step: the base file is kept only if nothing was invalidated and the generation did not change |
| OpenFiles.StepKeepsFile | internal/overlay/store.go:364-710 | no operation of the store changes what a descriptor reads, unless it rewrites that very file |
| OpenFiles.DetachedIff | internal/fusefs/fuse_unix.go:295-312 | unlink and rename detach exactly the handles at or below the path that goes |
| OpenFiles.UnlinkedReadsIff | internal/fusefs/fuse_unix.go:934-952 | after an unlink an open handle reads what the path showed, if and only if it did not keep a file the path did not show |
| OpenFiles.UnlinkedReadsForGood | internal/fusefs/fuse_unix.go:295-345 | and goes on reading the same bytes over every later run of operations and switches |
| OpenFiles.DetachedKeepsReading | internal/fusefs/fuse_unix.go:333-345 | so does every detached handle with a file that no row names |
| OpenFiles.DetachedWriteIsPrivate | internal/fusefs/fuse_unix.go:822-832 | a write through it is read back through it and seen by nobody else |
| OpenFiles.RenamedReadsIff | internal/fusefs/fuse_unix.go:986-1018 | a handle on a renamed file follows it and reads what the new path shows, under the same condition |
| OpenFiles.ReplacedReadsIff | internal/fusefs/fuse_unix.go:986-1018 | a handle on a replaced file is detached and reads what the path showed before, under the same condition |
| OpenFiles.ReplacedReadsForGood | internal/fusefs/fuse_unix.go:295-345 | and goes on reading the same bytes over every later run |
| OpenFiles.TreeHandlesMoveAlong | internal/fusefs/fuse_unix.go:314-331 | handles below a renamed directory move along and read what they read, which is what their new paths show exactly if it was before |
| OpenFiles.OpenHandles.PinOpenHandles | internal/fusefs/fuse_unix.go:256-293 | the loop pins exactly the handles on the path that have no backing file yet |
| OpenFiles.OpenHandles.DetachOpenHandles | internal/fusefs/fuse_unix.go:295-312 | the loop detaches exactly the handles at or below the path |
| OpenFiles.OpenHandles.MoveOpenHandles | internal/fusefs/fuse_unix.go:314-331 | the loop moves exactly the handles at or below the old path |
| OpenFiles.OpenHandles.Renamed | internal/fusefs/fuse_unix.go:986-1018 | the three loops in the order a rename calls them |
| BatchPool.UnblockingSignals | internal/gitstore/gitstore.go:1528-1597 | every critical section that lets a waiting acquire proceed closes the channel it captured |
| BatchPool.InvStep | internal/gitstore/gitstore.go:1480-1597 | every step keeps partition, exclusive holders, the creation count, and no lost wake-up |
| BatchPool.NeverGrowsPastLimit | internal/gitstore/gitstore.go:1499-1504 | processes plus creations never grow past the limit in force |
| BatchPool.HandedOutAfterCloseIff | internal/gitstore/gitstore.go:1480-1526 | after close an acquire hands out exactly a process it had popped before and finds alive; no process gets a new holder |
| BatchPool.HandedOutAfterClose | internal/gitstore/gitstore.go:1480-1579 | a run from every fresh pool at whose end the pool is closed and an acquire has just returned a process |
| BatchPool.OnlyOldHoldersAfterClose | internal/gitstore/gitstore.go:1561-1579 | over every run after a close, whoever then holds a process held it when the pool closed |
| BatchPool.PoolOverRuns | internal/gitstore/gitstore.go:1480-1597 | in every interleaving: one holder per process, free and held make up all while open, and whoever could proceed can wake up |
| BatchPool.ShrunkSpec | internal/gitstore/gitstore.go:1581-1597 | shrinking drops free processes only, from the end, until the size fits or none is free |
| BatchPool.ProcessPool.AcquireLocked | internal/gitstore/gitstore.go:1480-1526 | the fields change as the protocol's step: the process popped is the last free one, a creation is booked only when none is free and there is room, and otherwise the open channel is captured |
| BatchPool.ProcessPool.CreatedLocked | internal/gitstore/gitstore.go:1499-1515 | likewise, for the section after a process was started; whether the pool was closed meanwhile |
| BatchPool.ProcessPool.ReleaseLocked | internal/gitstore/gitstore.go:1528-1544 | likewise; a process that is kept is the last free one, one that is not is forgotten; which is which |
| BatchPool.ProcessPool.DiscardLocked | internal/gitstore/gitstore.go:1546-1554 | likewise |
| BatchPool.ProcessPool.CloseAllLocked | internal/gitstore/gitstore.go:1561-1579 | likewise; exactly the known processes are handed to be killed after the lock is released |
| BatchPool.ProcessPool.SetMaxSize | internal/gitstore/gitstore.go:1581-1597 | likewise; free processes leave from the end, as many as the size asks for and no more; the extras are exactly the processes that left |
| Headers.ParseDecimal | internal/gitstore/gitstore.go:1761-1789 | every 64-bit size survives the round trip through the header |
| Headers.ValueIffDigits | internal/gitstore/gitstore.go:1784-1787 | only a text of digits has a value |
| CatFile.HeaderParses | internal/gitstore/gitstore.go:1761-1789 | the header of an answer parses to the size of exactly the requested blob, or to the right error |
| CatFile.ResponseShape | internal/gitstore/gitstore.go:1671-1789 | where header, content and trailing newline of an answer lie |
| CatFile.BatchCatFile.FetchToFile | internal/gitstore/gitstore.go:1671-1725 | from a boundary, success means the requested blob and a boundary again; without faults it succeeds exactly for blobs, and with any fault it fails |
| CatFile.BatchCatFile.ReadBlob | internal/gitstore/gitstore.go:1727-1759 | likewise, and a blob is refused as too large exactly if it exceeds the limit |
| CatFile.ReusedProcesses.BlobToCache | internal/gitstore/gitstore.go:1332-1371 | every free process stays at a response boundary through failures, cancellations and the retry; a success gives its live process back, a failure none |
| CatFile.ReusedProcesses.ReadBlob | internal/gitstore/gitstore.go:1389-1427 | likewise; if either try is without fault a blob is returned exactly if it is within the limit and refused as too large exactly if not; after any failure the free list has only lost processes, the one just used among them; a success gives its live process back; a negative limit is refused at once |
| CatFile.Serve | internal/gitstore/gitstore.go:1332-1442 | over any sequence of requests every success is the object asked for |
| ErrorScan.ContainsAcrossChunks | internal/gitstore/gitstore.go:178-197 | a symptom of at most overlap plus one characters is in the whole exactly if it was seen before or is in the kept tail plus the new chunk |
| ErrorScan.SymptomsFit | internal/gitstore/gitstore.go:743-781 | every symptom the program looks for is that short |
| ErrorScan.BoundedGitError.Write | internal/gitstore/gitstore.go:178-197 | flags, tail, buffer and truncation stay those of the whole output |
| ErrorScan.Classify | internal/gitstore/gitstore.go:163-208 | however the output is split, the verdict equals the scan of the whole message, and the buffer is its prefix |
| ShellFields.SplitShellFields | internal/gitstore/gitstore.go:2203-2249 | the loop with its early continues is a fold of one step over the characters |
| ShellFields.SingleQuotedReads | internal/gitstore/gitstore.go:2219-2231 | a single-quoted text stands for itself, blanks and backslashes included, with its dollars protected |
| ShellFields.DoubleQuotedReads | internal/gitstore/gitstore.go:2219-2231 | a double-quoted one without quotes and backslashes stands for itself, dollars bare |
| ShellFields.BackslashReads | internal/gitstore/gitstore.go:2209-2217 | outside single quotes a backslash makes the next character stand for itself, a dollar protected |
| ShellFields.TrailingBackslashReads | internal/gitstore/gitstore.go:2242-2244 | a backslash at the very end stands for itself |
| ShellFields.BlankSeparates | internal/gitstore/gitstore.go:2235-2239 | a blank, tab or newline outside quotes separates exactly what is before it from what is after it |
| ShellFields.DoubleQuote | internal/gitstore/gitstore.go:2286-2303 | the loop escapes character by character, keeping a protected dollar as it is |
| ShellFields.EscapedIsInert | internal/gitstore/gitstore.go:2286-2303 | what it writes holds no unescaped double quote, backtick or trailing backslash |
| ShellFields.BareIsPlain | internal/gitstore/gitstore.go:2259-2270 | a field left without quotes holds no blank, quote, dollar or other character a shell acts on |
| ShellFields.RunQuoted | internal/gitstore/gitstore.go:2259-2270 | between fields, reading a quoted field appends exactly the field |
| ShellFields.SplitAfterQuote | internal/gitstore/gitstore.go:2203-2303 | splitting the space-joined quoted fields gives back the fields that are not empty |
| ShellFields.RoundTripIff | internal/gitstore/gitstore.go:2203-2303 | the round trip is the identity if and only if no field is empty |
| Snapshots.AddImplicitDirs | internal/gitstore/gitstore.go:2395-2415 | the listing is kept, only missing ancestors are added, each once, and the result is closed under parents |
| Snapshots.CompletedListingIsWellFormed | internal/gitstore/gitstore.go:2395-2415 | what Git lists, so completed, is a well-formed base |
| Snapshots.SnapshotStore.PublishGeneration | internal/snapshot/store.go:58-96 | the new generation comes after every one before it and holds exactly the listing; every other generation keeps its tree, or nothing changes; without faults it is published exactly if no path is listed twice |
| Snapshots.SnapshotStore.PublishListing | internal/gitstore/gitstore.go:1090-1133 | publishing a completed listing yields a well-formed base tree that holds what Git listed, under a number higher than any before |
| Snapshots.PublishAll | internal/snapshot/store.go:58-225 | over every sequence of publications, failed ones among them, no generation number is handed out twice and every generation published holds its listing to the end |
| Snapshots.SnapshotStore.LookupNode | internal/snapshot/store.go:139-149 | lookup agrees with the generation's tree |
| Snapshots.SnapshotStore.PruneGenerations | internal/snapshot/store.go:98-104 | kept generations keep their trees, older ones become empty, and a limit of at most one prunes nothing |

## Left out

- Clone, fetch, retry, credentials, the daemon's preparation lifecycle, the CLI, logging, mount checks and redaction: process plumbing without a crisp specification, or only easy members.
- Timestamps: mtime and ctime are not modelled, so neither are the guards that compare them in reconcile's transaction; with the store's mutex held they never fail in the model.
- Permission bits of directories, links and gitlinks: the code changes them freely; the view shows none.
- Orphaned temporary files and partially written backing files: a failed operation of the store leaves the model's state alone, while the code may leave a file without a row, or bytes written before the row update failed.
- Names of temporary files: a counter stands for the promise that they are never handed out twice.
- Integer widths of sizes, offsets, reference counts and sequence numbers: unbounded here; the size parsed from a header is bounded as the code bounds it.
- The target_path column: link texts and origin paths are told apart by constructors instead of by kind.
- Git's ids: hashing is injective by construction, collisions are not modelled.
- Text as bytes: characters are unbounded code units, lower-casing is ASCII; the order of names is by code unit.
- SQL: rows come in any order, LIKE in any over-approximation, and one transaction is one update; concurrent readers between transactions are not modelled.
- SetMode, SetMtime and Truncate of the engine: each is one copy-up followed by one store operation already modelled.
- ShellFields.RoundTripIff: on texts as code points, that is, on fields that are valid UTF-8; the program ranges over runes, so a field that is not comes back with replacement characters.
- ShellFields.SplitAfterQuote: likewise for valid UTF-8 only.
- HandleCache.HandlesReadTheirWrites: OpenFile racing a write before its handle is registered is not modelled: handles are opened only while no write is in progress. The bytes of one read are taken in one step, and a write that fails leaves the bytes alone. Unlink and rename exclude reads and writes, so OpenFiles takes them one at a time; that pinning fails to open the backing file is left out there.
- NoWaiterLost: a caller that joins a fetch after Stop, having passed the stop check before it, is not promised an answer.
- The hydrator's verified map, verify-once waiters and the content check of cached blobs: they share Inflight's lists and add no new interleaving of the queue.
- Concurrency of the store and the engine: each method runs under its mutex or the transition lock, so runs of them are sequences.
- Progress under a fair scheduler: the protocols are proved never to reach a state with work and nobody about to act; that every thread eventually runs is left to the scheduler.
- The pool's processes are opaque in BatchPool and boundary-exact in CatFile; that alive() only notices a process this program has waited for is modelled as an arbitrary set of dead processes.
