# AudioDown Core: a verified model

This project models the parts of AudioDown Core where state, crashes and concurrency meet, and proves what they
promise. It is written in Dafny 4.11; `dafny verify dfyconfig.toml` checks all of it.

Pure code of the source is modelled by functions; objects that the source updates in place are classes whose methods
are proved against functions on values; loops are loops with invariants. Concurrency, crashes and lost messages are
transition systems whose steps use the same functions, and the main results are about every run.

| file | what it models |
|---|---|
| `OperationTable`, `OperationSafety` | the Supervisor's install operations as records, and the Supervisor as a transition system |
| `InstallOperationManager`, `InstallStore` | the manager that updates records and directories; finalize with crash points |
| `InstallProtocol`, `InstallSafety` | Core threads, plugin rows and the Supervisor together |
| `InstallAcknowledgement`, `InstallReachable`, `InstallExhaustion` | which operations can be acknowledged, and runs that show what can happen |
| `KeyStore` | the master-key bootstrap over a file system that forgets what was not synced |
| `TokenRegistry`, `RuntimeLifecycle` | proxy tokens, and the adapter that hands them out and revokes them |
| `OperationLocks` | the weak-reference lock registry and active-call leases |
| `RefreshCommit` | cookie-jar sessions and the commit of a refreshed credential |
| `ContentRouting`, `ContentAggregation`, `ContentDedup`, `ContentPages` | candidate selection, fallback, concurrent aggregation, removal of duplicates, paging |
| `ContentCursor`, `Base64`, `JsonText` | the multi-source cursor down to its bytes |
| `TarScanner` | the tar completeness scanner and the reader that uses it |
| `WireFrames`, `WireResponses` | the newline frame readers and the response path |
| `BuildOutput`, `BuildLinks` | the build-output policy, the symbolic-link check, and following the links it accepts |
| `RedirectLoop` | URL authorisation, address pinning and redirects |
| `Collections`, `Sorting` | shared vocabulary |

What is outside the model enters as a parameter that may behave in any way: the answers of plugins, resolver,
transport and Docker, the fate of each system call, the moment of each crash, random bytes, digests, the JSON reader,
and the order in which concurrent calls complete.

Assumptions:

- A record write of the Supervisor either succeeds or the process stops. Finalize and abort of one operation do not overlap.
- The credentials directory itself is durable, and the lock file keeps bootstraps apart.
- The Supervisor serialises requests per plugin. A freshly minted token digest has never been handed out before.
- Session, operation and credential identifiers are never reused.
- Locks are not poisoned, and the file system is cooperative.
- The digest of two different cursor bindings does not collide, where a result says so.

Where code and expectation differ, the model follows the code, and these results say how:

- Reconciliation asks to abort Failed and Finalized operations, but the record rule refuses it
  (`InstallOperationManagers.AbortAccepts`; `InstallReachable.ReconcileCanFail` is a run). So an operation that fails
  without having been aborted is never acknowledged, and 256 of them leave no place for another
  (`InstallAcknowledgement.FailuresExhaustTheTable`, reached by `InstallExhaustion.TableCanBeExhausted`).
- A failing build overwrites an Aborted record with Failed, exactly while it is unreported
  (`OperationSafety.AbortedOverwritable`; `InstallReachable.AbortedCanTurnFailed` is a run).
- The Core's frame reader needs a read to end at the newline. Its result is independent of the chunking exactly for the
  streams that `WireFrames.ChunkingIrrelevant` names; the gateway's reader has no such exception (`WireFrames.ReadReply`).
- The limit on the encoded cursor cannot fire (`ContentCursor.EncodedLimitNeverFires`).

## Model

| member | source | states |
|---|---|---|
| `InstallSafety.CompletedRowsAreFinalized` | crates/audiodown-plugin-manager/src/service.rs:323-430 | In every run of Core and Supervisor together (interleaved builds, lost answers, crashes and reconciliation on either side), a row that turns Installed belonged to an operation that is Finalized from then on and built exactly the identity and image the row describes |
| `InstallSafety.RolledBackRowsAreAborted` | crates/audiodown-plugin-manager/src/service.rs:1171-1283 | In every such run, a row that disappears without being uninstalled belonged to an operation that is Aborted with an artifact, and stays so |
| `InstallSafety.NeverBothOutcomes` | crates/audiodown-storage/src/plugin_repository.rs:246-278 | At no moment of any run has an operation been both completed and rolled back |
| `InstallSafety.NextSafe` | crates/audiodown-plugin-manager/src/service.rs:323-430 | Every move of the joint system (threads of install and reconcile, Supervisor steps, crashes, management) keeps the joint invariant and takes back no artifact, no Finalized and no Aborted-with-artifact state |
| `InstallSafety.TaskStepSafe` | crates/audiodown-plugin-manager/src/service.rs:1171-1283 | Every step of a Core thread, answered or given up on, keeps the joint invariant |
| `InstallSafety.BeginSafe` | crates/audiodown-plugin-manager/src/service.rs:1369-1387 | A begin call, whether answered or left under way for the Supervisor to execute later, keeps each operation ID begun once |
| `InstallSafety.RowEffectSafe` | crates/audiodown-storage/src/plugin_repository.rs:108-152 | Insert, complete and roll back, each keyed by plugin and operation, leave every row describing what its operation built |
| `InstallSafety.RowWriter` | crates/audiodown-storage/src/plugin_repository.rs:246-278 | Rows change only by the row statements of a thread and by plugin management |
| `InstallSafety.SystemRunEndures` | crates/audiodown-supervisor/src/install_operation.rs:443-643 | Between any two moments of a run no operation is forgotten while it matters: artifact, Finalized and Aborted-with-artifact persist, even past the cleanup of the record |
| `InstallAcknowledgement.AcknowledgedWasSettled` | crates/audiodown-plugin-manager/src/service.rs:1171-1283 | In every run, only operations that have been Finalized or Aborted are ever acknowledged |
| `InstallAcknowledgement.FailedIsStuck` | crates/audiodown-plugin-manager/src/service.rs:1257-1280 | An operation that failed without having been aborted stays Failed and unacknowledged for the rest of every run |
| `InstallAcknowledgement.FailuresExhaustTheTable` | crates/audiodown-supervisor/src/install_operation.rs:180-238 | Once 256 operations have failed so, every later begin of a new operation is refused for lack of capacity |
| `InstallExhaustion.TableCanBeExhausted` | crates/audiodown-supervisor/src/install_operation.rs:180-238 | There is a run that gets there |
| `InstallReachable.InstallCanComplete` | crates/audiodown-plugin-manager/src/service.rs:323-430 | For every plugin and matching build there is a run of the joint system that ends with the row Installed |
| `OperationSafety.RunEvolves` | crates/audiodown-supervisor/src/install_operation.rs:443-643 | Over every run: Finalized and Failed are absorbing, Aborted changes only to Failed and only if its build had not reported, an artifact never changes |
| `OperationSafety.RunInv` | crates/audiodown-supervisor/src/install_operation.rs:180-266 | In every reachable state records are well formed (an artifact only in Built, Finalized or Aborted), at most one operation is non-terminal, at most 256 are unacknowledged, and numbers follow creation order until the counter saturates |
| `OperationSafety.AbortedOverwritable` | crates/audiodown-supervisor/src/install_operation.rs:566-582 | An Aborted operation can be overwritten with Failed if and only if its build has taken up work and not reported |
| `OperationSafety.ArtifactWasBuilt` | crates/audiodown-supervisor/src/install_operation.rs:544-564 | Whatever state holds an artifact, the operation was Built with exactly that artifact earlier in the run |
| `OperationSafety.StepOneActive` | crates/audiodown-supervisor/src/install_operation.rs:180-238 | No step makes a second operation non-terminal |
| `OperationSafety.StepCapacity` | crates/audiodown-supervisor/src/install_operation.rs:180-238 | No step, restart or cleanup leads past 256 unacknowledged operations |
| `OperationSafety.FilterNumbered` | crates/audiodown-supervisor/src/install_operation.rs:712-736 | Dropping expired records and resuming the counter from the stored ones keeps the rest numbered in creation order |
| `InstallStore.FinalizeIsCrashIdempotent` | crates/audiodown-supervisor/src/install_operation.rs:268-335 | Re-running finalize after a crash at any point between rename, record write and mirror removals reaches the disk and records of an uninterrupted run, and leaves no grant mirror of the operation behind |
| `InstallStore.FinalizeOutcome` | crates/audiodown-supervisor/src/install_operation.rs:268-335 | Uninterrupted finalize, from whichever point it starts, ends with the attested directory installed, the record Finalized and the mirrors gone |
| `InstallStore.FinalizeTouchesOnlyItsOwn` | crates/audiodown-supervisor/src/install_operation.rs:604-643 | At every crash point installed directories are as they were, only the attested directory can be new, and other operations keep their files and grants |
| `InstallStore.MirrorsPrefix` | crates/audiodown-supervisor/src/install_operation.rs:841-855 | Mirror removal can be cut off after any of its three effects and started over with the same result |
| `InstallStore.FinalizeAgrees` | crates/audiodown-supervisor/src/install_operation.rs:268-335 | What finalize does to the records on disk is the record rule that the protocol model uses |
| `InstallOperationManagers.InstallOperationManager.BeginInstall` | crates/audiodown-supervisor/src/install_operation.rs:180-238 | Returns the existing record, refuses a foreign ID, a busy build or a full table, or stores a new Accepted record with the next number |
| `InstallOperationManagers.InstallOperationManager.List` | crates/audiodown-supervisor/src/install_operation.rs:249-266 | Returns every unacknowledged operation of this installation, by number and in creation order while the counter has not saturated; the cut at 256 drops none |
| `InstallOperationManagers.InstallOperationManager.MoveTo` | crates/audiodown-supervisor/src/install_operation.rs:584-602 | Moves a record unless it would leave a terminal state |
| `InstallOperationManagers.InstallOperationManager.MarkBuilt` | crates/audiodown-supervisor/src/install_operation.rs:544-564 | Records the artifact only for a Building operation |
| `InstallOperationManagers.InstallOperationManager.MarkFailed` | crates/audiodown-supervisor/src/install_operation.rs:566-582 | Overwrites whatever state it finds with Failed |
| `InstallOperationManagers.InstallOperationManager.AcknowledgeInstall` | crates/audiodown-supervisor/src/install_operation.rs:400-415 | Acknowledges terminal operations only |
| `InstallOperationManagers.InstallOperationManager.FinalizeInstall` | crates/audiodown-supervisor/src/install_operation.rs:268-335 | A refusal changes nothing; otherwise exactly the prefix of the planned effects that the process lives to make, ending Finalized |
| `InstallOperationManagers.InstallOperationManager.RemoveMirrors` | crates/audiodown-supervisor/src/install_operation.rs:841-855 | Removes the grant named by the prepared request before the request that names it, stopping where the process stops |
| `InstallOperationManagers.InstallOperationManager.AbortInstall` | crates/audiodown-supervisor/src/install_operation.rs:337-398 | Moves the record first, and if that is refused leaves the disk alone and asks for nothing; then drops candidate and mirrors, asks the adapter to remove the image and, if that went well, the temporary resources, and reports exactly their failure |
| `InstallOperationManagers.InstallOperationManager.CleanupAcknowledged` | crates/audiodown-supervisor/src/install_operation.rs:417-441 | Drops exactly the acknowledged terminal records whose retention is over |
| `InstallOperationManagers.InstallOperationManager.ReconcileRestart` | crates/audiodown-supervisor/src/install_operation.rs:604-643 | Accepted and Building become Failed and lose their candidate, Finalized ones lose their mirrors, every other record stays, and nothing is installed or uninstalled |
| `InstallOperationManagers.AbortAccepts` | crates/audiodown-supervisor/src/install_operation.rs:337-398 | Abort goes through exactly from Accepted, Building, Built and Aborted, although reconciliation also asks for it on Failed and Finalized |
| `InstallReachable.ReconcileCanFail` | crates/audiodown-plugin-manager/src/service.rs:1257-1280 | A run in which reconciliation asks to abort a Failed operation, is refused, and leaves it as it was |
| `InstallReachable.AbortedCanTurnFailed` | crates/audiodown-supervisor/src/install_operation.rs:443-541 | A run in which an install times out and aborts its operation, and the build, failing afterwards, turns it into Failed |
| `InstallOperationManagers.SortFacts` | crates/audiodown-supervisor/src/install_operation.rs:249-266 | Sorting the listed operations by number, from whatever enumeration of the map, gives the creation order |
| `KeyStores.SameKeyForever` | crates/audiodown-credential-vault/src/key_store.rs:64-83 | Any two bootstrap calls of a history that return a key return the same bytes, whatever process and power failures fall between and during them |
| `KeyStores.DurableForever` | crates/audiodown-credential-vault/src/key_store.rs:192-316 | Once a key has been returned, no later call and no power failure changes what the key file will hold |
| `KeyStores.KeyStore.LoadOrCreateMasterKey` | crates/audiodown-credential-vault/src/key_store.rs:64-83 | Keeps the file system sound at every stop; returns the stored key, or the random bytes when there is none, and only once they are durable; an undisturbed call always succeeds |
| `KeyStores.KeyStore.CreateMasterKey` | crates/audiodown-credential-vault/src/key_store.rs:204-251 | Creates, fills and syncs the pending file, takes the final name, and returns the random bytes only when both names are settled on disk |
| `KeyStores.KeyStore.PreparePending` | crates/audiodown-credential-vault/src/key_store.rs:253-279 | On success the new file holds the whole key and is synced; a torn write leaves no trace in the key file |
| `KeyStores.KeyStore.CleanupPending` | crates/audiodown-credential-vault/src/key_store.rs:192-202 | Removes a leftover pending file durably and keeps the key file |
| `KeyStores.KeyStore.LoadMasterKey` | crates/audiodown-credential-vault/src/key_store.rs:281-316 | Returns the 32 bytes under the final name when it has exactly one link |
| `KeyStores.PowerLossKeeps` | crates/audiodown-credential-vault/src/key_store.rs:192-316 | Losing any unsynced directory change or file content keeps the file system sound and a durable key the same |
| `RuntimeLifecycle.RunningContainersAuthenticate` | crates/audiodown-server/src/plugin_manager_adapters.rs:342-533 | At every moment of every run of start, stop, inspect and remove, with any Supervisor failures, the two maps are inverse and within capacity and every container that may still run is let through |
| `RuntimeLifecycle.RevokedOnlyWhenGone` | crates/audiodown-server/src/plugin_manager_adapters.rs:354-379 | A token loses its validity, by revocation or replacement, only in the step in which the Supervisor confirms that the container is stopped or removed |
| `RuntimeLifecycle.StepInv` | crates/audiodown-server/src/plugin_manager_adapters.rs:412-533 | Every step keeps token, generation and thread notes of its plugin consistent and leaves all other plugins as they are |
| `TokenRegistry.RegisteredInverse` | crates/audiodown-server/src/proxy_gateway.rs:150-186 | Registering keeps the two maps inverse if and only if the digest does not belong to another plugin, and touches no other plugin |
| `TokenRegistry.ProxyTokenRegistry.Register` | crates/audiodown-server/src/proxy_gateway.rs:150-186 | Replaces the token of the plugin; refuses a new plugin exactly when the registry is full |
| `TokenRegistry.ProxyTokenRegistry.Authenticate` | crates/audiodown-server/src/proxy_gateway.rs:188-199 | Lets a well-formed token through exactly when its digest is registered, and names the plugin and generation that hold it |
| `TokenRegistry.ProxyTokenRegistry.Revoke` | crates/audiodown-server/src/proxy_gateway.rs:201-214 | Removes the token only of the given generation |
| `TokenRegistry.ProxyTokenRegistry.RevokeAll` | crates/audiodown-server/src/proxy_gateway.rs:227-232 | Empties both maps |
| `OperationLocks.OneHolderPerPlugin` | crates/audiodown-plugin-manager/src/service.rs:1480-1500 | Despite purging of dead weak references, no two tasks ever hold the operation lock of one plugin |
| `OperationLocks.StopsWithoutCalls` | crates/audiodown-plugin-manager/src/service.rs:1020-1038 | The active-call map always equals the number of live leases, and a plugin that is being stopped has none |
| `OperationLocks.StepCounted` | crates/audiodown-plugin-manager/src/service.rs:1532-1550 | Beginning a call and dropping a lease keep the map equal to the number of leases, without zero entries |
| `OperationLocks.StepStopsAlone` | crates/audiodown-plugin-manager/src/service.rs:571-611 | No call can begin on a plugin that is being stopped, because beginning needs the lock that the stop holds |
| `RefreshCommit.CommitsAreUnique` | crates/audiodown-network-proxy/src/service.rs:224-271 | Across all sessions, retries, writers and restarts, two commits that took effect never share a session, nor a credential and revision |
| `RefreshCommit.CommitRaisesRevision` | crates/audiodown-storage/src/credential_repository.rs:539-581 | Every step that commits raises the revision of its credential above every revision committed before |
| `RefreshCommit.OneCommitAtATime` | crates/audiodown-network-proxy/src/cookie_jar.rs:426-471 | No two tasks ever commit the same session at once |
| `RefreshCommit.RunInv` | crates/audiodown-credential-vault/src/service.rs:279-321 | In every run, tasks carry the credential and revision their session was opened for, and the log of commits agrees with the table |
| `RefreshCommit.TemporaryCookieJars.CreateJar` | crates/audiodown-network-proxy/src/cookie_jar.rs:283-314 | Refuses a lifetime over ten minutes; purges expired sessions, refuses beyond 64, and stores the new session as Active |
| `RefreshCommit.TemporaryCookieJars.LiveSession` | crates/audiodown-network-proxy/src/cookie_jar.rs:502-514 | Returns a session before its time and drops it afterwards |
| `RefreshCommit.TemporaryCookieJars.BeginRefreshCommit` | crates/audiodown-network-proxy/src/cookie_jar.rs:426-454 | Marks an Active refresh session of the same binding Committing and hands out what it was opened for, or refuses in the order of the checks |
| `RefreshCommit.TemporaryCookieJars.FinishRefresh` | crates/audiodown-network-proxy/src/cookie_jar.rs:456-471 | Reopens the session after a retryable failure and removes it otherwise |
| `RefreshCommit.TemporaryCookieJars.CancelJar` | crates/audiodown-network-proxy/src/cookie_jar.rs:316-326 | Removes a live session of the same binding, whatever its state |
| `ContentRouting.SelectOrderIrrelevant` | crates/audiodown-content/src/router.rs:49-82 | The selection, in its order of platform, default, priority and plugin, does not depend on the order in which the store lists candidates |
| `ContentRouting.GroupCandidates` | crates/audiodown-content/src/router.rs:437-446 | Groups by platform, platforms ascending, candidates in their given order, none lost |
| `ContentRouting.GroupingUnique` | crates/audiodown-content/src/router.rs:437-446 | That description has exactly one solution |
| `ContentRouting.RunPlatform` | crates/audiodown-content/src/router.rs:495-560 | Asks candidates in order up to the first success, the first final failure, or (without fallback) the first answer; keeps its items, its next cursor and all failures in order |
| `ContentRouting.FailuresListAllBefore` | crates/audiodown-content/src/router.rs:495-560 | Every candidate asked before the stop is listed as a retryable failure, in order |
| `ContentRouting.Interpret` | crates/audiodown-content/src/router.rs:688-696 | A success carries a next cursor of 1 to 4096 bytes without NUL, or none |
| `ContentAggregation.CompletionOrderIrrelevant` | crates/audiodown-content/src/router.rs:271-294 | Sorting the completions by index gives the platforms in order, for every completion order |
| `ContentAggregation.RunAll` | crates/audiodown-content/src/router.rs:271-305 | For every completion order the joined result is that of asking the platforms one after the other |
| `ContentAggregation.PrepareGroups` | crates/audiodown-content/src/router.rs:453-488 | Without a cursor all platforms, with fallback unless a plugin is asked for; with a cursor exactly its sources, one plugin each and no fallback, or the reason for refusing |
| `ContentAggregation.PreparedUnique` | crates/audiodown-content/src/router.rs:453-488 | What is prepared is determined by the request |
| `ContentAggregation.Search` | crates/audiodown-content/src/router.rs:242-309 | The page is the sequential one, with the first occurrence of each item and the encoded cursor of the platforms that continue, or the error of preparing or encoding |
| `ContentAggregation.Discover` | crates/audiodown-content/src/router.rs:311-380 | The same for sections, thinned across all platforms |
| `ContentAggregation.Categories` | crates/audiodown-content/src/router.rs:382-434 | The same for categories, without cursor |
| `ContentDedup.DeduplicateItems` | crates/audiodown-content/src/dedup.rs:7-13 | Keeps exactly the items that have no key or whose key no earlier item has |
| `ContentDedup.DeduplicateSections` | crates/audiodown-content/src/dedup.rs:15-23 | In place, keeps in each section the items whose key occurs nowhere before, so that all items in a row are those of one removal over the flattened list |
| `ContentDedup.SectionsFlatten` | crates/audiodown-content/src/dedup.rs:15-23 | Removal section by section agrees with removal on the flattened items |
| `ContentDedup.FirstsKeys` | crates/audiodown-content/src/dedup.rs:39-51 | Removal loses no key and leaves none twice |
| `ContentDedup.FirstsSubsequence` | crates/audiodown-content/src/dedup.rs:7-13 | What stays keeps its order |
| `ContentPages.PagingNarrows` | crates/audiodown-content/src/router.rs:453-488 | Over any run of pages from the first one on, each fed by the cursor before it: the (platform, plugin) pairs asked on a page are an order-preserving part of the pairs that answered on every earlier page, one plugin per platform and no fallback |
| `ContentPages.NextPage` | crates/audiodown-content/src/router.rs:453-488 | From any page to the next, the first page with its fallback included, exactly the sources passed on are asked |
| `ContentPages.PassedOnAnswered` | crates/audiodown-content/src/router.rs:514-533 | A page passes on a cursor only for the plugin of a platform that answered, whichever of its candidates that was |
| `ContentPages.TurnFacts` | crates/audiodown-content/src/router.rs:470-487 | A page that was sent a cursor asks exactly the plugins named in it, passes on a valid source list, and encoding that fails if and only if its JSON is over 16 KiB |
| `ContentPages.FirstPageEncodes` | crates/audiodown-content/src/router.rs:299-306 | The sources a first page passes on are ascending and usable, so with at most 32 platforms of valid name encoding fails only by total size |
| `ContentCursor.ValidateSources` | crates/audiodown-content/src/cursor.rs:133-154 | Returns the first fault in the order of the checks, and none exactly when the list is valid: at most 32, each cursor 1 to 4096 bytes, platforms valid and strictly ascending |
| `ContentCursor.NoFault` | crates/audiodown-content/src/cursor.rs:133-154 | Comparing neighbours decides strict ascent of the whole list |
| `ContentCursor.DecodeEncode` | crates/audiodown-content/src/cursor.rs:97-120 | Decoding an encoded cursor under the same request returns exactly the encoded sources |
| `ContentCursor.DecodeElsewhere` | crates/audiodown-content/src/cursor.rs:97-120 | Under a request with another fingerprint it is refused as a mismatch |
| `ContentCursor.DecodedValid` | crates/audiodown-content/src/cursor.rs:97-120 | Whatever the text, a decoded list is valid and strictly ascending by platform |
| `ContentCursor.EncodeValid` | crates/audiodown-content/src/cursor.rs:73-95 | A valid list fails to encode if and only if its JSON is over 16 KiB, and then with that error |
| `ContentCursor.EncodedLimitNeverFires` | crates/audiodown-content/src/cursor.rs:73-95 | The 24 KiB limit never refuses an encoding |
| `ContentCursor.CompactReadsBack` | crates/audiodown-content/src/cursor.rs:56-62 | The JSON envelope determines its content: a reader of the compact text reads every envelope back |
| `ContentCursor.BindingJsonInjective` | crates/audiodown-content/src/cursor.rs:122-131 | The canonical JSON of a request tells operation, query, platform and plugin apart |
| `ContentCursor.FingerprintSeparates` | crates/audiodown-content/src/cursor.rs:122-131 | Different requests have different fingerprints unless the digest collides on the two |
| `Base64.UrlRoundTrip` | crates/audiodown-content/src/cursor.rs:90-105 | Text decodes to bytes if and only if it is their unpadded base64url encoding (section 5 of RFC 4648) |
| `Base64.UrlLength` | crates/audiodown-content/src/cursor.rs:90-93 | The exact length of the encoding |
| `JsonText.ReadQuotedQuote` | crates/audiodown-content/src/cursor.rs:86-86 | A string written with the escapes of section 7 of RFC 8259 reads back to itself whatever follows |
| `TarScanner.CompleteTarLength` | crates/audiodown-supervisor/src/docker_build.rs:326-357 | The loop computes the scan function, and terminates |
| `TarScanner.ScanFindsArchive` | crates/audiodown-supervisor/src/docker_build.rs:326-357 | On any list of well-formed entries and two zero blocks, whatever follows, the scanner returns exactly the archive length |
| `TarScanner.NothingShorter` | crates/audiodown-supervisor/src/docker_build.rs:326-357 | It returns nothing on any shorter prefix |
| `TarScanner.PrefixExact` | crates/audiodown-supervisor/src/docker_build.rs:326-357 | On any bytes, a prefix is complete exactly when it reaches the end found in the whole |
| `TarScanner.SizeFieldRoundTrip` | crates/audiodown-supervisor/src/docker_build.rs:326-357 | The size field reads back every size that ustar writes into it |
| `TarScanner.ReadArchive` | crates/audiodown-supervisor/src/docker_build.rs:1146-1166 | Whatever the chunking, a success is the archive at the start of the stream, and a stream within the limit succeeds whenever it holds one |
| `WireFrames.ReadFrame` | crates/audiodown-server/src/proxy_gateway.rs:608-642 | The result is decided by the stream and by whether a read ends right after its first newline; after each read the buffer holds exactly the part of the line read so far, cut at one byte over the limit |
| `WireFrames.ReadReply` | crates/audiodown-proxy-gateway/src/lib.rs:228-267 | The result depends on the stream alone: one non-empty line of JSON of at most 1 MiB without carriage return, and nothing after it; the buffer is bounded in the same way |
| `WireFrames.FrameChunkingIrrelevant` | crates/audiodown-server/src/proxy_gateway.rs:608-642 | A single frame is read identically from every chunking |
| `WireFrames.ChunkingIrrelevant` | crates/audiodown-server/src/proxy_gateway.rs:608-642 | All ways of cutting a stream into reads give the Core the same result if and only if its first line is empty, over the limit or unterminated, or nothing follows its newline; otherwise two ways with different results are given |
| `WireFrames.TrailingBytesNeedBoundary` | crates/audiodown-server/src/proxy_gateway.rs:608-642 | With more bytes behind it, a frame is returned if and only if a read happens to end at its newline |
| `WireResponses.FromCore` | crates/audiodown-server/src/proxy_gateway.rs:865-894 | With readable, distinct headers a response is accepted exactly when its complete JSON frame fits 1 MiB, and is TooLarge if it does not; with other headers it is Invalid |
| `WireResponses.BodyAddsItsLength` | crates/audiodown-server/src/proxy_gateway.rs:879-893 | Filling in the body adds exactly the predicted number of bytes |
| `WireResponses.FrameSizeCounter.Write` | crates/audiodown-server/src/proxy_gateway.rs:916-928 | A write is taken whole or refused, and refusal is remembered |
| `WireResponses.SerializedFrameBytes` | crates/audiodown-server/src/proxy_gateway.rs:935-942 | However the serializer cuts its output, the counter reports its size exactly when it fits |
| `WireResponses.ResponseArrives` | crates/audiodown-server/src/proxy_gateway.rs:590-602 | Whatever the response and the chunking, the gateway reads exactly the JSON that was sent, and a response that fits is sent as it is |
| `WireResponses.MessageTooLargeFits` | crates/audiodown-server/src/proxy_gateway.rs:590-602 | The replacement for an oversized response always fits |
| `Base64.StandardInjective` | crates/audiodown-server/src/proxy_gateway.rs:892-892 | Different bodies have different padded base64 texts (section 4 of RFC 4648) |
| `BuildOutput.NormalizeBuildOutput` | crates/audiodown-supervisor/src/builder.rs:329-391 | Accepts exactly the listings within all limits whose entries are allowed and whose paths are distinct, returning the sorted normalised entries, and otherwise the error of the first faulty entry |
| `BuildOutput.ArchiveOrderIrrelevant` | crates/audiodown-supervisor/src/builder.rs:329-391 | Two archives with the same entries are accepted alike and give the same listing |
| `BuildOutput.ListingCanonical` | crates/audiodown-supervisor/src/builder.rs:329-391 | The listing holds each accepted entry exactly once, in strictly ascending path order |
| `BuildOutput.SymlinkStaysInside` | crates/audiodown-supervisor/src/builder.rs:412-433 | The depth counter accepts a relative target exactly when following it name by name from the directory of the link never leaves the root and ends strictly below it |
| `BuildLinks.AcceptedLinksStayInside` | crates/audiodown-supervisor/src/builder.rs:412-433 | When no listed link lies behind another and no target runs through one, following an accepted link through any number of links never leads above the root |
| `BuildOutput.ListedLinksStayInside` | crates/audiodown-supervisor/src/builder.rs:329-433 | Every listed link resolves to a non-empty path of plain names |
| `RedirectLoop.Execute` | crates/audiodown-network-proxy/src/http.rs:192-285 | For every resolver and transport behaviour: at most six transport calls, each with the same method, at the first host and its very list of allowed addresses, each hop the target of the redirect before it; every error has its stated cause |
| `RedirectLoop.FollowRedirects` | crates/audiodown-network-proxy/src/http.rs:212-285 | The loop itself, from an authorised target |
| `RedirectLoop.NextTarget` | crates/audiodown-network-proxy/src/http.rs:246-268 | A redirect is followed only with a method that allows it, to an authorised target on the pinned host and addresses |
| `RedirectLoop.GivesUpAfterSix` | crates/audiodown-network-proxy/src/http.rs:246-249 | Giving up happens exactly after six exchanges that were all answered by a redirect |
| `RedirectLoop.AuthorizeRedirect` | crates/audiodown-network-proxy/src/policy.rs:162-176 | Lets a redirect through only to the same host at the same list of addresses, and refuses no other way than by policy |
| `RedirectLoop.AuthorizeUrl` | crates/audiodown-network-proxy/src/policy.rs:141-160 | An authorised target is at an allowed host, plain HTTP only for fixtures, with allowed addresses in canonical order |
| `RedirectLoop.AuthorizeExact` | crates/audiodown-network-proxy/src/policy.rs:141-160 | A URL is authorised exactly when it parses, its host is allowed, it is HTTPS or a fixture, and the host resolves to a non-empty list of allowed addresses; the pinned addresses are that set |
| `RedirectLoop.ResolveAndValidate` | crates/audiodown-network-proxy/src/policy.rs:178-206 | A non-empty ascending list of allowed addresses, or the reason for refusing |
| `RedirectLoop.CanonicalBySet` | crates/audiodown-network-proxy/src/policy.rs:203-205 | Sorting and deduplicating makes the list depend on the set of addresses alone |

## Left out

- Docker calls, container configuration, handshakes and image attestation are nondeterministic success or failure.
- AES-GCM, SHA-256, UUIDs and operating-system randomness are ideal: parameters, fresh values, collision-freedom where stated.
- SQL text, migrations and cascades: tables are maps with keyed compare-and-set updates.
- The `serde_json` reader, the `url` parser and the cookie store: only what is written is modelled byte by byte; UTF-8 validity of strings is not.
- HTTP routes, the web interface, the Node build runner, the GitHub client, configuration and logging would add no hard property.
- Removal of an installed plugin's directory inside the install model: a Finalized record outlives the directory, and what recovery then owes is not decided by these files.
- Address-range tables, host-pattern matching, manifest validators and error mappings are single-branch facts; allowed hosts and address classes are parameters.
- File permissions, access lists, symlink-swap checks and poisoned locks.
- Wall-clock timeouts are a choice that can be made at any time; session expiry is an abstract clock.
- Build logs, error summaries, plugin names and versions carried along with results.
- The content start-up lock and automatic-start counters of the plugin manager.
- The lifecycle adapter without a token registry, and gateway shutdown, which revokes all tokens.
- Convergence: an operation that was settled need not be acknowledged in the end, and an abort whose adapter call failed may leave the image behind.
- BuildLinks.AcceptedLinksStayInside: speaks of listings in which no listed link lies behind another and no target runs through one; the check in the source is name by name and does not look at other links.
- WireFrames.ReadFrame: a failed read ends the stream like end of file, as both give the same error in the source.
- TarScanner.ReadArchive: the stream ends where it first carries anything but data, and the 60-second limit is not modelled.
