# A model of veadk-go in Dafny

This project models the parts of veadk-go whose correctness spans several functions or
several threads, and proves what they promise. Everything outside of those parts, such as
networks, disks, JSON, zip archives and clocks, is an input: an operation is told whether
each call that can fail does fail. The theorems hold for every such telling, apart from the
assumptions below; where a failure breaks a guarantee, the theorem says exactly when.

## How to read it

Two styles occur side by side, as they do in the program.

* Code that changes fields or accumulates in a loop is a class or a method with the same
  branches. Its `ensures` tie the new state to a function of the old one, and lemmas say
  what that function means.
* Code that several threads run at once is a state machine. `Enabled` says when a step is
  possible, `Apply` what it does, and `IsRun` what a run is. Invariants are proved step by
  step and then for every state of every run. The critical sections are also methods of a
  class, tied to the same functions that the steps use.

`dafny verify dfyconfig.toml` checks the whole project.

| file | part of the program |
|---|---|
| `ArkToken.dfy` | the ARK token provider: cached key, generations and shared fetches |
| `ModelRetry.dfy` | both model clients on top of it: invalidate and send once more after an authentication failure |
| `SkillRegistry.dfy` | registry, snapshots and pin counts, one operation at a time |
| `PinProtocol.dfy` | the same interleaved with materialization and pruning |
| `CacheStaging.dfy` | byte accounting of download, extraction and publication |
| `SessionProtocol.dfy` | life of the local runtime's sessions: commands, cleanup, expiry, `Close`, locks |
| `WorkspaceFiles.dfy`, `Workspace.dfy`, `Replacement.dfy` | directory tree of a workspace, file operations in it and its quota |
| `Paths.dfy` | the lexical path cleaners |
| `StreamAccumulation.dfy` | chunk loops of the streaming models and the final response |
| `TextToolCalls.dfy` | tool calls embedded in text |
| `AutoSave.dfy` | the auto-save watermark |
| `TokenUsage.dfy` | token counts of an invocation |
| `Numbers.dfy`, `Options.dfy`, `Sequences.dfy`, `Text.dfy` | shared helpers |

## Assumptions

* `singleflight` runs one function for each key at a time, hands its result to everyone who
  joined, and removes the entry on completion.
* The SHA-256 cache key and the session hash are injective. No other process writes to the
  cache directory or to a workspace, and an encoded manifest fits the bound on reading it.
* Removing a staging directory, a temporary file or an archive that was just created works.
* The JSON decoder, started at a brace, consumes an object from that brace to its closing one.
* Sessions are append-only, and a callback sees some beginning of its session's events.
* Cleanups of one session do not overlap (`SessionProtocol.NoOverlap`). Without it
  `SessionProtocol.OneOpenExactly` says when a session keeps one open state, and
  `OverlappingCleanupsSplitSession` that it need not.
* In `Workspace.dfy` no command runs, and another thread's scan that has found the session
  inactive does not remove the workspace in the middle of an operation, only between two.
  `SessionProtocol.ExpiryHitsRunningCommand` shows that this can happen.

## Where the code does not do what one might expect

* `Materialize` removes a revision after any error in reading it except cancellation, and does
  not look at pins. So a passing fault, such as running out of file descriptors, takes an intact
  revision away under an open snapshot (`PinProtocol.RevisionSurvivesExactly`,
  `PinProtocol.PinnedRevisionCanVanish`).
* `cleanupExpired` holds no lock between its activity check and the removal, so the workspace
  of a command that has just been started can go (`SessionProtocol.ExpiryIsQuietExactly`,
  `SessionProtocol.ExpiryHitsRunningCommand`).
* Every operation may first remove expired workspaces, its own included, and then goes on in a
  new one: files are gone, and an edit of one that was there a moment ago does not find it
  (`Workspace.ExpiredStartsOver`, `Workspace.ExpiryLosesFile`, `Workspace.LastWriteWins`).
* A workspace that preparation leaves half-made is owned by nobody. `cleanupSession` and
  `Close` report success and leave it (`SessionProtocol.StrayOutlivesClose`).
* Preparing a workspace empties the marker file `.veadk-last-used`. A file of that name can
  be written like any other, but its content is gone after the next operation
  (`Workspace.OtherFilesChangeExactly`, `Workspace.NothingChangesExactly`,
  `Workspace.MarkerContentIsLost`).
* The uniqueness check of `edit_file` counts occurrences that do not overlap, so in "aaa"
  the string "aa" is unique (`Replacement.CountsOneExactly`, `Replacement.OverlapCountsOnce`).
* A stream that consists of reasoning only, without a finish reason or usage, ends without
  a final response (`StreamAccumulation.ReasoningAloneHasNoFinal`).
* A fragment of a tool call with a negative index panics, unless it has nothing to store
  (`StreamAccumulation.NoCrashExactly`, `StreamAccumulation.BlankFragmentPasses`).
* With neither a memory service nor a context memory the auto-save watermark still moves
  (`AutoSave.DeliveredExactly`, `AutoSave.WatermarkMovesWithoutMemory`). Overlapping callbacks
  save events twice, and so do callbacks with an old view of the session
  (`AutoSave.SavedOnceExactly`, `AutoSave.OverlapSavesTwice`, `AutoSave.StaleViewSavesTwice`).
* Model calls of one invocation that overlap can lose token counts or count them twice
  (`TokenUsage.CountsAreCallSumsExactly`, `TokenUsage.OverlappingCallsLoseCounts`,
  `TokenUsage.OverlappingCallsCountTwice`).

## Model

| member | source | states |
|---|---|---|
| `ArkToken.TokenCache.Install` | auth/veauth/ark_token_provider.go:120-128 | a fetched key enters the cache only if the generation it was fetched for is still current; otherwise both fields stay as they are |
| `ArkToken.TokenCache.Invalidate` | auth/veauth/ark_token_provider.go:149-154 | the cached key is gone and the generation has moved on by one |
| `ArkToken.TokenCache.CachedAPIKey` | auth/veauth/ark_token_provider.go:156-160 | key and generation are read together, so that no later check can mix two generations |
| `ArkToken.InvAlways` | auth/veauth/ark_token_provider.go:102-154 | in every reachable interleaving of calls, flights and invalidations: one undelivered flight for each generation, no stamp ahead of the cache, an installable flight faces an empty cache, no blank key anywhere |
| `ArkToken.CacheMovesForward` | auth/veauth/ark_token_provider.go:112-154 | over any stretch of a run generations never go back, and a cached key stays the same until its generation ends |
| `ArkToken.ReturnedKeyIsCurrentAndFresh` | auth/veauth/ark_token_provider.go:102-154 | a key that `APIKey` returns was the cached key at an instant inside the call, and its fetch began after every `Invalidate` that preceded the call |
| `ArkToken.NoBlankReply` | auth/veauth/ark_token_provider.go:135-139 | the check for an empty reply never fires: every key received from a flight is returned |
| `ArkToken.OneInstallPerGeneration` | auth/veauth/ark_token_provider.go:120-127 | two installing steps of a run always belong to different, increasing generations |
| `ArkToken.GenerationCountsInvalidates` | auth/veauth/ark_token_provider.go:149-154 | the generation advances by exactly the number of invalidations |
| `ArkToken.IterationsBoundedByInvalidates` | auth/veauth/ark_token_provider.go:103-134 | one `APIKey` call reads the cache at most once more than there were invalidations since it started |
| `ArkToken.IterationsReadLargerGenerations` | auth/veauth/ark_token_provider.go:103-134 | each iteration of one call reads a strictly larger generation than the one before |
| `ModelRetry.ArkClientCache.ClientForRequest` | model/ark.go:109-129 | the client handed out is the one built from the resolved key, and the cached client always matches the recorded key |
| `ModelRetry.ArkClientCache.InvalidateClient` | model/ark.go:131-141 | the client is dropped only if it still belongs to the refused key; the match between client and key is kept |
| `ModelRetry.ProjectsToProvider` | model/ark.go:383-429 | whatever requests do, the provider sees one of its own runs, so that its guarantees apply to them |
| `ModelRetry.ClientMatchesKey` | model/ark.go:109-141 | under any number of concurrent requests the cached client is the one built from the recorded key, and every request sends the key it resolved |
| `ModelRetry.AtMostTwoSends` | model/openai.go:588-615 | however the server answers, a request is sent at most twice |
| `ModelRetry.RetryKeyIsFresh` | model/openai.go:588-615 | a second send follows an authentication failure of the first, and carries a key whose fetch began after that failure |
| `SkillRegistry.SkillCache.Pin` | skills/remote_cache.go:102 | one more pin for the key, every other count unchanged |
| `SkillRegistry.SkillCache.Unpin` | skills/remote_cache.go:103-110 | one pin less, and a count that reaches zero is not stored |
| `SkillRegistry.SkillCache.PinAll` | skills/registry.go:136-141 | whatever the iteration order, exactly the keys of the remote entries gain one pin each |
| `SkillRegistry.SkillCache.UnpinAll` | skills/registry.go:142-146 | the inverse: exactly those keys lose one pin each, and no count goes to zero or below while stored |
| `SkillRegistry.CheckListing` | skills/registry.go:106-114 | a listing is accepted exactly if all its metadata is valid, lengths counted in bytes, and no name occurs twice |
| `SkillRegistry.Merge` | skills/registry.go:93-97 | merging one more list into the generation gives the first-wins merge of all offers so far |
| `SkillRegistry.MergeLocals` | skills/registry.go:88-98 | local directories are merged in order, and one unreadable directory fails the refresh |
| `SkillRegistry.FirstWinsExactly` | skills/registry.go:93-97 | a name is in the merge exactly if some offer has it, and then it stands for the first offer that does |
| `SkillRegistry.Registry.Consult` | skills/registry.go:102-122 | cancellation fails the refresh, a bad listing fails it only for a required source, and an optional source falls back to its previous listing |
| `SkillRegistry.Registry.Discover` | skills/registry.go:78-132 | discovery gives a plan exactly if the refresh commits, and then the plan is the complete next generation with the issues to report |
| `SkillRegistry.Registry.Refresh` | skills/registry.go:78-151 | a failing refresh leaves entries, previous listings and pins exactly as they were; a committing one publishes the merge of local directories and sources in configured order and moves one pin from each old to each new key |
| `SkillRegistry.Registry.Snapshot` | skills/registry.go:155-166 | the snapshot has the entries of the current generation and adds one pin for each of their keys |
| `SkillRegistry.Registry.Close` | skills/registry.go:170-183 | entries and listings are empty afterwards and exactly the pins of the generation are released |
| `SkillRegistry.SkillSnapshot.Close` | skills/registry.go:241-254 | only the first close releases the pins of the snapshot |
| `SkillRegistry.NewRegistry` | skills/registry.go:56-74 | a registry is created exactly if no source is nil, remote sources come with a cache, and the source identities are non-empty and distinct; its sources are then those given, in order |
| `SkillRegistry.StoredListingIsLastGood` | skills/registry.go:99-151 | over any run of refreshes and closes the listing stored for a source is the one from the last committed refresh that got a good listing, or empty, and it is always valid and duplicate-free |
| `PinProtocol.InvAlways` | skills/registry.go:129-183 | in every interleaving the pin counts are exactly what generations and snapshots have pinned and not released, only the owner of the gate touches the disk, and a running `Get` keeps its snapshot open |
| `PinProtocol.PinsCoverLiveHolders` | skills/remote_cache.go:102-110 | for any number of registries and snapshots on one cache, a revision has at least one pin for each live holder at every step, exactly that many when no critical section is open, and no count is ever zero or negative |
| `PinProtocol.SharedKeyStaysPinned` | skills/registry.go:133-149 | a key of both the old and the new generation is pinned at every step of the refresh |
| `PinProtocol.NeverReopens` | skills/registry.go:241-254 | a snapshot that has begun to close is never open again |
| `PinProtocol.RevisionSurvivesExactly` | skills/remote_cache.go:114-145 | of all steps, exactly those remove a revision of an open snapshot that fail to read it and set out to remove it |
| `PinProtocol.RevisionOutlivesSnapshot` | skills/remote_cache.go:463-493 | a revision that is intact while an open snapshot refers to it stays on disk until that snapshot closes exactly if no lookup in between fails to read it; prunes, refreshes, other snapshots and materializations do it no harm |
| `PinProtocol.MaterializedRevisionStays` | skills/remote_cache.go:114-145 | the same from the moment a `Get` through the snapshot has delivered the revision |
| `PinProtocol.PinnedRevisionCanVanish` | skills/remote_cache.go:134-141 | a run in which a failing read removes an intact, delivered revision with two pins, while the snapshot is open |
| `CacheStaging.BoundedWriter.Write` | skills/remote_cache.go:226-240 | a write that does not fit is refused as a whole and remembered; the budget shrinks by exactly what the file accepted |
| `CacheStaging.CheckHeaders` | skills/remote_cache.go:242-266 | the header loop accepts exactly the archives with safe, distinct names whose declared sizes add up to no more than the limit; its unsigned subtraction never wraps |
| `CacheStaging.Copy` | skills/remote_cache.go:289-297 | copying succeeds exactly if every chunk is accepted in full and all fit the limit, and never writes past it |
| `CacheStaging.Extract` | skills/remote_cache.go:242-300 | extraction succeeds exactly when the headers are admissible and every member delivers what it declares; it never writes more than the limit |
| `CacheStaging.Download` | skills/remote_cache.go:157-170 | whatever a source writes, no more than the budget reaches the disk, and an overrun is noticed |
| `CacheStaging.ManifestSize` | skills/remote_cache.go:351-391 | the manifest counts exactly the extracted bytes, and its own limits never reject what extraction let through |
| `CacheStaging.Stage` | skills/remote_cache.go:143-222 | disk use never exceeds the cache limit at any single write, a failure gives every staged byte back, and an attempt without faults is published exactly if archive, expansion and manifest fit side by side |
| `CacheStaging.SameManifest` | skills/remote_cache.go:419-426 | the comparison with the recorded manifest accepts exactly an unchanged directory |
| `SessionProtocol.SessionState.EnsureWorkspace` | tool/skilltool/local_runtime.go:840-882 | a closing session gets no workspace; otherwise it owns one as soon as the directories exist, even if touching the marker then fails |
| `SessionProtocol.SessionState.Mark` | tool/skilltool/local_runtime.go:1327-1332 | the session is closing and every command that was active has been sent a kill |
| `SessionProtocol.SessionState.Start` | tool/skilltool/local_runtime.go:556-560 | the command joins the active set, nothing else changes |
| `SessionProtocol.SessionState.Forget` | tool/skilltool/local_runtime.go:567-570 | the command leaves the active set, nothing else changes |
| `SessionProtocol.StepKeepsLocks` | tool/skilltool/local_runtime.go:806-838 | every lock is taken by exactly the thread whose program counter says so, after every step |
| `SessionProtocol.InvAlways` | tool/skilltool/local_runtime.go:531-1421 | in every interleaving of commands, file operations, cleanups, `Close` and removals of expired workspaces: lock ownership, a right session map, detached states dead, closing sessions killed, owners for workspaces, and what each thread may rely on at its program counter |
| `SessionProtocol.ClosingIsFinal` | tool/skilltool/local_runtime.go:1322-1365 | from the moment a state is closing it stays closing, only loses commands and never regains a workspace |
| `SessionProtocol.NoStartOnceClosing` | tool/skilltool/local_runtime.go:539-560 | once a session state is marked as closing, no command is ever started on it |
| `SessionProtocol.OneOpenState` | tool/skilltool/local_runtime.go:806-818 | at most one state that is not closing exists for each session ID, and every active command of a closing one has been sent a kill |
| `SessionProtocol.DeletingKeepsOneOpenExactly` | tool/skilltool/local_runtime.go:1361-1363 | deletion by session ID keeps one open state for each session exactly if the state that is then in the map is closing: why cleanups of one session must not overlap |
| `SessionProtocol.OpenStaysMappedExactly` | tool/skilltool/local_runtime.go:1322-1365 | in every run, with cleanups overlapping as they may: all states that are not closing stay in the map exactly if no cleanup ever deletes one of them |
| `SessionProtocol.OneOpenExactly` | tool/skilltool/local_runtime.go:806-818 | and no session ever has two open states exactly if none is looked up that has an open state outside of the map, which takes such a deletion before |
| `SessionProtocol.OverlappingCleanupsSplitSession` | tool/skilltool/local_runtime.go:1322-1365 | a run in which two overlapping cleanups leave one session with two open states |
| `SessionProtocol.RemovalIsQuiet` | tool/skilltool/local_runtime.go:1352-1360 | when `cleanupSession` or `Close` removes a workspace, no command of that session has an outstanding wait, and no other workspace is touched |
| `SessionProtocol.OnlyRemovalsRemove` | tool/skilltool/local_runtime.go:929-1410 | apart from these two and the removal of an expired workspace, no step makes a workspace disappear, half-made or not |
| `SessionProtocol.ExpiryHitsNewCommands` | tool/skilltool/local_runtime.go:929-978 | a command that runs when an expired workspace is removed was started after the check that found its session inactive |
| `SessionProtocol.ExpiryIsQuietExactly` | tool/skilltool/local_runtime.go:929-978 | no command of the session runs at that removal exactly if the wait of every one that was started since the check has ended in between: check and removal are not one step |
| `SessionProtocol.ExpiryHitsRunningCommand` | tool/skilltool/local_runtime.go:929-954 | a run in which the workspace of a running command is removed as expired |
| `SessionProtocol.NoStartAfterClose` | tool/skilltool/local_runtime.go:1377-1398 | after `Close` has marked every session it copied, no command starts on any session that ever existed and no workspace appears |
| `SessionProtocol.CloseAccountsForWorkspaces` | tool/skilltool/local_runtime.go:1399-1421 | when `Close` returns, every workspace that is left is kept by configuration, or covered by an error in the result, or was left half-made by a preparation that failed |
| `SessionProtocol.StrayOutlivesClose` | tool/skilltool/local_runtime.go:840-882 | a run in which `Close` reports success and such a half-made workspace is left |
| `SessionProtocol.HoldersWaitInOrder` | tool/skilltool/local_runtime.go:964-977 | a thread that holds a lock someone waits for and waits itself holds the runtime lock and waits for a state lock, never the other way round |
| `SessionProtocol.WaitChainsAreShort` | tool/skilltool/local_runtime.go:964-977 | no chain of threads waiting for each other has more than three members or meets a thread twice, so there is no lock-wait cycle |
| `SessionProtocol.AlwaysProgress` | tool/skilltool/local_runtime.go:806-838 | no deadlock: of an unfinished thread and the at most two threads it waits for, one can take a step |
| `WorkspaceFiles.Measure` | tool/skilltool/local_runtime.go:1119-1138 | the walk adds up the sizes of exactly the regular files |
| `WorkspaceFiles.MakeAllExactly` | tool/skilltool/local_runtime.go:852-857 | making a list of directories succeeds exactly if nothing else stands at any of them and the system does not fail; it adds some of them and changes nothing that is there, whether it succeeds or not |
| `WorkspaceFiles.MakeAllKeepsTree` | tool/skilltool/local_runtime.go:984-988 | made with parents first, directories leave a tree a tree, however far it gets |
| `Workspace.LocalWorkspace.MakeDirectories` | tool/skilltool/local_runtime.go:853-857 | the loop over directories, up to the first that cannot be made |
| `WorkspaceFiles.LeftIsTree` | tool/skilltool/local_runtime.go:929-954 | what the removal of an expired workspace leaves, if it gets stuck, is a tree |
| `Workspace.LocalWorkspace.Sweep` | tool/skilltool/local_runtime.go:914-954 | the scan for expired workspaces, as far as it concerns the one at hand: it stays, or goes, or goes in part and the scan fails |
| `Workspace.LocalWorkspace.Lock` | tool/skilltool/local_runtime.go:820-882 | that scan first, and then preparing the workspace: its directories are made and the marker file created or emptied |
| `Workspace.LocalWorkspace.ReplaceFile` | tool/skilltool/local_runtime.go:989-1035 | the target gets exactly the new content or nothing changes, and the temporary file is gone either way; the outcome says which limit or fault was the reason |
| `Workspace.LocalWorkspace.AtomicWrite` | tool/skilltool/local_runtime.go:979-1035 | the directories on the way first, which stay even if the write is then refused, and then that |
| `Workspace.PreparedExactly` | tool/skilltool/local_runtime.go:840-882 | preparation comes to the marker exactly if the scan goes through, the system does not fail, and nothing that is left in the workspace stands in the place of a directory or of the marker |
| `Workspace.LocalWorkspace.Write` | tool/skilltool/local_runtime.go:364-387 | the checks of `write_file` in order, then one atomic write |
| `Workspace.LocalWorkspace.Edit` | tool/skilltool/local_runtime.go:389-439 | the checks of `edit_file` in order, then one atomic write of the edited text |
| `Workspace.LocalWorkspace.Upload` | tool/skilltool/local_runtime.go:1229-1263 | the checks of an upload in order, then one atomic write below `uploads` |
| `Workspace.FilesAfter` | tool/skilltool/local_runtime.go:979-1035 | the whole effect of an operation on files: a reported write installs its content at the place that the request names, opening the marker empties it, an expired workspace loses what can be removed, and every other file stays |
| `Workspace.StoresWhatWasAsked` | tool/skilltool/local_runtime.go:364-387 | what a write or an upload stores is the content of the request |
| `Workspace.OtherFilesChangeExactly` | tool/skilltool/local_runtime.go:901-912 | a write changes no other file exactly if the request names the marker file or finds the marker in place and empty, and the workspace has not expired or has no other file to lose |
| `Workspace.NothingChangesExactly` | tool/skilltool/local_runtime.go:901-912 | an operation that does not write changes no file exactly if it is refused before it opens the marker or finds it in place and empty, and does not find the workspace expired or every file survives that |
| `Workspace.MarkerContentIsLost` | tool/skilltool/local_runtime.go:901-912 | a caller can write to the marker file like to any other, and the next operation, even one that only looks, empties it |
| `Workspace.QuotaKept` | tool/skilltool/local_runtime.go:995-1005 | no operation takes a workspace over its quota, or further over it |
| `Workspace.RunKeepsQuota` | tool/skilltool/local_runtime.go:995-1005 | a workspace that starts within its quota is within it after every completed operation of any run |
| `Workspace.TreeKept` | tool/skilltool/local_runtime.go:979-1035 | every operation keeps the directory tree a tree, so nothing ever lies below a file |
| `Workspace.PreparableKept` | tool/skilltool/local_runtime.go:840-882 | no operation gets in the way of preparing the session again |
| `Workspace.RunKeepsTree` | tool/skilltool/local_runtime.go:840-1035 | so every run from a new session on leaves a tree that can be prepared again |
| `Workspace.LastWriteWins` | tool/skilltool/local_runtime.go:364-439 | after any run, scans by other sessions included, every file but the marker holds what the last successful write to it reported, or its first content, unless its workspace was removed as expired since |
| `Workspace.WriteSucceedsExactly` | tool/skilltool/local_runtime.go:364-387 | without faults `write_file` succeeds exactly for content within the limits, judged on what is left if the workspace has expired, at a place outside of the skills that is no directory, nor anything else that is not a regular file, and has only directories on the way to it |
| `Workspace.SubdirectoriesAreRefused` | tool/skilltool/local_runtime.go:853-857 | in particular it always refuses `uploads`, `outputs` and `tmp` |
| `Workspace.UploadSucceedsExactly` | tool/skilltool/local_runtime.go:1229-1263 | the same for uploads, below `uploads` |
| `Workspace.EditSucceedsExactly` | tool/skilltool/local_runtime.go:389-439 | without faults `edit_file` succeeds exactly in a workspace that has not expired, for a text file within the limits that has the old string, once up to overlaps unless all are to be replaced, and whose edited text is within the limits too |
| `Workspace.ExpiredStartsOver` | tool/skilltool/local_runtime.go:820-838 | an operation on a workspace that has expired does exactly what it would do on one that was never used |
| `Workspace.ExpiryLosesFile` | tool/skilltool/local_runtime.go:914-954 | a run in which a file is written and the next operation, which only looks, removes it with the expired workspace |
| `Workspace.WritesGoWhereTheyMay` | tool/skilltool/local_runtime.go:759-786 | every write lands at the place that was requested, never in `skills`, and uploads only below `uploads` |
| `Workspace.EditMeaning` | tool/skilltool/local_runtime.go:389-439 | a successful edit found the file to be pieces around the old string and leaves the same pieces around the new one: all occurrences, or the one that no other is clear of |
| `Replacement.ReplaceMeaning` | tool/skilltool/local_runtime.go:418-427 | the pieces of the text joined by the old string give the text, joined by the new one the replaced text |
| `Replacement.PiecesAreFree` | tool/skilltool/local_runtime.go:418-427 | after replacing all counted occurrences no piece between them contains the old string |
| `Replacement.CountsNoneExactly` | tool/skilltool/local_runtime.go:414-417 | the text counts as not found exactly if it occurs nowhere |
| `Replacement.CountsOneExactly` | tool/skilltool/local_runtime.go:414-420 | the uniqueness check passes exactly if every further occurrence overlaps the first |
| `Replacement.OverlapCountsOnce` | tool/skilltool/local_runtime.go:414-420 | so a text with two overlapping occurrences passes it |
| `Paths.SplitJoin` | tool/skilltool/local_runtime.go:771-786 | splitting a joined list of components gives the components back |
| `Paths.StackLandsAlike` | tool/skilltool/local_runtime.go:767 | cleaning never changes where a path leads, from any directory |
| `Paths.EscapesExactly` | tool/skilltool/local_runtime.go:768-770 | the textual check on the cleaned path finds exactly the paths whose walk leaves the root or ends in it |
| `Paths.CleanRelativeExactly` | tool/skilltool/local_runtime.go:763-770 | a path is accepted exactly if it is relative and its walk stays below the root and ends strictly below it; the result names that place without any `..` component |
| `Paths.ResourcePathExactly` | skills/resource.go:73-83 | that, for resource paths of a skill |
| `Paths.ScriptPathExactly` | tool/skilltool/local_runtime.go:505-516 | that, for script paths after their optional `scripts/` prefix |
| `Paths.ScopedPathExactly` | tool/skilltool/local_runtime.go:1288-1298 | that, for uploads and outputs: the result lies strictly below the scope, at the requested place |
| `Paths.ToolPathExactly` | tool/skilltool/local_runtime.go:759-786 | reading may name anything but `skills` itself, an unknown skill or a skill's directory; writing nothing in `skills`; a skill path splits into skill and resource |
| `Paths.WritesStayOutOfSkills` | tool/skilltool/local_runtime.go:759-786 | however it is written, a path accepted for writing leads strictly below the root and neither to `skills` nor below it |
| `Paths.PlainNameResolves` | tool/skilltool/local_runtime.go:759-786 | a simple file name is accepted for writing as it stands |
| `StreamAccumulation.Slots` | model/openai.go:544-567 | slot `i` is made of the fragments for index `i` alone: last non-empty ID and type, all names and arguments in order |
| `StreamAccumulation.AddCalls` | model/openai.go:544-567 | the loop over fragments gives those slots, and panics exactly on a fragment that has a negative index and something to store |
| `StreamAccumulation.OwnFragmentsDecide` | model/openai.go:544-567 | two orders of arrival that agree slot by slot give the same slots |
| `StreamAccumulation.SwapChangesNothing` | model/openai.go:544-567 | adjacent fragments of different calls may be swapped: same slots, and a panic in both orders or in none |
| `StreamAccumulation.BuildFinalResponse` | model/openai.go:770-810 | thought, text, then the calls of all slots that are not blank and decode, in slot order |
| `StreamAccumulation.GenerateStream` | model/openai.go:449-586 | for any lines, any end of the stream and any consumer, the consumer gets exactly the stream of the chunks before the end mark, cut where it stops |
| `StreamAccumulation.ReceiveStream` | model/ark.go:414-531 | the same for the ARK model, which ignores the finish reason "null" |
| `StreamAccumulation.FinalRepeatsPartials` | model/openai.go:500-585 | the final response repeats the partials put together, in text and in thought, and comes exactly if there is text, a call, a finish reason or a usage report |
| `StreamAccumulation.ReasoningAloneHasNoFinal` | model/openai.go:573-585 | reasoning alone is streamed, and no final response follows it |
| `StreamAccumulation.CutsDoNotMatter` | model/openai.go:474-585 | where the provider cuts the stream into chunks makes no difference to the final response, nor to whether there is a panic |
| `StreamAccumulation.NoCrashExactly` | model/openai.go:544-567 | the stream runs through exactly if no fragment with a negative index has anything to store |
| `StreamAccumulation.BlankFragmentPasses` | model/openai.go:544-567 | a fragment with nothing but a negative index does no harm |
| `TextToolCalls.ParseToolCalls` | model/openai.go:874-936 | the cursor loop ends, and gives the calls and the kept text of the stretches into which the text falls |
| `TextToolCalls.PartitionsText` | model/openai.go:884-936 | kept pieces and call spans are disjoint, ascending and rebuild the text; every brace outside of a decoded object starts none |
| `TextToolCalls.OtherObjectsStay` | model/openai.go:896-932 | a decoded object without a string name or without arguments stays verbatim in the remainder, trimming included |
| `TextToolCalls.NoCallsNoChange` | model/openai.go:874-936 | a text in which no call is found is kept as it is |
| `AutoSave.KeysAreUnique` | runner/autosave.go:44 | two sessions never share a watermark as long as no name contains NUL |
| `AutoSave.EventsFrom` | runner/autosave.go:140-152 | the copy is exactly the requested range, clipped to the events there are |
| `AutoSave.AutoSaver.Begin` | runner/autosave.go:45-55 | where to start saving: at the watermark, at the beginning if the session has shrunk below it, nowhere if nothing is new |
| `AutoSave.AutoSaver.Commit` | runner/autosave.go:68-72 | the watermark rises to what was seen and never falls |
| `AutoSave.AutoSaver.AfterRun` | runner/autosave.go:38-73 | an uninterrupted callback saves exactly the gained events and moves the watermark, or on a failure does neither |
| `AutoSave.InvAlways` | runner/autosave.go:38-73 | in every interleaving of callbacks, arriving events and failures: a callback that has saved and not yet moved the watermark has saved all it was to save, whatever was saved above a watermark was saved by such a callback, and no watermark is above the number of events |
| `AutoSave.DeliveredExactly` | runner/autosave.go:57-72 | whatever overlaps and fails, and with or without a memory for each callback: every event below a watermark was saved at every instant exactly if no callback without a memory moved the watermark over events that none under way had saved |
| `AutoSave.MemoryDelivers` | runner/autosave.go:57-72 | with a memory for every callback that is so in every run |
| `AutoSave.SerialDeliversExactly` | runner/autosave.go:57-72 | for serialized callbacks it is so exactly if no callback without a memory has finished |
| `AutoSave.NoMemoryDeliversExactly` | runner/autosave.go:57-72 | with no memory at all it is so exactly as long as no callback has finished |
| `AutoSave.WatermarkMovesWithoutMemory` | runner/autosave.go:57-72 | a run in which the watermark moves over an event that nobody saved |
| `AutoSave.SavedExactlyOnce` | runner/autosave.go:38-73 | when callbacks are serialized and have a memory, the successful saves put together are exactly the events up to the watermark: no loss, no duplicate, whatever saves fail |
| `AutoSave.NeverTwiceExactly` | runner/autosave.go:38-73 | in every run, no event has been saved twice exactly if no successful save had an event that was saved before |
| `AutoSave.RepeatsExactly` | runner/autosave.go:45-57 | where everything below the watermarks was saved, a save repeats an event exactly if its callback starts below the watermark, or shares events with a callback that has saved and not yet moved it |
| `AutoSave.SavedOnceExactly` | runner/autosave.go:38-73 | so in every run that keeps the guarantee of delivery, no event is saved twice exactly if no callback that saves starts below the watermark or shares events with one that has saved and not yet moved it |
| `AutoSave.SerialSavesOnce` | runner/autosave.go:38-73 | serialized callbacks never save an event twice, with or without a memory for each |
| `AutoSave.OverlapSavesTwice` | runner/autosave.go:46-57 | of two callbacks that are between their critical sections at once, exactly the events that both have seen and not found saved are in both saves |
| `AutoSave.OverlapHappens` | runner/autosave.go:46-57 | a run that gets to such a pair of callbacks |
| `AutoSave.StaleViewSavesTwice` | runner/autosave.go:47-50 | a run in which only one callback is under way at a time, and one with an old view of the session starts over and saves an event again |
| `TokenUsage.SpanMetadata.BeforeModel` | observability/plugin.go:271-284 | a call starts from the counts so far |
| `TokenUsage.SpanMetadata.AfterModel` | observability/plugin.go:287-319 | errors and missing responses or reports change nothing; a report replaces what the call had reported before |
| `TokenUsage.SpanMetadata.Accumulate` | observability/plugin.go:368-405 | a report without a total counts prompt and candidates, on top of the counts before the call |
| `TokenUsage.CountsAreSums` | observability/plugin.go:271-405 | at every moment of an invocation the counts are the sum over its calls of what each reported last |
| `TokenUsage.PartialReportsDoNotCount` | observability/plugin.go:368-405 | reports that a later one of the same call replaces leave no trace |
| `TokenUsage.CountsAreSumsOfStretches` | observability/plugin.go:271-405 | for calls that interleave in any way, the counts are the sum over the stretches between one beginning of a call and the next of the last report in each, whichever call made it |
| `TokenUsage.CountsAreCallSumsExactly` | observability/plugin.go:271-405 | for any order of the callbacks of any calls: the counts are the sum of what each call reported last, whatever is reported, exactly if the reports that are last before a call begins are those that are last of their calls |
| `TokenUsage.OneAtATimeIsRight` | observability/plugin.go:271-405 | which is so when calls begin once and none reports after another has begun |
| `TokenUsage.OverlappingCallsLoseCounts` | observability/plugin.go:271-284 | after any callbacks, of two calls that have both begun the report of the one is lost when the other reports; the sum is right exactly if it reported nothing |
| `TokenUsage.OverlappingCallsCountTwice` | observability/plugin.go:271-284 | and two reports of one call count twice when another call begins between them |
| `TokenUsage.MetadataIsNormal` | model/openai.go:812-839 | counts that fit 32 bits arrive as reported, under either name, and with their total |
| `TokenUsage.StreamReportsLastUsage` | model/openai.go:487-585 | of a streamed call the plugin keeps exactly the usage of the last chunk that had one |
| `TokenUsage.StreamedCallsCountOnce` | observability/plugin.go:271-405 | over streamed calls the invocation counts exactly the last usage the provider sent for each, however many partials lie between |

## Left out

- ArkToken.TokenCache.Invalidate: the generation is unbounded here, while the 64-bit counter of the source wraps after 2^64 invalidations.
- CacheStaging.Stage: the sum in line 203 of skills/remote_cache.go is taken without overflow, which needs the cache limit and the size of one manifest to stay below 2^63 together.
- CacheStaging.Extract: paths inside the archive are reduced to whether a name is safe and to its folded form; directories have no size.
- SkillRegistry.SkillSnapshot.Close: that the pins it releases are there is a precondition here; `PinProtocol.InvAlways` is where it is shown to hold for every run.
- StreamAccumulation.AddCalls: memory is unbounded, so a huge index makes many blank slots instead of running out of memory.
- StreamAccumulation.GenerateStream: the limit on the length of a line is part of the input (reading ends with an error there).
- TokenUsage.CountsAreSums: sums are unbounded, and calls run one after another; `TokenUsage.CountsAreSumsOfStretches` is what holds when they interleave.
- Workspace.LocalWorkspace.AtomicWrite: a link is an entry that is neither a file nor a directory, and a path that leads through a link made by a command is not part of this model, nor is the quota while the temporary file and the old file coexist.
- Workspace.LocalWorkspace.Lock: the links to skills are not entries; whether they can be made is input, and no operation of this model can write below `skills`.
- Workspace.WriteSucceedsExactly: a name that the system never accepts, such as one with a NUL or an over-long component, counts as a fault of the system; the same holds for `Workspace.UploadSucceedsExactly`.
- Workspace.LastWriteWins: a workspace that another thread removes as expired in the middle of an operation is not part of this model, as the assumptions say.
- Workspace.LocalWorkspace.Sweep: whether the scan is due and the workspace has expired is input.
- Workspace.LocalWorkspace.Edit: whether a file is valid UTF-8 and whether reading it fails or finds it changed are inputs.
- SessionProtocol.ExpiryIsQuietExactly: whether a workspace has expired is input; the loop over the workspace root is one thread for each expired workspace.
- AutoSave.SavedExactlyOnce: serialized callbacks see all events of their session so far; sessions whose event list shrinks are outside of the guarantee.
- The attempts and backoff of `fetchWithRetry`, and the requests behind it.
- Models with a fixed API key or an AK/SK pair, and providers that cannot be invalidated: they never retry.
- `SkillSnapshot.List` and the copy that `Get` makes of a local skill.
- `findRemoteRoot`, parsing of SKILL.md, hashing, the zip reader and the HTTP sources.
- Reading files: line ranges, truncation of long lines and reading while a file changes.
- Running a command: environment, output limits, timeouts, the quota check while it runs and audit events.
- Non-streamed responses and mapping of finish reasons: they differ from streamed ones by design.
- The cached-content token count of a usage report.
- Metrics, spans, logging, configuration, servers and the user interface.
