# Verification of the rclone CSI driver and its recovery operator

This project models the parts of the driver whose correctness does not show in any single function, and proves what
they keep over all inputs, all runs and all interleavings. It has three parts.

**Mount lifecycle.** `MountLifecycle` is direct-mode publish and unpublish as a step machine: request handlers,
background mounts and reapers interleave freely on the lock set, the loaded config sections, the mount contexts, the
mount table and the saved states, and mounts may vanish at any moment. `MountSafety` proves lock ownership, hand-off and
exactly-once release for every run, from any process that starts with nobody at work; `MountOutcomes` says exactly when
"already published" answers for a mount nobody reported, and `MountOrphans` gives a run in which it does.
`MountReplies` says what stands behind each answer a caller hears, `MountCalls` what one call alone leaves of the world
in every way it can go.
`MountProgress` shows that no actor ever waits for another one and that every call gives its key back after a bounded
number of steps of its own. `MountVolumes` shows that no load or cleanup for one volume touches sections of another,
whatever becomes of its config; `MountSections` accounts for every loaded section and says exactly when those of a
stored context stay loaded, `MountReapers` what a reaper leaves behind, and `MountLeaks` gives the runs in which
sections are leaked or lost. `MountRecords` says exactly when the saved states and the contexts agree although saves and
deletes may fail, `MountRestarts` what restarts bring back, any number of them. `MountStore` holds the persisted states
and the secret store the nodes share, `Remount` the way from raw parameters to the mount call at publish and stage and
again from the stored secret. `Staging` is the staging mode as a class with the server's maps, `StagingEffects` says
when each of its operations succeeds and exactly what it leaves, `StagingRuns` what holds over whole runs of requests
after a boot, `VolumeLocks` is the lock set with its bounded retry.

**Config isolation.** `RemoteRewrite` gives the successive longest-first replacements a meaning and proves the exact
condition under which they are one simultaneous substitution; `ConfigIsolation` carries sections and the reference
graph over; `ConfigText` serializes and parses; `IsolatedText` puts text to text; `PathTemplate` is the template
substitution, with the exact set of paths on which the iteration order cannot show. `Text` and `Paths` hold the string
and path library operations they share.

**Recovery operator.** `Recovery` specifies the two reconcile passes, the cooldown limiter and the orphan teardown,
`Reconciler` is the class that carries them out, `RestartDecisions` says exactly which pods are deleted and which mounts
torn down, in a turn, a pass and the life of an operator. `Mountinfo` is the mount table reader on printed tables,
`MountinfoLines` on any text, `Scanner` the tree scan and the two CSI path parsers, `MountProbe` the bounded probe as a
state machine, `CsiTracker` the restart tracker.

What the outside answers (mount calls, unmounts, probes, API calls, clocks) enters as parameters or as free choices of
a step, and is arbitrary unless a lemma says otherwise. The concurrent protocols are state machines over their steps;
everything that runs one call at a time is a method on the class or the loop the source has, tied by its `ensures` to a
specification function, with the properties proved about that function.

Where the code differs from its comments, or does what its design does not say, the model follows the code:

- The comment on the reaper says a retry can never see a mount that is being torn down. It can when the detach fails and
  the context of an earlier, vanished mount is still stored: `MountOrphans.OrphanPassesForPublished` is such a run.
- The comment on the serializer says the order is not guaranteed; the text is a function of the map alone.
- The comment on the timed probe says a probe that exceeds its timeout counts as corrupted; a caller that never gets the
  slot in time answers "not corrupted".
- Renaming goes wrong when one section name ends in another: with sections `s3` and `my-s3` the reference `my-s3:` gets
  the prefix twice and points nowhere (`ConfigIsolation.NestedExample`).
- A config load that fails part-way returns before its cleanup is registered, so what it had set stays loaded
  (`MountSections.PartialLoadIff`, and `MountLeaks.PartialLoadLeaks` for a run).
- Unloading the sections of a context looks at the names alone, so with one volume at two targets the first unpublish
  drops sections that the other context still lists (`MountLeaks.SharedVolumeLosesSections`).
- `replaceWithMap` goes through its map in any order; with '$'-free values that shows on exactly those paths in which
  a '$' word that begins a variable stands right before one that begins with another variable
  (`PathTemplate.OrderNeverShowsIff`).
- The refusal to stage a cached volume at a second path holds over all requests; a remount overwrites the entry
  without asking (`Staging.RemountMovesIff`).
- When a staging mount is found healthy and then unhealthy, its context is forgotten without unloading its sections; they
  stay loaded if staging then fails before a new load (`Staging.StageLeaksIff`, and `StagingRuns.StageLeakRun` for a
  run).
- The secret name of a state does not contain the node, while the list of states is filtered by node
  (`MountStore.SharedStagingPathLosesState`).

Assumptions: digests cut to 16 digits are collision-free on the volumes in use; `MakeConfigName` leaves legal names
alone; the config parser is modelled on the grammar the serializer emits (sections, `key = value` or `key: value`, blank
lines); JSON encoding of maps and lists is invertible; formatting and parsing an RFC 3339 time (RFC 3339, section 5.6)
without fraction gives the whole second.

## Model

| member | source | states |
|---|---|---|
| RemoteRewrite.PassesAreRewritten | pkg/rclone/utils.go:296-312 | Whatever order the sort gives names of equal length, the successive ReplaceAll passes yield one order-free result per colon-ended piece |
| RemoteRewrite.RewriteIsSimultaneousIff | pkg/rclone/utils.go:294-312 | The passes rename every reference exactly once and change nothing else if and only if no section name is a proper suffix of one of the value's references |
| RemoteRewrite.TokensOfSimultaneous | pkg/rclone/utils.go:296-312 | After a simultaneous renaming the references of the value are the renamed references in the same order |
| RemoteRewrite.ShortestFirstRewritesTwice | pkg/rclone/utils.go:304-306 | Why longest-first: with a section already called prefix+n, handling n first rewrites the fresh name again |
| RemoteRewrite.SortLongestFirst | pkg/rclone/utils.go:300-306 | The sorted slice holds each name once, longest first |
| RemoteRewrite.RewriteRemoteReferences | pkg/rclone/utils.go:296-312 | The loop computes the order-free rewriting of the value, the empty value and the empty rename included |
| ConfigIsolation.RenamedOnceIff | pkg/rclone/utils.go:317-349 | Isolation renames every in-config reference of a config once exactly on configs whose references have no section name as proper suffix |
| ConfigIsolation.NestedNamesBreak | pkg/rclone/utils.go:317-349 | In every config in which one name ends in just one other, a value that is a reference to the longer name comes out with the prefix twice, and names a section only if the config has one called that way |
| ConfigIsolation.NestedExample | pkg/rclone/utils.go:317-349 | Such a config: the reference points to no section, under any prefix |
| ConfigIsolation.SectionsCarriedOver | pkg/rclone/utils.go:330-346 | Renaming is a bijection on sections, keeps the keys of each, and changes no value outside `remote` and `upstreams` |
| ConfigIsolation.GraphCarriedOver | pkg/rclone/utils.go:314-349 | The references under the keys `remote` and `upstreams`, in any case, of the input are exactly those of the output under the renaming; outside references stay and are not captured |
| ConfigIsolation.IsolatedValue | pkg/rclone/utils.go:334-345 | On every config: the keys that spell `remote` or `upstreams` in any case are rewritten, all others copied |
| ConfigIsolation.ReferencesRenamed | pkg/rclone/utils.go:334-345 | On a clean config the value of each such key is the simultaneous renaming of the original, and every other value is the original |
| ConfigIsolation.DisjointIff | pkg/rclone/utils.go:282-292 | Two prefixes keep the sections of their volumes apart for all configs if and only if neither begins with the other |
| ConfigIsolation.DefaultPrefixesDisjoint | pkg/rclone/utils.go:286-292 | Default prefixes of different digests never give two volumes a common section name |
| ConfigIsolation.RemotePrefixForVolume | pkg/rclone/utils.go:286-292 | A custom prefix is used as it is; the default is `csi` and the first 16 digits of the volume's digest |
| ConfigIsolation.IsolateConfigRemotes | pkg/rclone/utils.go:317-349 | Both error cases exactly, and on success the isolated config with the image of the logical remote, which is one of its sections |
| ConfigIsolation.BuildRename | pkg/rclone/utils.go:329-332 | Every section, and nothing else, is renamed to the prefix, a hyphen and its name |
| ConfigIsolation.RewriteSection | pkg/rclone/utils.go:334-345 | The method's section is the one these laws speak of: every key stays, and those spelled neither `remote` nor `upstreams` keep their values |
| ConfigText.ListingUnique | pkg/rclone/utils.go:352-369 | A set of names has one sorted listing, so map order cannot show |
| ConfigText.ParseSerialized | pkg/rclone/utils.go:249-280 | Parsing the serialized form of any well-formed map gives back the same sections, keys and values |
| ConfigText.ParseSerializeParse | pkg/rclone/utils.go:249-280 | Whatever a text parses to is well-formed and survives another round trip |
| ConfigText.LineSets | pkg/rclone/utils.go:249-280 | With any blanks around key and value, a line sets its key at the first `=` or `:` |
| ConfigText.LineOpens | pkg/rclone/utils.go:249-280 | A name in brackets opens its section, and keeps what an earlier one of that name has set |
| ConfigText.LineFails | pkg/rclone/utils.go:249-280 | A line that is neither of these, nor blank, nor a comment, makes the whole text an error |
| ConfigText.SpelledOut | pkg/rclone/utils.go:361-371 | How a section is spelled, character by character |
| ConfigText.SortStrings | pkg/rclone/utils.go:353-368 | The sorted slice is the one sorted listing of the keys |
| ConfigText.SerializeConfigRemotes | pkg/rclone/utils.go:352-373 | The text depends on the map alone |
| ConfigText.SerializeSection | pkg/rclone/utils.go:361-371 | One section is its header, its keys in order and a blank line |
| IsolatedText.IsolatedWellFormed | pkg/rclone/utils.go:317-373 | Isolating a well-formed config under a good prefix gives a well-formed config, so its text can be read back |
| IsolatedText.IsolateConfigData | pkg/rclone/utils.go:314-349 | Text to text: each error exactly when it is due, and parsing the result, as the config load does, gives the isolated map |
| PathTemplate.OrderNeverShowsIff | pkg/rclone/rclone.go:298-306 | All iteration orders agree for all dollar-free values if and only if no dollar word of the path that is a proper prefix of one key stands immediately before a word that begins with another key |
| PathTemplate.OrderShows | pkg/rclone/rclone.go:298-306 | On every other path: values and two orders that give different results |
| PathTemplate.OrderDoesNotMatter | pkg/rclone/rclone.go:298-306 | On the paths where no order shows, with dollar-free values, every iteration order gives the simultaneous substitution |
| PathTemplate.KnownVariables | pkg/rclone/rclone.go:37-43 | The three variables of the controller are admissible: none begins another |
| PathTemplate.ReplaceWithMap | pkg/rclone/rclone.go:299-306 | The loop performs the passes in some order, the empty key skipped, and on paths where no order shows it computes the simultaneous substitution |
| MountLifecycle.LockKeyInjective | pkg/rclone/nodeserver.go:396-401 | Different (volume, target) pairs never share a lock key |
| MountSafety.RunSafe | pkg/rclone/nodeserver.go:947-1173 | Every step of every actor keeps the fit of handler, mount and reaper, the ownership of keys, the release counts and the explanation of every mount |
| MountSafety.LockedIffOneOwner | pkg/rclone/nodeserver.go:956-973 | In every reachable state a key is locked if and only if exactly one actor still has to release it |
| MountSafety.ReleaseIsOnesOwn | pkg/rclone/utils.go:59-74 | In every reachable state a key that leaves the lock set was owned by the actor that released it, which then owns it no more |
| MountSafety.NothingLeftLocked | pkg/rclone/nodeserver.go:966-973 | When nobody is at work every grant has been released exactly once and the lock set is empty |
| MountSafety.InFlightIsLocked | pkg/rclone/nodeserver.go:1064-1147 | A mount whose result nobody has taken is guarded by its key and has exactly one taker left |
| MountSafety.ReapedBeforeFree | pkg/rclone/nodeserver.go:1149-1173 | A reaper about to free its key has detached its mount, unless the detach failed, and the caller of its publish hears a refusal |
| MountSafety.CallerHears | pkg/rclone/nodeserver.go:1064-1147 | In every reachable state a publish answers at its end and not before; it answers success if and only if it took a mount result that was a success, and a call that handed its mount over answers a refusal |
| MountReplies.AlreadyPublishedIff | pkg/rclone/nodeserver.go:1008-1024 | "Already published" is answered by exactly the calls that found their target mounted and with a context |
| MountReplies.SuccessIsStored | pkg/rclone/nodeserver.go:1089-1119 | When a publish has succeeded and still holds its key, the context stored for its target is its own |
| MountReplies.SuccessIsLoaded | pkg/rclone/nodeserver.go:1052-1056 | With stable, disjoint names and one target per volume, the sections of such a publish are its volume's and all loaded |
| MountReplies.UnpublishedIsClear | pkg/rclone/nodeserver.go:1267-1286 | When an unpublish has succeeded and frees its key, nothing is mounted at its target, and it has neither context nor saved state |
| MountReplies.UnpublishedIff | pkg/rclone/nodeserver.go:1247-1291 | Whatever else runs, an unpublish succeeds if and only if it came as far as deleting the saved state and that worked |
| MountCalls.RefusedEarly | pkg/rclone/nodeserver.go:947-1056 | Alone, a publish stopped by its parameters, its target, a stale mount that stays, its config or a load cut short: refused, the key given back, nothing changed but what the cut load set |
| MountCalls.AlreadyThere | pkg/rclone/nodeserver.go:1008-1024 | Alone, at a target mounted and with a context: "already published", and nothing changed |
| MountCalls.PublishAlone | pkg/rclone/nodeserver.go:947-1147 | Alone, past these: the answer, and exactly what becomes of mounts, sections, contexts, saved states and locks, whether the mount and the save work or not |
| MountCalls.AbandonedAlone | pkg/rclone/nodeserver.go:1124-1173 | Alone, given up while mounting: refused, and after its reaper nothing is left of it but the mount if it would not detach |
| MountCalls.UnpublishAlone | pkg/rclone/nodeserver.go:1247-1291 | Alone, an unpublish: the answer, and exactly what it leaves, whichever of its three calls to the outside work |
| MountReapers.NothingLeftByReaper | pkg/rclone/nodeserver.go:1149-1173 | With one target per volume and stable, disjoint section names, neither that mount, unless the detach failed, nor any section of the attempt is left when the key is freed, in any interleaving |
| MountReapers.ReaperLeavesToOthers | pkg/rclone/nodeserver.go:1149-1173 | With volumes at several targets, a section of the attempt still loaded then belongs to another call at work, another reaper or a stored context |
| MountProgress.OwnerCanMove | pkg/rclone/nodeserver.go:1064-1173 | Whoever holds a key has a step of its own, or of its own background mount, that it can take in any state of the others |
| MountProgress.StepsBounded | pkg/rclone/nodeserver.go:947-1173 | However calls interleave, each step of a call lessens what it has ahead, and no other call's step changes that |
| MountProgress.CallsAreShort | pkg/rclone/nodeserver.go:947-1173 | From a process nobody works in, no call takes more than sixteen steps |
| MountProgress.CanRelease | pkg/rclone/nodeserver.go:1129-1173 | From every safe state a call that holds its key has a run of its own steps alone, no longer than what it has ahead, after which the key was released exactly once |
| MountOutcomes.OneOwnerPerTarget | pkg/rclone/nodeserver.go:947-973 | With one volume per target at most one actor works on a target |
| MountOutcomes.RunReported | pkg/rclone/nodeserver.go:1089-1119 | Every planned run keeps each context to a mount remounted at boot or one whose publish for that target took its result as a success, with no mount of an earlier process beside it, and gives every mount that would not detach a reaper that tried |
| MountOutcomes.ContextsPublished | pkg/rclone/nodeserver.go:1089-1119 | In every planned run each context is one remounted at boot or that of a publish for its target that answered success or is about to |
| MountOutcomes.RowsFound | pkg/rclone/nodeserver.go:330-371 | What a publish can find at its target before mounting: a foreign mount without context, a reported one, or an orphan that would not detach |
| MountOutcomes.HonestIff | pkg/rclone/nodeserver.go:1008-1024 | In every planned run "already published" answers only for mounts remounted at boot or whose publish answered success, if and only if no orphan whose detach failed is mounted at the target |
| MountOrphans.OrphanPassesForPublished | pkg/rclone/nodeserver.go:1149-1189 | The orphan is real: from any boot whose context lost its mount, a run in which "already published" is answered although the only mount is a failed call's orphan |
| MountSections.SectionsKeptKept | pkg/rclone/nodeserver.go:1052-1056 | Every step keeps each loaded section accounted for by an attempt at work, a reaper or a stored context |
| MountSections.PartialLoadIff | pkg/rclone/nodeserver.go:1038-1056 | A load that fails part-way leaks exactly the sections nobody else accounts for |
| MountSections.QuietSections | pkg/rclone/nodeserver.go:1052-1056 | In every run with stable names and whole loads, when nobody is at work each loaded section belongs to a stored context |
| MountSections.DefaultNamesDisjoint | pkg/rclone/utils.go:282-292 | With default prefixes the section names of any two volumes with different digests are disjoint, whatever their configs |
| MountVolumes.OtherVolumesUntouched | pkg/rclone/nodeserver.go:467-537 | After any planned run from a boot, and whatever names later loads of a volume set as long as they are its own, loads, loads cut short and cleanups for other volumes leave every section of this one loaded or absent as it was |
| MountVolumes.PrefixedSectionsUntouched | pkg/rclone/nodeserver.go:467-537 | The same for the sections that begin with the volume's prefix, when each load sets sections of some isolated config, perhaps another one each time, and no prefix in use begins with another |
| MountVolumes.DefaultPrefixesApart | pkg/rclone/utils.go:282-292 | Default prefixes of volumes with different digests are such prefixes |
| MountSections.ContextLoadedIff | pkg/rclone/nodeserver.go:907-915 | The sections of a stored context are loaded if and only if the last step that touched sections of its volume, for this target or another, was a load, or none did and they were loaded from the start |
| MountLeaks.PartialLoadLeaks | pkg/rclone/nodeserver.go:1038-1056 | From any boot whose contexts do not list the section: a run of one refused publish after which it stays loaded with nobody at work |
| MountLeaks.SharedVolumeLosesSections | pkg/rclone/nodeserver.go:907-915 | One volume at two targets: a run in which unpublishing one drops every section the other's context lists |
| MountRecords.LastWritesDecide | pkg/rclone/nodeserver.go:1092-1119 | From any boot, whichever saves and deletes fail: when its key is free a target has a context if and only if the last write for it was a save, and a saved state if and only if the last successful one was |
| MountRecords.SavedIffMounted | pkg/rclone/nodeserver.go:1092-1119 | Hence a target that agreed at boot and whose own saves and deletes work has a saved state if and only if it has a context, whenever its key is free |
| MountRecords.QuietAgreed | pkg/rclone/nodeserver.go:1274-1286 | If the boot agreed for all targets and all saves and deletes work, then with nobody at work the saved states are exactly the contexts |
| MountRestarts.RestartBoots | pkg/rclone/nodeserver.go:1594-1622 | A restart at any moment of any planned run, whichever saves and remounts fail: the new process boots with the same saved states and contexts for exactly the targets whose remount succeeded |
| MountRestarts.RestartRestores | pkg/rclone/nodeserver.go:1594-1622 | Per target: if it agreed at boot, its own saves, deletes and remount work and its key is free, it has a context after the restart if and only if it had one before, and agrees again |
| MountRestarts.LivesBoot | pkg/rclone/nodeserver.go:1594-1622 | After any number of restarts the process is booted again, so all results on runs from a boot apply to it |
| MountRestarts.LivesAgree | pkg/rclone/nodeserver.go:1594-1622 | A target looked after in this way stays in agreement over any number of restarts |
| MountRestarts.RestartRestoresAll | pkg/rclone/nodeserver.go:1594-1622 | If nothing fails and nobody is at work, the contexts are back for exactly the targets that had one |
| MountRestarts.RestartSections | pkg/rclone/nodeserver.go:1594-1622 | If the configs have not changed and no failed remount left sections behind, every loaded section then belongs to a context and each context lists its volume's names |
| MountRestarts.RestartServes | pkg/rclone/nodeserver.go:1594-1622 | Whatever the configs have become and whichever remounts fail, each context that comes back has its sections loaded and its mount at its target |
| VolumeLocks.VolumeLocks.TryAcquire | pkg/rclone/utils.go:59-67 | The key is taken if and only if it was free |
| VolumeLocks.VolumeLocks.Release | pkg/rclone/utils.go:70-74 | Only the key leaves the set |
| VolumeLocks.VolumeLocks.Acquire | pkg/rclone/nodeserver.go:404-414 | Within five attempts the key is taken at the first that finds it free, otherwise the set stays as the others left it |
| MountStore.ExtractPublishParams | pkg/rclone/nodeserver.go:294-325 | Each error exactly when it is due; on success every free parameter under its normalized name, none of them the name reserved for the prefix |
| MountStore.NormalizedNotPrefix | pkg/rclone/utils.go:213-230 | No normalized name equals the key under which a custom prefix is saved |
| MountStore.NormalizedIs | pkg/rclone/utils.go:213-230 | Character by character: two leading hyphens go, other hyphens become underscores, capital letters small ones |
| MountStore.OthersPassedOn | pkg/rclone/nodeserver.go:294-325 | Every parameter but the five with a meaning of their own is passed on, and nothing else |
| MountStore.CollectedUnique | pkg/rclone/nodeserver.go:312-322 | Without two spellings of one parameter the map order does not show |
| MountStore.ClashIsVisible | pkg/rclone/nodeserver.go:312-322 | With two spellings of different value more than one outcome is possible |
| MountStore.SecretRoundTrip | pkg/rclone/mount_state.go:127-169 | A stored state reads back as it was, the target standing in for a missing staging path |
| MountStore.ReadsWhatIsThere | pkg/rclone/mount_state.go:127-169 | From any secret: what it lacks reads as nothing, and read-only is only the word "true" |
| MountStore.NoPrefixAmongParams | pkg/rclone/nodeserver.go:294-325 | Hence no collected parameter can pass for the saved prefix |
| Remount.RestoredIff | pkg/rclone/nodeserver.go:452-464 | Saving and restoring parameters is lossless if and only if none has the reserved name |
| Remount.MountsWhatWasAsked | pkg/rclone/nodeserver.go:975-1113 | A publish mounts, cut at the first colon of its filesystem name, the prefixed remote and exactly the remote path of its raw parameters, at its target, with the flags in order and "read-only" if asked for, and saves what a remount needs |
| Remount.StagesWhatWasAsked | pkg/rclone/nodeserver_stage.go:170-239 | The same for a stage, which is never read-only |
| Remount.RemountsWhatWasSaved | pkg/rclone/nodeserver.go:1466-1552 | A remount mounts the remote and the path of the saved state, at its staging path or else its target, with the saved options |
| Remount.PathsTold | pkg/rclone/nodeserver.go:517-522 | Different remote paths never give the same mount call |
| Remount.PublishesIff | pkg/rclone/nodeserver.go:1025-1056 | With plain names a publish comes to its mount if and only if its config has the remote it asks for, and then the isolated config is loaded and the mounted remote is one of its sections |
| Remount.StagesIff | pkg/rclone/nodeserver_stage.go:170-221 | The same for a stage |
| Remount.RemountsIff | pkg/rclone/nodeserver.go:1514-1552 | The same for a remount |
| Remount.RemountRecomputes | pkg/rclone/nodeserver.go:1514-1552 | For any raw parameters: the remount from the stored secret starts from the logical parameters again and makes the publish's mount call, with the same loaded config, filesystem path, mount path, options and parameters |
| Remount.StageRemountRecomputes | pkg/rclone/nodeserver.go:1514-1552 | The same for what stageVolume saves |
| Remount.PublishDirect | pkg/rclone/nodeserver.go:975-1113 | From raw parameters, isolation overwriting config and remote name in place, to the mount call and state of the specification the laws above are about; remote, path, options and state for every prefix, the loaded config and the refusals for plain ones |
| Remount.RemountState | pkg/rclone/nodeserver.go:1466-1552 | From a loaded state, a saved prefix taken out of the parameters again, to the mount call of that specification, the loaded config for plain prefixes |
| Remount.PublishThenRestart | pkg/rclone/nodeserver.go:1514-1552 | Publish, lose the process, read the secret, remount: the second mount call is the first |
| MountStore.ResavingIsStable | pkg/rclone/nodeserver.go:1566-1571 | Saving a loaded state again changes nothing for the next remount |
| MountStore.IdentityInjective | pkg/rclone/mount_state.go:118-125 | Secret identities tell (volume, target) pairs apart |
| MountStore.FoundRightIff | pkg/rclone/mount_state.go:274-299 | Over any calls of any nodes, LoadState is right about a state if and only if nobody else touched its identity last |
| MountStore.UnsharedIsRight | pkg/rclone/mount_state.go:172-299 | If no two nodes use one identity, every node finds exactly what it saved and did not delete |
| MountStore.SharedStagingPathLosesState | pkg/rclone/staging.go:72-84 | One volume staged at its default path on two nodes: the first no longer finds its state |
| MountStore.MountStateManager.SaveState | pkg/rclone/mount_state.go:172-206 | The reply and the new store in all cases of create, get and update succeeding or failing |
| MountStore.MountStateManager.DeleteState | pkg/rclone/mount_state.go:254-271 | Only the named secret goes; a missing one counts as deleted |
| MountStore.MountStateManager.LoadState | pkg/rclone/mount_state.go:274-299 | Exactly the states with the node's label, each secret once, and an error exactly when the list call fails |
| Staging.StageSound | pkg/rclone/nodeserver_stage.go:107-244 | stageVolume keeps every cached entry pointing to the stored context of its path, on every error exit |
| Staging.UnstageSound | pkg/rclone/nodeserver_stage.go:249-291 | So does NodeUnstageVolume |
| Staging.PublishSound | pkg/rclone/nodeserver.go:1191-1242 | So does the staged publish with its rebuild and restage paths |
| Staging.RemountSound | pkg/rclone/nodeserver.go:1466-1591 | So does RemountState when no cached entry can lose its context |
| Staging.HandleSound | pkg/rclone/nodeserver_stage.go:62-81 | So does every stage, unstage and staged publish request, whatever the outside answers |
| Staging.RemountMovesIff | pkg/rclone/nodeserver.go:1466-1591 | A remount moves a cached volume to another path if and only if it succeeds at a path of its own that it caches |
| Staging.UnsafeRemountBreaks | pkg/rclone/nodeserver.go:1499-1512 | Otherwise some answers of the outside leave a dangling entry |
| Staging.UnmountAllCoherentIff | pkg/rclone/nodeserver.go:1420-1463 | UnmountAll keeps the cache coherent if and only if every entry with a context sits at a path that did not unmount |
| Staging.StageNeverMoves | pkg/rclone/nodeserver_stage.go:111-125 | A cached volume is never staged at a second path; the refusal touches nothing |
| Staging.StageLeavesOthers | pkg/rclone/nodeserver_stage.go:107-244 | No other volume's entry changes |
| Staging.UnstageClears | pkg/rclone/nodeserver_stage.go:265-291 | A finished unstage leaves no entry, no context, and no saved state that could be deleted |
| Staging.PublishedIsStaged | pkg/rclone/nodeserver.go:1207-1242 | A successful staged publish rests on a cached volume whose context is the stored one |
| Staging.StageLeaksIff | pkg/rclone/nodeserver_stage.go:126-244 | With stable section names, stageVolume leaves a section loaded without a context if and only if it forgets, unloaded, a context that alone holds one and ends without a new load |
| Staging.UnstageNoLeak | pkg/rclone/nodeserver_stage.go:265-291 | After an unstage every loaded section still belongs to a stored context, whether it worked or not |
| Staging.PublishNoLeak | pkg/rclone/nodeserver.go:1191-1242 | The same for every staged publish: its restage always drops the old context with its sections first |
| Staging.RemountNoLeak | pkg/rclone/nodeserver.go:1466-1591 | The same for every remount |
| StagingEffects.StageIff | pkg/rclone/nodeserver_stage.go:107-244 | A stage succeeds in exactly three ways: cached here and healthy, a healthy mount taken over, a new mount |
| StagingEffects.StageMountsEffects | pkg/rclone/nodeserver_stage.go:170-244 | A new staging mount is stored, cached and loaded, its state saved if and only if the save works, and no other key changes |
| StagingEffects.FindsEffects | pkg/rclone/nodeserver_stage.go:126-168 | A mount taken over is cached with the context stored for it; nothing is loaded or saved |
| StagingEffects.NoMountEffects | pkg/rclone/nodeserver_stage.go:107-244 | Without a new mount no state is saved or lost, and a refusal forgets at most the volume's own entry |
| StagingEffects.UnstageEffects | pkg/rclone/nodeserver_stage.go:249-291 | An unstage succeeds, refuses another path or fails exactly when it should, and drops the sections of the context at the path, or else of the cached one |
| StagingEffects.PublishIff | pkg/rclone/nodeserver.go:1191-1242 | A staged publish succeeds if and only if the volume is or can be staged and the target can be bound |
| StagingEffects.PublishEffects | pkg/rclone/nodeserver.go:1191-1242 | What each way of it leaves: nothing changed, the entry rebuilt with its own read-only flag, or all that a new stage leaves |
| StagingEffects.PublishPathIs | pkg/rclone/staging.go:90-101 | The path it works with: the given one, the cached one, the saved one, the default, in this order |
| StagingEffects.RemountIff | pkg/rclone/nodeserver.go:1466-1591 | A remount succeeds exactly if something healthy can be kept or the path can be mounted anew |
| StagingEffects.RemountEffects | pkg/rclone/nodeserver.go:1466-1591 | A new mount is stored, loaded, saved if the save works, and cached at a staging path only; an adopted one is only cached |
| StagingEffects.UnmountAllEffects | pkg/rclone/nodeserver.go:1420-1463 | UnmountAll keeps exactly the contexts that did not unmount, drops the sections of every context, and leaves cache and saved states alone |
| StagingEffects.StagingPathIff | pkg/rclone/staging.go:86-88 | A path looks like a staging path if and only if its last element is "globalmount", a slash at its end or not |
| Staging.NodeServer.StageVolume | pkg/rclone/nodeserver_stage.go:107-244 | Maps, sections, saved states and reply after staging are those of the specification the laws above are about |
| Staging.NodeServer.NodeUnstageVolume | pkg/rclone/nodeserver_stage.go:249-291 | The same for unstaging |
| Staging.NodeServer.RebuildOrRestage | pkg/rclone/staging.go:123-150 | The same for rebuilding the cache entry or staging again |
| Staging.NodeServer.NodePublishVolumeStaged | pkg/rclone/nodeserver.go:1191-1242 | The same for the staged publish, with the staging path it chooses |
| Staging.NodeServer.RemountState | pkg/rclone/nodeserver.go:1466-1591 | The same for a remount |
| Staging.NodeServer.DropContext | pkg/rclone/nodeserver_stage.go:91-98 | The context of the path is forgotten and its sections are dropped even if the unmount fails |
| Staging.NodeServer.RemountAllStates | pkg/rclone/nodeserver.go:1594-1622 | From an empty cache, in any order of states, the cache is coherent, and without failures every state's path is served again |
| Staging.NodeServer.Serve | pkg/rclone/nodeserver_stage.go:62-81 | One request: state and reply are those of the specification, and the cache stays coherent with its entries at paths of their own volumes |
| StagingRuns.RunIsSound | pkg/rclone/nodeserver_stage.go:62-125 | Over any sequence of requests the cache is coherent in every state, and a volume's cached path changes only through a state in which it is not cached |
| StagingRuns.RunServer | pkg/rclone/nodeserver.go:1594-1622 | The same for a server from its boot on, the remount of all saved states first |
| StagingRuns.SavedIff | pkg/rclone/nodeserver_stage.go:222-291 | After any requests a (volume, path) has a saved state if and only if the last save or delete that worked for it was a save, or none worked and it had one |
| StagingRuns.StagedStaysSaved | pkg/rclone/nodeserver_stage.go:222-291 | A volume staged by a new mount whose save works keeps its saved state until its unstage, whatever else is requested |
| StagingRuns.StageLeakRun | pkg/rclone/nodeserver_stage.go:126-244 | The leak is reachable: a stage, a publish and a stage that leave a section loaded without a context |
| Mountinfo.UnescapeEscape | pkg/operator/fuse_abort.go:117-132 | Unescaping undoes the kernel's octal escaping of every byte string |
| Mountinfo.BackslashMustBeEscaped | pkg/operator/fuse_abort.go:118-132 | That rests on the kernel escaping the backslash itself |
| Mountinfo.UnescapeMountinfo | pkg/operator/fuse_abort.go:118-132 | The index loop decodes exactly the escapes of a byte |
| Mountinfo.LookupPrinted | pkg/operator/fuse_abort.go:50-89 | On any printed table the lookup gives the minor of the first FUSE mount at the path, and nothing exactly when there is none |
| Mountinfo.SharedPrinted | pkg/operator/fuse_abort.go:91-115 | On any printed table the sharing test holds if and only if a FUSE mount elsewhere has that minor |
| MountinfoLines.UnescapeIff | pkg/operator/fuse_abort.go:117-132 | Any string is left as it is if and only if it holds no backslash with three octal digits of a byte |
| MountinfoLines.UnescapeFirst | pkg/operator/fuse_abort.go:117-132 | Each escape becomes its byte, whatever follows |
| MountinfoLines.LookupIff | pkg/operator/fuse_abort.go:50-89 | On any text the lookup gives the minor of the first line that shows a FUSE mount at the path with a numeric minor, and nothing exactly if there is none |
| MountinfoLines.SharingIff | pkg/operator/fuse_abort.go:91-115 | On any line the sharing test holds if and only if it shows a FUSE mount with that minor at another place |
| Mountinfo.ParseFuseConnIDFromMountinfo | pkg/operator/fuse_abort.go:52-89 | The line loop with its skips returns the first admissible line's minor |
| Mountinfo.FuseConnSharedInMountinfo | pkg/operator/fuse_abort.go:91-115 | The line loop answers whether some line shows the minor at another mount point |
| Recovery.KeyOfInjective | pkg/operator/reconciler.go:434-442 | Different owners never share a cooldown |
| Recovery.CooldownHolds | pkg/operator/reconciler.go:444-471 | Over any passes and operator restarts, two restarts of one workload are the cooldown apart within a process, and more than the cooldown less a second across processes when noted and readable |
| Recovery.MemoryStandsForHistory | pkg/operator/reconciler.go:456-471 | The pruned map answers every later query as the full restart history of the process |
| Recovery.TruncationIsVisible | pkg/operator/recovery_annotate.go:47-64 | The lost second is real: any shortfall under a second is let through after an operator restart |
| Recovery.StalePassWarranted | pkg/operator/reconciler.go:143-257 | Every table read, unmount, abort, kill and delete of a stale pass is warranted: a delete by a restartable pod, a volume of the driver, a probe that found it corrupted again and a report that was no timeout; an abort comes right after a table read that resolved the connection, the unmount, and a table read that shows it unshared, in this order |
| Recovery.AbortedServesNobody | pkg/operator/reconciler.go:202-243 | On printed tables an aborted connection served this path in the table read before the unmount and serves no other mount point in the one read after |
| Recovery.PodByUidFinds | pkg/operator/reconciler.go:137-148 | A mount counts as orphaned exactly when no listed pod has its UID, and otherwise belongs to the last listed one with it |
| Recovery.SkipIff | pkg/operator/reconciler.go:411-432 | A pod is left alone if and only if it has no controller, is in kube-system, or it or an owning DaemonSet is named like the driver |
| Recovery.ControllerIs | pkg/operator/recovery_annotate.go:37-45 | The controller is the first owner marked as one |
| RestartDecisions.StaleTurnIff | pkg/operator/reconciler.go:143-193 | In its turn a pod with a stale mount is deleted if and only if it is restartable, the volume is the driver's, its workload has rested and the mount was found corrupted again; the restart is then on record, and otherwise nothing changes |
| RestartDecisions.CsiTurnIff | pkg/operator/reconciler.go:261-290 | The same after a driver restart, without the look at the mount |
| RestartDecisions.TeardownIff | pkg/operator/reconciler.go:195-257 | With the pod gone: unmounted, aborted and killed each if and only if its option is on and its condition holds |
| RestartDecisions.OrphanAborted | pkg/operator/reconciler.go:202-243 | On printed tables the connection of an unmounted orphan is aborted if and only if it is that of the first FUSE mount at the path before and of no other place after |
| RestartDecisions.StalePassRestarts | pkg/operator/reconciler.go:143-193 | A whole stale pass deletes exactly the pods whose turn comes with a restart due, each turn seeing what the ones before left |
| RestartDecisions.StalePassTearsDown | pkg/operator/reconciler.go:143-257 | A whole stale pass unmounts, kills and aborts for exactly the mounts that no pod claims and whose conditions hold |
| RestartDecisions.CsiPassRestarts | pkg/operator/reconciler.go:261-290 | The pass after a driver restart deletes exactly the pods whose turn comes with a restart due |
| RestartDecisions.RunRestarts | pkg/operator/reconciler.go:125-290 | Over any passes and operator restarts the pods deleted are exactly those whose restart was due |
| Reconciler.Reconciler.PruneExpiredRecoveries | pkg/operator/reconciler.go:464-471 | Exactly the entries at least a cooldown old go |
| Reconciler.Reconciler.IsRateLimited | pkg/operator/reconciler.go:444-454 | Limited by memory or by a readable owner annotation, after pruning |
| Reconciler.Reconciler.AnnotateOwner | pkg/operator/recovery_annotate.go:66-116 | The owner gets the whole second if its kind is supported and the write succeeds |
| Reconciler.Reconciler.RestartPod | pkg/operator/reconciler.go:340-377 | A failed delete marks nothing; a pod already gone counts as restarted |
| Reconciler.Reconciler.MaybeLazyUmountOrphan | pkg/operator/reconciler.go:195-257 | The trace of calls on the node in every branch |
| Reconciler.Reconciler.IndexPods | pkg/operator/reconciler.go:137-141 | The map finds exactly the listed UIDs |
| Reconciler.Reconciler.ReconcileStaleMounts | pkg/operator/reconciler.go:125-193 | The loop over stale mounts is the pass whose deletions and teardowns the laws above give exactly |
| Reconciler.Reconciler.ReconcileWorkloadPodsAfterCsiRestart | pkg/operator/reconciler.go:261-290 | The loop over listed pods is the specified pass |
| Reconciler.RunOperator | pkg/operator/reconciler.go:125-290 | A chain of operator processes over one cluster keeps all restarts spaced |
| Scanner.ParseCSIMountPath | pkg/operator/scanner.go:61-91 | The elements after the last "pods" and the last CSI segment of a path ending in "mount" |
| Scanner.ParseCSIPublishMountPath | pkg/rclone/staging.go:381-402 | The driver's parser gives the same answer on every path |
| Scanner.ParseIff | pkg/operator/scanner.go:59-91 | Any path tells a pod and a volume if and only if, cleaned, it ends in "mount" and they follow the last "pods" and the last "kubernetes.io~csi" |
| Scanner.ParseKubeletIff | pkg/operator/scanner.go:59-91 | A publish path names its own pod and volume if and only if neither is spelled like the layout in a way that hides it |
| Scanner.CheckMountDir | pkg/operator/scanner.go:108-142 | Parsed, owned by the driver and corrupted, or nothing |
| Scanner.ReportIff | pkg/operator/scanner.go:108-142 | A mount directory is reported if and only if its path tells pod and volume, the mount is the driver's and it probes as corrupted, with that reason |
| Scanner.Walk | pkg/operator/scanner.go:95-150 | The walk with its skips returns the reported mounts and the directories it listed |
| Scanner.ScanExact | pkg/operator/scanner.go:95-150 | A scan returns exactly the reportable mount directories that are not inside another one |
| Scanner.ScanOnce | pkg/operator/scanner.go:95-150 | Each stale mount is reported once |
| Scanner.NeverInsideMount | pkg/operator/scanner.go:104-108 | No directory named "mount", and nothing below one, is ever listed |
| Scanner.AllElseListed | pkg/operator/scanner.go:95-150 | And every other directory is |
| Scanner.VolumeReportedIff | pkg/operator/scanner.go:95-150 | On kubelet's tree a volume is reported under its own names if and only if it is eligible and corrupted and neither name is a reserved one |
| Paths.PlainPath | pkg/operator/scanner.go:62-63 | Cleaning leaves an absolute path of plain elements alone |
| Paths.DotsDropped | pkg/operator/scanner.go:62-63 | Empty elements and "." make no difference to a cleaned path |
| Paths.ParentTakesBack | pkg/operator/scanner.go:62-63 | ".." takes the plain element before it back |
| Paths.RootIsTop | pkg/operator/scanner.go:62-63 | ".." at the root is dropped |
| Paths.RelativeIsClean | pkg/operator/scanner.go:62-63 | A relative path keeps its leading ".." elements, and the empty path becomes "." |
| MountProbe.SlotsAreProbes | pkg/rclone/mount_health.go:53-56 | In every schedule the slots in use are the unfinished probes, never more than one |
| MountProbe.ProbeNeverBlocks | pkg/rclone/mount_health.go:77-82 | A probe can always deliver its result and free its slot, even after its caller left |
| MountProbe.CallerNeverBlocks | pkg/rclone/mount_health.go:64-90 | A timed call can always stop waiting, can take the slot exactly when no probe is unfinished, and its result as soon as it is delivered |
| MountProbe.FreedOnce | pkg/rclone/mount_health.go:78-82 | Each slot is freed once, by its own probe, at its end |
| MountProbe.AnswersAreHonest | pkg/rclone/mount_health.go:58-90 | What a call answers goes back to its own events: "corrupted" if and only if its own probe said so or it was given no result in time; without a slot no probe ran for it and the answer is "not corrupted"; without a positive timeout it probes itself and answers what it saw |
| MountProbe.HungProbeBlocksOthers | pkg/rclone/mount_health.go:66-71 | While one probe hangs no later call gets the slot: a timed one waits or ends unavailable |
| CsiTracker.CsiNodeTracker.NewestPod | pkg/operator/csi_watch.go:157-174 | The most recently created pod, the first listed of equals |
| CsiTracker.ObservedIff | pkg/operator/csi_watch.go:157-174 | A check sees a UID if and only if it is that of the pod created last, the first listed of several; a failed list call and an empty list show none |
| CsiTracker.CsiNodeTracker.CheckRestarted | pkg/operator/csi_watch.go:72-98 | The three fields and the answer after a check |
| CsiTracker.CsiNodeTracker.AcknowledgeRestart | pkg/operator/csi_watch.go:101-107 | The pending UID, if any, becomes the last one |
| CsiTracker.CsiNodeTracker.OnCsi | cmd/volume-recovery-operator/main.go:133-153 | Acknowledged only after report, wait and recovery |
| CsiTracker.TrackerFollows | pkg/operator/csi_watch.go:72-107 | The three fields stand for one settled UID, and what is pending is never it |
| CsiTracker.ReportsIff | pkg/operator/csi_watch.go:83-98 | After seeding a check reports if and only if the newest UID is not the one settled last |
| CsiTracker.ReportedUntilRecovered | cmd/volume-recovery-operator/main.go:133-153 | A new UID is reported by every round until the first that recovers it, and by none after |
| CsiTracker.OnlyReportedIsAcknowledged | pkg/operator/csi_watch.go:72-107 | However checks and acknowledgements interleave, the compared UID is the seed or was reported and acknowledged, and a pending one was reported and differs |
| CsiTracker.PendingIff | pkg/operator/csi_watch.go:72-107 | An acknowledgement would settle a UID if and only if it was the last to be reported, and after the last acknowledgement |
| CsiTracker.LateUidReported | pkg/operator/csi_watch.go:100-107 | A UID that appears between report and acknowledgement is reported next |

## Left out

- The goconfig features the serializer never emits: comments, continuation lines, quoting, interpolation and the DEFAULT section.
- Non-ASCII white space and case folding in `strings.Fields`, `strings.ToLower` and `strings.EqualFold`.
- Backend parameters that `loadRcloneConfig` adds with `UpdateRemote`, and config generation from a remote type: calls into rclone; the generated text enters as config data.
- Merging secrets, volume context and mount group into the volume parameters: Remount starts from the merged ones.
- The rclone mount itself, its options and `handleRcloneDaemon`: a mount succeeds, fails or hangs; one that fails after coming up is not modelled.
- MountLifecycle is a state machine on values because its actors interleave; the handlers are not written as methods, and the unmount goroutine left behind by a graceful unmount that ran out of time is not an actor.
- Whether the mount check and the health probe tell the truth: their answers are free, except that an empty mount table row set is needed for "not mounted" in MountLifecycle.
- MountOutcomes.HonestIff: like all results on planned runs, for runs in which every target path belongs to one volume, as kubelet lays them out; the locks are per pair and do not enforce it.
- MountRecords.LastWritesDecide: like the other results on saved states and on sections kept, for volume ids without '/' and absolute target paths, which keep the lock keys of different pairs apart. The results of MountSafety and MountProgress have no such condition.
- MountSections.QuietSections: for volumes whose section names do not change between loads and for loads that do not fail part-way; `MountSections.PartialLoadIff` says what a load cut short leaks.
- MountProgress.CanRelease: a mount call that never returns keeps its reaper, and with it the key, waiting; the run has it return.
- Remount.PublishDirect: what is loaded under a prefix that `MakeConfigName` changes, or from a config whose section names have a colon, is left open, as in Remount.RemountState; the mount itself and what can fail in it are in MountLifecycle.
- StagingRuns.RunIsSound: requests run one after another; the per-volume locks of staging mode are not interleaved, and UnmountAll racing with requests is not modelled.
- Recovery.CooldownHolds: for passes run one after another; the check and the mark are separate critical sections, so the two operator loops could interleave between them. Annotations are changed by the operator only.
- The text of RFC 3339 times and of JSON documents.
- `refreshPublishBindsForVolume`, which only tests call, and the replacement-pod annotation.
- Scanner.Walk: directories that cannot be read appear as directories without the unreadable entries, and no symbolic link is followed.
- Mountinfo.LookupPrinted: for rows without white space other than the escaped one, without a field that is a lone hyphen, and with 20-bit minor numbers.
- gRPC plumbing, controller and identity servers, metrics, flags, Kubernetes client retries and events.
