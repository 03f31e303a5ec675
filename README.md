# Scene session of the noclip viewer, in Dafny

This project models the part of the noclip browser viewer that decides which
scene is loaded and what state it is in. It covers:

- **The scene registry** (`SceneDatabase`). It files every scene descriptor of
  every scene group under the canonical id `<group id>/<descriptor id>`. It also
  files a group's aliases, and refuses an alias whose target is not registered
  yet.
- **The share string** `<scene id>;<save state>`. The viewer keeps it in the URL
  hash. Decoding splits it at the first `;`.
- **The save-state codec.** The writer lays out an options byte, the camera
  and the scene's own bytes in a 512-byte scratch buffer, and returns
  `ShareData=<Ascii85>`. The readers for versions 2 and 3 are chosen by prefix.
  The version-3 reader throws on a non-zero options byte.
- **The `Main` controller** as a class whose fields its methods update in
  place:
  - loading a scene descriptor: teardown of the old scene, cache pruning, the
    build, and the completion guard that drops builds whose descriptor is no
    longer loading;
  - the restore chain after a scene change: the state string, then save slot 1,
    then the scene's default camera matrix, then identity;
  - the initial load from the hash, which prefers save slot 0;
  - the save-slot actions and the keyboard shortcuts;
  - play/mute switches, the frame-step time scale, and auto-save with its
    two-second URL throttle.
- **The Source-engine scene descriptors.** For each title: the cache key of its
  file system, the VPK packages it mounts in order, and its map paths.
- **The "Tuesday Manifest" scene group**: its 16 descriptors under 6 section
  headers, and what registering it yields.

Module layout, one file each:

| module | models |
|---|---|
| `SceneBase` | descriptors, groups and headers |
| `SourceDescs` | the per-title descriptors |
| `TuesdayManifest` | the group list |
| `ManifestRegistration` | registering that group |
| `HashString` | share strings |
| `SceneDatabase` | the registry, as functions and as a class |
| `SaveState` | the codec, as functions and as a class over the scratch `array` |
| `SessionRules` | one pure step function per controller operation |
| `Session` | the `Main` class, each method proved to leave the state its step function gives |
| `SessionProperties` | what the controller promises, proved about the step functions |

The controller's calls into the renderer, the fetcher, the cache and the
history API are recorded as `Event`s in a `log`, in call order. Calls that
only update the UI are not recorded; "## Left out" lists them.

Two behaviours of the code worth noting:

- The version-3 reader's options-byte assertion throws, and the throw ends the
  restore chain. It does not just report "no state".
- The restore chain after a scene change tries the state string, then save
  slot 1. Save slot 0 is read only by the initial load from the hash.

## Model

| member | source | states |
|---|---|---|
| SceneDatabase.SceneDatabase.constructor | src/main.ts:84-102 | the tables are those of registering every group of the list in order (descriptors, then aliases); headers are skipped |
| SceneDatabase.SceneDatabase.AddSceneDescTo | src/main.ts:120-129 | the three tables become those of `AddSceneDesc`, and `onchanged` is called once exactly when it is installed |
| SceneDatabase.SceneDatabase.SetOnChanged | src/main.ts:82 | installs or removes the change callback |
| SceneDatabase.SceneDatabase.GetSceneDescForId | src/main.ts:116-118 | the registered descriptor for an id, or none, as the id table says |
| SceneDatabase.SceneDescForId | src/main.ts:116-118 | a descriptor is returned exactly when the id is registered, and it is the one registered |
| SceneDatabase.AddSceneDescEffect | src/main.ts:120-126 | after `addSceneDesc` the canonical id names the descriptor both ways and files it under its group; every other id lookup is unchanged |
| SceneDatabase.AddEntriesRegistersDescs | src/main.ts:89-91 | registering a prefix of a group's list adds exactly its descriptors (not its header strings) to the descriptor-to-id table |
| SceneDatabase.AddEntriesConsistent | src/main.ts:89-91 | adding descriptors keeps the descriptor-to-id and descriptor-to-group tables on the same descriptors, each id canonical |
| SceneDatabase.AliasesKeepReverseTables | src/main.ts:93-100 | aliases only add ids: both descriptor tables are untouched and no id is removed |
| SceneDatabase.AliasToMissingTargetFails | src/main.ts:97 | an alias whose target is not yet registered makes construction fail |
| SceneDatabase.AliasesAddNoDescriptor | src/main.ts:93-100 | after the aliases, every id names a descriptor that some id named before |
| SceneDatabase.AliasesChangeOnlyAlts | src/main.ts:93-100 | an id that is none of the group's alias ids names what it named before the aliases |
| SceneDatabase.AliasesResolveToTargets | src/main.ts:93-100 | with distinct alias names that are not targets, every alias id names the descriptor its target id names, and every target is registered |
| SceneDatabase.AliasResolvesWhenProcessed | src/main.ts:93-100 | an alias whose pair is the last for its name names the descriptor its target id named when the pair was processed, and that target was registered |
| SceneDatabase.AddGroupsNamesFiled | src/main.ts:84-102 | in the built registry every id, alias or canonical, names a descriptor filed under a group |
| SceneDatabase.AddGroupsConsistent | src/main.ts:84-102 | building the registry from any group list keeps the tables consistent |
| SceneDatabase.AddGroupsPrefix | src/main.ts:84-102 | if a whole group list registers, so does each prefix of it |
| HashString.IndexOf | src/main.ts:273 | the first position of the character, or -1 exactly when it does not occur |
| HashString.DecodeSplitsAtFirstSemicolon | src/main.ts:271-282 | the id has no `;`; with a `;` the text is exactly id, `;`, state; without one it is all id and the state is empty |
| HashString.DecodeHash | src/main.ts:284-291 | a hash that does not start with `#` decodes to two empty strings |
| HashString.ShareStringRoundTrip | src/main.ts:557 | a share string decodes back to its id and state whenever the id has no `;` |
| HashString.ShareStringSplitsInsideId | src/main.ts:271-282 | an id with a `;` does not survive the round trip |
| SaveState.SaveStateBuffer.constructor | src/main.ts:433-434 | a fresh 512-byte zeroed scratch buffer |
| SaveState.SaveStateBuffer.WriteAt | src/main.ts:440-447 | the buffer afterwards is the old one with the bytes written from the offset, the rest untouched |
| SaveState.SaveStateBuffer.GetSceneSaveState | src/main.ts:436-451 | writes options byte 0, the camera and the scene bytes from offset 0 and returns `ShareData=` plus their Ascii85 text |
| SaveState.SaveStateBuffer.LoadVersion2 | src/main.ts:453-467 | buffer and result are what the version-2 reader gives: 4 time bytes, the camera, then the scene's offset and length |
| SaveState.SaveStateBuffer.LoadVersion3 | src/main.ts:469-485 | likewise for version 3; none where the options byte is not 0 |
| SaveState.SaveStateBuffer.LoadSceneSaveState | src/main.ts:487-513 | buffer and outcome are those of `LoadSaveState`: declined, applied or thrown |
| SaveState.V2MarkersLength | src/main.ts:489 | a text with both version-2 markers has at least six characters, so slicing off both is well defined |
| SaveState.RouteVersion2 | src/main.ts:489-490 | `ZNCA8…=` goes to the version-2 reader with both markers stripped |
| SaveState.RouteVersion3 | src/main.ts:493-494 | a leading `A` goes to the version-3 reader with one character stripped |
| SaveState.RouteShareData | src/main.ts:496-497 | `ShareData=` goes to the version-3 reader with ten characters stripped |
| SaveState.RouteVersion2NeedsSuffix | src/main.ts:489-499 | `ZNCA8` without a trailing `=` is not recognised |
| SaveState.EmptyStateDeclined | src/main.ts:503-504 | empty or absent text is declined and the buffer is untouched |
| SaveState.UnrecognisedDeclined | src/main.ts:499 | unrecognised text is declined and the buffer is untouched |
| SaveState.NonZeroOptionsThrows | src/main.ts:473-474 | a version-3 payload whose first byte is not 0 throws, in both prefixes |
| SaveState.SaveStateRoundTrip | src/main.ts:436-485 | the writer's share form, read back by the readers, yields the camera as stored, the scene bytes at offset 1 + camera size, and leaves the buffer as written |
| SessionRules.SetPlaying | src/main.ts:251-261 | `isPlaying` becomes `v`; nothing at all happens when it already was `v`; otherwise one call out is appended |
| SessionRules.SetMuted | src/main.ts:263-269 | the same for `isMuted` |
| SessionRules.SaveCurrent | src/main.ts:549-558 | saving touches neither the scene, the camera, the throttle time nor the calls out |
| SessionRules.LoadState | src/main.ts:502-513 | when the state is not loaded, nothing but the scratch buffer changes |
| SessionRules.DestroyEvents | src/main.ts:664-665 | one `destroy` call per pool item, in index order |
| SessionRules.PrepareScene | src/main.ts:595-604 | the current and loading descriptors and the buffer are unchanged |
| SessionRules.PlaybackKeys | src/main.ts:344-349 | the current and loading descriptors and the buffer are unchanged |
| SessionRules.DigitShortcuts | src/main.ts:332-340 | the digit keys keep the loaded scene, whatever they do to slots and camera |
| Session.Main.constructor | src/main.ts:142-160 | paused, muted, time scale 1, URL never updated, no scene, empty pool |
| Session.Main.SetIsPlaying | src/main.ts:251-261 | the fields afterwards are those `SetPlaying` gives |
| Session.Main.SetIsMuted | src/main.ts:263-269 | the fields afterwards are those `SetMuted` gives |
| Session.Main.GetSceneSaveState | src/main.ts:436-451 | the string and the new buffer are those the writer gives for the current camera and scene |
| Session.Main.SaveCurrentState | src/main.ts:549-558 | slot 0 of the current id gets the state and the share string becomes `id;state` |
| Session.Main.UpdateURLThrottled | src/main.ts:560-574 | the URL is replaced and the throttle restarted when forced or two seconds have passed, otherwise nothing changes |
| Session.Main.AutoSaveState | src/main.ts:545-575 | both halves when a scene is current; nothing otherwise |
| Session.Main.ApplyDecodedState | src/main.ts:457-464 | time (version 2), camera, the scene's bytes, then the controller's forced update |
| Session.Main.LoadSceneSaveState | src/main.ts:502-513 | the outcome and new state of `LoadState`, which forces a URL update after a load |
| Session.Main.StashViewerScene | src/main.ts:657-663 | the fetch is aborted, the live scene joins the pool unless already in it, the viewer is cleared |
| Session.Main.DestroyAll | src/main.ts:664-666 | every pool item is destroyed in index order and the pool is emptied |
| Session.Main.TearDown | src/main.ts:657-666 | both halves of the teardown, in order |
| Session.Main.LoadSceneDesc | src/main.ts:649-727 | the state and build that `LoadSceneDesc` gives: a restore only for the current descriptor without `force`, otherwise teardown and a new build |
| Session.Main.StartBuild | src/main.ts:668-714 | group lookup, current descriptor, fetcher reset, prune with delta 1, new scene, loading descriptor, build; a refused build throws |
| Session.Main.RegisterDestroyable | src/main.ts:684-693 | a pending build, current or superseded, pushes into the controller's one pool; nothing else changes |
| Session.Main.PrepareForScene | src/main.ts:595-604 | time plays; the scene's controller, else the one set, else a new FPS controller |
| Session.Main.RestoreFromFallback | src/main.ts:610-622 | save slot 1, else the scene's default matrix, else identity |
| Session.Main.RestoreSceneState | src/main.ts:609-623 | the state string first, the fallback only when it is declined |
| Session.Main.OnSceneChanged | src/main.ts:585-627 | prepare, restore, then a forced auto-save unless the restore threw |
| Session.Main.OnBuildResolved | src/main.ts:716-723 | a build is installed only while its descriptor is still loading |
| Session.Main.InstallBuiltScene | src/main.ts:718-720 | progress done, nothing loading, the viewer shows the built scene |
| Session.Main.LoadInitialStateFromHash | src/main.ts:300-309 | a registered id loads its descriptor with save slot 0 if present, else the hash's state |
| Session.Main.OnHashChange | src/main.ts:293-298 | a registered id loads its descriptor with the hash's state |
| Session.Main.DoSaveStatesAction | src/main.ts:633-645 | save writes the slot, delete removes it, load and load-default restore from the slot or the defaults |
| Session.Main.CheckDigitShortcut | src/main.ts:333-339 | a triggered digit with a scene loaded runs the chosen action on that slot |
| Session.Main.CheckDigitShortcuts | src/main.ts:332-340 | digits 1 to 9 in order, stopping at the first throw |
| Session.Main.CheckKeyShortcuts | src/main.ts:326-352 | the digits, then Period, Comma and F9, in source order |
| Session.Main.CheckPlaybackShortcuts | src/main.ts:344-349 | Period toggles play; Comma pauses and requests a frame step |
| Session.Main.ReloadScene | src/main.ts:350-351 | F9 reloads the current descriptor, forced, with its freshly written state |
| Session.Main.PostAnimFrameUpdate | src/main.ts:377-402 | the shortcuts, then the frame's time scale |
| Session.Main.AdvanceTimeScale | src/main.ts:385-396 | a frame step is consumed; the scale goes to the viewer unless it is externally driven |
| Session.DigitShortcutsStopAtThrow | src/main.ts:332-340 | once a digit's action throws, the later digits are not reached |
| SessionProperties.DestroyCounts | src/main.ts:664-665 | each item gets as many `destroy` calls as it occurs in the pool |
| SessionProperties.TeardownEmptiesPool | src/main.ts:657-666 | teardown aborts the fetch, clears the viewer, destroys every pool item in index order, and leaves the pool empty |
| SessionProperties.TeardownDestroysSceneOnce | src/main.ts:661-662 | the live scene is destroyed once when the pool did not hold it |
| SessionProperties.AutoSaveEvents | src/main.ts:545-575 | auto-save only appends calls out, and only restore-kind ones |
| SessionProperties.ApplyDecodedEvents | src/main.ts:457-464 | applying a decoded state only appends restore-kind calls |
| SessionProperties.RestoreEventsChain | src/main.ts:502-513 | two runs of restore-kind calls in a row are one such run |
| SessionProperties.LoadStateEvents | src/main.ts:502-513 | loading a state only appends restore-kind calls |
| SessionProperties.SameDescriptorOnlyRestores | src/main.ts:650-653 | the current descriptor without `force`: no teardown, no prune, no build, only restore calls |
| SessionProperties.NewDescriptorStartsBuild | src/main.ts:656-709 | any other request tears down, makes the descriptor current and loading, prunes before the new scene and starts its build with the state string |
| SessionProperties.UnregisteredDescriptorThrows | src/main.ts:668-672 | a descriptor without a group throws after the teardown |
| SessionProperties.NullBuildThrows | src/main.ts:711-714 | a refused build throws with the descriptor current and loading |
| SessionProperties.CurrentBuildInstalled | src/main.ts:716-721 | a build still loading is installed: scene shown, loading cleared, time playing, a controller set |
| SessionProperties.RequestOwnsLoading | src/main.ts:656-717 | after a request for a registered descriptor, no other descriptor is loading |
| SessionProperties.OnlyLastRequestInstalls | src/main.ts:708-723 | after any run of requests ending with a registered descriptor, a resolving build of any other descriptor is dropped without effect |
| SessionProperties.RequestsABA | src/main.ts:708-723 | for requests A, B, A the first A build is installed with the first request's state string; the later A build and B's are dropped |
| SessionProperties.SupersededBuildPoolDestroyed | src/main.ts:661-717 | after requests A then B, what A's superseded build pushes into the pool is destroyed exactly once by the next request's teardown, though A is never installed |
| SessionProperties.OnSceneChangedKeepsScene | src/main.ts:585-627 | restoring state keeps the scene, the pool and the loading descriptor, and plays |
| SessionProperties.RestoreFromStateString | src/main.ts:609 | a state string that loads decides the camera; slot 1 is not read |
| SessionProperties.RestoreFromSlotOne | src/main.ts:612-613 | otherwise save slot 1 decides the camera |
| SessionProperties.RestoreFallback | src/main.ts:615-620 | with neither, the camera is the scene's default matrix or identity |
| SessionProperties.RestoreAbortsOnThrow | src/main.ts:474 | a throwing state string ends the chain with the camera unchanged |
| SessionProperties.EmptyOrUnrecognisedKeepsBuffer | src/main.ts:502-513 | a declined state leaves the scratch buffer as it was |
| SessionProperties.InitialLoadCarriesState | src/main.ts:300-309 | an unknown id changes nothing; a known id starts its build with slot 0's state when filled, else the hash's state |
| SessionProperties.HashChangeCarriesHashState | src/main.ts:293-298 | an unknown id changes nothing; a known id starts its build with the hash's state |
| SessionProperties.ShareDataDecodes | src/main.ts:436-497 | from any scratch buffer, the writer's share form decodes to the stored camera, and the scene block read back is exactly the scene's bytes |
| SessionProperties.SaveThenLoadRestoresCamera | src/main.ts:633-640 | saving a slot and later loading it brings the camera back as stored, whatever happened between |
| SessionProperties.DeleteThenLoadDeclines | src/main.ts:636-640 | after a delete, loading the slot changes nothing |
| SessionProperties.DigitKeyActsOnSlot | src/main.ts:317-340 | with a scene loaded, Shift+digit n stores the state in slot n of the scene's id, Alt+digit n deletes it, a plain digit on an empty slot does nothing |
| SessionProperties.DigitSaveThenLoad | src/main.ts:317-340 | Shift+digit n, then later digit n, brings the camera back as stored |
| SessionProperties.AutoSaveShareString | src/main.ts:549-557 | slot 0 holds the state, and the share string decodes back to the scene's id and that state |
| SessionProperties.ForcedUpdateReplacesURL | src/main.ts:560-574 | a forced call always replaces the URL and restarts the throttle |
| SessionProperties.ThrottleQuietWindow | src/main.ts:560-574 | unforced calls within two seconds of an update never replace the URL |
| SessionProperties.ThrottleReopens | src/main.ts:565-573 | after two seconds an unforced call replaces the URL again |
| SessionProperties.SwitchesIdempotent | src/main.ts:251-269 | setting play or mute twice to a value is setting it once |
| SessionProperties.FrameWithoutKeys | src/main.ts:377-396 | a frame with no keys consumes the frame step, changes nothing else, and hands the viewer a quarter scale for a step, the scale while playing, 0 while paused, unless externally driven |
| SessionProperties.FrameStepThenPause | src/main.ts:346-349 | holding Comma pauses and steps once at a quarter; the next frame is still |
| SessionProperties.NoDigitsNoChange | src/main.ts:332-340 | with no digit triggered the digit loop changes nothing |
| SourceDescs.NewSceneDesc | src/SourceEngine/Scenes_SourceDescs.ts:12 | title and id as given, and the explicit name when one is given |
| SourceDescs.NameDefaultsToId | src/SourceEngine/Scenes_SourceDescs.ts:12 | a descriptor built without a name is named by its id |
| SourceDescs.PlanOf | src/SourceEngine/Scenes_SourceDescs.ts:184-197 | only the Garry's Mod descriptor leaves mounting to another module |
| SourceDescs.CacheKeysDistinct | src/SourceEngine/Scenes_SourceDescs.ts:16-191 | two titles share a cached file system exactly when they are the same title |
| SourceDescs.TF2AndCGEShareMountList | src/SourceEngine/Scenes_SourceDescs.ts:19-54 | TF2 and CGE mount the same eight packages, four TF2 ones then the HL2 base, under different keys |
| SourceDescs.MountListsFromHL2Base | src/SourceEngine/Scenes_SourceDescs.ts:77-175 | HL2, Episode 2, CS:S, DoD and CS:GO mount lists as built around the HL2 base packages, in order |
| SourceDescs.MountPathsWellFormed | src/SourceEngine/Scenes_SourceDescs.ts:8-175 | every mount lies under `paks/` and no list mounts a package twice |
| SourceDescs.MapPathInjective | src/SourceEngine/Scenes_SourceDescs.ts:33-196 | for every title, the map path determines the map id |
| SourceDescs.MapPathIsBsp | src/SourceEngine/Scenes_SourceDescs.ts:33-196 | every map path names a `.bsp` file |
| TuesdayManifest.SplitEntries | src/SourceEngine/Scenes_TuesdayManifest.ts:12-42 | without headers the list is the 16 descriptors in order; without descriptors it is the 6 headers in order |
| TuesdayManifest.GroupIdentity | src/SourceEngine/Scenes_TuesdayManifest.ts:10-44 | id `TuesdayManifest`, name `Tuesday Manifest`, no alias map |
| TuesdayManifest.Contents | src/SourceEngine/Scenes_TuesdayManifest.ts:12-42 | 22 entries, 16 descriptors and 6 headers, ending with the empty "Source Filmmaker" section |
| TuesdayManifest.IdsUnique | src/SourceEngine/Scenes_TuesdayManifest.ts:14-37 | the 16 descriptor ids are pairwise distinct |
| TuesdayManifest.PerTitleCounts | src/SourceEngine/Scenes_TuesdayManifest.ts:13-37 | 9 TF2, 1 HL2, 2 Episode 2, 3 CS:GO and 1 DoD descriptor, in that order |
| TuesdayManifest.AllExplicitlyNamed | src/SourceEngine/Scenes_TuesdayManifest.ts:14-37 | every descriptor has a display name different from its id |
| TuesdayManifest.NoSemicolonInIds | src/SourceEngine/Scenes_TuesdayManifest.ts:10-37 | neither the group id nor any descriptor id contains `;` |
| ManifestRegistration.SceneDescIdDistinct | src/main.ts:104-106 | distinct descriptor ids give distinct canonical ids within a group |
| ManifestRegistration.RegisterDistinct | src/main.ts:89-91 | a group with distinct ids registers each descriptor under its canonical id both ways, and overwrites nothing |
| ManifestRegistration.RegisterGroupWithoutAliases | src/main.ts:84-102 | such a group without an alias map registers one `;`-free id per descriptor |
| ManifestRegistration.TuesdayRegistration | src/main.ts:84-102 | registering the Tuesday Manifest gives 16 ids `TuesdayManifest/<id>`, each naming its descriptor |
| ManifestRegistration.TuesdayShareStringsRoundTrip | src/main.ts:557 | every Tuesday Manifest share string decodes back to its id and state |

## Left out

- The Ascii85 text codec and the camera serializer are parameters (`Collaborators`). The model assumes only what it needs from them: a fixed camera size, decoded lengths within the 512-byte buffer and, where stated, that decoding the text gives back the bytes (`TextRoundTrips`).
- SaveState.SaveStateRoundTrip: the camera comes back as `StoredCamera`, what the reader makes of the writer's bytes, not the original matrix. The camera is stored as 32-bit floats, so the source does not promise equality either.
- The renderer, data fetcher, data share cache, history API, UI, WebXR, screenshots, drag-and-drop and dropped-file groups are outside the model. Calls into the first four are recorded as `Event`s.
- Calls that only update the UI are not recorded: `ui.destroyScene` (src/main.ts:660), `sceneSelect.setCurrentDesc` and `setProgress(0)` (675, 677), the play/pause and mute buttons (257, 268), `ui.setScenePanels` and `ui.sceneChanged` (593, 626), `inputManager.reset` (686) and the `loadNewScene` window event (706).
- The scene's `onstatechanged` callback (src/main.ts:586-588), which saves the state when the scene reports a change, is not modelled.
- The destroyable pool is one `seq` field. The source hands the same array to every build's context and empties it in place; the model has every build push into the controller's field (`RegisterDestroyable`), which is the same sharing. Builds do not hold a separate reference.
- `decodeURIComponent` is not modelled. `DecodeHash` takes the hash text after `#` as already decoded.
- Asynchrony: a build's completion is an explicit `OnBuildResolved` step with the scene it produced. A null promise is the flag `promiseIsNull`.
- `createScene` of the Source-engine scene module (`Scenes.ts`) and the Garry's Mod kitchen-sink file system are not part of this model. `PlanOf` records only what is requested of them.
- Clocks: one `env` serves a whole step. Every auto-save in it reads the same time (`env.now`) and the same scene bytes (`env.sceneBytes`). `_onSceneChanged` can auto-save up to three times, including after the scene's `deserializeSaveState`, and the source reads the clock and the scene anew each time.
- Descriptor and scene identity: JavaScript compares descriptors by object identity, the model by value. Distinct descriptors with equal fields are not distinguished.
- SceneDatabase.SceneDatabase.constructor: its precondition excludes the failed `assertExists` for a missing alias target (src/main.ts:97). That failure is modelled only as `AddAliases` returning `None` (`AliasToMissingTargetFails`).
- Session.Main.constructor: the source builds `Main` with the global group list and save manager. Here the registry and the saved states are given.
- The save manager is a map of slots plus a map of default states. Session and local storage are not distinguished, and export and `setCurrentSceneDescId` are not modelled.
- SessionProperties.DigitKeyActsOnSlot: the save manager's code is not part of this model. Its `loadState` (src/main.ts:305, 612, 639) is modelled as a lookup in the saved slots only; any fallback to the default states is not modelled. This assumption underlies the `Load` case of `DoSaveStatesAction`, the slot-1 step of `RestoreFallback`, the slot-0 step of `LoadInitialStateFromHash`, `DeleteThenLoadDeclines`, and the empty-slot clause of `DigitKeyActsOnSlot`.
- The development-only time state (`IS_DEVELOPMENT`) is left out: no time state is loaded or saved.
- Hiding and unhiding of scene groups, the window title and scene panels are left out.
- The scene's own serializer is a parameter (`env.sceneBytes`). It is required to fit the 512-byte buffer after the options byte and the camera (`Fits`); the source would overflow.
- The keys Z, T, Numpad3 and the screenshot keys are UI-only and are left out.
- The registry's `Trusted` invariant uses only the key-set part of consistency: both descriptor tables hold the same descriptors.
