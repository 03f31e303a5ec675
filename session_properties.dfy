/**
 * Properties of the scene session: teardown, the short-circuit for the
 * descriptor already loaded, the completion guard (including the A, B, A
 * request sequence), the restore chain, save slots, the URL throttle and
 * the frame-step time scale.
 */
module SessionProperties {
  import opened Wrappers
  import opened SceneBase
  import opened SaveState
  import opened SceneDatabase
  import opened HashString
  import opened SessionRules

  // ---------------------------------------------------------------------
  // Teardown
  // ---------------------------------------------------------------------

  /** Each item is destroyed as many times as it occurs in the list destroyed. */
  lemma {:induction false} DestroyCounts(items: seq<Destroyable>, x: Destroyable)
    ensures multiset(DestroyEvents(items))[Destroyed(x)] == multiset(items)[x]
    decreases |items|
  {
    if items != [] {
      var front := items[..|items| - 1];
      DestroyCounts(front, x);
      assert items == front + [items[|items| - 1]];
      assert DestroyEvents(items) == DestroyEvents(front) + [Destroyed(items[|items| - 1])];
    }
  }

  /**
   * Teardown leaves the pool empty and the viewer without a scene, after
   * aborting the fetch, clearing the viewer and destroying every pool item
   * in index order.
   */
  lemma TeardownEmptiesPool(st: State)
    ensures var r := Teardown(st);
      && r.pool == [] && r.scene.None?
      && |r.log| == |st.log| + 2 + |PoolWithScene(st)|
      && r.log[..|st.log| + 2] == st.log + [FetchAborted, ViewerSceneSet(None)]
      && (forall i :: 0 <= i < |st.pool| ==> r.log[|st.log| + 2 + i] == Destroyed(st.pool[i]))
  {
    var r := Teardown(st);
    var d := DestroyEvents(PoolWithScene(st));
    assert r.log == st.log + [FetchAborted, ViewerSceneSet(None)] + d;
    forall i | 0 <= i < |st.pool| ensures r.log[|st.log| + 2 + i] == Destroyed(st.pool[i]) {
      assert PoolWithScene(st)[i] == st.pool[i];
      assert r.log[|st.log| + 2 + i] == d[i];
    }
  }

  /** The live scene is destroyed once if the pool did not hold it, and otherwise as often as the pool holds it. */
  lemma TeardownDestroysSceneOnce(st: State)
    requires st.scene.Some?
    ensures var x := SceneObject(st.scene.value);
      multiset(Teardown(st).log[|st.log| + 2..])[Destroyed(x)] == (if x in st.pool then multiset(st.pool)[x] else 1)
  {
    var x := SceneObject(st.scene.value);
    assert Teardown(st).log[|st.log| + 2..] == DestroyEvents(PoolWithScene(st));
    DestroyCounts(PoolWithScene(st), x);
    if x !in st.pool {
      assert multiset(st.pool + [x])[x] == multiset(st.pool)[x] + 1;
    }
  }

  // ---------------------------------------------------------------------
  // Loading a descriptor
  // ---------------------------------------------------------------------

  /** The only calls restoring a save state makes: time, scene bytes, controller, URL. */
  predicate RestoreEventsOnly(events: seq<Event>)
  {
    forall e :: e in events ==> e.SceneTimeSet? || e.SceneStateOffered? || e.CameraUpdateForced? || e.URLReplaced?
  }

  lemma AutoSaveEvents(c: Context, st: State, env: Env, force: bool)
    requires Wf(c, st) && Fits(c, env)
    ensures var r := AutoSave(c, st, env, force);
      |st.log| <= |r.log| && r.log[..|st.log|] == st.log && RestoreEventsOnly(r.log[|st.log|..])
  {
    var r := AutoSave(c, st, env, force);
    assert r.log == st.log || r.log == st.log + [r.log[|r.log| - 1]];
  }

  lemma ApplyDecodedEvents(st: State, d: Decoded)
    ensures var r := ApplyDecoded(st, d);
      |st.log| <= |r.log| && r.log[..|st.log|] == st.log && RestoreEventsOnly(r.log[|st.log|..])
  {
  }

  /** Two runs of restore events in a row are one. */
  lemma RestoreEventsChain(a: seq<Event>, b: seq<Event>, c: seq<Event>)
    requires |a| <= |b| && b[..|a|] == a && RestoreEventsOnly(b[|a|..])
    requires |b| <= |c| && c[..|b|] == b && RestoreEventsOnly(c[|b|..])
    ensures |a| <= |c| && c[..|a|] == a && RestoreEventsOnly(c[|a|..])
  {
    forall e | e in c[|a|..]
      ensures e.SceneTimeSet? || e.SceneStateOffered? || e.CameraUpdateForced? || e.URLReplaced?
    {
      var k :| |a| <= k < |c| && c[k] == e;
      if k < |b| {
        assert b[k] in b[|a|..];
      } else {
        assert c[k] in c[|b|..];
      }
    }
  }

  lemma LoadStateEvents(c: Context, st: State, env: Env, state: Option<string>)
    requires Wf(c, st) && Fits(c, env)
    ensures var r := LoadState(c, st, env, state);
      |st.log| <= |r.st.log| && r.st.log[..|st.log|] == st.log && RestoreEventsOnly(r.st.log[|st.log|..])
  {
    var res := LoadSaveState(c.codec, st.buf, state);
    var st0 := st.(buf := res.0);
    if res.1.Applied? {
      var st1 := ApplyDecoded(st0, res.1.decoded);
      ApplyDecodedEvents(st0, res.1.decoded);
      AutoSaveEvents(c, st1, env, true);
      RestoreEventsChain(st.log, st1.log, AutoSave(c, st1, env, true).log);
    }
  }

  /**
   * Requesting the descriptor already current without `force` only
   * re-applies the state string: no teardown, no prune, no build.
   */
  lemma SameDescriptorOnlyRestores(c: Context, st: State, env: Env, desc: SceneDesc, stateStr: Option<string>, promiseIsNull: bool)
    requires Wf(c, st) && Fits(c, env) && st.current == Some(desc)
    ensures var r := LoadSceneDesc(c, st, env, desc, stateStr, false, promiseIsNull);
      && SameScene(r.st, st)
      && (r.Ok? ==> r.value.None?)
      && r.st.log[..|st.log|] == st.log
      && RestoreEventsOnly(r.st.log[|st.log|..])
  {
    LoadStateEvents(c, st, env, stateStr);
  }

  /**
   * Any other request tears the old scene down, makes the descriptor both
   * current and loading, prunes the cache before starting a new scene, and
   * starts a build that captures the state string.
   */
  lemma NewDescriptorStartsBuild(c: Context, st: State, env: Env, desc: SceneDesc, stateStr: Option<string>, force: bool)
    requires Wf(c, st) && Fits(c, env)
    requires st.current != Some(desc) || force
    requires desc in c.registry.sceneDescToGroup
    ensures var r := LoadSceneDesc(c, st, env, desc, stateStr, force, false);
      && r == Ok(r.st, Some(Build(desc, stateStr)))
      && r.st.current == Some(desc) && r.st.loading == Some(desc)
      && r.st.pool == [] && r.st.scene.None?
      && r.st.log == Teardown(st).log + [FetcherReset, OldObjectsPruned(LoadSceneDelta), NewSceneLoaded, BuildStarted(desc)]
  {
  }

  /** A descriptor the registry has no group for throws, after the old scene was torn down. */
  lemma UnregisteredDescriptorThrows(c: Context, st: State, env: Env, desc: SceneDesc, stateStr: Option<string>, force: bool, promiseIsNull: bool)
    requires Wf(c, st) && Fits(c, env)
    requires st.current != Some(desc) || force
    requires desc !in c.registry.sceneDescToGroup
    ensures LoadSceneDesc(c, st, env, desc, stateStr, force, promiseIsNull) == Thrown(Teardown(st))
  {
  }

  /** A refused build throws with the descriptor left current and loading. */
  lemma NullBuildThrows(c: Context, st: State, env: Env, desc: SceneDesc, stateStr: Option<string>, force: bool)
    requires Wf(c, st) && Fits(c, env)
    requires st.current != Some(desc) || force
    requires desc in c.registry.sceneDescToGroup
    ensures var r := LoadSceneDesc(c, st, env, desc, stateStr, force, true);
      r.Thrown? && r.st.loading == Some(desc) && r.st.current == Some(desc)
  {
  }

  // ---------------------------------------------------------------------
  // Completion guard
  // ---------------------------------------------------------------------

  /** Restoring state after a scene change touches neither scene, loading nor controller choice. */
  lemma OnSceneChangedKeepsScene(c: Context, st: State, env: Env, scene: SceneGfx, stateStr: Option<string>)
    requires Wf(c, st) && Fits(c, env) && st.current.Some?
    ensures var r := OnSceneChanged(c, st, env, scene, stateStr);
      && r.st.current == st.current && r.st.loading == st.loading && r.st.pool == st.pool
      && r.st.scene == st.scene && r.st.isPlaying
      && r.st.controller == ControllerAfter(scene, st.controller)
  {
  }

  /**
   * A build whose descriptor is still loading is installed: loading is
   * cleared, the viewer shows its scene, time plays, and a controller is set
   * (the scene's own, else the existing one, else an FPS controller).
   */
  lemma CurrentBuildInstalled(c: Context, st: State, env: Env, b: Build, scene: SceneGfx)
    requires Wf(c, st) && Fits(c, env)
    requires st.loading == Some(b.desc)
    ensures var r := OnBuildResolved(c, st, env, b, scene);
      && (r.Ok? ==> r.value)
      && r.st.loading.None? && r.st.scene == Some(scene) && r.st.current == st.current
      && r.st.isPlaying && r.st.controller == ControllerAfter(scene, st.controller)
      && r.st.controller.Some?
  {
    var st1 := st.(loading := None, scene := Some(scene),
                   log := st.log + [ProgressCompleted, ViewerSceneSet(Some(scene))]);
    OnSceneChangedKeepsScene(c, st1, env, scene, b.stateStr);
  }

  /**
   * Requests for A, then B, then A again: the guard compares descriptors,
   * not requests, so the first A build to resolve is installed, with the
   * state string of the FIRST request, and the later A build is then
   * dropped, as is B's whenever it resolves.
   */
  lemma RequestsABA(c: Context, st: State, env: Env, a: SceneDesc, bDesc: SceneDesc,
                    s1: Option<string>, s2: Option<string>, s3: Option<string>, sceneA: SceneGfx, sceneA2: SceneGfx, sceneB: SceneGfx)
    requires Wf(c, st) && Fits(c, env)
    requires a != bDesc && st.current != Some(a)
    requires a in c.registry.sceneDescToGroup && bDesc in c.registry.sceneDescToGroup
    ensures var r1 := LoadSceneDesc(c, st, env, a, s1, false, false);
      var r2 := LoadSceneDesc(c, r1.st, env, bDesc, s2, false, false);
      var r3 := LoadSceneDesc(c, r2.st, env, a, s3, false, false);
      && r1.Ok? && r2.Ok? && r3.Ok?
      && r1.value == Some(Build(a, s1)) && r2.value == Some(Build(bDesc, s2)) && r3.value == Some(Build(a, s3))
      && var i1 := OnBuildResolved(c, r3.st, env, Build(a, s1), sceneA);
         && i1.st.scene == Some(sceneA) && i1.st.loading.None?
         && OnBuildResolved(c, i1.st, env, Build(a, s3), sceneA2) == Ok(i1.st, false)
         && OnBuildResolved(c, i1.st, env, Build(bDesc, s2), sceneB) == Ok(i1.st, false)
  {
    var r1 := LoadSceneDesc(c, st, env, a, s1, false, false);
    NewDescriptorStartsBuild(c, st, env, a, s1, false);
    NewDescriptorStartsBuild(c, r1.st, env, bDesc, s2, false);
    var r2 := LoadSceneDesc(c, r1.st, env, bDesc, s2, false, false);
    NewDescriptorStartsBuild(c, r2.st, env, a, s3, false);
    var r3 := LoadSceneDesc(c, r2.st, env, a, s3, false, false);
    CurrentBuildInstalled(c, r3.st, env, Build(a, s1), sceneA);
  }

  /** A request to load a descriptor: its state string, `force`, and whether `createScene` refused it. */
  datatype Request = Request(desc: SceneDesc, stateStr: Option<string>, force: bool, promiseIsNull: bool)

  /** The state after a run of `_loadSceneDesc` calls; each is its own event, so a throw ends only that call. */
  function Requests(c: Context, st: State, env: Env, reqs: seq<Request>): (r: State)
    requires Wf(c, st) && Fits(c, env)
    ensures Wf(c, r)
    decreases |reqs|
  {
    if reqs == [] then st
    else
      var q := reqs[|reqs| - 1];
      LoadSceneDesc(c, Requests(c, st, env, reqs[..|reqs| - 1]), env, q.desc, q.stateStr, q.force, q.promiseIsNull).st
  }

  /** After a request for a registered descriptor, nothing but that descriptor can be loading. */
  lemma RequestOwnsLoading(c: Context, st: State, env: Env, q: Request)
    requires Wf(c, st) && Fits(c, env) && q.desc in c.registry.sceneDescToGroup
    ensures var r := LoadSceneDesc(c, st, env, q.desc, q.stateStr, q.force, q.promiseIsNull).st;
      r.loading.None? || r.loading == Some(q.desc)
  {
  }

  /**
   * Whatever was requested before, once the last request names a registered
   * descriptor, a build of any other descriptor that resolves is dropped
   * without any effect, whether or not the last request threw.
   */
  lemma OnlyLastRequestInstalls(c: Context, st: State, env: Env, reqs: seq<Request>, b: Build, scene: SceneGfx)
    requires Wf(c, st) && Fits(c, env) && reqs != []
    requires reqs[|reqs| - 1].desc in c.registry.sceneDescToGroup
    requires b.desc != reqs[|reqs| - 1].desc
    ensures var r := Requests(c, st, env, reqs);
      OnBuildResolved(c, r, env, b, scene) == Ok(r, false)
  {
    RequestOwnsLoading(c, Requests(c, st, env, reqs[..|reqs| - 1]), env, reqs[|reqs| - 1]);
  }

  /**
   * Requests for A, then B: A's build is superseded but still holds the
   * controller's pool, so what it pushes there after B started is
   * destroyed, once, by the teardown of the next request, although A's
   * scene is never installed.
   */
  lemma SupersededBuildPoolDestroyed(c: Context, st: State, env: Env, a: SceneDesc, bDesc: SceneDesc, next: SceneDesc,
                                     s1: Option<string>, s2: Option<string>, s3: Option<string>, sceneA: SceneGfx, item: Destroyable)
    requires Wf(c, st) && Fits(c, env)
    requires a != bDesc && next != bDesc && st.current != Some(a)
    requires a in c.registry.sceneDescToGroup && bDesc in c.registry.sceneDescToGroup && next in c.registry.sceneDescToGroup
    ensures var st1 := LoadSceneDesc(c, st, env, a, s1, false, false).st;
      var st2 := LoadSceneDesc(c, st1, env, bDesc, s2, false, false).st;
      var st3 := RegisterDestroyable(st2, item);
      var r := LoadSceneDesc(c, st3, env, next, s3, false, false);
      && OnBuildResolved(c, st3, env, Build(a, s1), sceneA) == Ok(st3, false)
      && r.Ok? && r.st.pool == []
      && r.st.log[|st3.log|..] == [FetchAborted, ViewerSceneSet(None), Destroyed(item), FetcherReset,
                                   OldObjectsPruned(LoadSceneDelta), NewSceneLoaded, BuildStarted(next)]
  {
    NewDescriptorStartsBuild(c, st, env, a, s1, false);
    var st1 := LoadSceneDesc(c, st, env, a, s1, false, false).st;
    NewDescriptorStartsBuild(c, st1, env, bDesc, s2, false);
    var st2 := LoadSceneDesc(c, st1, env, bDesc, s2, false, false).st;
    var st3 := RegisterDestroyable(st2, item);
    NewDescriptorStartsBuild(c, st3, env, next, s3, false);
    assert DestroyEvents([item]) == [Destroyed(item)];
  }

  // ---------------------------------------------------------------------
  // Restore chain
  // ---------------------------------------------------------------------

  /** The explicit state string wins when it decodes: slot 1 and the defaults are not consulted. */
  lemma RestoreFromStateString(c: Context, st: State, env: Env, scene: SceneGfx, stateStr: Option<string>, d: Decoded)
    requires Wf(c, st) && Fits(c, env) && st.current.Some?
    requires LoadSaveState(c.codec, st.buf, stateStr).1 == Applied(d)
    ensures var r := OnSceneChanged(c, st, env, scene, stateStr);
      r.Ok? && r.st.camera == d.camera
  {
  }

  /** Otherwise save slot 1 of the scene's id is tried next. */
  lemma RestoreFromSlotOne(c: Context, st: State, env: Env, scene: SceneGfx, stateStr: Option<string>, d: Decoded)
    requires Wf(c, st) && Fits(c, env) && st.current.Some?
    requires LoadSaveState(c.codec, st.buf, stateStr).1 == Declined
    requires LoadSaveState(c.codec, st.buf, Lookup(st.store, SlotKey(CurrentId(c, st), 1))).1 == Applied(d)
    ensures var r := OnSceneChanged(c, st, env, scene, stateStr);
      r.Ok? && r.st.camera == d.camera
  {
    EmptyOrUnrecognisedKeepsBuffer(c, st.buf, stateStr);
  }

  /** With neither, the camera takes the scene's default world matrix, or identity. */
  lemma RestoreFallback(c: Context, st: State, env: Env, scene: SceneGfx, stateStr: Option<string>)
    requires Wf(c, st) && Fits(c, env) && st.current.Some?
    requires LoadSaveState(c.codec, st.buf, stateStr).1 == Declined
    requires LoadSaveState(c.codec, st.buf, Lookup(st.store, SlotKey(CurrentId(c, st), 1))).1 == Declined
    ensures var r := OnSceneChanged(c, st, env, scene, stateStr);
      && r.Ok?
      && r.st.camera == (if scene.defaultWorldMatrix.Some? then scene.defaultWorldMatrix.value else IdentityMatrix)
  {
    EmptyOrUnrecognisedKeepsBuffer(c, st.buf, stateStr);
  }

  /** A state string that trips the options-byte assertion ends the chain: no fallback is tried. */
  lemma RestoreAbortsOnThrow(c: Context, st: State, env: Env, scene: SceneGfx, stateStr: Option<string>)
    requires Wf(c, st) && Fits(c, env) && st.current.Some?
    requires LoadSaveState(c.codec, st.buf, stateStr).1 == Threw
    ensures var r := OnSceneChanged(c, st, env, scene, stateStr);
      r.Thrown? && r.st.camera == st.camera
  {
  }

  /** A declined state leaves the scratch buffer as it was. */
  lemma EmptyOrUnrecognisedKeepsBuffer(c: Context, buf: seq<byte>, state: Option<string>)
    requires ValidCollaborators(c.codec) && |buf| == BufferSize
    requires LoadSaveState(c.codec, buf, state).1 == Declined
    ensures LoadSaveState(c.codec, buf, state).0 == buf
  {
  }

  /**
   * The initial hash load: an id the registry does not know changes
   * nothing; a known id of a descriptor not already current starts its
   * build with save slot 0 of the id when that slot is filled, else with
   * the state in the hash.
   */
  lemma InitialLoadCarriesState(c: Context, st: State, env: Env, hash: string)
    requires Wf(c, st) && Fits(c, env) && IdsNameFiledDescs(c.registry)
    ensures var (id, hashState) := DecodeHash(hash);
      var desc := SceneDescForId(c.registry, id);
      var r := LoadInitialStateFromHash(c, st, env, hash, false);
      && (desc.None? ==> r == Ok(st, None))
      && (desc.Some? && st.current != desc ==>
            var state := if SlotKey(id, 0) in st.store then st.store[SlotKey(id, 0)] else hashState;
            && r == Ok(r.st, Some(Build(desc.value, Some(state))))
            && r.st.current == desc && r.st.loading == desc && r.st.store == st.store)
  {
    var (id, hashState) := DecodeHash(hash);
    var desc := SceneDescForId(c.registry, id);
    if desc.Some? && st.current != desc {
      var state := Lookup(st.store, SlotKey(id, 0)).GetOr(hashState);
      NewDescriptorStartsBuild(c, st, env, desc.value, Some(state), false);
    }
  }

  /** A hash change to a known id of a descriptor not already current starts its build with the hash's state. */
  lemma HashChangeCarriesHashState(c: Context, st: State, env: Env, hash: string)
    requires Wf(c, st) && Fits(c, env) && IdsNameFiledDescs(c.registry)
    ensures var (id, hashState) := DecodeHash(hash);
      var desc := SceneDescForId(c.registry, id);
      var r := OnHashChange(c, st, env, hash, false);
      && (desc.None? ==> r == Ok(st, None))
      && (desc.Some? && st.current != desc ==>
            r == Ok(r.st, Some(Build(desc.value, Some(hashState)))) && r.st.current == desc && r.st.loading == desc)
  {
    var (id, hashState) := DecodeHash(hash);
    var desc := SceneDescForId(c.registry, id);
    if desc.Some? && st.current != desc {
      NewDescriptorStartsBuild(c, st, env, desc.value, Some(hashState), false);
    }
  }

  // ---------------------------------------------------------------------
  // Save slots
  // ---------------------------------------------------------------------

  /** The share form of any layout decodes back, from whatever the scratch buffer held. */
  lemma {:induction false} ShareDataDecodes(c: Collaborators, buf: seq<byte>, camera: Matrix, sceneBytes: seq<byte>)
    requires ValidCollaborators(c) && TextRoundTrips(c) && |buf| == BufferSize
    requires 1 + c.cameraSize + |sceneBytes| <= BufferSize
    ensures var layout := Layout(c, camera, sceneBytes);
      var (buf', o) := LoadSaveState(c, buf, Some("ShareData=" + c.btoa(layout)));
      && o == Applied(Decoded(None, StoredCamera(c, camera), 1 + c.cameraSize, |layout|))
      && SceneBlock(buf', o.decoded) == sceneBytes
  {
    var layout := Layout(c, camera, sceneBytes);
    var written := WrittenAt(buf, 0, layout);
    RouteShareData(c.btoa(layout));
    assert c.atob(c.btoa(layout)) == layout;
    assert written[0] == 0;
    assert written[1..1 + c.cameraSize] == c.serializeCamera(camera);
    assert written[1 + c.cameraSize..|layout|] == sceneBytes;
  }

  /**
   * Saving to a slot and later loading it brings the camera back as its
   * codec stored it, whatever the camera and the scratch buffer became in
   * between.
   */
  lemma SaveThenLoadRestoresCamera(c: Context, st: State, env: Env, key: SlotKey, moved: Matrix, scratch: seq<byte>, env2: Env)
    requires Wf(c, st) && TextRoundTrips(c.codec) && Fits(c, env) && Fits(c, env2)
    requires |scratch| == BufferSize
    ensures var saved := DoSaveStatesAction(c, st, env, Save, key);
      && saved.Ok? && key in saved.st.store
      && var later := saved.st.(camera := moved, buf := scratch);
         var loaded := DoSaveStatesAction(c, later, env2, Load, key);
         loaded.Ok? && loaded.st.camera == StoredCamera(c.codec, st.camera)
  {
    ShareDataDecodes(c.codec, scratch, st.camera, SceneBytes(st, env));
  }

  /** Deleting a slot makes a later load of it decline: the camera does not move. */
  lemma DeleteThenLoadDeclines(c: Context, st: State, env: Env, key: SlotKey, env2: Env)
    requires Wf(c, st) && Fits(c, env) && Fits(c, env2)
    ensures var deleted := DoSaveStatesAction(c, st, env, Delete, key);
      && deleted.Ok? && key !in deleted.st.store
      && DoSaveStatesAction(c, deleted.st, env2, Load, key) == Ok(deleted.st, ())
  {
    var deleted := DoSaveStatesAction(c, st, env, Delete, key);
    EmptyStateDeclined(c.codec, deleted.st.buf, None);
  }

  /** Keys of one frame with only digit `n` pressed. */
  predicate OnlyDigit(keys: Keys, n: int)
  {
    keys.digits == {n} && !keys.period && !keys.comma && !keys.f9
  }

  /**
   * A frame with one digit key pressed while a scene is loaded: Shift
   * saves the state to slot `n` of the scene's id (also with Alt), Alt alone
   * deletes that slot, and the plain key on an empty slot does nothing
   * (the default states are not consulted).
   */
  lemma DigitKeyActsOnSlot(c: Context, st: State, env: Env, keys: Keys, n: int)
    requires Wf(c, st) && Fits(c, env) && st.current.Some? && 1 <= n <= 9 && OnlyDigit(keys, n)
    ensures var key := SlotKey(CurrentId(c, st), n);
      var r := KeyShortcuts(c, st, env, keys, false);
      && (keys.shiftDown ==> r.Ok? && r.st.store == st.store[key := GetSceneSaveState(c, st, env).1])
      && (!keys.shiftDown && keys.altDown ==> r == Ok(st.(store := st.store - {key}), None))
      && (!keys.shiftDown && !keys.altDown && key !in st.store ==> r == Ok(st, None))
  {
    OneDigitRuns(c, st, env, keys, n, 9);
    var key := SlotKey(CurrentId(c, st), n);
    if !keys.shiftDown && !keys.altDown && key !in st.store {
      EmptyStateDeclined(c.codec, st.buf, None);
    }
  }

  /**
   * Shift with digit `n`, then in a later frame the plain digit `n`: the
   * camera comes back as the codec stored it, wherever it was moved and
   * whatever the scratch buffer held in between.
   */
  lemma DigitSaveThenLoad(c: Context, st: State, env: Env, keys: Keys, n: int, moved: Matrix, scratch: seq<byte>, env2: Env)
    requires Wf(c, st) && TextRoundTrips(c.codec) && Fits(c, env) && Fits(c, env2)
    requires st.current.Some? && 1 <= n <= 9 && OnlyDigit(keys, n) && keys.shiftDown && |scratch| == BufferSize
    ensures var saved := KeyShortcuts(c, st, env, keys, false);
      && saved.Ok?
      && var later := saved.st.(camera := moved, buf := scratch);
         var loaded := KeyShortcuts(c, later, env2, keys.(shiftDown := false, altDown := false), false);
         loaded.Ok? && loaded.st.camera == StoredCamera(c.codec, st.camera)
  {
    var key := SlotKey(CurrentId(c, st), n);
    OneDigitRuns(c, st, env, keys, n, 9);
    SaveThenLoadRestoresCamera(c, st, env, key, moved, scratch, env2);
    var saved := KeyShortcuts(c, st, env, keys, false);
    var later := saved.st.(camera := moved, buf := scratch);
    OneDigitRuns(c, later, env2, keys.(shiftDown := false, altDown := false), n, 9);
  }

  /** With digit `n` the only one pressed, the digits up to `m >= n` do what digit `n` does. */
  lemma {:induction false} OneDigitRuns(c: Context, st: State, env: Env, keys: Keys, n: int, m: int)
    requires Wf(c, st) && Fits(c, env) && 1 <= n <= m <= 9 && keys.digits == {n}
    ensures DigitShortcuts(c, st, env, keys, m) == DigitShortcut(c, st, env, keys, n)
    decreases m
  {
    if m == n {
      NoDigitsNoChange(c, st, env, keys, n - 1);
    } else {
      OneDigitRuns(c, st, env, keys, n, m - 1);
    }
  }

  // ---------------------------------------------------------------------
  // Auto-save and the URL throttle
  // ---------------------------------------------------------------------

  /**
   * With a scene loaded, auto-save stores the state in slot 0, and its share
   * string decodes back to the scene's id and that state when the id has no `;`.
   */
  lemma AutoSaveShareString(c: Context, st: State, env: Env, force: bool)
    requires Wf(c, st) && Fits(c, env) && st.current.Some?
    requires ';' !in CurrentId(c, st)
    ensures var r := AutoSave(c, st, env, force);
      var saved := GetSceneSaveState(c, st, env).1;
      && r.store == st.store[SlotKey(CurrentId(c, st), 0) := saved]
      && DecodeHashString(r.shareState) == (CurrentId(c, st), saved)
  {
    var id, saved := CurrentId(c, st), GetSceneSaveState(c, st, env).1;
    var s1 := SaveCurrent(c, st, env);
    assert s1.store == st.store[SlotKey(id, 0) := saved] && s1.shareState == ShareString(id, saved) by {
      assert GetSceneSaveState(c, st, env).0.store == st.store;
    }
    var r := UpdateURL(s1, env.now, force);
    assert r.store == s1.store && r.shareState == s1.shareState;
    ShareStringRoundTrip(id, saved);
  }

  /** A run of `_autoSaveState` calls, each with its `force` flag and readings. */
  function AutoSaveRun(c: Context, st: State, calls: seq<(bool, Env)>): (r: State)
    requires Wf(c, st) && forall k :: 0 <= k < |calls| ==> Fits(c, calls[k].1)
    ensures Wf(c, r) && SameScene(r, st)
    decreases |calls|
  {
    if calls == [] then st
    else
      var (force, env) := calls[|calls| - 1];
      AutoSave(c, AutoSaveRun(c, st, calls[..|calls| - 1]), env, force)
  }

  /** A forced call always replaces the URL and restarts the throttle. */
  lemma ForcedUpdateReplacesURL(c: Context, st: State, env: Env)
    requires Wf(c, st) && Fits(c, env) && st.current.Some?
    ensures var r := AutoSave(c, st, env, true);
      r.lastURLTime == env.now && r.log == st.log + [URLReplaced("#" + r.shareState)]
  {
  }

  /**
   * Within two seconds of a URL update, unforced auto-saves replace the URL
   * no more: the log gains nothing and the throttle time stays.
   */
  lemma {:induction false} ThrottleQuietWindow(c: Context, st: State, calls: seq<(bool, Env)>)
    requires Wf(c, st) && forall k :: 0 <= k < |calls| ==> Fits(c, calls[k].1)
    requires forall k :: 0 <= k < |calls| ==> !calls[k].0 && calls[k].1.now - st.lastURLTime < URLThrottleSeconds
    ensures AutoSaveRun(c, st, calls).lastURLTime == st.lastURLTime
    ensures AutoSaveRun(c, st, calls).log == st.log
    decreases |calls|
  {
    if calls != [] {
      var front := calls[..|calls| - 1];
      ThrottleQuietWindow(c, st, front);
    }
  }

  /** Once two seconds have passed since the last update, an unforced auto-save replaces the URL again. */
  lemma ThrottleReopens(c: Context, st: State, env: Env)
    requires Wf(c, st) && Fits(c, env) && st.current.Some?
    requires env.now - st.lastURLTime >= URLThrottleSeconds
    ensures var r := AutoSave(c, st, env, false);
      r.lastURLTime == env.now && r.log == st.log + [URLReplaced("#" + r.shareState)]
  {
  }

  // ---------------------------------------------------------------------
  // Play, mute and the frame time scale
  // ---------------------------------------------------------------------

  /** Setting play or mute twice to the same value is the same as setting it once. */
  lemma SwitchesIdempotent(st: State, v: bool)
    ensures SetPlaying(SetPlaying(st, v), v) == SetPlaying(st, v)
    ensures SetMuted(SetMuted(st, v), v) == SetMuted(st, v)
  {
  }

  /**
   * A frame with no key pressed: it never throws or builds, consumes a
   * frame step and changes nothing else but the log, which gains the time
   * scale handed to the viewer unless the viewer is driven externally: a
   * quarter of the scale for a step, the scale while playing, zero while
   * paused.
   */
  lemma FrameWithoutKeys(c: Context, st: State, env: Env, externalControl: bool, promiseIsNull: bool)
    requires Wf(c, st) && Fits(c, env)
    ensures var r := PostAnimFrameUpdate(c, st, env, Keys({}, false, false, false, false, false), externalControl, promiseIsNull);
      var scale := st.sceneTimeScale;
      && r == Ok(r.st, None)
      && r.st == st.(isFrameStep := false, log := r.st.log)
      && (externalControl ==> r.st.log == st.log)
      && (!externalControl && st.isFrameStep ==> r.st.log == st.log + [SceneTimeScaleSet(scale / 4.0)])
      && (!externalControl && !st.isFrameStep && st.isPlaying ==> r.st.log == st.log + [SceneTimeScaleSet(scale)])
      && (!externalControl && !st.isFrameStep && !st.isPlaying ==> r.st.log == st.log + [SceneTimeScaleSet(0.0)])
  {
    NoDigitsNoChange(c, st, env, Keys({}, false, false, false, false, false), 9);
  }

  /**
   * Holding Comma: the frame is paused but advances at a quarter of the
   * scale, and the step is consumed; the next frame without Comma is still.
   */
  lemma FrameStepThenPause(c: Context, st: State, env: Env, promiseIsNull: bool)
    requires Wf(c, st) && Fits(c, env)
    ensures var keys := Keys({}, false, false, false, true, false);
      var r := PostAnimFrameUpdate(c, st, env, keys, false, promiseIsNull);
      && r.Ok? && !r.st.isPlaying && !r.st.isFrameStep
      && r.st.log[|r.st.log| - 1] == SceneTimeScaleSet(st.sceneTimeScale / 4.0)
      && var r2 := PostAnimFrameUpdate(c, r.st, env, Keys({}, false, false, false, false, false), false, promiseIsNull);
         r2.Ok? && r2.st.log[|r2.st.log| - 1] == SceneTimeScaleSet(0.0)
  {
    var keys := Keys({}, false, false, false, true, false);
    NoDigitsNoChange(c, st, env, keys, 9);
    var r := PostAnimFrameUpdate(c, st, env, keys, false, promiseIsNull);
    NoDigitsNoChange(c, r.st, env, Keys({}, false, false, false, false, false), 9);
  }

  /** With no digit key triggered, the digit shortcuts change nothing. */
  lemma {:induction false} NoDigitsNoChange(c: Context, st: State, env: Env, keys: Keys, n: int)
    requires Wf(c, st) && Fits(c, env) && 0 <= n <= 9 && forall k :: 1 <= k <= n ==> k !in keys.digits
    ensures DigitShortcuts(c, st, env, keys, n) == Ok(st, ())
    decreases n
  {
    if n > 0 {
      NoDigitsNoChange(c, st, env, keys, n - 1);
    }
  }
}
