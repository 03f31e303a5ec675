/**
 * The viewer's `Main` controller as a class whose fields the methods update
 * in place. Each method is proved to leave the state that the matching step
 * function of `SessionRules` describes, and to throw exactly when it does.
 */
module Session {
  import opened Wrappers
  import opened SceneBase
  import opened SaveState
  import opened SceneDatabase
  import opened HashString
  import opened SessionRules

  class Main {
    const sceneDatabase: SceneDatabase
    const codec: SaveStateBuffer
    var currentSceneDesc: Option<SceneDesc>
    var loadingSceneDesc: Option<SceneDesc>
    /** `destroyablePool`: what the scene builds pushed for destruction; emptied on teardown. */
    var destroyablePool: seq<Destroyable>
    /** The viewer's scene, camera world matrix and camera controller. */
    var viewerScene: Option<SceneGfx>
    var camera: Matrix
    var cameraController: Option<Controller>
    var isPlaying: bool
    var isMuted: bool
    var isFrameStep: bool
    var sceneTimeScale: real
    var lastUpdatedURLTimeSeconds: real
    /** The share string last handed to the UI. */
    var shareSaveState: string
    /** The save manager's slots and its default states. */
    var store: map<SlotKey, string>
    const defaults: map<SlotKey, string>
    /** Calls made into code outside the model. */
    var log: seq<Event>

    /** The registry tables and the codecs, fixed once the controller is built. */
    ghost const ctx: Context

    function View(): State
      reads this, codec.tmp
    {
      State(currentSceneDesc, loadingSceneDesc, destroyablePool, viewerScene, camera, cameraController,
            isPlaying, isMuted, isFrameStep, sceneTimeScale, lastUpdatedURLTimeSeconds, shareSaveState,
            store, defaults, codec.tmp[..], log)
    }

    /** The part of `Valid` about constant fields only. */
    ghost predicate Fixed()
    {
      codec.Valid() && codec.collab == ctx.codec && Trusted(ctx)
    }

    ghost predicate Valid()
      reads this, sceneDatabase, codec.tmp
    {
      && Fixed()
      && sceneDatabase.Tables() == ctx.registry
      && Wf(ctx, View())
    }

    /** A controller over a built registry, before any scene is loaded: paused, muted, scale 1, URL never updated. */
    constructor (db: SceneDatabase, c: Collaborators, defaultStates: map<SlotKey, string>)
      requires ValidCollaborators(c) && Consistent(db.Tables())
      ensures Valid() && sceneDatabase == db && codec.collab == c
      ensures View() == InitialState(defaultStates)
      ensures fresh(codec) && fresh(codec.tmp)
    {
      sceneDatabase := db;
      ctx := Context(db.Tables(), c);
      codec := new SaveStateBuffer(c);
      destroyablePool := [];
      currentSceneDesc, loadingSceneDesc := None, None;
      viewerScene, camera, cameraController := None, IdentityMatrix, None;
      isPlaying, isMuted, isFrameStep := false, true, false;
      sceneTimeScale, lastUpdatedURLTimeSeconds := 1.0, -1.0;
      shareSaveState := "";
      store, defaults := map[], defaultStates;
      log := [];
    }

    method SetIsPlaying(v: bool)
      requires Valid()
      modifies this
      ensures View() == SetPlaying(old(View()), v)
      ensures Valid()
    {
      if isPlaying == v {
        return;
      }
      isPlaying := v;
      log := log + [PlayingSet(v)];
    }

    method SetIsMuted(v: bool)
      requires Valid()
      modifies this
      ensures View() == SetMuted(old(View()), v)
      ensures Valid()
    {
      if isMuted == v {
        return;
      }
      isMuted := v;
      log := log + [MutedSet(v)];
    }

    /** `_getSceneSaveState`. */
    method GetSceneSaveState(env: Env) returns (s: string)
      requires Valid() && Fits(ctx, env)
      modifies codec.tmp
      ensures (View(), s) == SessionRules.GetSceneSaveState(ctx, old(View()), env)
      ensures Valid()
    {
      var sceneBytes := if viewerScene.Some? && viewerScene.value.savesState then env.sceneBytes else [];
      s := codec.GetSceneSaveState(camera, sceneBytes);
    }

    /** The saving half of `_autoSaveState`. */
    method SaveCurrentState(env: Env)
      requires Valid() && Fits(ctx, env) && currentSceneDesc.Some?
      modifies this, codec.tmp
      ensures View() == SaveCurrent(ctx, old(View()), env)
      ensures Valid()
    {
      var sceneStateStr := GetSceneSaveState(env);
      var currentSceneDescId := sceneDatabase.GetSceneDescId(currentSceneDesc.value);
      store := store[SlotKey(currentSceneDescId, 0) := sceneStateStr];
      shareSaveState := ShareString(currentSceneDescId, sceneStateStr);
    }

    /** The URL half of `_autoSaveState`; `env.now` is the clock reading for both the test and the new time. */
    method UpdateURLThrottled(force: bool, env: Env)
      requires Valid()
      modifies this
      ensures View() == UpdateURL(old(View()), env.now, force)
      ensures Valid()
    {
      var shouldUpdateURL := force;
      if !shouldUpdateURL {
        var secondsElapsedSinceLastUpdatedURL := env.now - lastUpdatedURLTimeSeconds;
        if secondsElapsedSinceLastUpdatedURL >= URLThrottleSeconds {
          shouldUpdateURL := true;
        }
      }
      if shouldUpdateURL {
        log := log + [URLReplaced("#" + shareSaveState)];
        lastUpdatedURLTimeSeconds := env.now;
      }
    }

    /** `_autoSaveState`. */
    method AutoSaveState(force: bool, env: Env)
      requires Valid() && Fits(ctx, env)
      modifies this, codec.tmp
      ensures View() == AutoSave(ctx, old(View()), env, force)
      ensures Valid()
    {
      if currentSceneDesc.None? {
        return;
      }
      SaveCurrentState(env);
      UpdateURLThrottled(force, env);
    }

    /** The part the two readers share after decoding: time, camera, scene bytes, controller. */
    method ApplyDecodedState(d: Decoded)
      requires Valid()
      modifies this
      ensures View() == ApplyDecoded(old(View()), d)
      ensures Valid()
    {
      var timeEvents := if d.sceneTime.Some? then [SceneTimeSet(d.sceneTime.value)] else [];
      camera := d.camera;
      var sceneEvents :=
        if viewerScene.Some? && viewerScene.value.restoresState then [SceneStateOffered(d.sceneOffset, d.byteLength)] else [];
      var forced := if cameraController.Some? then [CameraUpdateForced] else [];
      log := log + timeEvents + sceneEvents + forced;
    }

    /** `_loadSceneSaveState`; `loaded` is its result when it returns normally. */
    method LoadSceneSaveState(state: Option<string>, env: Env) returns (loaded: bool, threw: bool)
      requires Valid() && Fits(ctx, env)
      modifies this, codec.tmp
      ensures var res := LoadState(ctx, old(View()), env, state);
        View() == res.st && threw == res.Thrown? && (res.Ok? ==> loaded == res.value)
      ensures Valid()
    {
      var o := codec.LoadSceneSaveState(state);
      match o
      case Declined =>
        loaded, threw := false, false;
      case Threw =>
        loaded, threw := false, true;
      case Applied(d) =>
        ApplyDecodedState(d);
        AutoSaveState(true, env);
        loaded, threw := true, false;
    }

    /** The first half of teardown inside `_loadSceneDesc`: the live scene goes to the pool, the viewer is cleared. */
    method StashViewerScene()
      requires Valid()
      modifies this
      ensures View() == StashScene(old(View()))
      ensures Valid()
    {
      if viewerScene.Some? && SceneObject(viewerScene.value) !in destroyablePool {
        destroyablePool := destroyablePool + [SceneObject(viewerScene.value)];
      }
      viewerScene := None;
      log := log + [FetchAborted, ViewerSceneSet(None)];
    }

    /** The second half: every pool item is destroyed in index order, then the pool is emptied. */
    method DestroyAll()
      requires Valid()
      modifies this
      ensures View() == DestroyPool(old(View()))
      ensures Valid()
    {
      var items := destroyablePool;
      var destroyed: seq<Event> := [];
      var i := 0;
      while i < |items|
        invariant 0 <= i <= |items|
        invariant destroyed == DestroyEvents(items[..i])
      {
        destroyed := destroyed + [Destroyed(items[i])];
        i := i + 1;
        assert items[..i][..i - 1] == items[..i - 1];
      }
      assert items[..i] == items;
      log := log + destroyed;
      destroyablePool := [];
    }

    /** Teardown of the old scene inside `_loadSceneDesc`. */
    method TearDown()
      requires Valid()
      modifies this
      ensures View() == Teardown(old(View()))
      ensures Valid()
    {
      StashViewerScene();
      DestroyAll();
    }

    /**
     * `_loadSceneDesc`. The result is the pending build, if one was
     * started; `promiseIsNull` says `createScene` refused the descriptor.
     */
    method LoadSceneDesc(sceneDesc: SceneDesc, sceneStateStr: Option<string>, force: bool, promiseIsNull: bool, env: Env)
      returns (build: Option<Build>, threw: bool)
      requires Valid() && Fits(ctx, env)
      modifies this, codec.tmp
      ensures var res := SessionRules.LoadSceneDesc(ctx, old(View()), env, sceneDesc, sceneStateStr, force, promiseIsNull);
        View() == res.st && threw == res.Thrown? && (res.Ok? ==> build == res.value)
      ensures Valid()
    {
      if currentSceneDesc == Some(sceneDesc) && !force {
        var _, t := LoadSceneSaveState(sceneStateStr, env);
        return None, t;
      }
      TearDown();
      build, threw := StartBuild(sceneDesc, sceneStateStr, promiseIsNull);
    }

    /** The rest of `_loadSceneDesc` after teardown. */
    method StartBuild(sceneDesc: SceneDesc, sceneStateStr: Option<string>, promiseIsNull: bool)
      returns (build: Option<Build>, threw: bool)
      requires Valid()
      modifies this
      ensures var res := BeginBuild(ctx, old(View()), sceneDesc, sceneStateStr, promiseIsNull);
        View() == res.st && threw == res.Thrown? && (res.Ok? ==> build == res.value)
      ensures Valid()
    {
      if sceneDesc !in sceneDatabase.sceneDescToGroup {
        // getSceneDescGroup yields undefined and reading `hidden` from it throws.
        return None, true;
      }
      currentSceneDesc := Some(sceneDesc);
      loadingSceneDesc := Some(sceneDesc);
      log := log + [FetcherReset, OldObjectsPruned(LoadSceneDelta), NewSceneLoaded, BuildStarted(sceneDesc)];
      if promiseIsNull {
        return None, true;
      }
      return Some(Build(sceneDesc, sceneStateStr)), false;
    }

    /**
     * A pending build pushes `item` into the pool its context was handed:
     * the controller's `destroyablePool`, whether the build is current or
     * already superseded. Which build pushes makes no difference.
     */
    method RegisterDestroyable(item: Destroyable)
      requires Valid()
      modifies this
      ensures View() == SessionRules.RegisterDestroyable(old(View()), item)
      ensures Valid()
    {
      destroyablePool := destroyablePool + [item];
    }

    /** The start of `_onSceneChanged`: play, and take the scene's controller or keep one. */
    method PrepareForScene(scene: SceneGfx)
      requires Valid()
      modifies this
      ensures View() == PrepareScene(old(View()), scene)
      ensures Valid()
    {
      SetIsPlaying(true);
      if scene.cameraController.Some? {
        cameraController := scene.cameraController;
      }
      if cameraController.None? {
        cameraController := Some(FPSCameraController);
      }
    }

    /** Save slot 1 of the scene, else its default matrix, else identity. */
    method RestoreFromFallback(scene: SceneGfx, sceneDescId: string, env: Env) returns (threw: bool)
      requires Valid() && Fits(ctx, env)
      modifies this, codec.tmp
      ensures var res := RestoreFallback(ctx, old(View()), env, scene, sceneDescId);
        View() == res.st && threw == res.Thrown?
      ensures Valid()
    {
      var didLoadCameraState, t := LoadSceneSaveState(Lookup(store, SlotKey(sceneDescId, 1)), env);
      if t {
        return true;
      }
      if !didLoadCameraState {
        if scene.defaultWorldMatrix.Some? {
          camera := scene.defaultWorldMatrix.value;
        } else {
          camera := IdentityMatrix;
        }
      }
      return false;
    }

    /** The state string, else the fallback. */
    method RestoreSceneState(scene: SceneGfx, sceneStateStr: Option<string>, sceneDescId: string, env: Env) returns (threw: bool)
      requires Valid() && Fits(ctx, env)
      modifies this, codec.tmp
      ensures var res := RestoreChain(ctx, old(View()), env, scene, sceneStateStr, sceneDescId);
        View() == res.st && threw == res.Thrown?
      ensures Valid()
    {
      var loaded, t := LoadSceneSaveState(sceneStateStr, env);
      if t {
        return true;
      }
      threw := false;
      if !loaded {
        threw := RestoreFromFallback(scene, sceneDescId, env);
      }
    }

    /** `_onSceneChanged`, for the scene just installed. */
    method OnSceneChanged(scene: SceneGfx, sceneStateStr: Option<string>, env: Env) returns (threw: bool)
      requires Valid() && Fits(ctx, env) && currentSceneDesc.Some?
      modifies this, codec.tmp
      ensures var res := SessionRules.OnSceneChanged(ctx, old(View()), env, scene, sceneStateStr);
        View() == res.st && threw == res.Thrown?
      ensures Valid()
    {
      PrepareForScene(scene);
      var sceneDescId := sceneDatabase.GetSceneDescId(currentSceneDesc.value);
      threw := RestoreSceneState(scene, sceneStateStr, sceneDescId, env);
      if threw {
        return;
      }
      AutoSaveState(true, env);
    }

    /** The completion callback of a build; `installed` when it returns normally. */
    method OnBuildResolved(b: Build, scene: SceneGfx, env: Env) returns (installed: bool, threw: bool)
      requires Valid() && Fits(ctx, env)
      modifies this, codec.tmp
      ensures var res := SessionRules.OnBuildResolved(ctx, old(View()), env, b, scene);
        View() == res.st && threw == res.Thrown? && (res.Ok? ==> installed == res.value)
      ensures Valid()
    {
      if loadingSceneDesc != Some(b.desc) {
        return false, false;
      }
      InstallBuiltScene(scene);
      threw := OnSceneChanged(scene, b.stateStr, env);
      installed := true;
    }

    /** The build's scene goes to the viewer; the loading descriptor is cleared. */
    method InstallBuiltScene(scene: SceneGfx)
      requires Valid() && loadingSceneDesc.Some?
      modifies this
      ensures View() == InstallScene(old(View()), scene)
      ensures Valid()
    {
      loadingSceneDesc := None;
      viewerScene := Some(scene);
      log := log + [ProgressCompleted, ViewerSceneSet(Some(scene))];
    }

    /** `_loadInitialStateFromHash`; `hash` is `window.location.hash`. */
    method LoadInitialStateFromHash(hash: string, promiseIsNull: bool, env: Env) returns (build: Option<Build>, threw: bool)
      requires Valid() && Fits(ctx, env)
      modifies this, codec.tmp
      ensures var res := SessionRules.LoadInitialStateFromHash(ctx, old(View()), env, hash, promiseIsNull);
        View() == res.st && threw == res.Thrown? && (res.Ok? ==> build == res.value)
      ensures Valid()
    {
      var (sceneDescId, sceneSaveState) := DecodeHash(hash);
      var sceneDesc := sceneDatabase.GetSceneDescForId(sceneDescId);
      if sceneDesc.None? {
        return None, false;
      }
      var sceneState := Lookup(store, SlotKey(sceneDescId, 0)).GetOr(sceneSaveState);
      build, threw := LoadSceneDesc(sceneDesc.value, Some(sceneState), false, promiseIsNull, env);
    }

    /** `_onHashChange`. */
    method OnHashChange(hash: string, promiseIsNull: bool, env: Env) returns (build: Option<Build>, threw: bool)
      requires Valid() && Fits(ctx, env)
      modifies this, codec.tmp
      ensures var res := SessionRules.OnHashChange(ctx, old(View()), env, hash, promiseIsNull);
        View() == res.st && threw == res.Thrown? && (res.Ok? ==> build == res.value)
      ensures Valid()
    {
      var (sceneDescId, sceneSaveState) := DecodeHash(hash);
      var sceneDesc := sceneDatabase.GetSceneDescForId(sceneDescId);
      if sceneDesc.None? {
        return None, false;
      }
      build, threw := LoadSceneDesc(sceneDesc.value, Some(sceneSaveState), false, promiseIsNull, env);
    }

    /** `doSaveStatesAction`. */
    method DoSaveStatesAction(action: SaveStatesAction, key: SlotKey, env: Env) returns (threw: bool)
      requires Valid() && Fits(ctx, env)
      modifies this, codec.tmp
      ensures var res := SessionRules.DoSaveStatesAction(ctx, old(View()), env, action, key);
        View() == res.st && threw == res.Thrown?
      ensures Valid()
    {
      match action
      case Save =>
        var s := GetSceneSaveState(env);
        store := store[key := s];
        threw := false;
      case Delete =>
        store := store - {key};
        threw := false;
      case Load =>
        var _, t := LoadSceneSaveState(Lookup(store, key), env);
        threw := t;
      case LoadDefault =>
        var _, t := LoadSceneSaveState(Lookup(defaults, key), env);
        threw := t;
    }

    /** One digit key of `_checkKeyShortcuts`. */
    method CheckDigitShortcut(keys: Keys, n: int, env: Env) returns (threw: bool)
      requires Valid() && Fits(ctx, env)
      modifies this, codec.tmp
      ensures var res := DigitShortcut(ctx, old(View()), env, keys, n);
        View() == res.st && threw == res.Thrown?
      ensures Valid()
    {
      if n in keys.digits && currentSceneDesc.Some? {
        var key := SlotKey(sceneDatabase.GetSceneDescId(currentSceneDesc.value), n);
        var action := PickSaveStatesAction(keys.shiftDown, keys.altDown);
        threw := DoSaveStatesAction(action, key, env);
      } else {
        threw := false;
      }
    }

    /** The digit-key loop of `_checkKeyShortcuts`: keys 1 to 9 pick a slot of the current scene. */
    method CheckDigitShortcuts(keys: Keys, env: Env) returns (threw: bool)
      requires Valid() && Fits(ctx, env)
      modifies this, codec.tmp
      ensures var res := DigitShortcuts(ctx, old(View()), env, keys, 9);
        View() == res.st && threw == res.Thrown?
      ensures Valid()
    {
      ghost var start := View();
      var i := 1;
      while i <= 9
        invariant 1 <= i <= 10
        invariant Valid()
        invariant DigitShortcuts(ctx, start, env, keys, i - 1) == Ok(View(), ())
      {
        ghost var before := View();
        DigitShortcutsNext(ctx, start, env, keys, i);
        var t := CheckDigitShortcut(keys, i, env);
        assert DigitShortcuts(ctx, start, env, keys, i) == DigitShortcut(ctx, before, env, keys, i);
        if t {
          DigitShortcutsStopAtThrow(ctx, start, env, keys, i, 9);
          assert DigitShortcuts(ctx, start, env, keys, 9).Thrown?;
          return true;
        }
        i := i + 1;
      }
      assert DigitShortcuts(ctx, start, env, keys, 9) == Ok(View(), ());
      return false;
    }

    /** `_checkKeyShortcuts`: the digits, then Period, Comma and F9; F9 may start a build. */
    method CheckKeyShortcuts(keys: Keys, promiseIsNull: bool, env: Env) returns (build: Option<Build>, threw: bool)
      requires Valid() && Fits(ctx, env)
      modifies this, codec.tmp
      ensures var res := KeyShortcuts(ctx, old(View()), env, keys, promiseIsNull);
        View() == res.st && threw == res.Thrown? && (res.Ok? ==> build == res.value)
      ensures Valid()
    {
      threw := CheckDigitShortcuts(keys, env);
      if threw {
        return None, true;
      }
      CheckPlaybackShortcuts(keys);
      if keys.f9 {
        build, threw := ReloadScene(promiseIsNull, env);
        return;
      }
      return None, false;
    }

    /** Period and Comma. */
    method CheckPlaybackShortcuts(keys: Keys)
      requires Valid()
      modifies this
      ensures View() == PlaybackKeys(old(View()), keys)
      ensures Valid()
    {
      if keys.period {
        SetIsPlaying(!isPlaying);
      }
      if keys.comma {
        SetIsPlaying(false);
        isFrameStep := true;
      }
    }

    /** F9: reload the current descriptor with its freshly written state, forced. */
    method ReloadScene(promiseIsNull: bool, env: Env) returns (build: Option<Build>, threw: bool)
      requires Valid() && Fits(ctx, env)
      modifies this, codec.tmp
      ensures var res := Reload(ctx, old(View()), env, promiseIsNull);
        View() == res.st && threw == res.Thrown? && (res.Ok? ==> build == res.value)
      ensures Valid()
    {
      var saved := GetSceneSaveState(env);
      if currentSceneDesc.None? {
        // `_loadSceneDesc(undefined!, ...)` tears down, then throws reading the missing group.
        TearDown();
        return None, true;
      }
      build, threw := LoadSceneDesc(currentSceneDesc.value, Some(saved), true, promiseIsNull, env);
    }

    /** `_onPostAnimFrameUpdate`: the shortcuts, then the time scale handed to the viewer. */
    method PostAnimFrameUpdate(keys: Keys, externalControl: bool, promiseIsNull: bool, env: Env)
      returns (build: Option<Build>, threw: bool)
      requires Valid() && Fits(ctx, env)
      modifies this, codec.tmp
      ensures var res := SessionRules.PostAnimFrameUpdate(ctx, old(View()), env, keys, externalControl, promiseIsNull);
        View() == res.st && threw == res.Thrown? && (res.Ok? ==> build == res.value)
      ensures Valid()
    {
      build, threw := CheckKeyShortcuts(keys, promiseIsNull, env);
      if threw {
        return;
      }
      AdvanceTimeScale(externalControl);
    }

    /** The time scale for this frame goes to the viewer unless it is externally driven; a frame step is consumed. */
    method AdvanceTimeScale(externalControl: bool)
      requires Valid()
      modifies this
      ensures View() == AdvanceFrame(old(View()), externalControl)
      ensures Valid()
    {
      var scale := sceneTimeScale;
      if isFrameStep {
        scale := scale / 4.0;
        isFrameStep := false;
      } else if !isPlaying {
        scale := 0.0;
      }
      if !externalControl {
        log := log + [SceneTimeScaleSet(scale)];
      }
    }
  }

  /** One more digit key after a run of keys that did not throw. */
  lemma DigitShortcutsNext(c: Context, st: State, env: Env, keys: Keys, n: int)
    requires Wf(c, st) && Fits(c, env) && 1 <= n <= 9
    requires DigitShortcuts(c, st, env, keys, n - 1).Ok?
    ensures DigitShortcuts(c, st, env, keys, n) == DigitShortcut(c, DigitShortcuts(c, st, env, keys, n - 1).st, env, keys, n)
  {
  }

  /** Once a digit's action throws, the later digits are not reached. */
  lemma {:induction false} DigitShortcutsStopAtThrow(c: Context, st: State, env: Env, keys: Keys, n: int, m: int)
    requires Wf(c, st) && Fits(c, env) && 0 <= n <= m <= 9
    requires DigitShortcuts(c, st, env, keys, n).Thrown?
    ensures DigitShortcuts(c, st, env, keys, m) == DigitShortcuts(c, st, env, keys, n)
    decreases m
  {
    if n < m {
      DigitShortcutsStopAtThrow(c, st, env, keys, n, m - 1);
    }
  }
}
