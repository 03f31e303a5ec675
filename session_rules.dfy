/**
 * The scene session of the viewer's `Main` controller, as a state and step
 * functions over it: loading a scene descriptor (with its teardown of the
 * previous scene and its guard on build completion), the restore chain run
 * when a build is installed, the save-state actions bound to the digit keys,
 * the play/mute switches, the per-frame time scale and the URL throttle.
 *
 * What the controller hands to code outside this model (the data fetcher,
 * the shared-object cache, the renderer, `window.history`) is recorded as
 * `Event`s in `log`, in the order the calls are made. Scene builds are
 * asynchronous in the source: a load request yields a `Build` and its
 * completion is a later, separate step.
 */
module SessionRules {
  import opened Wrappers
  import opened SceneBase
  import opened SaveState
  import opened SceneDatabase
  import opened HashString

  /** What `mat4.identity` writes into the camera's world matrix. */
  const IdentityMatrix: Matrix :=
    [1.0, 0.0, 0.0, 0.0, 0.0, 1.0, 0.0, 0.0, 0.0, 0.0, 1.0, 0.0, 0.0, 0.0, 0.0, 1.0]

  /** `loadSceneDelta`, the age handed to `pruneOldObjects`. */
  const LoadSceneDelta: int := 1

  /** Minimum seconds between two URL updates that are not forced. */
  const URLThrottleSeconds: real := 2.0

  datatype Controller = FPSCameraController | SceneController(serial: nat)

  /**
   * A built scene. `cameraController` is what its `createCameraController`
   * makes, `defaultWorldMatrix` what its `getDefaultWorldMatrix` writes;
   * `savesState`/`restoresState` say whether it has `serializeSaveState`
   * and `deserializeSaveState`.
   */
  datatype SceneGfx = SceneGfx(
    serial: nat,
    desc: SceneDesc,
    cameraController: Option<Controller>,
    defaultWorldMatrix: Option<Matrix>,
    savesState: bool,
    restoresState: bool)

  /** An entry of the destroyable pool: a scene, or a resource a scene build pushed into it. */
  datatype Destroyable = SceneObject(scene: SceneGfx) | Resource(serial: nat)

  /** The save manager's key for save slot `slot` of a scene id. */
  datatype SlotKey = SlotKey(sceneDescId: string, slot: int)

  datatype SaveStatesAction = Save | Delete | Load | LoadDefault

  /** Calls into code outside the model, in the order they are made. */
  datatype Event =
    | FetchAborted                                    // dataFetcher.abort()
    | ViewerSceneSet(scene: Option<SceneGfx>)         // viewer.setScene(...)
    | Destroyed(item: Destroyable)                    // item.destroy(device)
    | FetcherReset                                    // dataFetcher.reset()
    | OldObjectsPruned(delta: int)                    // dataShare.pruneOldObjects(device, delta)
    | NewSceneLoaded                                  // dataShare.loadNewScene()
    | BuildStarted(desc: SceneDesc)                   // sceneDesc.createScene(device, context)
    | ProgressCompleted                               // dataFetcher.setProgress()
    | SceneTimeSet(raw: seq<byte>)                    // viewer.sceneTime from a version-2 state
    | SceneStateOffered(offset: nat, byteLength: nat) // scene.deserializeSaveState(buffer, offset, length)
    | CameraUpdateForced                              // cameraController.cameraUpdateForced()
    | URLReplaced(hash: string)                       // window.history.replaceState(..., hash)
    | PlayingSet(playing: bool)                       // viewer.setIsPlaying(v)
    | MutedSet(muted: bool)                           // viewer.setIsMuted(v)
    | SceneTimeScaleSet(scale: real)                  // viewer.sceneTimeScale = scale

  /**
   * The controller's state. `pool` is the destroyable pool, `scene` the
   * viewer's scene, `camera` the camera's world matrix, `store` the save
   * slots the save manager reads and writes, `defaults` its read-only
   * default states, `buf` the 512-byte save-state scratch buffer.
   */
  datatype State = State(
    current: Option<SceneDesc>,
    loading: Option<SceneDesc>,
    pool: seq<Destroyable>,
    scene: Option<SceneGfx>,
    camera: Matrix,
    controller: Option<Controller>,
    isPlaying: bool,
    isMuted: bool,
    isFrameStep: bool,
    sceneTimeScale: real,
    lastURLTime: real,
    shareState: string,
    store: map<SlotKey, string>,
    defaults: map<SlotKey, string>,
    buf: seq<byte>,
    log: seq<Event>)

  /** The parts that do not change: the registry and the foreign codecs. */
  datatype Context = Context(registry: Registry, codec: Collaborators)

  /**
   * Foreign readings taken during one step: the bytes the live scene's
   * `serializeSaveState` writes, and `performance.now()` in seconds.
   */
  datatype Env = Env(sceneBytes: seq<byte>, now: real)

  /** A pending scene build: the descriptor and the state string its completion callback captured. */
  datatype Build = Build(desc: SceneDesc, stateStr: Option<string>)

  /** A step that returns normally with a value, or throws out of the controller. */
  datatype Res<T> = Ok(st: State, value: T) | Thrown(st: State)

  /** Keys seen in one frame: the digit keys triggered, modifiers held, and the other shortcuts. */
  datatype Keys = Keys(digits: set<int>, shiftDown: bool, altDown: bool, period: bool, comma: bool, f9: bool)

  /** The state the source starts from, before any scene is loaded. */
  function InitialState(defaults: map<SlotKey, string>): State
  {
    State(None, None, [], None, IdentityMatrix, None, false, true, false, 1.0, -1.0, "",
          map[], defaults, seq(BufferSize, _ => 0 as byte), [])
  }

  /**
   * What the session relies on in its context: codecs that behave, and a
   * registry that knows a group for exactly the descriptors it has ids for
   * (part of `Consistent`, which every built registry satisfies).
   */
  ghost predicate Trusted(c: Context)
  {
    ValidCollaborators(c.codec) && c.registry.sceneDescToId.Keys == c.registry.sceneDescToGroup.Keys
  }

  ghost predicate Wf(c: Context, st: State)
  {
    && Trusted(c)
    && |st.buf| == BufferSize
    && (st.current.Some? ==> st.current.value in c.registry.sceneDescToId)
    && (st.loading.Some? ==> st.current == st.loading)
  }

  /** The scene's bytes fit in the scratch buffer after the options byte and the camera. */
  predicate Fits(c: Context, env: Env)
  {
    1 + c.codec.cameraSize + |env.sceneBytes| <= BufferSize
  }

  /** Everything about the loaded scene that saving and restoring state leaves alone. */
  predicate SameScene(a: State, b: State)
  {
    && a.current == b.current && a.loading == b.loading && a.pool == b.pool
    && a.scene == b.scene && a.controller == b.controller
    && a.isPlaying == b.isPlaying && a.isFrameStep == b.isFrameStep
  }

  function Lookup(m: map<SlotKey, string>, key: SlotKey): (r: Option<string>)
    ensures r.Some? <==> key in m
    ensures r.Some? ==> r.value == m[key]
  {
    if key in m then Some(m[key]) else None
  }

  function CurrentId(c: Context, st: State): string
    requires st.current.Some? && st.current.value in c.registry.sceneDescToId
  {
    c.registry.sceneDescToId[st.current.value]
  }

  // ---------------------------------------------------------------------
  // Play and mute switches, time scale, URL throttle
  // ---------------------------------------------------------------------

  /** `setIsPlaying`: nothing happens when the value is already set. */
  function SetPlaying(st: State, v: bool): (r: State)
    ensures r.isPlaying == v
    ensures st.isPlaying == v ==> r == st
    ensures r == st.(isPlaying := v, log := r.log)
    ensures |st.log| <= |r.log| <= |st.log| + 1 && r.log[..|st.log|] == st.log
  {
    if st.isPlaying == v then st else st.(isPlaying := v, log := st.log + [PlayingSet(v)])
  }

  /** `setIsMuted`: likewise. */
  function SetMuted(st: State, v: bool): (r: State)
    ensures r.isMuted == v
    ensures st.isMuted == v ==> r == st
    ensures r == st.(isMuted := v, log := r.log)
    ensures |st.log| <= |r.log| <= |st.log| + 1 && r.log[..|st.log|] == st.log
  {
    if st.isMuted == v then st else st.(isMuted := v, log := st.log + [MutedSet(v)])
  }

  /** The time scale a frame hands to the viewer: a quarter during a frame step, zero while paused. */
  function FrameTimeScale(scale: real, isFrameStep: bool, isPlaying: bool): real
  {
    if isFrameStep then scale / 4.0 else if !isPlaying then 0.0 else scale
  }

  /** Whether `_autoSaveState` replaces the URL. */
  function ShouldUpdateURL(force: bool, now: real, last: real): bool
  {
    force || now - last >= URLThrottleSeconds
  }

  // ---------------------------------------------------------------------
  // Saving and restoring state
  // ---------------------------------------------------------------------

  /** What the live scene's serializer contributes: nothing without a scene that saves state. */
  function SceneBytes(st: State, env: Env): seq<byte>
  {
    if st.scene.Some? && st.scene.value.savesState then env.sceneBytes else []
  }

  /** `_getSceneSaveState`: the writer runs in the scratch buffer and returns the share form. */
  function GetSceneSaveState(c: Context, st: State, env: Env): (r: (State, string))
    requires Wf(c, st) && Fits(c, env)
    ensures Wf(c, r.0) && SameScene(r.0, st)
  {
    var layout := Layout(c.codec, st.camera, SceneBytes(st, env));
    (st.(buf := WrittenAt(st.buf, 0, layout)), "ShareData=" + c.codec.btoa(layout))
  }

  /** The saving half of `_autoSaveState`: the state goes to save slot 0 and into the share string `id;state`. */
  function SaveCurrent(c: Context, st: State, env: Env): (r: State)
    requires Wf(c, st) && Fits(c, env) && st.current.Some?
    ensures Wf(c, r) && SameScene(r, st)
    ensures r.camera == st.camera && r.lastURLTime == st.lastURLTime && r.log == st.log
  {
    var (st1, s) := GetSceneSaveState(c, st, env);
    var id := CurrentId(c, st);
    st1.(store := st1.store[SlotKey(id, 0) := s], shareState := ShareString(id, s))
  }

  /** The URL half: the share string goes to the URL when forced or once the last update is two seconds old. */
  function UpdateURL(st: State, now: real, force: bool): State
  {
    if ShouldUpdateURL(force, now, st.lastURLTime) then
      st.(log := st.log + [URLReplaced("#" + st.shareState)], lastURLTime := now)
    else
      st
  }

  /** `_autoSaveState`: both halves, when a scene is loaded. */
  function AutoSave(c: Context, st: State, env: Env, force: bool): (r: State)
    requires Wf(c, st) && Fits(c, env)
    ensures Wf(c, r) && SameScene(r, st) && r.camera == st.camera
  {
    if st.current.None? then st else UpdateURL(SaveCurrent(c, st, env), env.now, force)
  }

  /** What a reader does with what it decoded: time, camera, scene bytes, then the controller is told. */
  function ApplyDecoded(st: State, d: Decoded): State
  {
    var timeEvents := if d.sceneTime.Some? then [SceneTimeSet(d.sceneTime.value)] else [];
    var sceneEvents :=
      if st.scene.Some? && st.scene.value.restoresState then [SceneStateOffered(d.sceneOffset, d.byteLength)] else [];
    var forced := if st.controller.Some? then [CameraUpdateForced] else [];
    st.(camera := d.camera, log := st.log + timeEvents + sceneEvents + forced)
  }

  /**
   * `_loadSceneSaveState`: empty or unrecognised text is declined; a decoded
   * state is applied and then saved with a forced URL update.
   */
  function LoadState(c: Context, st: State, env: Env, state: Option<string>): (r: Res<bool>)
    requires Wf(c, st) && Fits(c, env)
    ensures Wf(c, r.st) && SameScene(r.st, st)
    ensures r.Ok? && !r.value ==> r.st == st.(buf := r.st.buf)
  {
    var (buf, o) := LoadSaveState(c.codec, st.buf, state);
    var st1 := st.(buf := buf);
    match o
    case Declined => Ok(st1, false)
    case Threw => Thrown(st1)
    case Applied(d) => Ok(AutoSave(c, ApplyDecoded(st1, d), env, true), true)
  }

  /** `doSaveStatesAction`. */
  function DoSaveStatesAction(c: Context, st: State, env: Env, action: SaveStatesAction, key: SlotKey): (r: Res<()>)
    requires Wf(c, st) && Fits(c, env)
    ensures Wf(c, r.st) && SameScene(r.st, st)
  {
    match action
    case Save =>
      var (st1, s) := GetSceneSaveState(c, st, env);
      Ok(st1.(store := st1.store[key := s]), ())
    case Delete => Ok(st.(store := st.store - {key}), ())
    case Load =>
      var res := LoadState(c, st, env, Lookup(st.store, key));
      if res.Ok? then Ok(res.st, ()) else Thrown(res.st)
    case LoadDefault =>
      var res := LoadState(c, st, env, Lookup(st.defaults, key));
      if res.Ok? then Ok(res.st, ()) else Thrown(res.st)
  }

  /** `_pickSaveStatesAction`: Shift saves, otherwise Alt deletes, otherwise load. */
  function PickSaveStatesAction(shiftDown: bool, altDown: bool): SaveStatesAction
  {
    if shiftDown then Save else if altDown then Delete else Load
  }

  // ---------------------------------------------------------------------
  // Loading a scene descriptor
  // ---------------------------------------------------------------------

  /** The pool with the viewer's scene appended, unless the pool already holds it. */
  function PoolWithScene(st: State): seq<Destroyable>
  {
    if st.scene.Some? && SceneObject(st.scene.value) !in st.pool then st.pool + [SceneObject(st.scene.value)] else st.pool
  }

  /** One `destroy` call per item, in order. */
  function DestroyEvents(items: seq<Destroyable>): (r: seq<Event>)
    ensures |r| == |items|
    ensures forall i :: 0 <= i < |items| ==> r[i] == Destroyed(items[i])
  {
    if items == [] then [] else DestroyEvents(items[..|items| - 1]) + [Destroyed(items[|items| - 1])]
  }

  /**
   * Teardown of the old scene: abort the fetcher, put the live scene in
   * the pool if absent, clear the viewer, destroy the pool in index order
   * and empty it.
   */
  function Teardown(st: State): State
  {
    DestroyPool(StashScene(st))
  }

  /** The first half of teardown: abort the fetcher, put the live scene in the pool if absent, clear the viewer. */
  function StashScene(st: State): State
  {
    st.(pool := PoolWithScene(st), scene := None, log := st.log + [FetchAborted, ViewerSceneSet(None)])
  }

  /** The second half: destroy the pool in index order and empty it. */
  function DestroyPool(st: State): State
  {
    st.(pool := [], log := st.log + DestroyEvents(st.pool))
  }

  /**
   * A scene build pushes an object into `destroyablePool`. Every build's
   * context holds the controller's one pool, so a build that was superseded
   * pushes into the same pool as the current one.
   */
  function RegisterDestroyable(st: State, item: Destroyable): State
  {
    st.(pool := st.pool + [item])
  }

  /**
   * `_loadSceneDesc`. The same descriptor without `force` only re-applies
   * the state string. Otherwise the old scene is torn down; a descriptor
   * the registry has no group for throws there; the new descriptor becomes
   * current and loading, the cache is pruned before it starts a new scene,
   * and the build starts. `promiseIsNull` is a build that `createScene`
   * refused, which throws.
   */
  function LoadSceneDesc(c: Context, st: State, env: Env, desc: SceneDesc, stateStr: Option<string>,
                         force: bool, promiseIsNull: bool): (r: Res<Option<Build>>)
    requires Wf(c, st) && Fits(c, env)
    ensures Wf(c, r.st)
  {
    if st.current == Some(desc) && !force then
      var res := LoadState(c, st, env, stateStr);
      if res.Ok? then Ok(res.st, None) else Thrown(res.st)
    else
      BeginBuild(c, Teardown(st), desc, stateStr, promiseIsNull)
  }

  /**
   * What `_loadSceneDesc` does after teardown: a descriptor without a group
   * throws; otherwise it becomes current and loading, the cache is pruned
   * before a new scene starts, and the build starts.
   */
  function BeginBuild(c: Context, st: State, desc: SceneDesc, stateStr: Option<string>, promiseIsNull: bool): (r: Res<Option<Build>>)
    requires Wf(c, st)
    ensures Wf(c, r.st)
  {
    if desc !in c.registry.sceneDescToGroup then Thrown(st)
    else
      var st1 := st.(current := Some(desc), loading := Some(desc),
                     log := st.log + [FetcherReset, OldObjectsPruned(LoadSceneDelta), NewSceneLoaded, BuildStarted(desc)]);
      if promiseIsNull then Thrown(st1) else Ok(st1, Some(Build(desc, stateStr)))
  }

  /** The camera controller after a scene change: the scene's own, else the one set, else a new FPS controller. */
  function ControllerAfter(scene: SceneGfx, current: Option<Controller>): Option<Controller>
  {
    if scene.cameraController.Some? then scene.cameraController
    else if current.Some? then current
    else Some(FPSCameraController)
  }

  /** The start of `_onSceneChanged`: play, and choose the camera controller. */
  function PrepareScene(st: State, scene: SceneGfx): (r: State)
    ensures r.current == st.current && r.loading == st.loading && r.buf == st.buf
  {
    var st1 := SetPlaying(st, true);
    st1.(controller := ControllerAfter(scene, st1.controller))
  }

  /** The fallback once the state string did not load: save slot 1, else the scene's default matrix, else identity. */
  function RestoreFallback(c: Context, st: State, env: Env, scene: SceneGfx, id: string): (r: Res<()>)
    requires Wf(c, st) && Fits(c, env)
    ensures Wf(c, r.st)
  {
    var res := LoadState(c, st, env, Lookup(st.store, SlotKey(id, 1)));
    if res.Thrown? then Thrown(res.st)
    else if res.value then Ok(res.st, ())
    else Ok(res.st.(camera := if scene.defaultWorldMatrix.Some? then scene.defaultWorldMatrix.value else IdentityMatrix), ())
  }

  /** The restore chain: the state string, else the fallback. */
  function RestoreChain(c: Context, st: State, env: Env, scene: SceneGfx, stateStr: Option<string>, id: string): (r: Res<()>)
    requires Wf(c, st) && Fits(c, env)
    ensures Wf(c, r.st)
  {
    var res := LoadState(c, st, env, stateStr);
    if res.Thrown? then Thrown(res.st)
    else if res.value then Ok(res.st, ())
    else RestoreFallback(c, res.st, env, scene, id)
  }

  /**
   * `_onSceneChanged`: play, choose the controller, then restore from the
   * state string, else from save slot 1, else from the scene's default
   * matrix, else identity; finally save with a forced URL update.
   */
  function OnSceneChanged(c: Context, st: State, env: Env, scene: SceneGfx, stateStr: Option<string>): (r: Res<()>)
    requires Wf(c, st) && Fits(c, env) && st.current.Some?
    ensures Wf(c, r.st)
  {
    var st1 := PrepareScene(st, scene);
    var res := RestoreChain(c, st1, env, scene, stateStr, CurrentId(c, st1));
    if res.Thrown? then res else Ok(AutoSave(c, res.st, env, true), ())
  }

  /**
   * The completion callback of a build: installed only while its
   * descriptor is still the one loading; `value` says whether it was.
   */
  function OnBuildResolved(c: Context, st: State, env: Env, b: Build, scene: SceneGfx): (r: Res<bool>)
    requires Wf(c, st) && Fits(c, env)
    ensures Wf(c, r.st)
  {
    if st.loading != Some(b.desc) then Ok(st, false)
    else
      var res := OnSceneChanged(c, InstallScene(st, scene), env, scene, b.stateStr);
      if res.Ok? then Ok(res.st, true) else Thrown(res.st)
  }

  /** The build's scene goes to the viewer and nothing is loading any more. */
  function InstallScene(st: State, scene: SceneGfx): State
  {
    st.(loading := None, scene := Some(scene), log := st.log + [ProgressCompleted, ViewerSceneSet(Some(scene))])
  }

  /**
   * `_loadInitialStateFromHash`: a registered id in the hash loads its
   * descriptor, with save slot 0 taking precedence over the hash's state.
   */
  function LoadInitialStateFromHash(c: Context, st: State, env: Env, hash: string, promiseIsNull: bool): (r: Res<Option<Build>>)
    requires Wf(c, st) && Fits(c, env)
    ensures Wf(c, r.st)
  {
    var (id, hashState) := DecodeHash(hash);
    var desc := SceneDescForId(c.registry, id);
    if desc.None? then Ok(st, None)
    else
      var state := Lookup(st.store, SlotKey(id, 0)).GetOr(hashState);
      LoadSceneDesc(c, st, env, desc.value, Some(state), false, promiseIsNull)
  }

  /** `_onHashChange`: a registered id in the hash loads its descriptor with the hash's state. */
  function OnHashChange(c: Context, st: State, env: Env, hash: string, promiseIsNull: bool): (r: Res<Option<Build>>)
    requires Wf(c, st) && Fits(c, env)
    ensures Wf(c, r.st)
  {
    var (id, hashState) := DecodeHash(hash);
    var desc := SceneDescForId(c.registry, id);
    if desc.None? then Ok(st, None)
    else LoadSceneDesc(c, st, env, desc.value, Some(hashState), false, promiseIsNull)
  }

  // ---------------------------------------------------------------------
  // Key shortcuts and the frame update
  // ---------------------------------------------------------------------

  /** The digit keys 1 to `n`, in order: each triggered one runs the chosen action on its slot while a scene is loaded. */
  function DigitShortcuts(c: Context, st: State, env: Env, keys: Keys, n: int): (r: Res<()>)
    requires Wf(c, st) && Fits(c, env) && 0 <= n <= 9
    ensures Wf(c, r.st) && SameScene(r.st, st)
    decreases n
  {
    if n == 0 then Ok(st, ())
    else
      var res := DigitShortcuts(c, st, env, keys, n - 1);
      if res.Thrown? then res else DigitShortcut(c, res.st, env, keys, n)
  }

  /** Digit key `n`: when triggered while a scene is loaded, the chosen action on slot `n` of that scene. */
  function DigitShortcut(c: Context, st: State, env: Env, keys: Keys, n: int): (r: Res<()>)
    requires Wf(c, st) && Fits(c, env)
    ensures Wf(c, r.st) && SameScene(r.st, st)
  {
    if n in keys.digits && st.current.Some? then
      DoSaveStatesAction(c, st, env, PickSaveStatesAction(keys.shiftDown, keys.altDown), SlotKey(CurrentId(c, st), n))
    else Ok(st, ())
  }

  /**
   * F9: reload the current descriptor with its state, forced. The state is
   * written before the call; with no descriptor loaded the call tears down
   * and then throws on the missing group.
   */
  function Reload(c: Context, st: State, env: Env, promiseIsNull: bool): (r: Res<Option<Build>>)
    requires Wf(c, st) && Fits(c, env)
    ensures Wf(c, r.st)
  {
    var (st1, saved) := GetSceneSaveState(c, st, env);
    if st1.current.None? then Thrown(Teardown(st1))
    else LoadSceneDesc(c, st1, env, st1.current.value, Some(saved), true, promiseIsNull)
  }

  /** `_checkKeyShortcuts`: digits, then Period toggles play, Comma pauses for a frame step, F9 reloads. */
  function KeyShortcuts(c: Context, st: State, env: Env, keys: Keys, promiseIsNull: bool): (r: Res<Option<Build>>)
    requires Wf(c, st) && Fits(c, env)
    ensures Wf(c, r.st)
  {
    var res := DigitShortcuts(c, st, env, keys, 9);
    if res.Thrown? then Thrown(res.st)
    else
      var st1 := PlaybackKeys(res.st, keys);
      if keys.f9 then Reload(c, st1, env, promiseIsNull) else Ok(st1, None)
  }

  /** Period toggles play; Comma pauses and asks for one frame step. */
  function PlaybackKeys(st: State, keys: Keys): (r: State)
    ensures r.current == st.current && r.loading == st.loading && r.buf == st.buf
  {
    var st1 := if keys.period then SetPlaying(st, !st.isPlaying) else st;
    if keys.comma then SetPlaying(st1, false).(isFrameStep := true) else st1
  }

  /** The time-scale part of a frame: a frame step is consumed, and the viewer gets the scale unless externally driven. */
  function AdvanceFrame(st: State, externalControl: bool): State
  {
    var scale := FrameTimeScale(st.sceneTimeScale, st.isFrameStep, st.isPlaying);
    var st1 := st.(isFrameStep := false);
    if externalControl then st1 else st1.(log := st1.log + [SceneTimeScaleSet(scale)])
  }

  /** `_onPostAnimFrameUpdate`: the shortcuts, then the time scale. */
  function PostAnimFrameUpdate(c: Context, st: State, env: Env, keys: Keys, externalControl: bool,
                               promiseIsNull: bool): (r: Res<Option<Build>>)
    requires Wf(c, st) && Fits(c, env)
    ensures Wf(c, r.st)
  {
    var res := KeyShortcuts(c, st, env, keys, promiseIsNull);
    if res.Thrown? then res else Ok(AdvanceFrame(res.st, externalControl), res.value)
  }
}
