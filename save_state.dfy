/**
 * The save-state codec: a camera pose and opaque scene bytes laid out in a
 * shared 512-byte scratch buffer and carried as text. Three text forms are
 * recognised by prefix: legacy version 2 (`ZNCA8...=`), version 3 (`A...`)
 * and the share form (`ShareData=...`), which has the version-3 layout and is
 * the only form the writer produces.
 *
 * The Ascii85 text codec and the camera (de)serialiser live in other modules
 * of the viewer; here they are parameters bundled in `Collaborators`, and
 * `ValidCollaborators` states what this codec relies on them for.
 */
module SaveState {
  import opened Wrappers
  import opened SceneBase

  /** Size of the scratch buffer `_saveStateTmp`. */
  const BufferSize: nat := 512

  /** A camera world matrix, opaque here. */
  type Matrix = seq<real>

  datatype Collaborators = Collaborators(
    btoa: seq<byte> -> string,              // Ascii85 text of the first bytes of the buffer
    atob: string -> seq<byte>,              // the bytes Ascii85 decoding writes from offset 0
    cameraSize: nat,                        // bytes serializeCamera writes
    serializeCamera: Matrix -> seq<byte>,
    deserializeCamera: seq<byte> -> Matrix)

  /**
   * The text codec round-trips every buffer prefix and decodes into the
   * buffer; the camera block has a fixed size that fits after the version-2
   * time field. The camera codec is lossy (it writes float32 values), so
   * nothing is assumed about reading a camera back beyond its block size.
   */
  ghost predicate ValidCollaborators(c: Collaborators)
  {
    && (forall s: string :: |c.atob(s)| <= BufferSize)
    && 4 + c.cameraSize <= BufferSize
    && (forall m: Matrix :: |c.serializeCamera(m)| == c.cameraSize)
  }

  /** The Ascii85 text codec gives back every buffer prefix it encoded. */
  ghost predicate TextRoundTrips(c: Collaborators)
  {
    forall b: seq<byte> :: |b| <= BufferSize ==> c.atob(c.btoa(b)) == b
  }

  /** The camera pose a saved state gives back: what the camera reader makes of the writer's bytes. */
  function StoredCamera(c: Collaborators, m: Matrix): Matrix
  {
    c.deserializeCamera(c.serializeCamera(m))
  }

  /** Which reader a save-state text goes to, and the text it hands that reader. */
  datatype Route = V2Body(body: string) | V3Body(body: string) | Unrecognized

  /** What a save-state reader recovered. `sceneTime` is the version-2 float32, as its 4 raw bytes. */
  datatype Decoded = Decoded(sceneTime: Option<seq<byte>>, camera: Matrix, sceneOffset: nat, byteLength: nat)

  /**
   * Result of loading a save state: not attempted or not recognised
   * (`Declined`, the source's `false`), decoded (`Applied`), or aborted by the
   * options-byte assertion (`Threw`: the exception leaves the caller).
   */
  datatype LoadOutcome = Declined | Applied(decoded: Decoded) | Threw

  predicate StartsWith(s: string, prefix: string)
  {
    |prefix| <= |s| && s[..|prefix|] == prefix
  }

  predicate EndsWith(s: string, suffix: string)
  {
    |suffix| <= |s| && s[|s| - |suffix|..] == suffix
  }

  /** A text with both version-2 markers is at least six characters long: they cannot overlap. */
  lemma V2MarkersLength(s: string)
    requires StartsWith(s, "ZNCA8") && EndsWith(s, "=")
    ensures |s| >= 6
  {
    assert s[4] == "ZNCA8"[4] == '8';
    assert s[|s| - 1] == "="[0] == '=';
  }

  /** Prefix dispatch of `_tryLoadSceneSaveState`, tested in source order. */
  function RouteOf(state: string): Route
  {
    if StartsWith(state, "ZNCA8") && EndsWith(state, "=") then
      V2MarkersLength(state);
      V2Body(state[5..|state| - 1])
    else if StartsWith(state, "A") then V3Body(state[1..])
    else if StartsWith(state, "ShareData=") then V3Body(state[10..])
    else Unrecognized
  }

  /** The bytes the writer lays out: options byte 0, the camera block, the scene's bytes. */
  function Layout(c: Collaborators, camera: Matrix, sceneBytes: seq<byte>): seq<byte>
  {
    [0] + c.serializeCamera(camera) + sceneBytes
  }

  /** `buf` with `bytes` written from `offset` on, the rest untouched. */
  function WrittenAt(buf: seq<byte>, offset: nat, bytes: seq<byte>): (r: seq<byte>)
    requires offset + |bytes| <= |buf|
    ensures |r| == |buf|
  {
    buf[..offset] + bytes + buf[offset + |bytes|..]
  }

  /** Two adjacent writes are one write of both blocks. */
  lemma WrittenAtAdjacent(buf: seq<byte>, offset: nat, a: seq<byte>, b: seq<byte>)
    requires offset + |a| + |b| <= |buf|
    ensures WrittenAt(WrittenAt(buf, offset, a), offset + |a|, b) == WrittenAt(buf, offset, a + b)
  {
    var w := WrittenAt(WrittenAt(buf, offset, a), offset + |a|, b);
    forall k | 0 <= k < |buf| ensures w[k] == WrittenAt(buf, offset, a + b)[k] {
    }
  }

  /** What a write from offset 0 leaves at the front of the buffer is what was written. */
  lemma WrittenAtPrefix(buf: seq<byte>, bytes: seq<byte>)
    requires |bytes| <= |buf|
    ensures WrittenAt(buf, 0, bytes)[..|bytes|] == bytes
  {
  }

  /**
   * The scene-specific bytes a scene's `deserializeSaveState` is offered:
   * those between its offset and the decoded length (none if the offset is past it).
   */
  function SceneBlock(buf: seq<byte>, d: Decoded): seq<byte>
    requires d.byteLength <= |buf|
  {
    if d.sceneOffset <= d.byteLength then buf[d.sceneOffset..d.byteLength] else []
  }

  /** Version-2 reader on buffer contents `buf`: the new contents and what was read. */
  function ReadV2(c: Collaborators, buf: seq<byte>, body: string): (r: (seq<byte>, Decoded))
    requires ValidCollaborators(c) && |buf| == BufferSize
    ensures |r.0| == BufferSize && r.1.byteLength <= BufferSize
  {
    var bytes := c.atob(body);
    var buf' := WrittenAt(buf, 0, bytes);
    (buf', Decoded(Some(buf'[0..4]), c.deserializeCamera(buf'[4..4 + c.cameraSize]), 4 + c.cameraSize, |bytes|))
  }

  /** Version-3 reader: `None` when the options byte is not 0 (the source's assertion throws). */
  function ReadV3(c: Collaborators, buf: seq<byte>, body: string): (r: (seq<byte>, Option<Decoded>))
    requires ValidCollaborators(c) && |buf| == BufferSize
    ensures |r.0| == BufferSize
    ensures r.1.Some? ==> r.1.value.byteLength <= BufferSize
  {
    var bytes := c.atob(body);
    var buf' := WrittenAt(buf, 0, bytes);
    if buf'[0] != 0 then (buf', None)
    else (buf', Some(Decoded(None, c.deserializeCamera(buf'[1..1 + c.cameraSize]), 1 + c.cameraSize, |bytes|)))
  }

  /** `_loadSceneSaveState`: empty or absent text declines, otherwise dispatch by prefix. */
  function LoadSaveState(c: Collaborators, buf: seq<byte>, state: Option<string>): (r: (seq<byte>, LoadOutcome))
    requires ValidCollaborators(c) && |buf| == BufferSize
    ensures |r.0| == BufferSize
    ensures r.1.Applied? ==> r.1.decoded.byteLength <= BufferSize
  {
    if state.None? || state.value == "" then (buf, Declined)
    else
      match RouteOf(state.value)
      case Unrecognized => (buf, Declined)
      case V2Body(body) => var (b, d) := ReadV2(c, buf, body); (b, Applied(d))
      case V3Body(body) =>
        var (b, d) := ReadV3(c, buf, body);
        (b, if d.Some? then Applied(d.value) else Threw)
  }

  /** The scratch buffer and the codec methods that work in it. */
  class SaveStateBuffer {
    const collab: Collaborators
    const tmp: array<byte>

    ghost predicate Valid()
    {
      tmp.Length == BufferSize && ValidCollaborators(collab)
    }

    constructor (c: Collaborators)
      requires ValidCollaborators(c)
      ensures Valid() && collab == c && fresh(tmp)
      ensures tmp[..] == seq(BufferSize, _ => 0)
    {
      collab := c;
      tmp := new byte[BufferSize](_ => 0);
    }

    /** Copies `bytes` into the buffer from `offset` on (what the external writers do). */
    method WriteAt(offset: nat, bytes: seq<byte>)
      requires offset + |bytes| <= tmp.Length
      modifies tmp
      ensures tmp[..] == WrittenAt(old(tmp[..]), offset, bytes)
    {
      forall k | 0 <= k < |bytes| {
        tmp[offset + k] := bytes[k];
      }
      assert tmp[..] == WrittenAt(old(tmp[..]), offset, bytes);
    }

    /**
     * `_getSceneSaveState`: options byte 0 at offset 0, the camera from offset
     * 1, then the scene's bytes; the text is `ShareData=` and the Ascii85 of
     * the bytes written.
     */
    method GetSceneSaveState(camera: Matrix, sceneBytes: seq<byte>) returns (s: string)
      requires Valid()
      requires 1 + collab.cameraSize + |sceneBytes| <= BufferSize
      modifies tmp
      ensures s == "ShareData=" + collab.btoa(Layout(collab, camera, sceneBytes))
      ensures tmp[..] == WrittenAt(old(tmp[..]), 0, Layout(collab, camera, sceneBytes))
    {
      var byteOffs: nat := 0;
      ghost var before := tmp[..];
      tmp[byteOffs] := 0;
      assert tmp[..] == WrittenAt(before, 0, [0]);
      byteOffs := byteOffs + 1;
      var cameraBlock := collab.serializeCamera(camera);
      WriteAt(byteOffs, cameraBlock);
      WrittenAtAdjacent(before, 0, [0], cameraBlock);
      byteOffs := byteOffs + |cameraBlock|;
      WriteAt(byteOffs, sceneBytes);
      WrittenAtAdjacent(before, 0, [0] + cameraBlock, sceneBytes);
      byteOffs := byteOffs + |sceneBytes|;
      WrittenAtPrefix(before, Layout(collab, camera, sceneBytes));
      s := "ShareData=" + collab.btoa(tmp[..byteOffs]);
    }

    /** `_loadSceneSaveStateVersion2`. */
    method LoadVersion2(state: string) returns (d: Decoded)
      requires Valid()
      modifies tmp
      ensures (tmp[..], d) == ReadV2(collab, old(tmp[..]), state)
    {
      var bytes := collab.atob(state);
      WriteAt(0, bytes);
      var byteLength := |bytes|;
      var byteOffs := 0;
      var sceneTime := tmp[byteOffs..byteOffs + 4];
      byteOffs := byteOffs + 4;
      var camera := collab.deserializeCamera(tmp[byteOffs..byteOffs + collab.cameraSize]);
      byteOffs := byteOffs + collab.cameraSize;
      d := Decoded(Some(sceneTime), camera, byteOffs, byteLength);
    }

    /** `_loadSceneSaveStateVersion3`; `None` where the options-byte assertion throws. */
    method LoadVersion3(state: string) returns (d: Option<Decoded>)
      requires Valid()
      modifies tmp
      ensures (tmp[..], d) == ReadV3(collab, old(tmp[..]), state)
    {
      var bytes := collab.atob(state);
      WriteAt(0, bytes);
      var byteLength := |bytes|;
      var byteOffs := 0;
      var optionsBits := tmp[byteOffs];
      if optionsBits != 0 {
        return None;
      }
      byteOffs := byteOffs + 1;
      var camera := collab.deserializeCamera(tmp[byteOffs..byteOffs + collab.cameraSize]);
      byteOffs := byteOffs + collab.cameraSize;
      d := Some(Decoded(None, camera, byteOffs, byteLength));
    }

    /** `_tryLoadSceneSaveState` behind the empty-text test of `_loadSceneSaveState`. */
    method LoadSceneSaveState(state: Option<string>) returns (o: LoadOutcome)
      requires Valid()
      modifies tmp
      ensures (tmp[..], o) == LoadSaveState(collab, old(tmp[..]), state)
    {
      if state.None? || state.value == "" {
        return Declined;
      }
      var s := state.value;
      if StartsWith(s, "ZNCA8") && EndsWith(s, "=") {
        V2MarkersLength(s);
        var d := LoadVersion2(s[5..|s| - 1]);
        return Applied(d);
      }
      if StartsWith(s, "A") {
        var d := LoadVersion3(s[1..]);
        return if d.Some? then Applied(d.value) else Threw;
      }
      if StartsWith(s, "ShareData=") {
        var d := LoadVersion3(s[10..]);
        return if d.Some? then Applied(d.value) else Threw;
      }
      return Declined;
    }
  }

  // ---------------------------------------------------------------------
  // Properties
  // ---------------------------------------------------------------------

  /** Dispatch order: a `ZNCA8...=` text goes to version 2 with both markers stripped. */
  lemma RouteVersion2(body: string)
    ensures RouteOf("ZNCA8" + body + "=") == V2Body(body)
  {
    var s := "ZNCA8" + body + "=";
    V2MarkersLength(s);
    assert s[..5] == "ZNCA8";
    assert s[|s| - 1..] == "=";
    assert s[5..|s| - 1] == body;
  }

  /** A leading `A` goes to version 3 with one character stripped, whatever it ends with. */
  lemma RouteVersion3(rest: string)
    ensures RouteOf("A" + rest) == V3Body(rest)
  {
    var s := "A" + rest;
    assert s[0] == 'A' && "ZNCA8"[0] == 'Z';
    assert s[..1] == "A";
    assert s[1..] == rest;
  }

  /** The share form goes to the version-3 reader with its 10-character prefix stripped. */
  lemma RouteShareData(body: string)
    ensures RouteOf("ShareData=" + body) == V3Body(body)
  {
    var s := "ShareData=" + body;
    assert s[0] == 'S';
    assert s[..10] == "ShareData=";
    assert s[10..] == body;
  }

  /** `ZNCA8` without a trailing `=` is not a save state at all. */
  lemma RouteVersion2NeedsSuffix(s: string)
    requires StartsWith(s, "ZNCA8") && !EndsWith(s, "=")
    ensures RouteOf(s) == Unrecognized
  {
    assert s[0] == 'Z';
  }

  /** Empty or absent text is declined and leaves the buffer untouched. */
  lemma EmptyStateDeclined(c: Collaborators, buf: seq<byte>, state: Option<string>)
    requires ValidCollaborators(c) && |buf| == BufferSize
    requires state.None? || state.value == ""
    ensures LoadSaveState(c, buf, state) == (buf, Declined)
  {
  }

  /** Text with no recognised prefix is declined and leaves the buffer untouched. */
  lemma UnrecognisedDeclined(c: Collaborators, buf: seq<byte>, s: string)
    requires ValidCollaborators(c) && |buf| == BufferSize
    requires RouteOf(s) == Unrecognized
    ensures LoadSaveState(c, buf, Some(s)) == (buf, Declined)
  {
  }

  /** A version-3 payload whose first decoded byte is not 0 makes the reader throw. */
  lemma NonZeroOptionsThrows(c: Collaborators, buf: seq<byte>, body: string)
    requires ValidCollaborators(c) && |buf| == BufferSize
    requires |c.atob(body)| > 0 && c.atob(body)[0] != 0
    ensures LoadSaveState(c, buf, Some("A" + body)).1 == Threw
    ensures LoadSaveState(c, buf, Some("ShareData=" + body)).1 == Threw
  {
    RouteVersion3(body);
    RouteShareData(body);
  }

  /**
   * Round trip: the text the writer returns is routed to the version-3 reader,
   * which finds options byte 0, hands the camera reader exactly the bytes the
   * camera writer produced, at offset 1, and offers
   * the scene exactly the bytes the scene wrote.
   */
  lemma {:induction false} SaveStateRoundTrip(c: Collaborators, buf: seq<byte>, camera: Matrix, sceneBytes: seq<byte>)
    requires ValidCollaborators(c) && TextRoundTrips(c) && |buf| == BufferSize
    requires 1 + c.cameraSize + |sceneBytes| <= BufferSize
    ensures var layout := Layout(c, camera, sceneBytes);
            var written := WrittenAt(buf, 0, layout);
            var (buf', o) := LoadSaveState(c, written, Some("ShareData=" + c.btoa(layout)));
            && o == Applied(Decoded(None, StoredCamera(c, camera), 1 + c.cameraSize, |layout|))
            && buf' == written
            && SceneBlock(buf', o.decoded) == sceneBytes
  {
    var layout := Layout(c, camera, sceneBytes);
    var cam := c.serializeCamera(camera);
    var written := WrittenAt(buf, 0, layout);
    RouteShareData(c.btoa(layout));
    assert c.atob(c.btoa(layout)) == layout;
    assert WrittenAt(written, 0, layout) == written;
    assert written[0] == 0;
    assert written[1..1 + c.cameraSize] == cam;
    assert written[1 + c.cameraSize..|layout|] == sceneBytes;
  }
}
