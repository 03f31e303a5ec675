/**
 * The per-title Source-engine scene descriptors: for each of the eight
 * descriptor kinds, the key under which its filesystem is cached in the
 * shared-object store, the VPK packages it mounts (in order) and the path of
 * a map's BSP file. The mounting itself, the fetch and the renderer are
 * external and are not part of this model.
 */
module SourceDescs {
  import opened Wrappers
  import opened SceneBase

  const PakfilesPathBase: string := "paks"
  const TfPathBase: string := "TeamFortress2"
  const PathRoot: string := "HalfLife2_2024"
  const PathHL2: string := PathRoot + "/hl2"
  const PathEp2: string := PathRoot + "/ep2"
  const CstrikePathBase: string := "CounterStrikeSource"
  const CsgoPathBase: string := "CounterStrikeGO"
  const DodPathBase: string := "dod"
  const GmPathBase: string := "GarrysMod"

  /** What a descriptor's `createScene` asks of the outside world. */
  datatype ScenePlan = ScenePlan(
    cacheKey: string,              // key of the cached SourceFileSystem
    mounts: Option<seq<string>>,   // VPK mounts, None when another module builds the filesystem
    mapPath: string)               // the BSP file to fetch

  /** A descriptor constructor: the name defaults to the id when omitted. */
  function NewSceneDesc(title: Title, id: string, name: Option<string>): (d: SceneDesc)
    ensures d.title == title && d.id == id
    ensures name.Some? ==> d.name == name.value
  {
    SceneDesc(title, id, name.GetOr(id))
  }

  /** A VPK package path under the package root. */
  function Pak(sub: string): string
  {
    PakfilesPathBase + "/" + sub
  }

  /** The package paths of a list of sub-paths, in the same order. */
  function Paks(subs: seq<string>): seq<string>
  {
    seq(|subs|, i requires 0 <= i < |subs| => Pak(subs[i]))
  }

  /** The cache key of the title's filesystem. */
  function CacheKey(t: Title): string
  {
    match t
    case TeamFortress2 => TfPathBase + "/SourceFileSystem"
    case CGE => PakfilesPathBase + "/SourceFileSystem"
    case HalfLife2Ep2 => PathEp2 + "/SourceFileSystem"
    case HalfLife2 => PathHL2 + "/SourceFileSystem"
    case CounterStrikeSource => CstrikePathBase + "/SourceFileSystem"
    case CounterStrikeGO => CsgoPathBase + "/SourceFileSystem"
    case DayOfDefeat => DodPathBase + "/SourceFileSystem"
    case GarrysMod => GmPathBase + "/SourceFileSystem"
  }

  /** The VPK packages the title mounts, in the order the source lists them. */
  function MountList(t: Title): Option<seq<string>>
  {
    match t
    case TeamFortress2 => Some(Paks([
      "tf2/tf2_textures",
      "tf2/tf2_misc",
      "tf2/tf2_sound_misc",
      "tf2/tf2_sound_vo_english",
      "hl2/hl2_textures",
      "hl2/hl2_misc",
      "hl2/hl2_sound_misc",
      "hl2/hl2_sound_vo_english"]))
    case CGE => Some(Paks([
      "tf2/tf2_textures",
      "tf2/tf2_misc",
      "tf2/tf2_sound_misc",
      "tf2/tf2_sound_vo_english",
      "hl2/hl2_textures",
      "hl2/hl2_misc",
      "hl2/hl2_sound_misc",
      "hl2/hl2_sound_vo_english"]))
    case HalfLife2Ep2 => Some(Paks([
      "ep2/ep2_pak",
      "hl2/hl2_textures",
      "hl2/hl2_misc",
      "hl2/hl2_sound_misc",
      "hl2/hl2_sound_vo_english"]))
    case HalfLife2 => Some(Paks([
      "hl2/hl2_textures",
      "hl2/hl2_misc",
      "hl2/hl2_sound_misc",
      "hl2/hl2_sound_vo_english"]))
    case CounterStrikeSource => Some(Paks([
      "cstrike/cstrike_pak",
      "hl2/hl2_textures",
      "hl2/hl2_misc",
      "hl2/hl2_sound_misc",
      "hl2/hl2_sound_vo_english"]))
    case CounterStrikeGO => Some(Paks([
      "hl2/hl2_textures",
      "hl2/hl2_misc",
      "csgo/pak01"]))
    case DayOfDefeat => Some(Paks([
      "hl2/hl2_textures",
      "hl2/hl2_misc",
      "hl2/hl2_sound_misc",
      "hl2/hl2_sound_vo_english",
      "dod/dod_pak"]))
    // Garry's Mod takes its filesystem from the kitchen-sink builder of the file-drop module.
    case GarrysMod => None
  }

  /** The path of the map's BSP file. */
  function MapPath(t: Title, id: string): string
  {
    match t
    case TeamFortress2 => "maps/tf/maps/" + id + ".bsp"
    case CGE => "maps/" + id + "/" + id + ".bsp"
    case HalfLife2Ep2 => "maps/ep2/maps/" + id + ".bsp"
    case HalfLife2 => "maps/hl2/maps/" + id + ".bsp"
    case CounterStrikeSource => "maps/cstrike/maps/" + id + ".bsp"
    case CounterStrikeGO => "maps/csgo/maps/" + id + ".bsp"
    case DayOfDefeat => "maps/dod/maps/" + id + ".bsp"
    case GarrysMod => GmPathBase + "/maps/" + id + ".bsp"
  }

  /** What `createScene` of descriptor `d` requests. */
  function PlanOf(d: SceneDesc): (p: ScenePlan)
    ensures p.mounts.None? <==> d.title == GarrysMod
  {
    ScenePlan(CacheKey(d.title), MountList(d.title), MapPath(d.title, d.id))
  }

  /** The four Half-Life 2 base packages. */
  const HL2BaseSubs: seq<string> :=
    ["hl2/hl2_textures", "hl2/hl2_misc", "hl2/hl2_sound_misc", "hl2/hl2_sound_vo_english"]
  const HL2BasePaks: seq<string> := Paks(HL2BaseSubs)

  predicate NoDuplicates(s: seq<string>)
  {
    forall i, j :: 0 <= i < j < |s| ==> s[i] != s[j]
  }

  predicate StartsWith(s: string, prefix: string)
  {
    prefix <= s
  }

  predicate EndsWith(s: string, suffix: string)
  {
    |suffix| <= |s| && s[|s| - |suffix|..] == suffix
  }

  /** Equal strings built from one template with a single hole have equal holes. */
  lemma {:induction false} TemplateInjective(p: string, a: string, b: string, s: string)
    requires p + a + s == p + b + s
    ensures a == b
  {
    var x := p + a + s;
    assert |a| == |b|;
    assert a == x[|p|..|p| + |a|];
    assert b == (p + b + s)[|p|..|p| + |b|];
  }

  lemma PakInjective(a: string, b: string)
    requires Pak(a) == Pak(b)
    ensures a == b
  {
    TemplateInjective(PakfilesPathBase + "/", a, b, "");
  }

  // ---------------------------------------------------------------------
  // Properties of the configuration
  // ---------------------------------------------------------------------

  /** No two titles share a cached filesystem. */
  lemma CacheKeysDistinct(t1: Title, t2: Title)
    ensures CacheKey(t1) == CacheKey(t2) <==> t1 == t2
  {
    if t1 != t2 {
      var k1, k2 := CacheKey(t1), CacheKey(t2);
      if |k1| == |k2| {
        assert {t1, t2} == {HalfLife2Ep2, HalfLife2};
        assert k1[15] != k2[15];
      }
    }
  }

  lemma PaksConcat(a: seq<string>, b: seq<string>)
    ensures Paks(a + b) == Paks(a) + Paks(b)
  {
  }

  /** Package paths of distinct sub-paths are distinct and all lie under `paks/`. */
  lemma {:induction false} PaksWellFormed(subs: seq<string>)
    requires NoDuplicates(subs)
    ensures forall p :: p in Paks(subs) ==> StartsWith(p, "paks/")
    ensures NoDuplicates(Paks(subs))
  {
    var r := Paks(subs);
    forall i, j | 0 <= i < j < |r| ensures r[i] != r[j] {
      if r[i] == r[j] {
        PakInjective(subs[i], subs[j]);
      }
    }
  }

  /** TF2 and CGE mount the same eight packages in the same order under different keys. */
  lemma TF2AndCGEShareMountList()
    ensures MountList(TeamFortress2) == MountList(CGE)
    ensures |MountList(TeamFortress2).value| == 8
    ensures forall p :: p in MountList(TeamFortress2).value[..4] ==> StartsWith(p, "paks/tf2/")
    ensures MountList(TeamFortress2).value[4..] == HL2BasePaks
    ensures CacheKey(TeamFortress2) != CacheKey(CGE)
  {
    var tf := ["tf2/tf2_textures", "tf2/tf2_misc", "tf2/tf2_sound_misc", "tf2/tf2_sound_vo_english"];
    assert tf + HL2BaseSubs == [
      "tf2/tf2_textures", "tf2/tf2_misc", "tf2/tf2_sound_misc", "tf2/tf2_sound_vo_english",
      "hl2/hl2_textures", "hl2/hl2_misc", "hl2/hl2_sound_misc", "hl2/hl2_sound_vo_english"];
    PaksConcat(tf, HL2BaseSubs);
    var m := MountList(TeamFortress2).value;
    assert m[..4] == Paks(tf);
    forall p | p in m[..4] ensures StartsWith(p, "paks/tf2/") {
      var i :| 0 <= i < 4 && p == Paks(tf)[i];
      assert p == "paks/" + tf[i];
    }
  }

  /** The mount lists of the HL2-derived titles are built around the four HL2 base packages. */
  lemma MountListsFromHL2Base()
    ensures MountList(HalfLife2) == Some(HL2BasePaks)
    ensures MountList(HalfLife2Ep2) == Some([Pak("ep2/ep2_pak")] + HL2BasePaks)
    ensures MountList(CounterStrikeSource) == Some([Pak("cstrike/cstrike_pak")] + HL2BasePaks)
    ensures MountList(DayOfDefeat) == Some(HL2BasePaks + [Pak("dod/dod_pak")])
    ensures MountList(CounterStrikeGO) == Some(HL2BasePaks[..2] + [Pak("csgo/pak01")])
  {
    var b := HL2BaseSubs;
    assert ["ep2/ep2_pak"] + b == ["ep2/ep2_pak", b[0], b[1], b[2], b[3]];
    PaksConcat(["ep2/ep2_pak"], b);
    assert Paks(["ep2/ep2_pak"]) == [Pak("ep2/ep2_pak")];
    assert ["cstrike/cstrike_pak"] + b == ["cstrike/cstrike_pak", b[0], b[1], b[2], b[3]];
    PaksConcat(["cstrike/cstrike_pak"], b);
    assert Paks(["cstrike/cstrike_pak"]) == [Pak("cstrike/cstrike_pak")];
    assert b + ["dod/dod_pak"] == [b[0], b[1], b[2], b[3], "dod/dod_pak"];
    PaksConcat(b, ["dod/dod_pak"]);
    assert Paks(["dod/dod_pak"]) == [Pak("dod/dod_pak")];
    assert b[..2] + ["csgo/pak01"] == [b[0], b[1], "csgo/pak01"];
    PaksConcat(b[..2], ["csgo/pak01"]);
    assert Paks(["csgo/pak01"]) == [Pak("csgo/pak01")];
    assert Paks(b)[..2] == Paks(b[..2]);
  }

  /** Every mount path lies under `paks/` and no list mounts a package twice. */
  lemma MountPathsWellFormed(t: Title)
    ensures MountList(t).Some? ==>
      (forall p :: p in MountList(t).value ==> StartsWith(p, "paks/")) &&
      NoDuplicates(MountList(t).value)
  {
    match t
    case TeamFortress2 =>
      PaksWellFormed([
        "tf2/tf2_textures", "tf2/tf2_misc", "tf2/tf2_sound_misc", "tf2/tf2_sound_vo_english",
        "hl2/hl2_textures", "hl2/hl2_misc", "hl2/hl2_sound_misc", "hl2/hl2_sound_vo_english"]);
    case CGE =>
      PaksWellFormed([
        "tf2/tf2_textures", "tf2/tf2_misc", "tf2/tf2_sound_misc", "tf2/tf2_sound_vo_english",
        "hl2/hl2_textures", "hl2/hl2_misc", "hl2/hl2_sound_misc", "hl2/hl2_sound_vo_english"]);
    case HalfLife2Ep2 =>
      PaksWellFormed([
        "ep2/ep2_pak", "hl2/hl2_textures", "hl2/hl2_misc", "hl2/hl2_sound_misc", "hl2/hl2_sound_vo_english"]);
    case HalfLife2 =>
      PaksWellFormed(["hl2/hl2_textures", "hl2/hl2_misc", "hl2/hl2_sound_misc", "hl2/hl2_sound_vo_english"]);
    case CounterStrikeSource =>
      PaksWellFormed([
        "cstrike/cstrike_pak", "hl2/hl2_textures", "hl2/hl2_misc", "hl2/hl2_sound_misc",
        "hl2/hl2_sound_vo_english"]);
    case CounterStrikeGO =>
      PaksWellFormed(["hl2/hl2_textures", "hl2/hl2_misc", "csgo/pak01"]);
    case DayOfDefeat =>
      PaksWellFormed([
        "hl2/hl2_textures", "hl2/hl2_misc", "hl2/hl2_sound_misc", "hl2/hl2_sound_vo_english",
        "dod/dod_pak"]);
    case GarrysMod =>
  }

  /** A map path determines the map id, for every title's template. */
  lemma {:induction false} MapPathInjective(t: Title, a: string, b: string)
    requires MapPath(t, a) == MapPath(t, b)
    ensures a == b
  {
    match t
    case TeamFortress2 => TemplateInjective("maps/tf/maps/", a, b, ".bsp");
    case HalfLife2Ep2 => TemplateInjective("maps/ep2/maps/", a, b, ".bsp");
    case HalfLife2 => TemplateInjective("maps/hl2/maps/", a, b, ".bsp");
    case CounterStrikeSource => TemplateInjective("maps/cstrike/maps/", a, b, ".bsp");
    case CounterStrikeGO => TemplateInjective("maps/csgo/maps/", a, b, ".bsp");
    case DayOfDefeat => TemplateInjective("maps/dod/maps/", a, b, ".bsp");
    case GarrysMod => TemplateInjective(GmPathBase + "/maps/", a, b, ".bsp");
    case CGE =>
      var x := MapPath(t, a);
      assert |x| == 2 * |a| + 10 == 2 * |b| + 10;
      assert a == x[5..5 + |a|];
      assert b == MapPath(t, b)[5..5 + |b|];
  }

  /** Every map path names a `.bsp` file. */
  lemma MapPathIsBsp(t: Title, id: string)
    ensures EndsWith(MapPath(t, id), ".bsp")
  {
  }

  /** A descriptor constructed without a name is named by its id. */
  lemma NameDefaultsToId(t: Title, id: string)
    ensures NewSceneDesc(t, id, None).name == id
  {
  }
}
