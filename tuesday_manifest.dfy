/**
 * The "Tuesday Manifest" scene group: a constant list of Source-engine map
 * descriptors, grouped under section-header strings, that the viewer hands
 * to its scene registry.
 */
module TuesdayManifest {
  import opened Wrappers
  import opened SceneBase
  import opened SourceDescs

  const Id: string := "TuesdayManifest"
  const Name: string := "Tuesday Manifest"

  // The source writes headers and descriptors as one array literal; here the
  // descriptors are listed once and each run of them after a header is named.
  /** The descriptors of the list, in order. */
  const Descs: seq<SceneDesc> := [
    NewSceneDesc(TeamFortress2, "tf_data", Some("data - Landscape")),
    NewSceneDesc(TeamFortress2, "tf_data2", Some("data2 - ELX")),
    NewSceneDesc(TeamFortress2, "tf_data3", Some("data3 - Shattered Buildings - Unfixed Lighting")),
    NewSceneDesc(TeamFortress2, "tf_data3_d", Some("data3 - Shattered Buildings - Fixed Lighting")),
    NewSceneDesc(TeamFortress2, "tf_data4", Some("data4 - Box")),
    NewSceneDesc(TeamFortress2, "tf_data5", Some("data5 - Heavy Torus")),
    NewSceneDesc(TeamFortress2, "tf_data6", Some("data6 - City - Unfixed Lighting")),
    NewSceneDesc(TeamFortress2, "tf_data6_d", Some("data6 - City - Fixed Lighting")),
    NewSceneDesc(TeamFortress2, "tf_data7", Some("data7 - Gravel Grave")),
    NewSceneDesc(HalfLife2, "hl2_data", Some("data - Area Portal")),
    NewSceneDesc(HalfLife2Ep2, "ep2_data", Some("data - Hi Guy")),
    NewSceneDesc(HalfLife2Ep2, "ep2_data2", Some("data2 - Fear Inc.")),
    NewSceneDesc(CounterStrikeGO, "csgo_data", Some("data - Training Course")),
    NewSceneDesc(CounterStrikeGO, "csgo_data2", Some("data2 - Bowl")),
    NewSceneDesc(CounterStrikeGO, "csgo_data3", Some("data3 - Office Head")),
    NewSceneDesc(DayOfDefeat, "dod_data", Some("data - Maze"))]

  const TF2Descs: seq<SceneDesc> := Descs[..9]
  const HL2Descs: seq<SceneDesc> := Descs[9..10]
  const Ep2Descs: seq<SceneDesc> := Descs[10..12]
  const CSGODescs: seq<SceneDesc> := Descs[12..15]
  const DoDDescs: seq<SceneDesc> := Descs[15..]

  /** The group's list, headers and descriptors in source order. */
  const SceneDescs: seq<GroupEntry> :=
    Section(TF2Header, TF2Descs) +
    Section(HL2Header, HL2Descs) +
    Section(Ep2Header, Ep2Descs) +
    Section(CSGOHeader, CSGODescs) +
    Section(DoDHeader, DoDDescs) +
    [Header(SFMHeader)]

  /** The exported group; it declares no scene-id aliases. */
  const Group: SceneGroup := SceneGroup(Id, Name, SceneDescs, None)

  const TF2Header: string := "Team Fortress 2"
  const HL2Header: string := "Half-Life 2"
  const Ep2Header: string := "Half-Life 2: Episode 2"
  const CSGOHeader: string := "Counter Strike: Global Offensive"
  const DoDHeader: string := "Day of Defeat"
  const SFMHeader: string := "Source Filmmaker"

  /** The section headers of the list, in order. */
  const Headers: seq<string> := [TF2Header, HL2Header, Ep2Header, CSGOHeader, DoDHeader, SFMHeader]

  /** Dropping the headers from the list gives exactly `Descs`; dropping the descriptors gives `Headers`. */
  lemma SplitEntries()
    ensures DescsOf(SceneDescs) == Descs
    ensures HeadersOf(SceneDescs) == Headers
  {
    FiveSections(TF2Header, HL2Header, Ep2Header, CSGOHeader, DoDHeader, SFMHeader,
      TF2Descs, HL2Descs, Ep2Descs, CSGODescs, DoDDescs);
    RunsMakeDescs();
  }

  /** Five headed sections and a closing header split into their runs and their headers. */
  lemma FiveSections(h0: string, h1: string, h2: string, h3: string, h4: string, h5: string,
    d0: seq<SceneDesc>, d1: seq<SceneDesc>, d2: seq<SceneDesc>, d3: seq<SceneDesc>, d4: seq<SceneDesc>)
    ensures var l := Section(h0, d0) + Section(h1, d1) + Section(h2, d2) + Section(h3, d3) + Section(h4, d4) + [Header(h5)];
      DescsOf(l) == d0 + d1 + d2 + d3 + d4 && HeadersOf(l) == [h0, h1, h2, h3, h4, h5]
  {
    var s0, s1, s2, s3, s4 := Section(h0, d0), Section(h1, d1), Section(h2, d2), Section(h3, d3), Section(h4, d4);
    SectionSplit(h0, d0);
    SectionSplit(h1, d1);
    SectionSplit(h2, d2);
    SectionSplit(h3, d3);
    SectionSplit(h4, d4);
    DescsOfHeader(h5);
    DescsOfAppend(s0, s1);
    DescsOfAppend(s0 + s1, s2);
    DescsOfAppend(s0 + s1 + s2, s3);
    DescsOfAppend(s0 + s1 + s2 + s3, s4);
    DescsOfAppend(s0 + s1 + s2 + s3 + s4, [Header(h5)]);
  }

  /** The five runs, in order, are the whole descriptor list. */
  lemma RunsMakeDescs()
    ensures TF2Descs + HL2Descs + Ep2Descs + CSGODescs + DoDDescs == Descs
  {
    SliceJoin(Descs, 9, 10);
    SliceJoin(Descs, 10, 12);
    SliceJoin(Descs, 12, 15);
    SliceJoin(Descs, 15, 16);
    assert Descs[..16] == Descs;
  }

  lemma SliceJoin(s: seq<SceneDesc>, a: nat, b: nat)
    requires a <= b <= |s|
    ensures s[..a] + s[a..b] == s[..b]
  {
  }

  /** Identity of the group: its id and name, and no alias map. */
  lemma GroupIdentity()
    ensures Group.id == "TuesdayManifest" && Group.name == "Tuesday Manifest"
    ensures Group.sceneIdMap.None?
    ensures Group.sceneDescs == SceneDescs
  {
  }

  /** 22 entries: 16 descriptors and 6 headers; the last header, "Source Filmmaker", has nothing after it. */
  lemma Contents()
    ensures |SceneDescs| == 22
    ensures |DescsOf(SceneDescs)| == 16 && |HeadersOf(SceneDescs)| == 6
    ensures SceneDescs[|SceneDescs| - 1] == Header("Source Filmmaker")
  {
    SplitEntries();
  }

  /** The descriptor ids as written in the list. */
  const IdList: seq<string> := ["tf_data", "tf_data2", "tf_data3", "tf_data3_d", "tf_data4", "tf_data5",
    "tf_data6", "tf_data6_d", "tf_data7", "hl2_data", "ep2_data", "ep2_data2",
    "csgo_data", "csgo_data2", "csgo_data3", "dod_data"]

  lemma IdListMatches()
    ensures |IdList| == |Descs|
    ensures forall i :: 0 <= i < |Descs| ==> Descs[i].id == IdList[i]
  {
  }

  lemma IdListDistinct()
    ensures NoDuplicates(IdList)
  {
  }

  /** The 16 descriptor ids are pairwise distinct. */
  lemma IdsUnique()
    ensures IdsDistinct(Descs)
  {
    IdListMatches();
    IdListDistinct();
  }

  /** 9 TF2, then 1 HL2, 2 Episode 2, 3 CS:GO and 1 Day of Defeat descriptor. */
  lemma PerTitleCounts()
    ensures |Descs| == 16
    ensures forall i :: 0 <= i < 9 ==> Descs[i].title == TeamFortress2
    ensures Descs[9].title == HalfLife2
    ensures forall i :: 10 <= i < 12 ==> Descs[i].title == HalfLife2Ep2
    ensures forall i :: 12 <= i < 15 ==> Descs[i].title == CounterStrikeGO
    ensures Descs[15].title == DayOfDefeat
  {
  }

  /** Every descriptor is given an explicit name different from its id. */
  lemma AllExplicitlyNamed()
    ensures forall d :: d in Descs ==> d.name != d.id
  {
  }

  /** No descriptor id contains the share-string separator `;`. */
  lemma NoSemicolonInIds()
    ensures forall i :: 0 <= i < |Descs| ==> ';' !in Descs[i].id
    ensures ';' !in Id
  {
    IdListMatches();
    forall i | 0 <= i < |IdList|
      ensures ';' !in IdList[i]
    {
      forall k | 0 <= k < |IdList[i]|
        ensures IdList[i][k] != ';'
      {
        assert 'a' <= IdList[i][k] <= 'z' || '0' <= IdList[i][k] <= '9' || IdList[i][k] == '_';
      }
    }
  }
}
