/**
 * What registering the Tuesday Manifest group yields: 16 distinct canonical
 * ids, none of them overwritten, each a valid share-string id.
 */
module ManifestRegistration {
  import opened Wrappers
  import opened SceneBase
  import opened SceneDatabase
  import opened HashString
  import TuesdayManifest

  /** Descriptors with different ids get different canonical ids in one group. */
  lemma SceneDescIdDistinct(g: SceneGroup, a: SceneDesc, b: SceneDesc)
    requires a.id != b.id
    ensures MakeSceneDescId(g, a) != MakeSceneDescId(g, b)
  {
    var p := g.id + "/";
    assert MakeSceneDescId(g, a)[|p|..] == a.id;
    assert MakeSceneDescId(g, b)[|p|..] == b.id;
  }

  /**
   * Registering a group whose descriptor ids are distinct files every
   * descriptor under its canonical id in both directions and overwrites no
   * entry: there are as many ids as descriptors.
   */
  lemma {:induction false} RegisterDistinct(g: SceneGroup, n: nat)
    requires n <= |g.sceneDescs|
    requires IdsDistinct(DescsOf(g.sceneDescs[..n]))
    ensures var r := AddEntries(EmptyRegistry, g, n);
      var ds := DescsOf(g.sceneDescs[..n]);
      && |r.idToSceneDesc| == |ds|
      && r.idToSceneDesc.Keys == (set d | d in ds :: MakeSceneDescId(g, d))
      && forall d :: d in ds ==>
           && d in r.sceneDescToId && r.sceneDescToId[d] == MakeSceneDescId(g, d)
           && r.idToSceneDesc[MakeSceneDescId(g, d)] == d
  {
    if n > 0 {
      var s := g.sceneDescs;
      assert s[..n][..n - 1] == s[..n - 1];
      var ds := DescsOf(s[..n]);
      var ds' := DescsOf(s[..n - 1]);
      assert ds == ds' + (if s[n - 1].Desc? then [s[n - 1].desc] else []);
      if s[n - 1].Desc? {
        LastIdFresh(g, ds', s[n - 1].desc);
      } else {
        assert ds == ds';
      }
      RegisterDistinct(g, n - 1);
    }
  }

  /** The last of a run of distinct-id descriptors is new, and its canonical id is new. */
  lemma LastIdFresh(g: SceneGroup, front: seq<SceneDesc>, d: SceneDesc)
    requires IdsDistinct(front + [d])
    ensures IdsDistinct(front) && d !in front
    ensures forall d' :: d' in front ==> MakeSceneDescId(g, d') != MakeSceneDescId(g, d)
  {
    var ds := front + [d];
    forall i, j | 0 <= i < j < |front| ensures front[i].id != front[j].id {
      assert front[i] == ds[i] && front[j] == ds[j];
    }
    forall d' | d' in front ensures d' != d && MakeSceneDescId(g, d') != MakeSceneDescId(g, d) {
      var i :| 0 <= i < |front| && front[i] == d';
      assert ds[i] == d' && ds[|ds| - 1] == d;
      SceneDescIdDistinct(g, d', d);
    }
  }

  /**
   * A group without an alias map whose descriptor ids are distinct and free of
   * `;` (as is its own id) registers one `;`-free id per descriptor.
   */
  lemma RegisterGroupWithoutAliases(g: SceneGroup)
    requires g.sceneIdMap.None?
    requires IdsDistinct(DescsOf(g.sceneDescs))
    requires ';' !in g.id
    requires forall i :: 0 <= i < |DescsOf(g.sceneDescs)| ==> ';' !in DescsOf(g.sceneDescs)[i].id
    ensures AddGroups(EmptyRegistry, [Group(g)]).Some?
    ensures var r := AddGroups(EmptyRegistry, [Group(g)]).value;
      var ds := DescsOf(g.sceneDescs);
      && |r.idToSceneDesc| == |ds|
      && (forall d :: d in ds ==>
            && d in r.sceneDescToId
            && r.sceneDescToId[d] == MakeSceneDescId(g, d)
            && SceneDescForId(r, MakeSceneDescId(g, d)) == Some(d))
      && (forall id :: id in r.idToSceneDesc ==> ';' !in id)
  {
    var n := |g.sceneDescs|;
    assert [Group(g)][..0] == [];
    assert g.sceneDescs[..n] == g.sceneDescs;
    RegisterDistinct(g, n);
    assert AddGroups(EmptyRegistry, []) == Some(EmptyRegistry);
    assert AddGroup(EmptyRegistry, g) == Some(AddEntries(EmptyRegistry, g, n));
    var ds := DescsOf(g.sceneDescs);
    var r := AddGroups(EmptyRegistry, [Group(g)]).value;
    forall id | id in r.idToSceneDesc ensures ';' !in id {
      var d :| d in ds && MakeSceneDescId(g, d) == id;
      var i :| 0 <= i < |ds| && ds[i] == d;
      assert ';' !in d.id;
    }
  }

  /** `RegisterGroupWithoutAliases` restated for a group whose id and descriptors are given by name. */
  lemma RegisterNamedGroup(g: SceneGroup, gid: string, ds: seq<SceneDesc>)
    requires g.id == gid && g.sceneIdMap.None? && DescsOf(g.sceneDescs) == ds
    requires IdsDistinct(ds)
    requires ';' !in gid
    requires forall i :: 0 <= i < |ds| ==> ';' !in ds[i].id
    ensures AddGroups(EmptyRegistry, [Group(g)]).Some?
    ensures var r := AddGroups(EmptyRegistry, [Group(g)]).value;
      && |r.idToSceneDesc| == |ds|
      && (forall d :: d in ds ==>
            && d in r.sceneDescToId
            && r.sceneDescToId[d] == gid + "/" + d.id
            && SceneDescForId(r, gid + "/" + d.id) == Some(d))
      && (forall id :: id in r.idToSceneDesc ==> ';' !in id)
  {
    RegisterGroupWithoutAliases(g);
  }

  /** The registry built from a list holding only the Tuesday Manifest group. */
  function TuesdayRegistry(): Option<Registry>
  {
    AddGroups(EmptyRegistry, [Group(TuesdayManifest.Group)])
  }

  /**
   * Registering the group succeeds (it has no alias map, so the alias
   * assertion is never reached) and gives 16 ids of the form
   * `TuesdayManifest/<id>`, each naming its descriptor and none containing `;`.
   */
  lemma TuesdayRegistration()
    ensures TuesdayRegistry().Some?
    ensures var r := TuesdayRegistry().value;
      && |r.idToSceneDesc| == 16
      && (forall d :: d in TuesdayManifest.Descs ==>
            && d in r.sceneDescToId
            && r.sceneDescToId[d] == "TuesdayManifest/" + d.id
            && SceneDescForId(r, "TuesdayManifest/" + d.id) == Some(d))
      && (forall id :: id in r.idToSceneDesc ==> ';' !in id)
  {
    TuesdayManifest.SplitEntries();
    TuesdayManifest.IdsUnique();
    TuesdayManifest.NoSemicolonInIds();
    TuesdayManifest.GroupIdentity();
    TuesdayManifest.PerTitleCounts();
    assert TuesdayManifest.Id + "/" == "TuesdayManifest/";
    RegisterNamedGroup(TuesdayManifest.Group, TuesdayManifest.Id, TuesdayManifest.Descs);
  }

  /** Every share string `id;state` for a Tuesday Manifest descriptor decodes back to its id and state. */
  lemma TuesdayShareStringsRoundTrip(d: SceneDesc, state: string)
    requires d in TuesdayManifest.Descs
    ensures TuesdayRegistry().Some? && d in TuesdayRegistry().value.sceneDescToId
    ensures var id := TuesdayRegistry().value.sceneDescToId[d];
      DecodeHashString(ShareString(id, state)) == (id, state)
  {
    TuesdayRegistration();
    var r := TuesdayRegistry().value;
    assert r.sceneDescToId[d] in r.idToSceneDesc;
    ShareStringRoundTrip(r.sceneDescToId[d], state);
  }
}
